/** Invariants of the transform and rollback machine, for every interleaving. */
module SagaSafety {
  import opened Options
  import opened Saga

  /** The indices called by a pass that began with `n` undos and has `k` left: n-1 down to k. */
  function Down(n: nat, k: nat): (r: seq<nat>)
    requires k <= n
    ensures |r| == n - k && forall i :: 0 <= i < |r| ==> r[i] == n - 1 - i
  {
    seq(n - k, i requires 0 <= i < n - k => n - 1 - i)
  }

  /** How many undos are registered when `step` is about to run. */
  function Registered(step: Step): nat {
    if step <= REGISTER_BUNDLE then 0 else if step <= REGISTER_ROOTFS then 1
    else if step <= REGISTER_SHM then 2 else 3
  }

  /** The step the main thread is at, or failed at, or the last one when it succeeded. */
  function At(s: Run): Step {
    match s.main
    case Idle => PAUSE
    case Work(step) => step
    case _ => if s.failedAt.Some? then s.failedAt.value else LCR_CREATE
  }

  /** `step` has been done successfully. */
  predicate Past(s: Run, step: Step) { At(s) > step }

  // ------------------------------------------------------------ control

  /** The error variables say which step failed, and a rollback is under way only for a stored error. */
  predicate Errors(s: Run) {
    && (s.main.Idle? ==> !s.retErr)
    && (s.main.Work? && s.retErr ==> s.main.step == PREPARE_BUNDLE)
    && (s.failedAt.Some? ==> !IsRegister(s.failedAt.value) && (s.failedAt.value == MARSHAL_OCI <==> !s.retErr))
    && (if s.main.Idle? || s.main.Work? then s.failedAt.None? else s.failedAt.None? ==> !s.retErr)
    && (s.main.Rolling? ==> s.failedAt.Some? && s.retErr)
  }

  predicate Registrations(s: Run) { s.rb.regs == ALL_UNDOS[..Registered(At(s))] }

  /** The one-slot channel is empty until `close`, and holds one value until the watcher takes it into `closed`. */
  predicate Channel(s: Run) {
    && (s.watch.Unborn? <==> s.main.Idle?)
    && (s.rb.chClosed <==> s.main.Returned?)
    && (if s.main.Closing? || s.main.Returned?
        then s.rb.slot == Some(true) || (s.rb.slot.None? && s.watch.Gone? && s.rb.closed)
        else s.rb.slot.None? && !s.rb.closed)
    && (s.rb.closed ==> s.watch.Gone?)
  }

  predicate Control(s: Run) { Errors(s) && Registrations(s) && Channel(s) }

  lemma WorkKeepsErrors(s: Run, step: Step, ok: bool, odd: bool)
    requires Control(s) && s.main == Work(step)
    ensures Errors(WorkStep(s, step, ok, odd))
  {
  }

  lemma WorkKeepsRegistrations(s: Run, step: Step, ok: bool, odd: bool)
    requires Control(s) && s.main == Work(step)
    ensures Registrations(WorkStep(s, step, ok, odd))
  {
  }

  lemma WorkKeepsChannel(s: Run, step: Step, ok: bool, odd: bool)
    requires Control(s) && s.main == Work(step)
    ensures Channel(WorkStep(s, step, ok, odd))
  {
  }

  lemma EndsKeepControl(fine: bool, s: Run, ok: bool, odd: bool)
    requires Control(s) && !s.main.Work? && !s.main.Rolling?
    ensures Control(MainStep(fine, s, ok, odd))
  {
    match s.main
    case Idle => assert MainStep(fine, s, ok, odd) == s.(main := Work(PAUSE), watch := Select);
    case Sending =>
      assert MainStep(fine, s, ok, odd) == s.(rb := s.rb.(slot := Some(true)), main := Closing);
    case Closing => assert MainStep(fine, s, ok, odd) == s.(rb := s.rb.(chClosed := true), main := Returned);
    case Returned =>
  }

  lemma WorkKeepsControl(s: Run, step: Step, ok: bool, odd: bool)
    requires Control(s) && s.main == Work(step)
    ensures Control(WorkStep(s, step, ok, odd))
  {
    WorkKeepsErrors(s, step, ok, odd);
    WorkKeepsRegistrations(s, step, ok, odd);
    WorkKeepsChannel(s, step, ok, odd);
  }

  lemma MainKeepsControl(fine: bool, s: Run, ok: bool, odd: bool)
    requires Control(s)
    ensures Control(MainStep(fine, s, ok, odd))
  {
    if s.main.Work? {
      WorkKeepsControl(s, s.main.step, ok, odd);
    } else if s.main.Rolling? {
      MainRollKeepsControl(fine, s, s.main.pc, ok);
    } else {
      EndsKeepControl(fine, s, ok, odd);
    }
  }

  lemma MainRollKeepsControl(fine: bool, s: Run, pc: RunPc, ok: bool)
    requires Control(s) && s.main == Rolling(pc)
    ensures Control(MainRoll(fine, s, pc, ok))
  {
  }

  lemma WatchRollKeepsControl(fine: bool, s: Run, pc: RunPc, ok: bool)
    requires Control(s) && s.watch == Watching(pc)
    ensures Control(WatchRoll(fine, s, pc, ok))
  {
  }

  lemma WatchKeepsControl(fine: bool, sig: bool, s: Run, onSignal: bool, ok: bool)
    requires Control(s)
    ensures Control(WatchStep(fine, sig, s, onSignal, ok))
  {
    if s.watch.Watching? { WatchRollKeepsControl(fine, s, s.watch.pc, ok); }
  }

  // ------------------------------------------------------------ passes

  /** A thread inside `run`. */
  ghost predicate InRun(pass: Pass, pc: RunPc, registered: nat) {
    match pc
    case Call(k) => pass.mark.Some? && k <= pass.mark.value <= registered && pass.calls == Down(pass.mark.value, k)
    case _ => pass == NO_PASS
  }

  /** A thread that has left `run`: it called nothing, or everything there was when it began. */
  ghost predicate AfterRun(pass: Pass, registered: nat) {
    || pass == NO_PASS
    || (pass.mark.Some? && pass.mark.value <= registered && pass.calls == Down(pass.mark.value, 0))
  }

  ghost predicate MainPassOk(main: MainPc, pass: Pass, registered: nat) {
    && (match main
        case Rolling(pc) => InRun(pass, pc, registered)
        case Idle => pass == NO_PASS
        case Work(_) => pass == NO_PASS
        case _ => AfterRun(pass, registered))
    && (pass.mark.Some? ==> pass.mark.value == registered)
  }

  ghost predicate WatchPassOk(watch: WatchPc, pass: Pass, registered: nat) {
    match watch
    case Watching(pc) => InRun(pass, pc, registered)
    case Gone => AfterRun(pass, registered)
    case _ => pass == NO_PASS
  }

  ghost predicate Passes(s: Run) {
    MainPassOk(s.main, s.mainPass, |s.rb.regs|) && WatchPassOk(s.watch, s.watchPass, |s.rb.regs|)
  }

  lemma RecordOk(fine: bool, s: Run, pc: RunPc, pass: Pass)
    requires InRun(pass, pc, |s.rb.regs|)
    ensures var next, pass' := NextPc(fine, s, pc), Record(fine, s, pc, pass);
      && (next.Some? ==> InRun(pass', next.value, |s.rb.regs|))
      && (next.None? ==> AfterRun(pass', |s.rb.regs|))
      && (pass.mark.Some? ==> pass'.mark == pass.mark)
      && (pass.mark.None? && pass'.mark.Some? ==> pass'.mark.value == |s.rb.regs|)
  {
    if pc.Call? && pc.left > 0 {
      var n, k := pass.mark.value, pc.left;
      assert Down(n, k) + [k - 1] == Down(n, k - 1);
    }
    if pc.Load? || pc.Measure? { assert Down(|s.rb.regs|, |s.rb.regs|) == []; }
  }

  lemma MoreRegistered(watch: WatchPc, pass: Pass, n: nat, n': nat)
    requires n <= n' && WatchPassOk(watch, pass, n)
    ensures WatchPassOk(watch, pass, n')
  {
  }

  /** What a step of `transform` proper leaves alone, and what it can lead to. */
  lemma WorkFrame(s: Run, step: Step, ok: bool, odd: bool)
    ensures var s' := WorkStep(s, step, ok, odd);
      && s'.mainPass == s.mainPass && s'.watchPass == s.watchPass && s'.watch == s.watch
      && s'.rb.executed == s.rb.executed && s'.undoFailed == s.undoFailed
      && s'.rb.regs == (if IsRegister(step) then s.rb.regs + [UndoOf(step)] else s.rb.regs)
      && (s'.main.Work? || s'.main == Rolling(Load) || s'.main == Sending)
  {
  }

  lemma WorkKeepsPasses(s: Run, step: Step, ok: bool, odd: bool)
    requires Control(s) && Passes(s) && s.main == Work(step)
    ensures Passes(WorkStep(s, step, ok, odd))
  {
    WorkFrame(s, step, ok, odd);
    MoreRegistered(s.watch, s.watchPass, |s.rb.regs|, |WorkStep(s, step, ok, odd).rb.regs|);
  }

  lemma MainRollKeepsPasses(fine: bool, s: Run, pc: RunPc, ok: bool)
    requires Control(s) && Passes(s) && s.main == Rolling(pc)
    ensures Passes(MainRoll(fine, s, pc, ok))
  {
    RecordOk(fine, s, pc, s.mainPass);
  }

  lemma MainKeepsPasses(fine: bool, s: Run, ok: bool, odd: bool)
    requires Control(s) && Passes(s)
    ensures Passes(MainStep(fine, s, ok, odd))
  {
    match s.main
    case Work(step) => WorkKeepsPasses(s, step, ok, odd);
    case Rolling(pc) => MainRollKeepsPasses(fine, s, pc, ok);
    case _ =>
  }

  lemma WatchRollKeepsPasses(fine: bool, s: Run, pc: RunPc, ok: bool)
    requires Control(s) && Passes(s) && s.watch == Watching(pc)
    ensures Passes(WatchRoll(fine, s, pc, ok))
  {
    RecordOk(fine, s, pc, s.watchPass);
  }

  lemma WatchKeepsPasses(fine: bool, sig: bool, s: Run, onSignal: bool, ok: bool)
    requires Control(s) && Passes(s)
    ensures Passes(WatchStep(fine, sig, s, onSignal, ok))
  {
    match s.watch
    case Select => SelectKeepsPasses(sig, s, onSignal);
    case Watching(pc) => WatchRollKeepsPasses(fine, s, pc, ok);
    case _ =>
  }

  lemma SelectFrame(sig: bool, s: Run, onSignal: bool)
    requires s.watch == Select
    ensures var s' := WatchSelect(sig, s, onSignal);
      && s'.main == s.main && s'.mainPass == s.mainPass && s'.watchPass == s.watchPass
      && s'.rb.regs == s.rb.regs && s'.rb.executed == s.rb.executed
      && s'.world == s.world && s'.failedAt == s.failedAt
      && (s'.watch == Select || s'.watch == Watching(Load) || s'.watch == Gone)
  {
  }

  lemma SelectKeepsPasses(sig: bool, s: Run, onSignal: bool)
    requires Passes(s) && s.watch == Select
    ensures Passes(WatchSelect(sig, s, onSignal))
  {
    SelectFrame(sig, s, onSignal);
    assert s.watchPass == NO_PASS;
  }

  /** With check and set in one step, at most one thread gets through. */
  ghost predicate Exclusive(s: Run) {
    && (s.rb.executed <==> s.mainPass.mark.Some? || s.watchPass.mark.Some?)
    && !(s.mainPass.mark.Some? && s.watchPass.mark.Some?)
    && (s.main.Rolling? ==> s.main.pc.Load? || s.main.pc.Call?)
    && (s.watch.Watching? ==> s.watch.pc.Load? || s.watch.pc.Call?)
  }

  lemma WorkKeepsExclusive(s: Run, step: Step, ok: bool, odd: bool)
    requires Exclusive(s) && s.main == Work(step)
    ensures Exclusive(WorkStep(s, step, ok, odd))
  {
    WorkFrame(s, step, ok, odd);
  }

  lemma MainRollKeepsExclusive(s: Run, pc: RunPc, ok: bool)
    requires Passes(s) && Exclusive(s) && s.main == Rolling(pc)
    ensures Exclusive(MainRoll(false, s, pc, ok))
  {
  }

  lemma MainKeepsExclusive(s: Run, ok: bool, odd: bool)
    requires Control(s) && Passes(s) && Exclusive(s)
    ensures Exclusive(MainStep(false, s, ok, odd))
  {
    match s.main
    case Work(step) => WorkKeepsExclusive(s, step, ok, odd);
    case Rolling(pc) => MainRollKeepsExclusive(s, pc, ok);
    case _ =>
  }

  lemma WatchRollKeepsExclusive(s: Run, pc: RunPc, ok: bool)
    requires Passes(s) && Exclusive(s) && s.watch == Watching(pc)
    ensures Exclusive(WatchRoll(false, s, pc, ok))
  {
  }

  lemma WatchKeepsExclusive(sig: bool, s: Run, onSignal: bool, ok: bool)
    requires Control(s) && Passes(s) && Exclusive(s)
    ensures Exclusive(WatchStep(false, sig, s, onSignal, ok))
  {
    match s.watch
    case Select => SelectKeepsExclusive(sig, s, onSignal);
    case Watching(pc) => WatchRollKeepsExclusive(s, pc, ok);
    case _ =>
  }

  lemma SelectKeepsExclusive(sig: bool, s: Run, onSignal: bool)
    requires Exclusive(s) && s.watch == Select
    ensures Exclusive(WatchSelect(sig, s, onSignal))
  {
    SelectFrame(sig, s, onSignal);
  }

  // ------------------------------------------------------------ resources

  /** A bundle directory that is absent holds nothing, and no rootfs is registered without it. */
  predicate Consistent(w: World) { !w.bundle ==> !w.rootfs && !w.shm }

  predicate Called(s: Run, i: nat) { i in s.mainPass.calls || i in s.watchPass.calls }

  /** A bundle directory that was there before is left alone, and so is everything else. */
  ghost predicate Foreign(w0: World, s: Run) {
    && s.world.bundle && s.world.rootfs == w0.rootfs && s.world.shm == w0.shm
    && !Past(s, PREPARE_BUNDLE)
  }

  /** While undos succeed, a resource is held iff it was acquired and its undo not yet called. */
  ghost predicate Held(s: Run) {
    && (s.gotRootfs <==> Past(s, GENERATE_ROOTFS)) && (s.gotShm <==> Past(s, PREPARE_SHM))
    && (!Past(s, PREPARE_BUNDLE) ==> !s.world.bundle)
    && (!s.undoFailed ==>
      && (s.world.rootfs <==> s.gotRootfs && !Called(s, 1))
      && (s.world.shm <==> s.gotShm && !Called(s, 2))
      && (s.world.shm ==> s.world.bundle))
  }

  /** While undos succeed, a pass that began with every acquired resource registered removes the directory. */
  ghost predicate Removed(s: Run) {
    !s.undoFailed ==>
      && (0 in s.mainPass.calls ==> !s.world.bundle)
      && (0 in s.watchPass.calls && s.watchPass.mark == Some(3) ==> !s.world.bundle)
  }

  ghost predicate Resources(w0: World, s: Run) {
    if w0.bundle then Foreign(w0, s) else Held(s) && Removed(s)
  }

  lemma WorkKeepsForeign(w0: World, s: Run, step: Step, ok: bool, odd: bool)
    requires Control(s) && Foreign(w0, s) && s.main == Work(step)
    ensures Foreign(w0, WorkStep(s, step, ok, odd))
  {
  }

  lemma WorkKeepsHeld(s: Run, step: Step, ok: bool, odd: bool)
    requires Control(s) && Passes(s) && Held(s) && s.main == Work(step)
    ensures Held(WorkStep(s, step, ok, odd))
  {
    WorkFrame(s, step, ok, odd);
  }

  lemma WorkKeepsRemoved(s: Run, step: Step, ok: bool, odd: bool)
    requires Control(s) && Passes(s) && Removed(s) && s.main == Work(step)
    ensures Removed(WorkStep(s, step, ok, odd))
  {
    WorkFrame(s, step, ok, odd);
  }

  lemma RollKeepsHeld(fine: bool, s: Run, pc: RunPc, ok: bool)
    requires Control(s) && Passes(s) && Held(s) && s.main == Rolling(pc)
    ensures Held(MainRoll(fine, s, pc, ok))
  {
  }

  lemma RollKeepsRemoved(fine: bool, s: Run, pc: RunPc, ok: bool)
    requires Control(s) && Passes(s) && Held(s) && Removed(s) && s.main == Rolling(pc)
    ensures Removed(MainRoll(fine, s, pc, ok))
  {
    MountGoneFirst(s);
  }

  /** When the main pass is about to remove the directory, nothing is mounted in it. */
  lemma MountGoneFirst(s: Run)
    requires Control(s) && Passes(s) && Held(s)
    ensures s.main == Rolling(Call(1)) && !s.undoFailed ==> !s.world.shm
  {
    if s.main == Rolling(Call(1)) && |s.rb.regs| == 3 { assert Down(3, 1)[0] == 2; }
  }

  lemma RollKeepsResources(fine: bool, w0: World, s: Run, pc: RunPc, ok: bool)
    requires Control(s) && Passes(s) && Resources(w0, s) && s.main == Rolling(pc)
    ensures Resources(w0, MainRoll(fine, s, pc, ok))
  {
    if !w0.bundle {
      RollKeepsHeld(fine, s, pc, ok);
      RollKeepsRemoved(fine, s, pc, ok);
    }
  }

  lemma WorkKeepsResources(w0: World, s: Run, step: Step, ok: bool, odd: bool)
    requires Control(s) && Passes(s) && Resources(w0, s) && s.main == Work(step)
    ensures Resources(w0, WorkStep(s, step, ok, odd))
  {
    if w0.bundle {
      WorkKeepsForeign(w0, s, step, ok, odd);
    } else {
      WorkKeepsHeld(s, step, ok, odd);
      WorkKeepsRemoved(s, step, ok, odd);
    }
  }

  /** What the resource invariants speak of. */
  predicate SameFacts(s: Run, s': Run) {
    && At(s') == At(s) && s'.world == s.world && s'.mainPass == s.mainPass && s'.watchPass == s.watchPass
    && s'.gotRootfs == s.gotRootfs && s'.gotShm == s.gotShm && s'.undoFailed == s.undoFailed
  }

  /** Starting and closing change none of it. */
  lemma EndsFrame(fine: bool, s: Run, ok: bool, odd: bool)
    requires !s.main.Work? && !s.main.Rolling?
    ensures SameFacts(s, MainStep(fine, s, ok, odd))
  {
  }

  lemma SameFactsKeep(w0: World, s: Run, s': Run)
    requires Resources(w0, s) && SameFacts(s, s')
    ensures Resources(w0, s')
  {
  }

  lemma MainKeepsResources(fine: bool, w0: World, s: Run, ok: bool, odd: bool)
    requires Control(s) && Passes(s) && Resources(w0, s)
    ensures Resources(w0, MainStep(fine, s, ok, odd))
  {
    if s.main.Work? {
      WorkKeepsResources(w0, s, s.main.step, ok, odd);
    } else if s.main.Rolling? {
      RollKeepsResources(fine, w0, s, s.main.pc, ok);
    } else {
      EndsFrame(fine, s, ok, odd);
      SameFactsKeep(w0, s, MainStep(fine, s, ok, odd));
    }
  }

  lemma WatchRollKeepsHeld(fine: bool, s: Run, pc: RunPc, ok: bool)
    requires Control(s) && Passes(s) && Held(s) && s.watch == Watching(pc)
    ensures Held(WatchRoll(fine, s, pc, ok))
  {
  }

  lemma WatchRollKeepsRemoved(fine: bool, s: Run, pc: RunPc, ok: bool)
    requires Control(s) && Passes(s) && Held(s) && Removed(s) && s.watch == Watching(pc)
    ensures Removed(WatchRoll(fine, s, pc, ok))
  {
    if pc == Call(1) && s.watchPass.mark == Some(3) { assert Down(3, 1)[0] == 2; }
  }

  lemma WatchRollKeepsResources(fine: bool, w0: World, s: Run, pc: RunPc, ok: bool)
    requires Control(s) && Passes(s) && Resources(w0, s) && s.watch == Watching(pc)
    ensures Resources(w0, WatchRoll(fine, s, pc, ok))
  {
    if !w0.bundle {
      WatchRollKeepsHeld(fine, s, pc, ok);
      WatchRollKeepsRemoved(fine, s, pc, ok);
    }
  }

  lemma WatchKeepsResources(fine: bool, w0: World, sig: bool, s: Run, onSignal: bool, ok: bool)
    requires Control(s) && Passes(s) && Resources(w0, s)
    ensures Resources(w0, WatchStep(fine, sig, s, onSignal, ok))
  {
    if s.watch.Watching? { WatchRollKeepsResources(fine, w0, s, s.watch.pc, ok); }
  }

  /** What a step of the main thread can do to the undo list and to the passes. */
  lemma MainFrame(fine: bool, s: Run, ok: bool, odd: bool)
    ensures var s' := MainStep(fine, s, ok, odd);
      && s.rb.regs <= s'.rb.regs && s'.watchPass == s.watchPass
      && s'.mainPass == if s.main.Rolling? then Record(fine, s, s.main.pc, s.mainPass) else s.mainPass
  {
    match s.main
    case Work(step) => WorkFrame(s, step, ok, odd);
    case Rolling(pc) => assert RunStep(fine, s, pc, ok).rb.regs == s.rb.regs;
    case _ =>
  }

  /** What a step of the watcher can do to them. */
  lemma WatchFrame(fine: bool, sig: bool, s: Run, onSignal: bool, ok: bool)
    ensures var s' := WatchStep(fine, sig, s, onSignal, ok);
      && s'.rb.regs == s.rb.regs && s'.mainPass == s.mainPass
      && s'.watchPass == if s.watch.Watching? then Record(fine, s, s.watch.pc, s.watchPass) else s.watchPass
  {
    match s.watch
    case Select => SelectFrame(sig, s, onSignal);
    case Watching(pc) => WatchRollFrame(fine, s, pc, ok);
    case _ =>
  }

  lemma WatchRollFrame(fine: bool, s: Run, pc: RunPc, ok: bool)
    ensures var s' := WatchRoll(fine, s, pc, ok);
      s'.rb.regs == s.rb.regs && s'.mainPass == s.mainPass && s'.watchPass == Record(fine, s, pc, s.watchPass)
  {
  }

  // ------------------------------------------------------------ all interleavings

  ghost predicate Inv(fine: bool, w0: World, s: Run) {
    Control(s) && Passes(s) && (!fine ==> Exclusive(s)) && (Consistent(w0) ==> Resources(w0, s))
  }

  lemma StartInv(fine: bool, w0: World)
    ensures Inv(fine, w0, Start(w0))
  {
  }

  lemma InvKept(fine: bool, w0: World, sig: bool, s: Run, a: Act)
    requires Inv(fine, w0, s)
    ensures Inv(fine, w0, Apply(fine, sig, s, a))
  {
    match a
    case Main(ok, odd) =>
      MainKeepsControl(fine, s, ok, odd);
      MainKeepsPasses(fine, s, ok, odd);
      if !fine { MainKeepsExclusive(s, ok, odd); }
      if Consistent(w0) { MainKeepsResources(fine, w0, s, ok, odd); }
    case Watch(onSignal, ok) =>
      WatchKeepsControl(fine, sig, s, onSignal, ok);
      WatchKeepsPasses(fine, sig, s, onSignal, ok);
      if !fine { WatchKeepsExclusive(sig, s, onSignal, ok); }
      if Consistent(w0) { WatchKeepsResources(fine, w0, sig, s, onSignal, ok); }
  }

  lemma {:induction false} ExecInv(fine: bool, w0: World, es: seq<Event>)
    ensures Inv(fine, w0, Exec(fine, w0, es))
  {
    if es == [] {
      StartInv(fine, w0);
    } else {
      var n := |es| - 1;
      ExecInv(fine, w0, es[..n]);
      InvKept(fine, w0, es[n].sig, Exec(fine, w0, es[..n]), es[n].act);
    }
  }
}
