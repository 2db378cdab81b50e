/** What the transform and rollback machine promises over whole interleavings. */
module SagaTheorems {
  import opened Lists
  import opened Options
  import opened Saga
  import opened SagaSafety

  // ------------------------------------------------------------ which undos run

  /** The indices of the undos called so far, whoever called them. */
  function Calls(s: Run): seq<nat> { s.mainPass.calls + s.watchPass.calls }

  /** The number of undos registered when the rollback began. */
  function Mark(s: Run): Option<nat> {
    if s.mainPass.mark.Some? then s.mainPass.mark else s.watchPass.mark
  }

  lemma MarkSteps(sig: bool, s: Run, a: Act)
    requires Control(s) && Passes(s) && Exclusive(s)
    ensures var s' := Apply(false, sig, s, a);
      && s.rb.regs <= s'.rb.regs
      && (s.rb.executed ==> Mark(s') == Mark(s))
      && (!s.rb.executed && Mark(s').Some? ==> Mark(s') == Some(|s.rb.regs|))
  {
    match a
    case Main(ok, odd) => MainFrame(false, s, ok, odd);
    case Watch(onSignal, ok) => WatchFrame(false, sig, s, onSignal, ok);
  }

  /** Event `k` is the one that began a rollback. */
  ghost predicate BeganAt(w0: World, es: seq<Event>, k: nat) {
    k < |es| && !Exec(false, w0, es[..k]).rb.executed && Exec(false, w0, es[..k + 1]).rb.executed
  }

  lemma BeganLater(w0: World, es: seq<Event>, n: nat, k: nat)
    requires n <= |es| && BeganAt(w0, es[..n], k)
    ensures BeganAt(w0, es, k) && es[..n][..k] == es[..k]
  {
    assert es[..n][..k] == es[..k] && es[..n][..k + 1] == es[..k + 1];
  }

  lemma {:induction false} RollbackBegan(w0: World, es: seq<Event>) returns (k: nat)
    requires Exec(false, w0, es).rb.executed
    ensures BeganAt(w0, es, k)
    ensures Exec(false, w0, es[..k]).rb.regs <= Exec(false, w0, es).rb.regs
    ensures Mark(Exec(false, w0, es)) == Some(|Exec(false, w0, es[..k]).rb.regs|)
  {
    var n := |es| - 1;
    var before := Exec(false, w0, es[..n]);
    ExecInv(false, w0, es[..n]);
    assert Exec(false, w0, es) == Apply(false, es[n].sig, before, es[n].act);
    MarkSteps(es[n].sig, before, es[n].act);
    if before.rb.executed {
      k := RollbackBegan(w0, es[..n]);
      BeganLater(w0, es, n, k);
    } else {
      k := n;
      assert es[..k + 1] == es;
      ExecInv(false, w0, es);
    }
  }

  /** Nothing has been called yet, or some event began the rollback that is being carried out. */
  ghost predicate TraceSafe(w0: World, es: seq<Event>) {
    var s := Exec(false, w0, es);
    if !s.rb.executed then Calls(s) == [] else exists k :: RollbackAt(w0, es, k)
  }

  /** With check and set in one step: the undos called are always the first ones of the reverse of
      what was registered when the rollback began, each once, whatever is registered meanwhile. */
  lemma RollbackTraceSafe(w0: World, es: seq<Event>)
    ensures TraceSafe(w0, es)
  {
    var s := Exec(false, w0, es);
    ExecInv(false, w0, es);
    if s.rb.executed {
      var k := RollbackBegan(w0, es);
      CallsRunDown(s);
      assert RollbackAt(w0, es, k);
    }
  }

  /** Event `k` started a rollback, and the undos called since run down from the last of those
      registered at that time, which are still what the list starts with. */
  ghost predicate RollbackAt(w0: World, es: seq<Event>, k: nat) {
    && BeganAt(w0, es, k)
    && var began, s := Exec(false, w0, es[..k]).rb.regs, Exec(false, w0, es);
       began <= s.rb.regs && RunsDown(Calls(s), |began|)
  }

  ghost predicate RunsDown(calls: seq<nat>, n: nat) {
    |calls| <= n && forall i :: 0 <= i < |calls| ==> calls[i] == n - 1 - i
  }

  lemma CallsRunDown(s: Run)
    requires Passes(s) && Exclusive(s) && Mark(s).Some?
    ensures RunsDown(Calls(s), Mark(s).value)
  {
    assert s.mainPass.calls == [] || s.watchPass.calls == [];
    assert Calls(s) == if s.mainPass.mark.Some? then s.mainPass.calls else s.watchPass.calls;
  }

  lemma PassesDistinct(s: Run)
    requires Passes(s)
    ensures Distinct(s.mainPass.calls) && Distinct(s.watchPass.calls)
  {
  }

  /** Even with the load and the store of `run` apart, no undo runs more than twice. */
  lemma AtMostTwice(w0: World, es: seq<Event>, i: nat)
    ensures multiset(Calls(Exec(true, w0, es)))[i] <= 2
  {
    var s := Exec(true, w0, es);
    ExecInv(true, w0, es);
    PassesDistinct(s);
    CountDistinct(s.mainPass.calls, i);
    CountDistinct(s.watchPass.calls, i);
  }

  /** `closed` is never set while a thread is inside `run`: the flag never decides anything there. */
  lemma ClosedNeverDecides(fine: bool, w0: World, es: seq<Event>)
    ensures var s := Exec(fine, w0, es); s.main.Rolling? || s.watch.Watching? ==> !s.rb.closed
  {
    ExecInv(fine, w0, es);
  }

  // ------------------------------------------------------------ what is left behind

  predicate Released(u: Undo, w: World) {
    match u
    case CleanBundle => !w.bundle
    case CleanRootfs => !w.rootfs
    case UnmountShm => !w.shm
  }

  predicate PassedRun(s: Run) { s.main.Sending? || s.main.Closing? || s.main.Returned? }

  lemma DownHasAll(n: nat, i: nat)
    requires i < n
    ensures i in Down(n, 0)
  {
    assert Down(n, 0)[n - 1 - i] == i;
  }

  /** Once the main run's own pass got through the check, everything registered is released, whatever
      the watcher does meanwhile, at either granularity, as long as undos succeed. */
  lemma MainPassReleases(fine: bool, w0: World, es: seq<Event>)
    requires Consistent(w0)
    ensures var s := Exec(fine, w0, es);
      PassedRun(s) && s.mainPass.mark.Some? && !s.undoFailed ==>
        forall i :: 0 <= i < |s.rb.regs| ==> Released(s.rb.regs[i], s.world)
  {
    var s := Exec(fine, w0, es);
    ExecInv(fine, w0, es);
    if PassedRun(s) && s.mainPass.mark.Some? {
      forall i: nat | i < |s.rb.regs| ensures i in s.mainPass.calls { DownHasAll(|s.rb.regs|, i); }
    }
  }

  lemma NothingToCall(s: Run)
    requires Passes(s) && s.rb.regs == []
    ensures Calls(s) == []
  {
  }

  /** A bundle directory that was there before is never touched, by any run or any signal. */
  lemma NoForeignDeletion(fine: bool, w0: World, es: seq<Event>)
    requires w0.bundle
    ensures var s := Exec(fine, w0, es);
      s.world.bundle && s.world.rootfs == w0.rootfs && s.world.shm == w0.shm && Calls(s) == []
  {
    ExecInv(fine, w0, es);
    NothingToCall(Exec(fine, w0, es));
  }

  /** In every interleaving, the main run's pass removes the bundle directory only after the
      mount inside it is gone. */
  lemma DirectoryAfterMount(fine: bool, w0: World, es: seq<Event>)
    requires Consistent(w0)
    ensures var s := Exec(fine, w0, es); s.main == Rolling(Call(1)) && !s.undoFailed ==> !s.world.shm
  {
    ExecInv(fine, w0, es);
    if !w0.bundle { MountGoneFirst(Exec(fine, w0, es)); }
  }

  /** The watcher's pass gives no such guarantee: it comes to the directory with the mount still in it
      exactly when the shm was mounted and its undo was not registered when that pass began (or, at the
      fine granularity, called by the main run's pass meanwhile). */
  lemma WatcherUnderMount(fine: bool, w0: World, es: seq<Event>)
    requires Consistent(w0)
    ensures var s := Exec(fine, w0, es);
      s.watch == Watching(Call(1)) && !s.undoFailed ==>
        && s.watchPass.mark.Some?
        && (s.world.shm <==> s.gotShm && s.watchPass.mark.value < 3 && 2 !in s.mainPass.calls)
        && (!fine ==> s.mainPass.calls == [])
  {
    var s := Exec(fine, w0, es);
    ExecInv(fine, w0, es);
    if s.watch == Watching(Call(1)) && !s.undoFailed && !w0.bundle {
      var n := s.watchPass.mark.value;
      if n == 3 { assert Down(3, 1)[0] == 2; }
      assert 2 in Down(n, 1) ==> n == 3;
    }
  }

  /** How many undos were registered when the rollback began, or when the later of the two passes did
      if both threads got through the check; none if there was no rollback. */
  function Covered(s: Run): nat {
    var main := if s.mainPass.mark.Some? then s.mainPass.mark.value else 0;
    var watch := if s.watchPass.mark.Some? then s.watchPass.mark.value else 0;
    if main > watch then main else watch
  }

  predicate Finished(s: Run) { s.main.Returned? && s.watch.Gone? }

  /** While undos succeed: an acquired directory stays until its undo is called; after the watcher
      has called it, there is a directory only around a mount, or because a failing mount made it again. */
  ghost predicate Directory(s: Run) {
    !s.undoFailed ==>
      && (!Called(s, 0) ==> (s.world.bundle <==> Past(s, PREPARE_BUNDLE)))
      && (!Called(s, 0) ==> !s.remade)
      && (0 in s.watchPass.calls && s.mainPass.calls == [] ==> (s.world.bundle <==> s.world.shm || s.remade))
  }

  lemma WorkKeepsDirectory(s: Run, step: Step, ok: bool, odd: bool)
    requires Control(s) && Passes(s) && Held(s) && Directory(s) && s.main == Work(step)
    ensures Directory(WorkStep(s, step, ok, odd))
  {
    WorkFrame(s, step, ok, odd);
  }

  lemma MainRollKeepsDirectory(fine: bool, s: Run, pc: RunPc, ok: bool)
    requires Control(s) && Passes(s) && Held(s) && Directory(s) && s.main == Rolling(pc)
    ensures Directory(MainRoll(fine, s, pc, ok))
  {
  }

  lemma WatchRollKeepsDirectory(fine: bool, s: Run, pc: RunPc, ok: bool)
    requires Control(s) && Passes(s) && Held(s) && Directory(s) && s.watch == Watching(pc)
    ensures Directory(WatchRoll(fine, s, pc, ok))
  {
  }

  lemma MainKeepsDirectory(fine: bool, s: Run, ok: bool, odd: bool)
    requires Control(s) && Passes(s) && Held(s) && Directory(s)
    ensures Directory(MainStep(fine, s, ok, odd))
  {
    match s.main
    case Work(step) => WorkKeepsDirectory(s, step, ok, odd);
    case Rolling(pc) => MainRollKeepsDirectory(fine, s, pc, ok);
    case _ =>
  }

  lemma WatchKeepsDirectory(fine: bool, sig: bool, s: Run, onSignal: bool, ok: bool)
    requires Control(s) && Passes(s) && Held(s) && Directory(s)
    ensures Directory(WatchStep(fine, sig, s, onSignal, ok))
  {
    if s.watch.Watching? { WatchRollKeepsDirectory(fine, s, s.watch.pc, ok); }
  }

  lemma {:induction false} ExecDirectory(fine: bool, w0: World, es: seq<Event>)
    requires !w0.bundle && Consistent(w0)
    ensures Directory(Exec(fine, w0, es))
  {
    if es != [] {
      var n := |es| - 1;
      ExecDirectory(fine, w0, es[..n]);
      ExecInv(fine, w0, es[..n]);
      match es[n].act
      case Main(ok, odd) => MainKeepsDirectory(fine, Exec(fine, w0, es[..n]), ok, odd);
      case Watch(onSignal, ok) => WatchKeepsDirectory(fine, es[n].sig, Exec(fine, w0, es[..n]), onSignal, ok);
    }
  }

  ghost predicate Remains(s: Run) {
    && (s.world.rootfs <==> s.gotRootfs && Covered(s) < 2)
    && (s.world.shm <==> s.gotShm && Covered(s) < 3)
    && (s.world.bundle <==>
          if Covered(s) == 0 then Past(s, PREPARE_BUNDLE)
          else s.mainPass.mark.None? && (s.world.shm || s.remade))
  }

  /** With signals, at both granularities: when both threads are done, a run leaves behind exactly the
      rootfs and the mount it acquired and whose undo no pass covered. The directory stays if no pass
      covered its undo; otherwise only when the watcher alone rolled back and then a mount was made
      in it, or a failing mount made it again. */
  lemma LeftBehind(fine: bool, w0: World, es: seq<Event>)
    requires !w0.bundle && Consistent(w0)
    ensures var s := Exec(fine, w0, es);
      Finished(s) && !s.undoFailed ==> Remains(s)
  {
    var s := Exec(fine, w0, es);
    ExecInv(fine, w0, es);
    ExecDirectory(fine, w0, es);
    if Finished(s) {
      CoveredCalled(s);
      assert Called(s, 0) <==> Covered(s) > 0;
      assert Called(s, 1) <==> Covered(s) > 1;
      assert Called(s, 2) <==> Covered(s) > 2;
      if s.mainPass.mark.Some? && Covered(s) > 0 { DownHasAll(s.mainPass.mark.value, 0); }
    }
  }

  /** When both threads are done, the undos called are those covered. */
  lemma CoveredCalled(s: Run)
    requires Passes(s) && Finished(s)
    ensures forall i: nat :: Called(s, i) <==> i < Covered(s)
  {
    forall i: nat ensures Called(s, i) <==> i < Covered(s) {
      if s.mainPass.mark.Some? && i < s.mainPass.mark.value { DownHasAll(s.mainPass.mark.value, i); }
      if s.watchPass.mark.Some? && i < s.watchPass.mark.value { DownHasAll(s.watchPass.mark.value, i); }
    }
  }

  // ------------------------------------------------------------ without a signal

  predicate NoSignal(es: seq<Event>) { forall i :: 0 <= i < |es| ==> !es[i].sig }

  /** Without a signal the watcher stays out of `run`, and the main pass gets through the check. */
  ghost predicate Quiet(s: Run) {
    && !s.watch.Watching? && s.watchPass == NO_PASS
    && (s.rb.executed ==> PassedRun(s) || (s.main.Rolling? && (s.main.pc.Measure? || s.main.pc.Call?)))
    && (PassedRun(s) ==> (s.mainPass.mark.Some? <==> s.retErr))
    && (s.mainPass.calls == [] ==> !s.undoFailed)
  }

  lemma MainRollKeepsQuiet(fine: bool, s: Run, pc: RunPc, ok: bool)
    requires Control(s) && Passes(s) && Quiet(s) && s.main == Rolling(pc)
    ensures Quiet(MainRoll(fine, s, pc, ok))
  {
  }

  lemma WorkKeepsQuiet(s: Run, step: Step, ok: bool, odd: bool)
    requires Control(s) && Passes(s) && Quiet(s) && s.main == Work(step)
    ensures Quiet(WorkStep(s, step, ok, odd))
  {
    WorkFrame(s, step, ok, odd);
    WorkKeepsErrors(s, step, ok, odd);
  }

  lemma WatchKeepsQuiet(fine: bool, s: Run, onSignal: bool, ok: bool)
    requires Control(s) && Passes(s) && Quiet(s)
    ensures Quiet(WatchStep(fine, false, s, onSignal, ok))
  {
  }

  lemma MainKeepsQuiet(fine: bool, s: Run, ok: bool, odd: bool)
    requires Control(s) && Passes(s) && Quiet(s)
    ensures Quiet(MainStep(fine, s, ok, odd))
  {
    match s.main
    case Work(step) => WorkKeepsQuiet(s, step, ok, odd);
    case Rolling(pc) => MainRollKeepsQuiet(fine, s, pc, ok);
    case _ =>
  }

  lemma {:induction false} ExecQuiet(fine: bool, w0: World, es: seq<Event>)
    requires NoSignal(es)
    ensures Quiet(Exec(fine, w0, es))
  {
    if es != [] {
      var n := |es| - 1;
      ExecQuiet(fine, w0, es[..n]);
      ExecInv(fine, w0, es[..n]);
      match es[n].act
      case Main(ok, odd) => MainKeepsQuiet(fine, Exec(fine, w0, es[..n]), ok, odd);
      case Watch(onSignal, ok) => WatchKeepsQuiet(fine, Exec(fine, w0, es[..n]), onSignal, ok);
    }
  }

  predicate SameResources(v: World, w: World) { v.bundle == w.bundle && v.rootfs == w.rootfs && v.shm == w.shm }

  /** The two failures that leave something behind: saving config.v2.json after the rootfs was
      generated, and marshalling the OCI spec. */
  predicate Window(step: Step) { step == SAVE_V2 || step == MARSHAL_OCI }

  /** A failed run has restored the three resources iff it failed outside the windows; a successful
      one holds all three and has called no undo. */
  predicate Settled(w0: World, s: Run) {
    if s.failedAt.Some? then !s.undoFailed ==> (SameResources(s.world, w0) <==> !Window(s.failedAt.value))
    else s.world.bundle && s.world.rootfs && s.world.shm && Calls(s) == []
  }

  /** All or nothing: without a signal and with undos that succeed, a failing run restores bundle
      directory, rootfs and shm mount exactly when it did not fail in one of the two windows, and
      a successful run keeps everything. */
  lemma AllOrNothing(fine: bool, w0: World, es: seq<Event>)
    requires Consistent(w0) && NoSignal(es)
    ensures var s := Exec(fine, w0, es);
      s.main.Returned? ==> Settled(w0, s)
  {
    var s := Exec(fine, w0, es);
    ExecInv(fine, w0, es);
    ExecQuiet(fine, w0, es);
    if s.main.Returned? && !w0.bundle { ReturnedQuietly(s); }
  }

  lemma ReturnedQuietly(s: Run)
    requires Control(s) && Passes(s) && Held(s) && Removed(s) && Quiet(s) && s.main.Returned?
    ensures if s.failedAt.Some?
      then !s.undoFailed ==>
        (!s.world.bundle && !s.world.rootfs && !s.world.shm <==> !Window(s.failedAt.value))
      else s.world.bundle && s.world.rootfs && s.world.shm && Calls(s) == []
  {
    var n := |s.rb.regs|;
    if s.mainPass.mark.Some? {
      forall i: nat | i < n ensures i in s.mainPass.calls { DownHasAll(n, i); }
    }
  }

  // ------------------------------------------------------------ the pause, and failing undos

  /** The call of a step goes well: a pause may also find the container paused, and there must be no bundle
      directory yet. Registrations always do. */
  predicate GoesWell(w: World, step: Step, ok: bool, odd: bool) {
    if step == PAUSE then ok || odd
    else if step == PREPARE_BUNDLE then ok && !w.bundle
    else ok || step == REGISTER_BUNDLE || step == REGISTER_ROOTFS || step == REGISTER_SHM
  }

  /** A step whose call goes well is followed by the next one, the last by the deferred function; any other
      ends the run there. */
  lemma StepOutcome(s: Run, step: Step, ok: bool, odd: bool)
    requires s.main == Work(step) && s.failedAt.None?
    ensures var s' := WorkStep(s, step, ok, odd);
      if GoesWell(s.world, step, ok, odd)
      then s'.failedAt.None? && (if step < LCR_CREATE then s'.main == Work(step + 1) else !s'.main.Work?)
      else s'.failedAt == Some(step) && !s'.main.Work?
  {
  }

  lemma PauseAcquired(s: Run, step: Step, ok: bool, odd: bool)
    ensures WorkStep(s, step, ok, odd).world.paused == (s.world.paused || (step == PAUSE && (ok || odd)))
  {
    AcquirePauses(s.world, step);
    if ok && !(step == PREPARE_BUNDLE && s.world.bundle) {
      assert Succeed(s, step).world == Acquire(s.world, step);
    } else {
      assert Fail(s, step, odd).world.paused == s.world.paused;
    }
  }

  lemma AcquirePauses(w: World, step: Step)
    ensures Acquire(w, step).paused == (w.paused || step == PAUSE)
  {
  }

  lemma PastPause(s: Run, step: Step, ok: bool, odd: bool)
    requires Errors(s) && s.main == Work(step)
    ensures Past(WorkStep(s, step, ok, odd), PAUSE) <==> step > PAUSE || ok || odd
  {
  }

  lemma WorkPauses(w0: World, s: Run, step: Step, ok: bool, odd: bool)
    requires Control(s) && s.main == Work(step) && s.world.paused == (w0.paused || Past(s, PAUSE))
    ensures var s' := WorkStep(s, step, ok, odd); s'.world.paused == (w0.paused || Past(s', PAUSE))
  {
    PauseAcquired(s, step, ok, odd);
    PastPause(s, step, ok, odd);
  }

  lemma MainRollPauses(fine: bool, s: Run, pc: RunPc, ok: bool)
    requires s.main == Rolling(pc)
    ensures var s' := MainRoll(fine, s, pc, ok); s'.world.paused == s.world.paused && At(s') == At(s)
  {
  }

  lemma WatchRollPauses(fine: bool, s: Run, pc: RunPc, ok: bool)
    ensures var s' := WatchRoll(fine, s, pc, ok); s'.world.paused == s.world.paused && At(s') == At(s)
  {
  }

  lemma MainPauses(fine: bool, w0: World, s: Run, ok: bool, odd: bool)
    requires Control(s) && s.world.paused == (w0.paused || Past(s, PAUSE))
    ensures var s' := MainStep(fine, s, ok, odd); s'.world.paused == (w0.paused || Past(s', PAUSE))
  {
    if s.main.Work? {
      WorkPauses(w0, s, s.main.step, ok, odd);
    } else if s.main.Rolling? {
      MainRollPauses(fine, s, s.main.pc, ok);
    } else {
      EndsFrame(fine, s, ok, odd);
    }
  }

  lemma WatchPauses(fine: bool, sig: bool, s: Run, onSignal: bool, ok: bool)
    ensures var s' := WatchStep(fine, sig, s, onSignal, ok); s'.world.paused == s.world.paused && At(s') == At(s)
  {
    match s.watch
    case Select => SelectFrame(sig, s, onSignal);
    case Watching(pc) => WatchRollPauses(fine, s, pc, ok);
    case _ =>
  }

  /** A run that gets past the pause leaves its container paused, however it ends. */
  lemma {:induction false} ExecPaused(fine: bool, w0: World, es: seq<Event>)
    ensures var s := Exec(fine, w0, es); s.world.paused == (w0.paused || Past(s, PAUSE))
  {
    if es != [] {
      var n := |es| - 1;
      ExecPaused(fine, w0, es[..n]);
      ExecInv(fine, w0, es[..n]);
      match es[n].act
      case Main(ok, odd) => MainPauses(fine, w0, Exec(fine, w0, es[..n]), ok, odd);
      case Watch(onSignal, ok) => WatchPauses(fine, es[n].sig, Exec(fine, w0, es[..n]), onSignal, ok);
    }
  }

  /** The step is the call of an undo, and the outside answers that it failed. */
  predicate FailsUndo(s: Run, a: Act) {
    match a
    case Main(ok, _) => s.main.Rolling? && s.main.pc.Call? && s.main.pc.left > 0 && !ok
    case Watch(_, ok) => s.watch.Watching? && s.watch.pc.Call? && s.watch.pc.left > 0 && !ok
  }

  /** Some undo call of the interleaving has failed. */
  predicate SomeUndoFailed(fine: bool, w0: World, es: seq<Event>) {
    es != [] &&
    var n := |es| - 1;
    SomeUndoFailed(fine, w0, es[..n]) || FailsUndo(Exec(fine, w0, es[..n]), es[n].act)
  }

  lemma MainFailsUndo(fine: bool, s: Run, ok: bool, odd: bool)
    requires Control(s) && Passes(s)
    ensures MainStep(fine, s, ok, odd).undoFailed == (s.undoFailed || FailsUndo(s, Main(ok, odd)))
  {
    match s.main
    case Work(step) => WorkFrame(s, step, ok, odd);
    case Rolling(pc) => MainRollFailsUndo(fine, s, pc, ok);
    case _ => EndsFrame(fine, s, ok, odd);
  }

  lemma WatchFailsUndo(fine: bool, sig: bool, s: Run, onSignal: bool, ok: bool)
    requires Control(s) && Passes(s)
    ensures WatchStep(fine, sig, s, onSignal, ok).undoFailed == (s.undoFailed || FailsUndo(s, Watch(onSignal, ok)))
  {
    match s.watch
    case Select => assert WatchSelect(sig, s, onSignal).undoFailed == s.undoFailed;
    case Watching(pc) => WatchRollFailsUndo(fine, s, pc, ok);
    case _ =>
  }

  lemma WatchRollFailsUndo(fine: bool, s: Run, pc: RunPc, ok: bool)
    requires Passes(s) && s.watch == Watching(pc)
    ensures WatchRoll(fine, s, pc, ok).undoFailed == (s.undoFailed || (pc.Call? && pc.left > 0 && !ok))
  {
  }

  lemma MainRollFailsUndo(fine: bool, s: Run, pc: RunPc, ok: bool)
    requires Passes(s) && s.main == Rolling(pc)
    ensures MainRoll(fine, s, pc, ok).undoFailed == (s.undoFailed || (pc.Call? && pc.left > 0 && !ok))
  {
  }

  /** What the theorems call a failed undo is a call of one that the outside has answered with an error. */
  lemma {:induction false} UndoFailedIff(fine: bool, w0: World, es: seq<Event>)
    ensures Exec(fine, w0, es).undoFailed <==> SomeUndoFailed(fine, w0, es)
  {
    if es != [] {
      var n := |es| - 1;
      UndoFailedIff(fine, w0, es[..n]);
      ExecInv(fine, w0, es[..n]);
      match es[n].act
      case Main(ok, odd) => MainFailsUndo(fine, Exec(fine, w0, es[..n]), ok, odd);
      case Watch(onSignal, ok) => WatchFailsUndo(fine, es[n].sig, Exec(fine, w0, es[..n]), onSignal, ok);
    }
  }

  // ------------------------------------------------------------ what a signal does

  /** The watcher alone moves, with the signal delivered and undos that succeed. */
  const WATCH := Watch(true, true)

  function Watches(n: nat): seq<Event> {
    if n == 0 then [] else Watches(n - 1) + [Event(true, WATCH)]
  }

  /** The state after `n` steps of the watcher alone. */
  function Turns(w0: World, es: seq<Event>, n: nat): Run { Exec(false, w0, es + Watches(n)) }

  lemma ExecOn(w0: World, es: seq<Event>, e: Event)
    ensures Exec(false, w0, es + [e]) == Apply(false, e.sig, Exec(false, w0, es), e.act)
  {
    assert (es + [e])[..|es|] == es;
  }

  lemma NoTurns(w0: World, es: seq<Event>)
    ensures Turns(w0, es, 0) == Exec(false, w0, es)
  {
    assert es + Watches(0) == es;
  }

  lemma OneTurn(w0: World, es: seq<Event>, n: nat)
    ensures Turns(w0, es, n + 1) == Apply(false, true, Turns(w0, es, n), WATCH)
  {
    var before, e := es + Watches(n), Event(true, WATCH);
    ExecOn(w0, before, e);
    assert es + Watches(n + 1) == before + [e];
  }

  lemma OneUndo(s: Run, k: nat)
    requires s.watch == Watching(Call(k)) && k <= |s.rb.regs|
    ensures var s' := Apply(false, true, s, WATCH);
      && s'.main == s.main && s'.rb.regs == s.rb.regs && s'.watchPass.mark == s.watchPass.mark
      && s'.watch == if k == 0 then Gone else Watching(Call(k - 1))
  {
  }

  /** The signal, then check and set. */
  lemma CheckAndSet(s: Run)
    requires s.watch == Select && !s.rb.executed && !s.rb.closed
    ensures var r := Apply(false, true, Apply(false, true, s, WATCH), WATCH);
      && r.watch == Watching(Call(|s.rb.regs|)) && r.main == s.main && r.rb.regs == s.rb.regs
      && r.watchPass.mark == Some(|s.rb.regs|)
  {
    assert Apply(false, true, s, WATCH) == s.(watch := Watching(Load));
  }

  /** `k` undos of those registered in `s` are still to be called. */
  predicate ToCall(s: Run, r: Run, k: int) {
    && 0 <= k && r.watch == Watching(Call(k)) && r.main == s.main && r.rb.regs == s.rb.regs
    && r.watchPass.mark == Some(|s.rb.regs|)
  }

  /** The states of a run in which only the watcher moves. */
  ghost predicate Alone(f: nat -> Run) { forall n: nat :: f(n + 1) == Apply(false, true, f(n), WATCH) }

  lemma FirstTurns(f: nat -> Run)
    requires Alone(f) && f(0).watch == Select && !f(0).rb.executed && !f(0).rb.closed
    ensures ToCall(f(0), f(2), |f(0).rb.regs|)
  {
    assert f(0 + 1) == Apply(false, true, f(0), WATCH) && f(1 + 1) == Apply(false, true, f(1), WATCH);
    CheckAndSet(f(0));
  }

  lemma NextTurn(f: nat -> Run, n: nat, k: int)
    requires Alone(f) && k > 0 && ToCall(f(0), f(n), k) && k <= |f(0).rb.regs|
    ensures ToCall(f(0), f(n + 1), k - 1)
  {
    OneUndo(f(n), k);
  }

  lemma {:induction false} TurnsRunDown(f: nat -> Run, j: nat)
    requires Alone(f) && f(0).watch == Select && !f(0).rb.executed && !f(0).rb.closed && j <= |f(0).rb.regs|
    ensures ToCall(f(0), f(2 + j), |f(0).rb.regs| - j)
  {
    if j == 0 {
      FirstTurns(f);
    } else {
      TurnsRunDown(f, j - 1);
      NextTurn(f, 1 + j, |f(0).rb.regs| - j + 1);
    }
  }

  lemma LastTurn(f: nat -> Run, n: nat)
    requires Alone(f) && f(0).watch == Select && !f(0).rb.executed && !f(0).rb.closed && n == |f(0).rb.regs|
    ensures f(3 + n).watch == Gone && f(3 + n).main == f(0).main && f(3 + n).watchPass.mark == Some(n)
  {
    TurnsRunDown(f, n);
    OneUndo(f(2 + n), 0);
    assert f((2 + n) + 1) == Apply(false, true, f(2 + n), WATCH);
  }

  lemma TurnsAlone(w0: World, es: seq<Event>) returns (f: nat -> Run)
    ensures Alone(f) && f(0) == Exec(false, w0, es) && forall n: nat :: f(n) == Turns(w0, es, n)
  {
    f := (n: nat) => Turns(w0, es, n);
    NoTurns(w0, es);
    forall n: nat ensures f(n + 1) == Apply(false, true, f(n), WATCH) { OneTurn(w0, es, n); }
  }

  /** A signal that finds no rollback under way is answered: the watcher, on its own, calls every undo
      registered by then, from the last to the first, and leaves. */
  lemma SignalRollsBack(w0: World, es: seq<Event>)
    requires var s := Exec(false, w0, es); s.watch == Select && !s.rb.executed
    ensures var s := Exec(false, w0, es);
      var s' := Turns(w0, es, 3 + |s.rb.regs|);
      s'.watch == Gone && s'.main == s.main && RunsDownFrom(s'.watchPass.calls, |s.rb.regs|)
  {
    var f := TurnsAlone(w0, es);
    var n := |f(0).rb.regs|;
    ExecInv(false, w0, es);
    LastTurn(f, n);
    ExecInv(false, w0, es + Watches(3 + n));
    AllCalled(f(3 + n), n);
  }

  lemma AllCalled(s: Run, n: nat)
    requires Passes(s) && s.watch == Gone && s.watchPass.mark == Some(n)
    ensures RunsDownFrom(s.watchPass.calls, n)
  {
  }

  /** All of the first `n` undos, from the last to the first. */
  predicate RunsDownFrom(calls: seq<nat>, n: nat) {
    |calls| == n && forall i :: 0 <= i < n ==> calls[i] == n - 1 - i
  }

  // ------------------------------------------------------------ progress

  function RunWeight(pc: RunPc): nat {
    match pc case Load => 8 case Store => 7 case Measure => 6 case Call(left) => left + 1
  }

  function MainWeight(main: MainPc): nat {
    match main
    case Idle => 60 case Work(step) => 57 - step case Rolling(pc) => 20 + RunWeight(pc)
    case Sending => 2 case Closing => 1 case Returned => 0
  }

  function WatchWeight(watch: WatchPc): nat {
    match watch case Unborn => 30 case Select => 20 case Watching(pc) => RunWeight(pc) case Gone => 0
  }

  /** An upper bound on the steps a run can still take. */
  function Weight(s: Run): nat { MainWeight(s.main) + WatchWeight(s.watch) }

  lemma MainProgress(fine: bool, s: Run, ok: bool, odd: bool)
    requires Control(s) && Passes(s)
    ensures var s' := MainStep(fine, s, ok, odd); s' == s || Weight(s') < Weight(s)
  {
    if s.main.Work? {
      WorkProgress(s, s.main.step, ok, odd);
    } else if s.main.Rolling? {
      MainRollProgress(fine, s, s.main.pc, ok);
    } else {
      EndsProgress(fine, s, ok, odd);
    }
  }

  lemma WorkProgress(s: Run, step: Step, ok: bool, odd: bool)
    requires s.main == Work(step)
    ensures Weight(WorkStep(s, step, ok, odd)) < Weight(s)
  {
    WorkFrame(s, step, ok, odd);
    WorkAdvances(s, step, ok, odd);
  }

  lemma MainRollProgress(fine: bool, s: Run, pc: RunPc, ok: bool)
    requires Control(s) && Passes(s) && s.main == Rolling(pc)
    ensures Weight(MainRoll(fine, s, pc, ok)) < Weight(s)
  {
  }

  lemma EndsProgress(fine: bool, s: Run, ok: bool, odd: bool)
    requires !s.main.Work? && !s.main.Rolling? && (s.main.Idle? ==> s.watch.Unborn?)
    ensures var s' := MainStep(fine, s, ok, odd); s' == s || Weight(s') < Weight(s)
  {
    match s.main
    case Idle => assert MainStep(fine, s, ok, odd) == s.(main := Work(PAUSE), watch := Select);
    case Sending =>
    case Closing => assert MainStep(fine, s, ok, odd) == s.(rb := s.rb.(chClosed := true), main := Returned);
    case Returned =>
  }

  lemma WorkAdvances(s: Run, step: Step, ok: bool, odd: bool)
    ensures var s' := WorkStep(s, step, ok, odd); s'.main.Work? ==> s'.main.step == step + 1
  {
  }

  lemma WatchRollProgress(fine: bool, s: Run, pc: RunPc, ok: bool)
    requires Control(s) && Passes(s) && s.watch == Watching(pc)
    ensures Weight(WatchRoll(fine, s, pc, ok)) < Weight(s)
  {
  }

  lemma WatchProgress(fine: bool, sig: bool, s: Run, onSignal: bool, ok: bool)
    requires Control(s) && Passes(s)
    ensures var s' := WatchStep(fine, sig, s, onSignal, ok); s' == s || Weight(s') < Weight(s)
  {
    if s.watch.Watching? { WatchRollProgress(fine, s, s.watch.pc, ok); }
  }

  /** Every step that is taken brings the run closer to its end, whatever the outside answers. */
  lemma EveryStepCounts(fine: bool, w0: World, es: seq<Event>, e: Event)
    ensures var s, s' := Exec(fine, w0, es), Exec(fine, w0, es + [e]); s' == s || Weight(s') < Weight(s)
  {
    ExecInv(fine, w0, es);
    assert (es + [e])[..|es|] == es;
    match e.act
    case Main(ok, odd) => MainProgress(fine, Exec(fine, w0, es), ok, odd);
    case Watch(onSignal, ok) => WatchProgress(fine, e.sig, Exec(fine, w0, es), onSignal, ok);
  }

  /** The main thread can always move until it has returned - so `close` never blocks - and then
      the watcher can leave without a signal. */
  predicate CanMove(fine: bool, s: Run) {
    if !s.main.Returned? then MainStep(fine, s, true, true) != s && MainStep(fine, s, false, false) != s
    else s.watch.Gone? || WatchStep(fine, false, s, false, true) != s
  }

  lemma NeverStuck(fine: bool, w0: World, es: seq<Event>)
    ensures CanMove(fine, Exec(fine, w0, es))
  {
    var s := Exec(fine, w0, es);
    ExecInv(fine, w0, es);
    ControlledCanMove(fine, s);
  }

  lemma ControlledCanMove(fine: bool, s: Run)
    requires Control(s)
    ensures CanMove(fine, s)
  {
    if s.main.Work? {
      var step := s.main.step;
      assert WorkStep(s, step, true, true).main != s.main && WorkStep(s, step, false, false).main != s.main;
    }
  }
}
