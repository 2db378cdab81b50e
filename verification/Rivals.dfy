/** Several runs on one container, as claims of calls of `matchID` that overlap give: they share the
    outside world, and only the bundle directory (pkg/isulad/isulad.go:155-162) stands between them. */
module Rivals {
  import opened Options
  import opened Saga
  import opened SagaSafety
  import opened SagaTheorems

  /** The granularity: `fine` as in the machine of one run; with `apart`, the look for the directory
      and its creation, which accepts an existing one, are steps of their own. */
  datatype Mode = Mode(fine: bool, apart: bool)

  /** The shared world, the runs (whose own `world` is what they saw last), and the runs that have
      seen no directory. */
  datatype Arena = Arena(world: World, runs: seq<Run>, absent: set<nat>)

  datatype Move = Move(i: nat, event: Event)

  predicate Preparing(run: Run, a: Act) { a.Main? && run.main == Work(PREPARE_BUNDLE) }

  /** The move only looks for the directory. */
  predicate Looks(m: Mode, s: Arena, v: Move)
    requires v.i < |s.runs|
  {
    m.apart && Preparing(s.runs[v.i], v.event.act) && !s.world.bundle && v.i !in s.absent
  }

  /** What the run goes by: the creation of the directory goes by what the look has seen. */
  function Seen(s: Arena, v: Move): World
    requires v.i < |s.runs|
  {
    if v.i in s.absent && Preparing(s.runs[v.i], v.event.act) then s.world.(bundle := false) else s.world
  }

  /** The run after its move, the shared world put in place of its own. */
  function Moved(m: Mode, s: Arena, v: Move): Run
    requires v.i < |s.runs|
  {
    Apply(m.fine, v.event.sig, s.runs[v.i].(world := Seen(s, v)), v.event.act)
  }

  function Turn(m: Mode, s: Arena, v: Move): Arena {
    if v.i >= |s.runs| then s
    else if Looks(m, s, v) then s.(absent := s.absent + {v.i})
    else
      var run := Moved(m, s, v);
      var bundle := run.world.bundle || (s.world.bundle && !Seen(s, v).bundle);
      s.(world := run.world.(bundle := bundle), runs := s.runs[v.i := run])
  }

  function Begin(w0: World, n: nat): Arena { Arena(w0, seq(n, i requires 0 <= i < n => Start(w0)), {}) }

  function Exec(m: Mode, w0: World, n: nat, vs: seq<Move>): Arena {
    if vs == [] then Begin(w0, n) else Turn(m, Exec(m, w0, n, vs[..|vs| - 1]), vs[|vs| - 1])
  }

  predicate Silent(vs: seq<Move>) { forall i :: 0 <= i < |vs| ==> !vs[i].event.sig }

  /** A signal, once delivered, stays delivered. */
  predicate Scheduled(vs: seq<Move>) { forall i, j :: 0 <= i < j < |vs| && vs[i].event.sig ==> vs[j].event.sig }

  // ------------------------------------------------------------ what every run keeps

  /** What a run keeps whatever becomes of the world it acts on. */
  ghost predicate Sound(fine: bool, quiet: bool, s: Run) {
    Control(s) && Passes(s) && (!fine ==> Exclusive(s)) && (quiet ==> Quiet(s))
  }

  lemma SoundAnywhere(fine: bool, quiet: bool, s: Run, w: World)
    requires Sound(fine, quiet, s)
    ensures Sound(fine, quiet, s.(world := w))
  {
  }

  lemma StepKeepsSound(fine: bool, quiet: bool, sig: bool, s: Run, a: Act)
    requires Sound(fine, quiet, s) && (quiet ==> !sig)
    ensures Sound(fine, quiet, Apply(fine, sig, s, a))
  {
    match a
    case Main(ok, odd) =>
      MainKeepsControl(fine, s, ok, odd);
      MainKeepsPasses(fine, s, ok, odd);
      if !fine { MainKeepsExclusive(s, ok, odd); }
      if quiet { MainKeepsQuiet(fine, s, ok, odd); }
    case Watch(onSignal, ok) =>
      WatchKeepsControl(fine, sig, s, onSignal, ok);
      WatchKeepsPasses(fine, sig, s, onSignal, ok);
      if !fine { WatchKeepsExclusive(sig, s, onSignal, ok); }
      if quiet { WatchKeepsQuiet(fine, s, onSignal, ok); }
  }

  ghost predicate AllSound(m: Mode, quiet: bool, s: Arena) {
    forall i :: 0 <= i < |s.runs| ==> Sound(m.fine, quiet, s.runs[i])
  }

  lemma MovedSound(m: Mode, quiet: bool, s: Arena, v: Move)
    requires v.i < |s.runs| && Sound(m.fine, quiet, s.runs[v.i]) && (quiet ==> !v.event.sig)
    ensures Sound(m.fine, quiet, Moved(m, s, v))
  {
    var run := s.runs[v.i];
    SoundAnywhere(m.fine, quiet, run, Seen(s, v));
    StepKeepsSound(m.fine, quiet, v.event.sig, run.(world := Seen(s, v)), v.event.act);
  }

  lemma BeginFacts(m: Mode, quiet: bool, w0: World, n: nat)
    ensures AllSound(m, quiet, Begin(w0, n)) && OneHolder(Begin(w0, n))
  {
    StartInv(m.fine, w0);
    assert Sound(m.fine, quiet, Start(w0)) && !Holds(Start(w0));
  }

  lemma {:induction false} ExecSound(m: Mode, quiet: bool, w0: World, n: nat, vs: seq<Move>)
    requires quiet ==> Silent(vs)
    ensures |Exec(m, w0, n, vs).runs| == n && AllSound(m, quiet, Exec(m, w0, n, vs))
  {
    if vs == [] {
      BeginFacts(m, quiet, w0, n);
    } else {
      var k := |vs| - 1;
      ExecSound(m, quiet, w0, n, vs[..k]);
      if vs[k].i < n { MovedSound(m, quiet, Exec(m, w0, n, vs[..k]), vs[k]); }
    }
  }

  // ------------------------------------------------------------ the loser

  /** A run that was refused the directory has registered nothing and calls no undo, whatever the
      others, the watchers and the signal do. */
  lemma RefusedIsHarmless(m: Mode, w0: World, n: nat, vs: seq<Move>, i: nat)
    requires i < n
    ensures var s := Exec(m, w0, n, vs);
      && i < |s.runs|
      && (s.runs[i].failedAt == Some(PREPARE_BUNDLE) ==> s.runs[i].rb.regs == [] && Calls(s.runs[i]) == [])
  {
    ExecSound(m, false, w0, n, vs);
    var run := Exec(m, w0, n, vs).runs[i];
    assert Sound(m.fine, false, run);
    if run.failedAt == Some(PREPARE_BUNDLE) { NothingToCall(run); }
  }

  // ------------------------------------------------------------ who gets past

  /** The run has made the directory and its removal has not been called. */
  predicate Holds(s: Run) { Past(s, PREPARE_BUNDLE) && !Called(s, 0) }

  /** At most one run holds the directory, and it is there. */
  ghost predicate OneHolder(s: Arena) {
    && (forall i :: 0 <= i < |s.runs| && Holds(s.runs[i]) ==> s.world.bundle)
    && (forall i, j :: 0 <= i < |s.runs| && 0 <= j < |s.runs| && Holds(s.runs[i]) && Holds(s.runs[j]) ==> i == j)
  }

  /** One step of one run: it comes to hold the directory by making it, and only a holder removes it. */
  ghost predicate HolderSteps(s: Run, s': Run) {
    && (Holds(s') && !Holds(s) ==> !s.world.bundle)
    && (Holds(s') && !Holds(s) ==> s'.world.bundle)
    && (s.world.bundle && !s'.world.bundle ==> Holds(s) && !Holds(s'))
  }

  lemma WorkHolds(s: Run, step: Step, ok: bool, odd: bool)
    requires Control(s) && s.main == Work(step)
    ensures HolderSteps(s, WorkStep(s, step, ok, odd))
  {
    WorkFrame(s, step, ok, odd);
  }

  /** A pass that calls the last undo comes to it for the first time, if the other one called none. */
  lemma MainRollHolds(fine: bool, s: Run, pc: RunPc, ok: bool)
    requires Control(s) && Passes(s) && s.main == Rolling(pc)
    requires pc.Call? ==> s.watchPass.calls == []
    ensures HolderSteps(s, MainRoll(fine, s, pc, ok))
  {
    if CallsUndo(s, pc) && pc.left == 1 { assert Registered(At(s)) > 0; }
  }

  lemma WatchRollHolds(fine: bool, s: Run, pc: RunPc, ok: bool)
    requires Control(s) && Passes(s) && s.watch == Watching(pc)
    requires pc.Call? ==> s.mainPass.calls == []
    ensures HolderSteps(s, WatchRoll(fine, s, pc, ok))
  {
    if CallsUndo(s, pc) && pc.left == 1 { assert Registered(At(s)) > 0; }
  }

  lemma MainHolds(fine: bool, quiet: bool, s: Run, ok: bool, odd: bool)
    requires Sound(fine, quiet, s) && (quiet || !fine)
    ensures HolderSteps(s, MainStep(fine, s, ok, odd))
  {
    if s.main.Work? {
      WorkHolds(s, s.main.step, ok, odd);
    } else if s.main.Rolling? {
      MainRollHolds(fine, s, s.main.pc, ok);
    } else {
      EndsFrame(fine, s, ok, odd);
      SameFactsHold(s, MainStep(fine, s, ok, odd));
    }
  }

  lemma SameFactsHold(s: Run, s': Run)
    requires SameFacts(s, s')
    ensures HolderSteps(s, s')
  {
  }

  lemma WatchHolds(fine: bool, quiet: bool, sig: bool, s: Run, onSignal: bool, ok: bool)
    requires Sound(fine, quiet, s) && (quiet ==> !sig) && (quiet || !fine)
    ensures HolderSteps(s, WatchStep(fine, sig, s, onSignal, ok))
  {
    if s.watch.Watching? { WatchRollHolds(fine, s, s.watch.pc, ok); }
  }

  lemma StepHolds(fine: bool, quiet: bool, sig: bool, s: Run, a: Act)
    requires Sound(fine, quiet, s) && (quiet ==> !sig) && (quiet || !fine)
    ensures HolderSteps(s, Apply(fine, sig, s, a))
  {
    match a
    case Main(ok, odd) => MainHolds(fine, quiet, s, ok, odd);
    case Watch(onSignal, ok) => WatchHolds(fine, quiet, sig, s, onSignal, ok);
  }

  lemma TurnKeepsOneHolder(m: Mode, quiet: bool, s: Arena, v: Move)
    requires !m.apart && (quiet || !m.fine) && (quiet ==> !v.event.sig)
    requires AllSound(m, quiet, s) && OneHolder(s) && s.absent == {}
    ensures OneHolder(Turn(m, s, v)) && Turn(m, s, v).absent == {}
  {
    if v.i < |s.runs| {
      var run, run' := s.runs[v.i].(world := s.world), Moved(m, s, v);
      SoundAnywhere(m.fine, quiet, s.runs[v.i], s.world);
      StepHolds(m.fine, quiet, v.event.sig, run, v.event.act);
      assert HolderSteps(run, run') && (Holds(run) <==> Holds(s.runs[v.i]));
    }
  }

  lemma {:induction false} ExecOneHolder(m: Mode, quiet: bool, w0: World, n: nat, vs: seq<Move>)
    requires !m.apart && (quiet || !m.fine) && (quiet ==> Silent(vs))
    ensures OneHolder(Exec(m, w0, n, vs)) && Exec(m, w0, n, vs).absent == {}
  {
    if vs == [] {
      BeginFacts(m, quiet, w0, n);
    } else {
      var k := |vs| - 1;
      ExecOneHolder(m, quiet, w0, n, vs[..k]);
      ExecSound(m, quiet, w0, n, vs[..k]);
      TurnKeepsOneHolder(m, quiet, Exec(m, w0, n, vs[..k]), vs[k]);
    }
  }

  // ------------------------------------------------------------ what the holder has

  /** A run that holds the directory has the rootfs and the mount it acquired, until it calls their undos. */
  predicate HasOwn(s: Run, w: World) {
    Holds(s) ==>
      && (Past(s, GENERATE_ROOTFS) && !Called(s, 1) ==> w.rootfs)
      && (Past(s, PREPARE_SHM) && !Called(s, 2) ==> w.shm)
  }

  /** One step of one run: it keeps what is its own, and only a holder takes something away. */
  ghost predicate OwnSteps(s: Run, s': Run) {
    && (HasOwn(s, s.world) ==> HasOwn(s', s'.world))
    && (s.world.rootfs && !s'.world.rootfs ==> Holds(s))
    && (s.world.shm && !s'.world.shm ==> Holds(s))
  }

  /** A step of `transform` proper takes nothing away, and what it moves past it has acquired. */
  lemma WorkGains(s: Run, step: Step, ok: bool, odd: bool)
    requires s.main == Work(step)
    ensures var s' := WorkStep(s, step, ok, odd);
      && (s.world.rootfs || (step == GENERATE_ROOTFS && s'.main.Work?) ==> s'.world.rootfs)
      && (s.world.shm || (step == PREPARE_SHM && s'.main.Work?) ==> s'.world.shm)
  {
  }

  lemma WorkMoves(s: Run, step: Step, ok: bool, odd: bool)
    requires Control(s) && s.main == Work(step)
    ensures var s' := WorkStep(s, step, ok, odd);
      At(s') == if s'.main.Work? then step + 1 else step
  {
  }

  lemma WorkOwn(s: Run, step: Step, ok: bool, odd: bool)
    requires Control(s) && s.main == Work(step)
    ensures OwnSteps(s, WorkStep(s, step, ok, odd))
  {
    WorkFrame(s, step, ok, odd);
    WorkGains(s, step, ok, odd);
    WorkMoves(s, step, ok, odd);
    ForwardOwn(s, WorkStep(s, step, ok, odd));
  }

  lemma ForwardOwn(s: Run, s': Run)
    requires s'.mainPass == s.mainPass && s'.watchPass == s.watchPass && At(s) <= At(s')
    requires s.world.rootfs || (Past(s', GENERATE_ROOTFS) && !Past(s, GENERATE_ROOTFS)) ==> s'.world.rootfs
    requires s.world.shm || (Past(s', PREPARE_SHM) && !Past(s, PREPARE_SHM)) ==> s'.world.shm
    requires !Past(s, PREPARE_BUNDLE) ==> !Past(s', GENERATE_ROOTFS)
    ensures OwnSteps(s, s')
  {
  }

  /** A pass that is not through has not called the removal of the directory. */
  lemma NotCalledYet(pass: Pass, pc: RunPc, registered: nat)
    requires InRun(pass, pc, registered) && (pc.Call? ==> pc.left > 0)
    ensures 0 !in pass.calls
  {
  }

  lemma CallerIsPast(s: Run, pc: RunPc)
    requires Control(s) && CallsUndo(s, pc)
    ensures Past(s, PREPARE_BUNDLE) && |s.rb.regs| <= 3 && s.rb.regs[pc.left - 1] == ALL_UNDOS[pc.left - 1]
  {
    assert Registered(At(s)) > 0;
  }

  /** Calling undo `k` takes away no more than its own resource. */
  ghost predicate CallSteps(s: Run, s': Run, k: nat) {
    && At(s') == At(s) && (forall i :: Called(s', i) <==> Called(s, i) || i == k)
    && (s'.world.rootfs <==> s.world.rootfs && (k == 1 ==> s'.world.rootfs))
    && (s'.world.shm <==> s.world.shm && (k == 2 ==> s'.world.shm))
  }

  /** A step inside `run` that calls nothing. */
  predicate PlainSteps(s: Run, s': Run) {
    && At(s') == At(s) && s'.world == s.world
    && s'.mainPass.calls == s.mainPass.calls && s'.watchPass.calls == s.watchPass.calls
  }

  lemma CallIsOwn(s: Run, s': Run, k: nat)
    requires Holds(s) && CallSteps(s, s', k)
    ensures OwnSteps(s, s')
  {
  }

  lemma PlainIsOwn(s: Run, s': Run)
    requires PlainSteps(s, s')
    ensures OwnSteps(s, s')
  {
  }

  lemma MainRollOwn(fine: bool, s: Run, pc: RunPc, ok: bool)
    requires Control(s) && Passes(s) && s.main == Rolling(pc)
    requires pc.Call? ==> s.watchPass.calls == []
    ensures OwnSteps(s, MainRoll(fine, s, pc, ok))
  {
    if CallsUndo(s, pc) {
      CallerIsPast(s, pc);
      NotCalledYet(s.mainPass, pc, |s.rb.regs|);
      assert CallSteps(s, MainRoll(fine, s, pc, ok), pc.left - 1);
      CallIsOwn(s, MainRoll(fine, s, pc, ok), pc.left - 1);
    } else {
      PlainIsOwn(s, MainRoll(fine, s, pc, ok));
    }
  }

  lemma WatchRollOwn(fine: bool, s: Run, pc: RunPc, ok: bool)
    requires Control(s) && Passes(s) && s.watch == Watching(pc)
    requires pc.Call? ==> s.mainPass.calls == []
    ensures OwnSteps(s, WatchRoll(fine, s, pc, ok))
  {
    if CallsUndo(s, pc) {
      CallerIsPast(s, pc);
      NotCalledYet(s.watchPass, pc, |s.rb.regs|);
      assert CallSteps(s, WatchRoll(fine, s, pc, ok), pc.left - 1);
      CallIsOwn(s, WatchRoll(fine, s, pc, ok), pc.left - 1);
    } else {
      PlainIsOwn(s, WatchRoll(fine, s, pc, ok));
    }
  }

  lemma MainOwn(fine: bool, quiet: bool, s: Run, ok: bool, odd: bool)
    requires Sound(fine, quiet, s) && (quiet || !fine)
    ensures OwnSteps(s, MainStep(fine, s, ok, odd))
  {
    if s.main.Work? {
      WorkOwn(s, s.main.step, ok, odd);
    } else if s.main.Rolling? {
      MainRollOwn(fine, s, s.main.pc, ok);
    } else {
      EndsFrame(fine, s, ok, odd);
    }
  }

  lemma WatchOwn(fine: bool, quiet: bool, sig: bool, s: Run, onSignal: bool, ok: bool)
    requires Sound(fine, quiet, s) && (quiet ==> !sig) && (quiet || !fine)
    ensures OwnSteps(s, WatchStep(fine, sig, s, onSignal, ok))
  {
    match s.watch
    case Select => SelectOwn(sig, s, onSignal);
    case Watching(pc) => WatchRollOwn(fine, s, pc, ok);
    case _ => StillOwn(fine, sig, s, onSignal, ok);
  }

  lemma SelectOwn(sig: bool, s: Run, onSignal: bool)
    requires s.watch == Select
    ensures OwnSteps(s, WatchSelect(sig, s, onSignal))
  {
    SelectFrame(sig, s, onSignal);
    PlainIsOwn(s, WatchSelect(sig, s, onSignal));
  }

  lemma StillOwn(fine: bool, sig: bool, s: Run, onSignal: bool, ok: bool)
    requires s.watch.Unborn? || s.watch.Gone?
    ensures OwnSteps(s, WatchStep(fine, sig, s, onSignal, ok))
  {
    PlainIsOwn(s, s);
    assert WatchStep(fine, sig, s, onSignal, ok) == s;
  }

  lemma StepOwn(fine: bool, quiet: bool, sig: bool, s: Run, a: Act)
    requires Sound(fine, quiet, s) && (quiet ==> !sig) && (quiet || !fine)
    ensures OwnSteps(s, Apply(fine, sig, s, a))
  {
    match a
    case Main(ok, odd) => MainOwn(fine, quiet, s, ok, odd);
    case Watch(onSignal, ok) => WatchOwn(fine, quiet, sig, s, onSignal, ok);
  }

  ghost predicate AllHaveOwn(s: Arena) { forall i :: 0 <= i < |s.runs| ==> HasOwn(s.runs[i], s.world) }

  lemma TurnKeepsOwn(m: Mode, quiet: bool, s: Arena, v: Move)
    requires !m.apart && (quiet || !m.fine) && (quiet ==> !v.event.sig)
    requires AllSound(m, quiet, s) && OneHolder(s) && s.absent == {} && AllHaveOwn(s)
    ensures AllHaveOwn(Turn(m, s, v))
  {
    if v.i < |s.runs| {
      var run, run' := s.runs[v.i].(world := s.world), Moved(m, s, v);
      SoundAnywhere(m.fine, quiet, s.runs[v.i], s.world);
      StepOwn(m.fine, quiet, v.event.sig, run, v.event.act);
      assert OwnSteps(run, run') && HasOwn(run, run.world) && (Holds(run) <==> Holds(s.runs[v.i]));
      OthersKeepOwn(s, v.i, run'.world);
    }
  }

  /** What a step takes away was not another run's. */
  lemma OthersKeepOwn(s: Arena, i: nat, w: World)
    requires i < |s.runs| && OneHolder(s) && AllHaveOwn(s)
    requires (s.world.rootfs && !w.rootfs) || (s.world.shm && !w.shm) ==> Holds(s.runs[i])
    ensures forall j :: 0 <= j < |s.runs| && j != i ==> HasOwn(s.runs[j], w)
  {
  }

  lemma {:induction false} ExecHaveOwn(m: Mode, quiet: bool, w0: World, n: nat, vs: seq<Move>)
    requires !m.apart && (quiet || !m.fine) && (quiet ==> Silent(vs))
    ensures AllHaveOwn(Exec(m, w0, n, vs))
  {
    if vs == [] {
      BeginFacts(m, quiet, w0, n);
      assert !Holds(Start(w0));
    } else {
      var k := |vs| - 1;
      ExecHaveOwn(m, quiet, w0, n, vs[..k]);
      ExecOneHolder(m, quiet, w0, n, vs[..k]);
      ExecSound(m, quiet, w0, n, vs[..k]);
      TurnKeepsOwn(m, quiet, Exec(m, w0, n, vs[..k]), vs[k]);
    }
  }

  // ------------------------------------------------------------ which rival gets past

  ghost predicate SomePast(s: Arena) { exists j :: 0 <= j < |s.runs| && Past(s.runs[j], PREPARE_BUNDLE) }

  /** A step does not undo progress, and a directory it makes is progress. */
  ghost predicate PastSteps(s: Run, s': Run) {
    && (Past(s, PREPARE_BUNDLE) ==> Past(s', PREPARE_BUNDLE))
    && (s'.world.bundle && !s.world.bundle ==> Past(s', PREPARE_BUNDLE))
  }

  lemma MainPast(fine: bool, s: Run, ok: bool, odd: bool)
    requires Control(s)
    ensures PastSteps(s, MainStep(fine, s, ok, odd))
  {
    match s.main
    case Work(step) => WorkPast(s, step, ok, odd);
    case Rolling(pc) => assert At(MainRoll(fine, s, pc, ok)) == At(s);
    case _ =>
  }

  lemma WatchRollPast(fine: bool, s: Run, pc: RunPc, ok: bool)
    ensures PastSteps(s, WatchRoll(fine, s, pc, ok))
  {
    assert At(WatchRoll(fine, s, pc, ok)) == At(s);
  }

  lemma WatchPast(fine: bool, sig: bool, s: Run, onSignal: bool, ok: bool)
    requires Control(s)
    ensures PastSteps(s, WatchStep(fine, sig, s, onSignal, ok))
  {
    if s.watch.Watching? { WatchRollPast(fine, s, s.watch.pc, ok); }
  }

  lemma StepPast(fine: bool, sig: bool, s: Run, a: Act)
    requires Control(s)
    ensures PastSteps(s, Apply(fine, sig, s, a))
  {
    match a
    case Main(ok, odd) => MainPast(fine, s, ok, odd);
    case Watch(onSignal, ok) => WatchPast(fine, sig, s, onSignal, ok);
  }

  lemma WorkPast(s: Run, step: Step, ok: bool, odd: bool)
    requires Control(s) && s.main == Work(step)
    ensures PastSteps(s, WorkStep(s, step, ok, odd))
  {
  }

  lemma TurnKeepsPast(m: Mode, s: Arena, v: Move)
    requires v.i < |s.runs| && AllSound(m, false, s) && SomePast(s)
    ensures SomePast(Turn(m, s, v))
  {
    var j :| 0 <= j < |s.runs| && Past(s.runs[j], PREPARE_BUNDLE);
    if j == v.i && !Looks(m, s, v) {
      SoundAnywhere(m.fine, false, s.runs[j], Seen(s, v));
      StepPast(m.fine, v.event.sig, s.runs[j].(world := Seen(s, v)), v.event.act);
      assert Past(Moved(m, s, v), PREPARE_BUNDLE);
    }
    assert Past(Turn(m, s, v).runs[j], PREPARE_BUNDLE);
  }

  /** The directory is there because it was, or because a run has got past making it. */
  lemma {:induction false} DirectoryHasMaker(m: Mode, w0: World, n: nat, vs: seq<Move>)
    ensures var s := Exec(m, w0, n, vs); s.world.bundle ==> w0.bundle || SomePast(s)
  {
    if vs != [] {
      var k := |vs| - 1;
      var s, v := Exec(m, w0, n, vs[..k]), vs[k];
      DirectoryHasMaker(m, w0, n, vs[..k]);
      ExecSound(m, false, w0, n, vs[..k]);
      if v.i < n {
        if SomePast(s) {
          TurnKeepsPast(m, s, v);
        } else if !Looks(m, s, v) {
          SoundAnywhere(m.fine, false, s.runs[v.i], Seen(s, v));
          StepPast(m.fine, v.event.sig, s.runs[v.i].(world := Seen(s, v)), v.event.act);
          assert Turn(m, s, v).runs[v.i] == Moved(m, s, v);
        }
      }
    }
  }

  /** Which rival gets past: a run that makes the directory, and whose call does not fail by itself,
      gets past exactly when the directory is not there; and if it is there although it was not at
      the start, another run has got past before. */
  lemma FirstGetsPast(m: Mode, w0: World, n: nat, vs: seq<Move>, v: Move)
    requires !m.apart && v.i < n
    ensures var s, s' := Exec(m, w0, n, vs), Exec(m, w0, n, vs + [v]);
      && |s.runs| == |s'.runs| == n
      && (Preparing(s.runs[v.i], v.event.act) && v.event.act.ok ==>
            && (Past(s'.runs[v.i], PREPARE_BUNDLE) <==> !s.world.bundle)
            && (s.world.bundle && !w0.bundle ==>
                  exists j :: 0 <= j < n && j != v.i && Past(s.runs[j], PREPARE_BUNDLE)))
  {
    assert (vs + [v])[..|vs|] == vs;
    var s := Exec(m, w0, n, vs);
    ExecSound(m, false, w0, n, vs);
    ExecSound(m, false, w0, n, vs + [v]);
    NeverAbsent(m, w0, n, vs);
    DirectoryHasMaker(m, w0, n, vs);
    if Preparing(s.runs[v.i], v.event.act) {
      assert !Past(s.runs[v.i], PREPARE_BUNDLE);
      var run := s.runs[v.i].(world := s.world);
      assert Moved(m, s, v) == WorkStep(run, PREPARE_BUNDLE, v.event.act.ok, v.event.act.odd);
    }
  }

  lemma {:induction false} NeverAbsent(m: Mode, w0: World, n: nat, vs: seq<Move>)
    requires !m.apart
    ensures Exec(m, w0, n, vs).absent == {}
  {
    if vs != [] { NeverAbsent(m, w0, n, vs[..|vs| - 1]); }
  }

  predicate Succeeded(s: Run) { s.main.Returned? && s.failedAt.None? }

  /** The run has succeeded and no pass has called the removal of its directory. */
  predicate SucceededWhole(s: Run) { Succeeded(s) && !Called(s, 0) }

  /** The container has what the run acquired, up to undos that a pass has called. */
  predicate HasUncalled(s: Run, w: World) {
    (Called(s, 0) || w.bundle) && (Called(s, 1) || w.rootfs) && (Called(s, 2) || w.shm)
  }

  /** Of any number of runs on one container at most one succeeds without its directory undone, and the
      container then has everything whose undo that run itself has not called, whatever the rivals'
      rollbacks do. Without a signal, at both granularities, every run that succeeds is of that kind
      and has called nothing: the container has everything. */
  lemma OneSucceeds(m: Mode, quiet: bool, w0: World, n: nat, vs: seq<Move>)
    requires !m.apart && (quiet || !m.fine) && (quiet ==> Silent(vs))
    ensures var s := Exec(m, w0, n, vs);
      && |s.runs| == n
      && (forall i :: 0 <= i < n && SucceededWhole(s.runs[i]) ==> HasUncalled(s.runs[i], s.world))
      && (forall i, j :: 0 <= i < n && 0 <= j < n && SucceededWhole(s.runs[i]) && SucceededWhole(s.runs[j]) ==> i == j)
      && (quiet ==> forall i :: 0 <= i < n && Succeeded(s.runs[i]) ==>
            SucceededWhole(s.runs[i]) && s.world.bundle && s.world.rootfs && s.world.shm)
  {
    ExecSound(m, quiet, w0, n, vs);
    ExecOneHolder(m, quiet, w0, n, vs);
    ExecHaveOwn(m, quiet, w0, n, vs);
    var s := Exec(m, w0, n, vs);
    forall i | 0 <= i < n && Succeeded(s.runs[i])
      ensures quiet ==> SucceededWhole(s.runs[i]) && s.world.bundle && s.world.rootfs && s.world.shm
      ensures SucceededWhole(s.runs[i]) ==> Holds(s.runs[i]) && HasUncalled(s.runs[i], s.world)
    {
      SuccessHolds(m.fine, quiet, s.runs[i], s.world);
    }
  }

  lemma SuccessHolds(fine: bool, quiet: bool, s: Run, w: World)
    requires Sound(fine, quiet, s) && Succeeded(s) && HasOwn(s, w) && (Holds(s) ==> w.bundle)
    ensures quiet ==> SucceededWhole(s) && w.bundle && w.rootfs && w.shm
    ensures SucceededWhole(s) ==> Holds(s) && HasUncalled(s, w)
  {
  }
}
