/** Interleavings that show where the guarantees of the machine end. */
module SagaExamples {
  import opened Options
  import opened Saga

  const CLEAN := World(false, false, false, false)
  const GO := Main(true, false)
  const STOP := Main(false, false)

  /** The state is reachable from a clean world; `sig` tells whether the signal has arrived. */
  ghost predicate Reach(fine: bool, sig: bool, s: Run) {
    exists es: seq<Event> :: Leads(fine, sig, es, s)
  }

  ghost predicate Leads(fine: bool, sig: bool, es: seq<Event>, s: Run) {
    Schedule(es) && (sig || forall i :: 0 <= i < |es| ==> !es[i].sig) && Exec(fine, CLEAN, es) == s
  }

  lemma ReachStart(fine: bool)
    ensures Reach(fine, false, Start(CLEAN))
  {
    assert Leads(fine, false, [], Start(CLEAN));
  }

  /** The signal may arrive at any time, and a step may be taken. */
  lemma ReachStep(fine: bool, sig: bool, s: Run, sig': bool, a: Act) returns (s': Run)
    requires Reach(fine, sig, s) && (sig ==> sig')
    ensures s' == Apply(fine, sig', s, a) && Reach(fine, sig', s')
  {
    var es: seq<Event> :| Leads(fine, sig, es, s);
    var es' := es + [Event(sig', a)];
    assert es'[..|es|] == es;
    s' := Apply(fine, sig', s, a);
    assert Leads(fine, sig', es', s');
  }

  /** Successful steps of the main thread up to `step`, without a signal. */
  function Reached(step: Step): Run {
    Start(CLEAN).(
      main := Work(step), watch := Select,
      world := World(step > PAUSE, step > PREPARE_BUNDLE, step > GENERATE_ROOTFS, step > PREPARE_SHM),
      rb := NEW_ROLLBACK.(regs :=
        if step <= REGISTER_BUNDLE then [] else if step <= REGISTER_ROOTFS then [CleanBundle]
        else if step <= REGISTER_SHM then [CleanBundle, CleanRootfs] else ALL_UNDOS),
      gotRootfs := step > GENERATE_ROOTFS, gotShm := step > PREPARE_SHM)
  }

  lemma ReachedStart(fine: bool)
    ensures Apply(fine, false, Start(CLEAN), GO) == Reached(PAUSE)
  {
  }

  lemma ReachedStep(fine: bool, step: Step)
    requires step < LCR_CREATE
    ensures Apply(fine, false, Reached(step), GO) == Reached(step + 1)
  {
    assert ALL_UNDOS == [CleanBundle, CleanRootfs] + [UnmountShm];
    assert Apply(fine, false, Reached(step), GO) == WorkStep(Reached(step), step, true, false);
  }

  lemma ReachNext(fine: bool, s: Run, s': Run)
    requires Reach(fine, false, s) && Apply(fine, false, s, GO) == s'
    ensures Reach(fine, false, s')
  {
    var r := ReachStep(fine, false, s, false, GO);
  }

  lemma {:induction false} ReachWork(fine: bool, step: Step)
    ensures Reach(fine, false, Reached(step))
  {
    if step == 0 {
      ReachStart(fine);
      ReachedStart(fine);
      ReachNext(fine, Start(CLEAN), Reached(step));
    } else {
      ReachWork(fine, step - 1);
      ReachedStep(fine, step - 1);
      ReachNext(fine, Reached(step - 1), Reached(step));
    }
  }

  /** A signal between mounting the shm and registering its undo: the watcher is about to remove
      the bundle directory while the shm is still mounted in it. */
  lemma SignalRemovesUnderMount()
    ensures exists s :: Reach(false, true, s) && s.watch == Watching(Call(1)) && s.world.shm
  {
    ReachWork(false, REGISTER_SHM);
    TwoUndos(Reached(REGISTER_SHM));
    var s := ReachStep(false, false, Reached(REGISTER_SHM), true, Watch(true, true));
    s := ReachStep(false, true, s, true, Watch(true, true));
    s := ReachStep(false, true, s, true, Watch(true, true));
  }

  /** The watcher's pass over two registered undos, up to the second call. */
  lemma TwoUndos(s: Run)
    requires s.watch == Select && s.rb == NEW_ROLLBACK.(regs := [CleanBundle, CleanRootfs]) && s.watchPass == NO_PASS
    ensures var w := Watch(true, true);
      var r := Apply(false, true, Apply(false, true, Apply(false, true, s, w), w), w);
      r.watch == Watching(Call(1)) && r.world.shm == s.world.shm
  {
    var w := Watch(true, true);
    var s1 := Apply(false, true, s, w);
    assert s1 == s.(watch := Watching(Load));
    var s2 := Apply(false, true, s1, w);
    assert s2 == s.(watch := Watching(Call(2)), rb := s.rb.(executed := true), watchPass := Pass(Some(2), []));
  }

  /** Both threads have loaded the flag and seen it unset. */
  lemma BothPassedCheck() returns (s: Run)
    ensures Reach(true, true, s) && s.main == Rolling(Store) && s.watch == Watching(Store)
    ensures s.rb.regs == [CleanBundle] && s.mainPass == NO_PASS && s.watchPass == NO_PASS
  {
    ReachWork(true, HOST_CONFIG);
    s := ReachStep(true, false, Reached(HOST_CONFIG), false, STOP);
    assert s.main == Rolling(Load) && s.rb == Reached(HOST_CONFIG).rb;
    s := ReachStep(true, false, s, true, Watch(true, true));
    s := ReachStep(true, true, s, true, Watch(true, true));
    s := ReachStep(true, true, s, true, GO);
  }

  /** Store, measure and call of the only undo, by the watcher and by the main run. */
  lemma WatcherCalls(s: Run)
    requires s.watch == Watching(Store) && s.rb.regs == [CleanBundle] && s.watchPass == NO_PASS
    ensures var w := Watch(true, true);
      var r := Apply(true, true, Apply(true, true, Apply(true, true, s, w), w), w);
      r.watchPass.calls == [0] && r.main == s.main && r.mainPass == s.mainPass && r.rb.regs == s.rb.regs
  {
    var w := Watch(true, true);
    var r1 := Apply(true, true, s, w);
    assert r1 == s.(watch := Watching(Measure), rb := s.rb.(executed := true));
    var r2 := Apply(true, true, r1, w);
    assert r2 == r1.(watch := Watching(Call(1)), watchPass := Pass(Some(1), []));
  }

  lemma MainCalls(s: Run)
    requires s.main == Rolling(Store) && s.rb.regs == [CleanBundle] && s.mainPass == NO_PASS
    ensures var r := Apply(true, true, Apply(true, true, Apply(true, true, s, GO), GO), GO);
      r.mainPass.calls == [0] && r.watchPass == s.watchPass
  {
    var r1 := Apply(true, true, s, GO);
    assert r1 == s.(main := Rolling(Measure), rb := s.rb.(executed := true));
    var r2 := Apply(true, true, r1, GO);
    assert r2 == r1.(main := Rolling(Call(1)), mainPass := Pass(Some(1), []));
  }

  /** With the load and the store of `run` apart, the same undo can be called by both threads. */
  lemma UndoCalledTwice()
    ensures exists s :: Reach(true, true, s) && s.mainPass.calls == [0] && s.watchPass.calls == [0]
  {
    var s := BothPassedCheck();
    WatcherCalls(s);
    s := ThreeSteps(s, Watch(true, true));
    MainCalls(s);
    s := ThreeSteps(s, GO);
  }

  lemma ThreeSteps(s0: Run, a: Act) returns (s: Run)
    requires Reach(true, true, s0)
    ensures Reach(true, true, s) && s == Apply(true, true, Apply(true, true, Apply(true, true, s0, a), a), a)
  {
    s := ReachStep(true, true, s0, true, a);
    s := ReachStep(true, true, s, true, a);
    s := ReachStep(true, true, s, true, a);
  }

  /** The watcher has rolled back and left while the run is still at `step`. */
  predicate Late(s: Run, step: Step) {
    && s.watch.Gone? && s.rb.executed && s.rb.slot.None? && s.main == Work(step)
    && s.watchPass.calls == [0] && !s.undoFailed
  }

  lemma LateStep(s: Run, step: Step)
    requires Late(s, step) && HOST_CONFIG <= step < PREPARE_SHM
    ensures var s' := Apply(false, true, s, GO);
      Late(s', step + 1) && (s'.world.rootfs <==> s.world.rootfs || step == GENERATE_ROOTFS)
  {
    if !IsRegister(step) { assert Apply(false, true, s, GO) == Succeed(s, step); }
  }

  lemma LateFailure(s: Run)
    requires Late(s, SAVE_V2)
    ensures var s1 := Apply(false, true, s, STOP);
      s1 == s.(main := Rolling(Load), retErr := true, failedAt := Some(SAVE_V2))
  {
    assert Apply(false, true, s, STOP) == Fail(s, SAVE_V2, false);
  }

  lemma LateEnd(s: Run)
    requires s.main == Rolling(Load) && s.rb.executed && s.rb.slot.None?
    ensures var s3 := Apply(false, true, Apply(false, true, Apply(false, true, s, GO), GO), GO);
      s3 == s.(main := Returned, rb := s.rb.(slot := Some(true), chClosed := true))
  {
    assert Apply(false, true, s, GO) == s.(main := Sending);
  }

  /** A signal between the first two registrations lets the watcher remove the directory meanwhile ... */
  lemma SignalAt(step: Step) returns (s: Run)
    requires HOST_CONFIG <= step <= REGISTER_ROOTFS
    ensures Reach(false, true, s) && Late(s, step) && (step > GENERATE_ROOTFS ==> s.world.rootfs)
  {
    ReachWork(false, step);
    WatchersPass(Reached(step));
    s := ReachStep(false, false, Reached(step), true, Watch(true, true));
    s := ReachStep(false, true, s, true, Watch(true, true));
    s := ReachStep(false, true, s, true, Watch(true, true));
    s := ReachStep(false, true, s, true, Watch(true, true));
  }

  /** The watcher's pass when only the directory is registered. */
  lemma WatchersPass(s: Run)
    requires s.watch == Select && s.rb == NEW_ROLLBACK.(regs := [CleanBundle]) && s.watchPass == NO_PASS
    requires !s.world.shm
    ensures var w := Watch(true, true);
      var s1 := Apply(false, true, s, w);
      var s2 := Apply(false, true, s1, w);
      var s3 := Apply(false, true, s2, w);
      Apply(false, true, s3, w) == s.(
        watch := Gone, rb := s.rb.(executed := true), watchPass := Pass(Some(1), [0]),
        world := s.world.(bundle := false))
  {
    var w := Watch(true, true);
    var s1 := Apply(false, true, s, w);
    assert s1 == s.(watch := Watching(Load));
    var s2 := Apply(false, true, s1, w);
    assert s2 == s.(watch := Watching(Call(1)), rb := s.rb.(executed := true), watchPass := Pass(Some(1), []));
    var s3 := Apply(false, true, s2, w);
    assert s3 == s2.(watch := Watching(Call(0)), watchPass := Pass(Some(1), [0]), world := s.world.(bundle := false));
  }

  /** ... and the run goes on, fails later, finds the rollback done, and leaves the rootfs it
      has acquired since. */
  lemma SignalLeaksRootfs()
    ensures exists s ::
      (Reach(false, true, s) && s.main.Returned? && s.failedAt == Some(SAVE_V2) && s.watch.Gone? && s.world.rootfs)
  {
    var s := SignalAt(LOAD_V2);
    LateStep(s, LOAD_V2);
    s := ReachStep(false, true, s, true, GO);
    LateStep(s, GENERATE_ROOTFS);
    s := ReachStep(false, true, s, true, GO);
    LateFailure(s);
    s := ReachStep(false, true, s, true, STOP);
    s := ReachEnd(s);
  }

  /** From a failure after the rollback has been done to the end. */
  lemma ReachEnd(s0: Run) returns (s: Run)
    requires Reach(false, true, s0) && s0.main == Rolling(Load) && s0.rb.executed && s0.rb.slot.None?
    ensures Reach(false, true, s) && s == s0.(main := Returned, rb := s0.rb.(slot := Some(true), chClosed := true))
  {
    LateEnd(s0);
    s := ReachStep(false, true, s0, true, GO);
    s := ReachStep(false, true, s, true, GO);
    s := ReachStep(false, true, s, true, GO);
  }

  lemma LateMount(s: Run)
    requires Late(s, PREPARE_SHM)
    ensures var s1 := Apply(false, true, s, Main(false, true));
      s1 == s.(main := Rolling(Load), retErr := true, failedAt := Some(PREPARE_SHM), remade := true,
               world := s.world.(bundle := true))
  {
    assert Apply(false, true, s, Main(false, true)) == Fail(s, PREPARE_SHM, true);
  }

  /** The other way to leave something behind: the watcher has removed the directory, and a mount that
      fails afterwards has made it again. */
  lemma MountMakesDirectoryAgain()
    ensures exists s ::
      (Reach(false, true, s) && s.main.Returned? && s.watch.Gone? && s.remade && s.world.bundle && !s.undoFailed)
  {
    var s := SignalAt(REGISTER_ROOTFS);
    LateStep(s, REGISTER_ROOTFS);
    s := ReachStep(false, true, s, true, GO);
    LateMount(s);
    s := ReachStep(false, true, s, true, Main(false, true));
    s := ReachEnd(s);
    assert s.remade && s.world.bundle;
  }
}
