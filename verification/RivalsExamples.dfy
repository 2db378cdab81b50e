/** Interleavings in which the bundle directory does not keep two runs on one container apart. */
module RivalsExamples {
  import opened Options
  import opened Saga
  import opened Rivals

  const CLEAN := World(false, false, false, false)

  ghost predicate Leads(m: Mode, sig: bool, vs: seq<Move>, s: Arena) {
    Scheduled(vs) && (!sig ==> Silent(vs)) && Rivals.Exec(m, CLEAN, 2, vs) == s
  }

  /** Two runs can get there from a clean world; `sig` tells whether the signal has arrived. */
  ghost predicate Reach(m: Mode, sig: bool, s: Arena) { exists vs: seq<Move> :: Leads(m, sig, vs, s) }

  lemma ReachBegin(m: Mode)
    ensures Reach(m, false, Begin(CLEAN, 2))
  {
    assert Leads(m, false, [], Begin(CLEAN, 2));
  }

  lemma ReachTurn(m: Mode, sig: bool, s: Arena, sig': bool, i: nat, a: Act) returns (s': Arena)
    requires Reach(m, sig, s) && (sig ==> sig')
    ensures s' == Turn(m, s, Move(i, Event(sig', a))) && Reach(m, sig', s')
  {
    var vs: seq<Move> :| Leads(m, sig, vs, s);
    var vs' := vs + [Move(i, Event(sig', a))];
    assert vs'[..|vs|] == vs;
    s' := Turn(m, s, Move(i, Event(sig', a)));
    assert Leads(m, sig', vs', s');
  }

  const GO := Main(true, false)
  const STOP := Main(false, false)

  /** Both runs are about to make the directory. */
  predicate AtTheDoor(s: Arena) {
    && |s.runs| == 2 && s.absent == {} && !s.world.bundle && !s.world.shm
    && (forall i :: 0 <= i < 2 ==>
          && s.runs[i].main == Work(PREPARE_BUNDLE) && s.runs[i].watch == Select
          && s.runs[i].rb == NEW_ROLLBACK && s.runs[i].mainPass == NO_PASS && s.runs[i].watchPass == NO_PASS)
  }

  lemma StartRun(m: Mode, s: Arena, i: nat) returns (s': Arena)
    requires Reach(m, false, s) && i < |s.runs| && s.runs[i].main.Idle?
    ensures Reach(m, false, s') && s'.absent == s.absent
    ensures s'.runs == s.runs[i := s.runs[i].(world := s.world, main := Work(PAUSE), watch := Select)]
    ensures s'.world == s.world
  {
    s' := ReachTurn(m, false, s, false, i, GO);
  }

  lemma PauseRun(m: Mode, s: Arena, i: nat) returns (s': Arena)
    requires Reach(m, false, s) && i < |s.runs| && s.runs[i].main == Work(PAUSE)
    ensures Reach(m, false, s') && s'.absent == s.absent
    ensures s'.world == s.world.(paused := true)
    ensures s'.runs == s.runs[i := s.runs[i].(world := s'.world, main := Work(PREPARE_BUNDLE), retErr := false)]
  {
    s' := ReachTurn(m, false, s, false, i, GO);
    assert Moved(m, s, Move(i, Event(false, GO))) == Succeed(s.runs[i].(world := s.world), PAUSE);
  }

  lemma ReachDoor(m: Mode) returns (s: Arena)
    ensures Reach(m, false, s) && AtTheDoor(s)
  {
    ReachBegin(m);
    s := Begin(CLEAN, 2);
    assert s.runs[0] == Start(CLEAN) && s.runs[1] == Start(CLEAN);
    s := StartRun(m, s, 0);
    s := StartRun(m, s, 1);
    s := PauseRun(m, s, 0);
    s := PauseRun(m, s, 1);
  }

  /** The run gets past making the directory. */
  lemma MakeDirectory(m: Mode, sig: bool, s: Arena, i: nat) returns (s': Arena)
    requires Reach(m, sig, s) && i < |s.runs| && s.runs[i].main == Work(PREPARE_BUNDLE)
    requires i in s.absent || (!m.apart && !s.world.bundle)
    ensures Reach(m, sig, s') && s'.absent == s.absent
    ensures s'.runs == s.runs[i := s.runs[i].(world := Seen(s, Move(i, Event(sig, GO))).(bundle := true),
                                              main := Work(REGISTER_BUNDLE), retErr := false)]
    ensures s'.world == s.world.(bundle := true)
  {
    s' := ReachTurn(m, sig, s, sig, i, GO);
    var run := s.runs[i].(world := Seen(s, Move(i, Event(sig, GO))));
    assert Moved(m, s, Move(i, Event(sig, GO))) == Succeed(run, PREPARE_BUNDLE);
  }

  lemma Look(m: Mode, s: Arena, i: nat) returns (s': Arena)
    requires m.apart && Reach(m, false, s) && i < |s.runs| && s.runs[i].main == Work(PREPARE_BUNDLE)
    requires !s.world.bundle && i !in s.absent
    ensures Reach(m, false, s') && s' == s.(absent := s.absent + {i})
  {
    s' := ReachTurn(m, false, s, false, i, GO);
  }

  /** With the look for the directory and its creation apart, both runs get past, without any signal. */
  lemma BothGetPast(m: Mode)
    requires m.apart
    ensures exists s :: Reach(m, false, s) && !OneHolder(s)
  {
    var s := ReachDoor(m);
    s := Look(m, s, 0);
    s := Look(m, s, 1);
    s := MakeDirectory(m, false, s, 0);
    s := MakeDirectory(m, false, s, 1);
    assert Holds(s.runs[0]) && Holds(s.runs[1]);
  }

  /** Run 0 has registered the directory, has failed, and both its threads have seen the flag unset. */
  predicate AboutToRemove(s: Arena) {
    && |s.runs| == 2 && s.absent == {} && s.world.bundle && !s.world.shm
    && s.runs[0].main == Rolling(Store) && s.runs[0].watch == Watching(Store)
    && s.runs[0].rb == NEW_ROLLBACK.(regs := [CleanBundle])
    && s.runs[1].main == Work(PREPARE_BUNDLE) && s.runs[1].mainPass == NO_PASS && s.runs[1].watchPass == NO_PASS
  }

  lemma ReachRegistered(m: Mode) returns (s: Arena)
    requires m.fine && !m.apart
    ensures Reach(m, false, s) && |s.runs| == 2 && s.absent == {} && s.world.bundle && !s.world.shm
    ensures s.runs[0].main == Work(HOST_CONFIG) && s.runs[0].watch == Select
    ensures s.runs[0].rb == NEW_ROLLBACK.(regs := [CleanBundle])
    ensures s.runs[1].main == Work(PREPARE_BUNDLE) && s.runs[1].mainPass == NO_PASS && s.runs[1].watchPass == NO_PASS
  {
    s := ReachDoor(m);
    s := MakeDirectory(m, false, s, 0);
    s := ReachTurn(m, false, s, false, 0, GO);
    assert s.runs[0].rb.regs == [CleanBundle];
  }

  lemma FailRun(m: Mode, s0: Arena) returns (s: Arena)
    requires Reach(m, false, s0) && |s0.runs| == 2 && s0.absent == {}
    requires s0.runs[0].main == Work(HOST_CONFIG)
    ensures Reach(m, false, s) && s.absent == {} && s.world == s0.world
    ensures s.runs == s0.runs[0 := s0.runs[0].(world := s0.world, failedAt := Some(HOST_CONFIG), retErr := true,
                                               main := Rolling(Load))]
  {
    s := ReachTurn(m, false, s0, false, 0, STOP);
    assert Moved(m, s0, Move(0, Event(false, STOP))) == Fail(s0.runs[0].(world := s0.world), HOST_CONFIG, false);
  }

  /** A move of a run that no look has misled: the run's step on the shared world. */
  lemma PlainTurn(m: Mode, sig: bool, s: Arena, sig': bool, i: nat, a: Act) returns (s': Arena)
    requires Reach(m, sig, s) && (sig ==> sig') && i < |s.runs| && !m.apart && s.absent == {}
    ensures Reach(m, sig', s') && s'.absent == {}
    ensures var run := Apply(m.fine, sig', s.runs[i].(world := s.world), a);
      s'.runs == s.runs[i := run] && s'.world == run.world
  {
    s' := ReachTurn(m, sig, s, sig', i, a);
  }

  /** Signal, the watcher's load, the main run's load. */
  lemma LoadsOf(run: Run)
    requires run.main == Rolling(Load) && run.watch == Select && !run.rb.closed && !run.rb.executed
    ensures Apply(true, true, run, Watch(true, true)) == run.(watch := Watching(Load))
    ensures Apply(true, true, run.(watch := Watching(Load)), Watch(true, true)) == run.(watch := Watching(Store))
    ensures Apply(true, true, run.(watch := Watching(Store)), GO)
      == run.(watch := Watching(Store), main := Rolling(Store))
  {
  }

  lemma LoadBoth(m: Mode, s0: Arena) returns (s: Arena)
    requires m.fine && !m.apart && Reach(m, false, s0) && |s0.runs| == 2 && s0.absent == {}
    requires s0.runs[0].main == Rolling(Load) && s0.runs[0].watch == Select
    requires !s0.runs[0].rb.closed && !s0.runs[0].rb.executed
    ensures Reach(m, true, s) && s.absent == {} && s.world == s0.world
    ensures |s.runs| == 2 && s.runs[1] == s0.runs[1]
    ensures s.runs[0] == s0.runs[0].(world := s0.world, main := Rolling(Store), watch := Watching(Store))
  {
    LoadsOf(s0.runs[0].(world := s0.world));
    s := PlainTurn(m, false, s0, true, 0, Watch(true, true));
    s := PlainTurn(m, true, s, true, 0, Watch(true, true));
    s := PlainTurn(m, true, s, true, 0, GO);
  }

  lemma ReachAboutToRemove(m: Mode) returns (s: Arena)
    requires m.fine && !m.apart
    ensures Reach(m, true, s) && AboutToRemove(s)
  {
    s := ReachRegistered(m);
    s := FailRun(m, s);
    s := LoadBoth(m, s);
  }

  /** With the load and the store of the flag apart, a signal can make one run call the removal twice,
      and the second time it removes the directory that the other run has made meanwhile. */
  lemma RemovedUnderTheOther(m: Mode)
    requires m.fine && !m.apart
    ensures exists s :: Reach(m, true, s) && !OneHolder(s)
  {
    var s := ReachAboutToRemove(m);
    s := MainCleans(m, s);
    s := MakeDirectory(m, true, s, 1);
    assert Holds(s.runs[1]);
    s := WatcherCleans(m, s);
    assert Holds(s.runs[1]) && !s.world.bundle;
  }

  /** One pass of a run whose only undo removes the directory: store, measure, call. */
  lemma MainPassOf(run: Run)
    requires run.main == Rolling(Store) && run.rb.regs == [CleanBundle] && !run.world.shm
    ensures var r1 := Apply(true, true, run, GO);
      var r2 := Apply(true, true, r1, GO);
      var r3 := Apply(true, true, r2, GO);
      && r1.world == r2.world == run.world && r3.world == run.world.(bundle := false)
      && r3.watch == run.watch && r3.rb.regs == run.rb.regs
  {
    var r1 := Apply(true, true, run, GO);
    assert r1.main == Rolling(Measure);
    var r2 := Apply(true, true, r1, GO);
    assert r2.main == Rolling(Call(1)) && r2.rb.regs == run.rb.regs;
  }

  lemma WatchPassOf(run: Run)
    requires run.watch == Watching(Store) && run.rb.regs == [CleanBundle] && !run.world.shm
    ensures var r1 := Apply(true, true, run, Watch(true, true));
      var r2 := Apply(true, true, r1, Watch(true, true));
      var r3 := Apply(true, true, r2, Watch(true, true));
      r1.world == r2.world == run.world && r3.world == run.world.(bundle := false)
  {
    var r1 := Apply(true, true, run, Watch(true, true));
    assert r1.watch == Watching(Measure);
    var r2 := Apply(true, true, r1, Watch(true, true));
    assert r2.watch == Watching(Call(1)) && r2.rb.regs == run.rb.regs;
  }

  /** The first removal, by the main run's pass; the watcher waits before its store. */
  lemma MainCleans(m: Mode, s0: Arena) returns (s: Arena)
    requires m.fine && !m.apart && Reach(m, true, s0) && AboutToRemove(s0)
    ensures Reach(m, true, s) && |s.runs| == 2 && s.absent == {} && s.runs[1] == s0.runs[1]
    ensures !s.world.bundle && !s.world.shm
    ensures s.runs[0].watch == Watching(Store) && s.runs[0].rb.regs == [CleanBundle]
  {
    MainPassOf(s0.runs[0].(world := s0.world));
    s := ThreeTurns(m, s0, GO);
  }

  /** The second removal, by the watcher's pass. */
  lemma WatcherCleans(m: Mode, s0: Arena) returns (s: Arena)
    requires m.fine && !m.apart && Reach(m, true, s0) && |s0.runs| == 2 && s0.absent == {}
    requires s0.world.bundle && !s0.world.shm
    requires s0.runs[0].watch == Watching(Store) && s0.runs[0].rb.regs == [CleanBundle]
    ensures Reach(m, true, s) && |s.runs| == 2 && s.runs[1] == s0.runs[1] && !s.world.bundle
  {
    WatchPassOf(s0.runs[0].(world := s0.world));
    s := ThreeTurns(m, s0, Watch(true, true));
  }

  lemma ThreeTurns(m: Mode, s0: Arena, a: Act) returns (s: Arena)
    requires m.fine && !m.apart && Reach(m, true, s0) && |s0.runs| == 2 && s0.absent == {}
    ensures Reach(m, true, s) && s.absent == {}
    ensures |s.runs| == 2 && s.runs[1] == s0.runs[1]
    ensures var run := s0.runs[0].(world := s0.world);
      s.runs[0] == Apply(true, true, Apply(true, true, Apply(true, true, run, a), a), a)
    ensures s.world == s.runs[0].world
  {
    s := PlainTurn(m, true, s0, true, 0, a);
    s := PlainTurn(m, true, s, true, 0, a);
    s := PlainTurn(m, true, s, true, 0, a);
  }

  // ------------------------------------------------------------ the exact conditions

  ghost predicate AlwaysOneHolder(m: Mode, signals: bool) {
    forall w0, n: nat, vs: seq<Move> ::
      Scheduled(vs) && (signals || Silent(vs)) ==> OneHolder(Rivals.Exec(m, w0, n, vs))
  }

  lemma NotAlways(m: Mode, sig: bool, s: Arena)
    requires Reach(m, sig, s) && !OneHolder(s)
    ensures !AlwaysOneHolder(m, sig)
  {
    var vs: seq<Move> :| Leads(m, sig, vs, s);
    assert !OneHolder(Rivals.Exec(m, CLEAN, 2, vs));
  }

  lemma {:induction false} SilentIsSignalFree(m: Mode)
    requires AlwaysOneHolder(m, true)
    ensures AlwaysOneHolder(m, false)
  {
    forall w0, n: nat, vs: seq<Move> | Scheduled(vs) && Silent(vs) ensures OneHolder(Rivals.Exec(m, w0, n, vs)) {}
  }

  /** The directory keeps the runs on one container apart exactly when looking for it and making it
      are one step and, if signals may come, so are the load and the store of the rollback's flag. */
  lemma OneHolderIff(m: Mode, signals: bool)
    ensures AlwaysOneHolder(m, signals) <==> !m.apart && !(m.fine && signals)
  {
    if m.apart {
      BothGetPast(m);
      var s :| Reach(m, false, s) && !OneHolder(s);
      NotAlways(m, false, s);
      if AlwaysOneHolder(m, true) { SilentIsSignalFree(m); }
    } else if m.fine && signals {
      RemovedUnderTheOther(m);
      var s :| Reach(m, true, s) && !OneHolder(s);
      NotAlways(m, true, s);
    } else {
      forall w0, n: nat, vs: seq<Move> | Scheduled(vs) && (signals || Silent(vs))
        ensures OneHolder(Rivals.Exec(m, w0, n, vs))
      {
        ExecOneHolder(m, !signals, w0, n, vs);
      }
    }
  }
}
