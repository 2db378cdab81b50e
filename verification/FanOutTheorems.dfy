/** What `Transform` promises over every interleaving of its threads. */
module FanOutTheorems {
  import opened Lists
  import opened Claims
  import opened FanOut
  import opened FanOutSafety
  import opened Options
  import S = Saga
  import ST = SagaTheorems

  // ------------------------------------------------------------ results

  /** The workers are the requested ones throughout. */
  lemma StepKeepsIds(c: Config, s: Sys, a: Act)
    ensures var s' := Step(c, s, a);
      |s'.workers| == |s.workers| && forall i :: 0 <= i < |s.workers| ==> s'.workers[i].id == s.workers[i].id
  {
    match a
    case Coordinate =>
    case Work(i, m) =>
      if i < |s.workers| {
        assert WorkerStep(c, s, i, m).workers[i].id == s.workers[i].id;
      }
    case Inside(i, act) =>
    case Signal =>
    case Receive =>
  }

  lemma {:induction false} ExecIds(c: Config, store: Store, ids: seq<string>, acts: seq<Act>)
    ensures var s := Exec(c, store, ids, acts);
      |s.workers| == |ids| && forall i :: 0 <= i < |ids| ==> s.workers[i].id == ids[i]
  {
    if acts != [] {
      var n := |acts| - 1;
      ExecIds(c, store, ids, acts[..n]);
      StepKeepsIds(c, Exec(c, store, ids, acts[..n]), acts[n]);
    }
  }

  function Positions(n: nat): (r: seq<nat>)
    ensures |r| == n && forall i :: 0 <= i < n ==> r[i] == i
  {
    seq(n, i requires 0 <= i < n => i)
  }

  lemma PositionsMembers(n: nat)
    ensures Distinct(Positions(n)) && forall i: nat :: i in Positions(n) <==> i < n
  {
    forall i: nat | i < n ensures i in Positions(n) { assert Positions(n)[i] == i; }
  }

  /** Result conservation: nobody ever sends on the closed channel, and when it is closed every
      requested position, duplicates included, has sent exactly one result, for its own id, with
      a verdict that says what happened to its worker. */
  lemma ResultConservation(c: Config, store: Store, ids: seq<string>, acts: seq<Act>)
    ensures var s := Exec(c, store, ids, acts);
      && !s.chan.panicked
      && Truthful(store, s.workers, Sent(s.chan))
      && (s.chan.closed ==>
        && multiset(Senders(Sent(s.chan))) == multiset(Positions(|ids|))
        && forall r :: r in Sent(s.chan) ==> r.worker < |ids| && r.id == ids[r.worker])
  {
    var s := Exec(c, store, ids, acts);
    ExecInv(c, store, ids, acts);
    ExecIds(c, store, ids, acts);
    if s.chan.closed {
      PositionsMembers(|ids|);
      SameMultiset(Senders(Sent(s.chan)), Positions(|ids|));
      forall r | r in Sent(s.chan) ensures r.worker < |ids| && r.id == ids[r.worker] {
        var k :| 0 <= k < |Sent(s.chan)| && Sent(s.chan)[k] == r;
      }
    }
  }

  /** The wait groups never go below zero, count the busy workers and the live watchers, and when
      `Transform` has returned neither is left. */
  lemma WaitGroupsExact(c: Config, store: Store, ids: seq<string>, acts: seq<Act>)
    ensures var s := Exec(c, store, ids, acts);
      && s.wg == Count(Busy, s.workers) && s.signalWg == Count(Watched, s.workers)
      && (s.coord.Returned? ==> s.wg == 0 && s.signalWg == 0)
      && (s.coord.Returned? ==> forall i :: 0 <= i < |s.workers| ==> s.workers[i].pc.Ended? && !Watched(s.workers[i]))
  {
    var s := Exec(c, store, ids, acts);
    ExecInv(c, store, ids, acts);
    CountZero(Busy, s.workers);
    CountZero(Watched, s.workers);
  }

  /** The channel never holds more results than its capacity. */
  lemma {:induction false} QueueBounded(c: Config, store: Store, ids: seq<string>, acts: seq<Act>)
    ensures |Exec(c, store, ids, acts).chan.queue| <= c.capacity
  {
    if acts != [] {
      var n := |acts| - 1;
      QueueBounded(c, store, ids, acts[..n]);
      QueueGrows(c, Exec(c, store, ids, acts[..n]), acts[n]);
    }
  }

  lemma QueueGrows(c: Config, s: Sys, a: Act)
    ensures |Step(c, s, a).chan.queue| <= |s.chan.queue| || |Step(c, s, a).chan.queue| <= c.capacity
  {
    match a
    case Coordinate =>
    case Work(i, m) => if i < |s.workers| { WorkerQueue(c, s, i, m); }
    case Inside(i, act) =>
    case Signal =>
    case Receive =>
  }

  lemma WorkerQueue(c: Config, s: Sys, i: nat, m: Match)
    requires i < |s.workers|
    ensures var s' := WorkerStep(c, s, i, m);
      s'.chan.queue == s.chan.queue || |s'.chan.queue| == |s.chan.queue| + 1 <= c.capacity
  {
  }

  /** A signal reaches every watcher that waits for it: each may begin its pass. */
  lemma SignalReaches(c: Config, store: Store, ids: seq<string>, acts: seq<Act>, i: nat, ok: bool)
    requires i < |ids|
    ensures var s := Exec(c, store, ids, acts + [Signal] + [Inside(i, S.Watch(true, ok))]);
      && |Exec(c, store, ids, acts).workers| == |ids| == |s.workers|
      && (Exec(c, store, ids, acts).workers[i].run.watch.Select? ==> s.workers[i].run.watch == S.Watching(S.Load))
  {
    ExecIds(c, store, ids, acts);
    assert (acts + [Signal])[..|acts|] == acts;
    var two := acts + [Signal] + [Inside(i, S.Watch(true, ok))];
    assert two[..|acts| + 1] == acts + [Signal];
    ExecIds(c, store, ids, two);
  }

  // ------------------------------------------------------------ claims

  /** No container is transformed by two workers, and every new flag belongs to one. */
  lemma ClaimUniqueness(c: Config, store: Store, ids: seq<string>, acts: seq<Act>)
    ensures var s := Exec(c, store, ids, acts);
      && s.store.Keys == store.Keys
      && (forall i, j :: 0 <= i < j < |s.workers| && s.workers[i].claim.Some? ==>
            s.workers[i].claim != s.workers[j].claim)
      && (forall k :: k in store ==>
            (s.store[k] <==> store[k] || HasClaim(s.workers, k)) && !(store[k] && HasClaim(s.workers, k)))
  {
    var s := Exec(c, store, ids, acts);
    ExecInv(c, store, ids, acts);
    forall k | k in store && HasClaim(s.workers, k) ensures s.store[k] && !store[k] {
      var i :| 0 <= i < |s.workers| && s.workers[i].claim == Some(k);
      assert ClaimOk(store, s.store, s.workers[i]);
    }
  }

  /** Whatever the workers, the watchers and the signal do, a container whose bundle directory was
      there before keeps it, and its rootfs and mount with it. */
  lemma ForeignBundlesSurvive(c: Config, store: Store, ids: seq<string>, acts: seq<Act>, i: nat)
    ensures var s := Exec(c, store, ids, acts);
      i < |s.workers| && s.workers[i].claim.Some? && c.world(s.workers[i].claim.value).bundle ==>
        var w0, w := c.world(s.workers[i].claim.value), s.workers[i].run.world;
        w.bundle && w.rootfs == w0.rootfs && w.shm == w0.shm
  {
    ExecInv(c, store, ids, acts);
  }

  /** The request of `--all`: every stored container, once, in whatever order the map yields them. */
  ghost predicate AllRequest(store: Store, ids: seq<string>) {
    && (forall k :: k in store ==> !store[k] && |k| == CONTAINER_ID_LEN)
    && Distinct(ids) && forall k :: k in ids <==> k in store
  }

  /** Each worker has its own container, or has not asked yet and finds it unclaimed. */
  ghost predicate Own(store: Store, w: Worker) {
    w.id in store &&
    if w.pc.Unspawned? || w.pc.Matching? then w.claim.None? && !store[w.id] else w.claim == Some(w.id)
  }

  ghost predicate AllOwn(ids: seq<string>, s: Sys) {
    && |s.workers| == |ids| && (forall i :: 0 <= i < |ids| ==> s.workers[i].id == ids[i])
    && (forall k :: k in s.store ==> |k| == CONTAINER_ID_LEN)
    && forall i :: 0 <= i < |s.workers| ==> Own(s.store, s.workers[i])
  }

  lemma OwnSet(ids: seq<string>, s: Sys, i: nat, w: Worker)
    requires Distinct(ids) && AllOwn(ids, s) && i < |ids|
    requires w.id == s.workers[i].id && Own(s.store, w)
    ensures AllOwn(ids, SetWorker(s, i, w))
  {
  }

  lemma OwnClaim(ids: seq<string>, s: Sys, i: nat, w: Worker)
    requires Distinct(ids) && AllOwn(ids, s) && i < |ids|
    requires w.id == ids[i] && w.claim == Some(w.id) && !w.pc.Unspawned? && !w.pc.Matching?
    ensures AllOwn(ids, SetWorker(s, i, w).(store := s.store[w.id := true]))
  {
    forall j | 0 <= j < |ids| && j != i ensures ids[j] != ids[i] {}
  }

  lemma OwnWorkerStep(c: Config, ids: seq<string>, s: Sys, i: nat, m: Match)
    requires Distinct(ids) && AllOwn(ids, s) && i < |ids|
    ensures AllOwn(ids, WorkerStep(c, s, i, m))
  {
    var w := s.workers[i];
    assert Own(s.store, w);
    match w.pc
    case Matching =>
      if m.id == w.id && Answers(s.store, m) {
        FullIdMatchesItself(s.store, m);
        OwnClaim(ids, s, i, w.(pc := Transforming, claim := Some(w.id), run := S.Start(c.world(w.id))));
      }
    case Transforming => OwnSet(ids, s, i, w.(pc := Reporting(Finished(w.run.failedAt))));
    case Reporting(v) => OwnSet(ids, s, i, w.(pc := Signing));
    case Signing => OwnSet(ids, s, i, w.(pc := Ended));
    case _ =>
  }

  lemma OwnSpawn(ids: seq<string>, s: Sys, k: nat)
    requires Distinct(ids) && AllOwn(ids, s) && Phase(s.workers, s.coord) && s.coord == Spawning(k) && k < |ids|
    ensures AllOwn(ids, CoordStep(s))
  {
    assert Own(s.store, s.workers[k]) && s.workers[k].pc.Unspawned?;
    OwnSet(ids, s, k, s.workers[k].(pc := Matching));
  }

  lemma OwnInside(c: Config, ids: seq<string>, s: Sys, i: nat, act: S.Act)
    requires Distinct(ids) && AllOwn(ids, s) && i < |ids|
    ensures AllOwn(ids, InsideStep(c, s, i, act))
  {
    assert Own(s.store, s.workers[i]);
    OwnSet(ids, s, i, InsideStep(c, s, i, act).workers[i]);
  }

  lemma OwnStep(c: Config, ids: seq<string>, s: Sys, a: Act)
    requires Distinct(ids) && AllOwn(ids, s) && Phase(s.workers, s.coord)
    ensures AllOwn(ids, Step(c, s, a))
  {
    match a
    case Coordinate => if s.coord.Spawning? && s.coord.next < |ids| { OwnSpawn(ids, s, s.coord.next); }
    case Work(i, m) => if i < |ids| { OwnWorkerStep(c, ids, s, i, m); }
    case Inside(i, act) => if i < |ids| { OwnInside(c, ids, s, i, act); }
    case Signal =>
    case Receive =>
  }

  lemma {:induction false} ExecOwn(c: Config, store: Store, ids: seq<string>, acts: seq<Act>)
    requires AllRequest(store, ids)
    ensures AllOwn(ids, Exec(c, store, ids, acts))
  {
    if acts == [] {
      var s := Init(store, ids);
      forall i | 0 <= i < |ids| ensures Own(s.store, s.workers[i]) { assert ids[i] in ids; }
    } else {
      var n := |acts| - 1;
      ExecOwn(c, store, ids, acts[..n]);
      ExecInv(c, store, ids, acts[..n]);
      OwnStep(c, ids, Exec(c, store, ids, acts[..n]), acts[n]);
    }
  }

  /** `--all` covers everything once: every worker that gets past `matchID` has claimed the very
      container it was started for, and at the end every container is claimed and flagged. */
  lemma AllContainersOnce(c: Config, store: Store, ids: seq<string>, acts: seq<Act>)
    requires AllRequest(store, ids)
    ensures var s := Exec(c, store, ids, acts);
      && (forall i :: 0 <= i < |ids| && i < |s.workers| && s.workers[i].claim.Some? ==>
            s.workers[i].claim.value == ids[i])
      && (s.chan.closed ==> forall k :: k in store ==> k in s.store && s.store[k])
      && (s.chan.closed ==> forall r :: r in Sent(s.chan) ==> r.verdict.Finished?)
  {
    var s := Exec(c, store, ids, acts);
    ExecInv(c, store, ids, acts);
    ExecOwn(c, store, ids, acts);
    forall i | 0 <= i < |ids| ensures Own(s.store, s.workers[i]) {}
    if s.chan.closed {
      AllFlagged(store, ids, s);
      AllFinished(store, ids, s);
    }
  }

  lemma AllFlagged(store: Store, ids: seq<string>, s: Sys)
    requires AllRequest(store, ids) && AllOwn(ids, s) && Claiming(store, s.store, s.workers)
    requires Phase(s.workers, s.coord) && AllEnded(s.coord)
    ensures forall k :: k in store ==> k in s.store && s.store[k]
  {
    forall k | k in store ensures k in s.store && s.store[k] {
      var i :| 0 <= i < |ids| && ids[i] == k;
      assert Own(s.store, s.workers[i]) && ClaimOk(store, s.store, s.workers[i]);
    }
  }

  lemma AllFinished(store: Store, ids: seq<string>, s: Sys)
    requires AllOwn(ids, s) && Truthful(store, s.workers, Sent(s.chan))
    requires Phase(s.workers, s.coord) && AllEnded(s.coord)
    ensures forall r :: r in Sent(s.chan) ==> r.verdict.Finished?
  {
    forall r | r in Sent(s.chan) ensures r.verdict.Finished? {
      var k :| 0 <= k < |Sent(s.chan)| && Sent(s.chan)[k] == r;
      assert Own(s.store, s.workers[r.worker]);
    }
  }

  // ------------------------------------------------------------ progress

  function PcWeight(pc: WorkerPc): nat {
    match pc
    case Unspawned => 120 case Matching => 110 case Transforming => 10 case Reporting(_) => 6
    case Signing => 3 case Ended => 0
  }

  function WorkerWeight(w: Worker): nat {
    PcWeight(w.pc) + if w.claim.Some? then ST.Weight(w.run) else 0
  }

  function Total(ws: seq<Worker>): nat {
    if ws == [] then 0 else Total(ws[..|ws| - 1]) + WorkerWeight(ws[|ws| - 1])
  }

  lemma {:induction false} TotalSet(ws: seq<Worker>, i: nat, w: Worker)
    requires i < |ws|
    ensures Total(ws[i := w]) + WorkerWeight(ws[i]) == Total(ws) + WorkerWeight(w)
  {
    var n := |ws| - 1;
    if i < n {
      TotalSet(ws[..n], i, w);
      assert ws[i := w][..n] == ws[..n][i := w];
    } else {
      assert ws[i := w][..n] == ws[..n];
    }
  }

  function CoordWeight(coord: Coord, n: nat): nat {
    match coord
    case Spawning(k) => 4 + (if k < n then n - k else 0)
    case WaitWorkers => 3 case WaitSignals => 2 case Closing => 1 case Returned => 0
  }

  /** An upper bound on the steps the whole system can still take. */
  function SysWeight(s: Sys): nat {
    Total(s.workers) + CoordWeight(s.coord, |s.workers|) + |s.chan.queue| + Bit(!s.sig)
  }

  lemma MatchProgress(c: Config, s: Sys, i: nat, m: Match)
    requires i < |s.workers| && s.workers[i].pc.Matching? && s.workers[i].claim.None?
    ensures var s' := MatchStep(c, s, i, m); s' == s || SysWeight(s') < SysWeight(s)
  {
    TotalSet(s.workers, i, MatchStep(c, s, i, m).workers[i]);
  }

  lemma SendProgress(c: Config, s: Sys, i: nat, r: Result)
    requires i < |s.workers| && s.workers[i].pc.Reporting? && !s.chan.closed
    ensures var s' := Send(c, s, i, r); s' == s || SysWeight(s') < SysWeight(s)
  {
    TotalSet(s.workers, i, s.workers[i].(pc := Signing));
  }

  lemma WorkerProgress(c: Config, s: Sys, i: nat, m: Match)
    requires i < |s.workers| && Phase(s.workers, s.coord) && Orderly(s.coord, s.chan)
    requires s.workers[i].pc.Matching? ==> s.workers[i].claim.None?
    ensures var s' := WorkerStep(c, s, i, m); s' == s || SysWeight(s') < SysWeight(s)
  {
    var w := s.workers[i];
    match w.pc
    case Matching => MatchProgress(c, s, i, m);
    case Transforming => TotalSet(s.workers, i, w.(pc := Reporting(Finished(w.run.failedAt))));
    case Reporting(v) => SendProgress(c, s, i, Result(i, w.id, v));
    case Signing => TotalSet(s.workers, i, w.(pc := Ended));
    case _ =>
  }

  lemma RunProgress(c: Config, sig: bool, w: Worker, act: S.Act)
    requires WorkerOk(c, w) && (act.Main? ==> w.pc.Transforming?)
    ensures var run := S.Apply(c.fine, sig, w.run, act);
      run == w.run || WorkerWeight(w.(run := run)) < WorkerWeight(w)
  {
    if w.claim.Some? {
      match act
      case Main(ok, odd) => ST.MainProgress(c.fine, w.run, ok, odd);
      case Watch(onSignal, ok) => ST.WatchProgress(c.fine, sig, w.run, onSignal, ok);
    }
  }

  lemma IdleMoves(fine: bool, sig: bool, run: S.Run, act: S.Act)
    ensures run.main.Idle? && act.Main? ==> S.Apply(fine, sig, run, act) != run
  {
  }

  /** A step that changes nothing in the run changes nothing in the wait group either. */
  lemma InsideIdle(c: Config, s: Sys, i: nat, act: S.Act)
    requires i < |s.workers| && S.Apply(c.fine, s.sig, s.workers[i].run, act) == s.workers[i].run
    ensures InsideStep(c, s, i, act) == s
  {
    var w := s.workers[i];
    assert w.(run := w.run) == w && s.workers[i := w] == s.workers;
    IdleMoves(c.fine, s.sig, w.run, act);
  }

  lemma InsideProgress(c: Config, s: Sys, i: nat, act: S.Act)
    requires i < |s.workers| && WorkerOk(c, s.workers[i])
    ensures var s' := InsideStep(c, s, i, act); s' == s || SysWeight(s') < SysWeight(s)
  {
    var w := s.workers[i];
    if act.Watch? || w.pc.Transforming? {
      var run := S.Apply(c.fine, s.sig, w.run, act);
      TotalSet(s.workers, i, w.(run := run));
      RunProgress(c, s.sig, w, act);
      if run == w.run { InsideIdle(c, s, i, act); }
    }
  }

  lemma CoordProgress(s: Sys)
    requires Phase(s.workers, s.coord)
    ensures var s' := CoordStep(s); s' == s || SysWeight(s') < SysWeight(s)
  {
    if s.coord.Spawning? && s.coord.next < |s.workers| {
      TotalSet(s.workers, s.coord.next, s.workers[s.coord.next].(pc := Matching));
    }
  }

  lemma ReceiveProgress(c: Config, s: Sys)
    ensures var s' := Step(c, s, Receive); s' == s || SysWeight(s') < SysWeight(s)
  {
  }

  lemma SignalProgress(c: Config, s: Sys)
    ensures var s' := Step(c, s, Signal); s' == s || SysWeight(s') < SysWeight(s)
  {
  }

  lemma StepProgress(c: Config, store0: Store, s: Sys, a: Act)
    requires Inv(c, store0, s)
    ensures var s' := Step(c, s, a); s' == s || SysWeight(s') < SysWeight(s)
  {
    match a
    case Coordinate => CoordProgress(s);
    case Work(i, m) => if i < |s.workers| { WorkerProgress(c, s, i, m); }
    case Inside(i, act) => if i < |s.workers| { InsideProgress(c, s, i, act); }
    case Signal => SignalProgress(c, s);
    case Receive => ReceiveProgress(c, s);
  }

  /** Every step that changes anything uses up some of a bounded supply, whatever the outside answers. */
  lemma EveryStepCounts(c: Config, store: Store, ids: seq<string>, acts: seq<Act>, a: Act)
    ensures var s, s' := Exec(c, store, ids, acts), Exec(c, store, ids, acts + [a]);
      s' == s || SysWeight(s') < SysWeight(s)
  {
    ExecInv(c, store, ids, acts);
    assert (acts + [a])[..|acts|] == acts;
    StepProgress(c, store, Exec(c, store, ids, acts), a);
  }

  /** `Transform` has returned and the consumer has taken every result. */
  predicate Complete(s: Sys) { s.coord.Returned? && s.chan.queue == [] }

  /** A thread that can move without waiting for a signal. */
  lemma SomeoneMoves(c: Config, store0: Store, s: Sys) returns (a: Act)
    requires Inv(c, store0, s) && !Complete(s) && c.capacity > 0
    ensures a != Signal && Step(c, s, a) != s
  {
    if s.chan.queue != [] {
      a := Receive;
      assert |Step(c, s, a).chan.queue| == |s.chan.queue| - 1;
    } else if s.coord.WaitWorkers? && s.wg > 0 {
      var i := SomeBusy(s.workers);
      a := BusyMoves(c, store0, s, i);
    } else if s.coord.WaitSignals? && s.signalWg > 0 {
      var i := SomeWatched(s.workers);
      a := WatcherLeaves(c, store0, s, i);
    } else {
      a := Coordinate;
      assert Step(c, s, a).coord != s.coord;
    }
  }

  lemma SomeBusy(ws: seq<Worker>) returns (i: nat)
    requires Count(Busy, ws) > 0
    ensures i < |ws| && Busy(ws[i])
  {
    CountZero(Busy, ws);
    i :| 0 <= i < |ws| && Busy(ws[i]);
  }

  lemma SomeWatched(ws: seq<Worker>) returns (i: nat)
    requires Count(Watched, ws) > 0
    ensures i < |ws| && Watched(ws[i])
  {
    CountZero(Watched, ws);
    i :| 0 <= i < |ws| && Watched(ws[i]);
  }

  lemma WatcherLeaves(c: Config, store0: Store, s: Sys, i: nat) returns (a: Act)
    requires Inv(c, store0, s) && i < |s.workers| && Watched(s.workers[i]) && s.workers[i].pc.Ended?
    ensures a != Signal && Step(c, s, a) != s
  {
    var w := s.workers[i];
    assert WorkerOk(c, w) && w.claim.Some?;
    ST.ControlledCanMove(c.fine, w.run);
    a := Inside(i, S.Watch(false, true));
    WatchWithoutSignal(c.fine, s.sig, w.run);
    InsideMoves(c, s, i, S.Watch(false, true));
  }

  /** The branch of the watcher that receives does not depend on the signal. */
  lemma WatchWithoutSignal(fine: bool, sig: bool, run: S.Run)
    ensures S.WatchStep(fine, sig, run, false, true) == S.WatchStep(fine, false, run, false, true)
  {
  }

  /** `matchID` always has an answer. */
  lemma AnAnswer(store: Store, id: string) returns (m: Match)
    ensures m.id == id && Answers(store, m)
  {
    if k :| k in store && id <= k {
      m := Match(id, k, if store[k] then HasBeenTransformed else NeedTransform);
    } else {
      m := Match(id, "", NotExist);
    }
  }

  lemma MatchMoves(c: Config, s: Sys, i: nat, m: Match)
    requires i < |s.workers| && s.workers[i].pc.Matching? && m.id == s.workers[i].id && Answers(s.store, m)
    ensures Step(c, s, Work(i, m)) != s
  {
    assert MatchStep(c, s, i, m).workers[i].pc != s.workers[i].pc;
  }

  lemma FinishMoves(c: Config, s: Sys, i: nat, m: Match)
    requires i < |s.workers| && !s.chan.closed && |s.chan.queue| < c.capacity
    requires var w := s.workers[i];
      (w.pc.Transforming? && w.run.main.Returned?) || w.pc.Reporting? || w.pc.Signing?
    ensures Step(c, s, Work(i, m)) != s
  {
    assert WorkerStep(c, s, i, m).workers[i].pc != s.workers[i].pc;
  }

  lemma InsideMoves(c: Config, s: Sys, i: nat, act: S.Act)
    requires i < |s.workers| && (act.Main? ==> s.workers[i].pc.Transforming?)
    requires S.Apply(c.fine, s.sig, s.workers[i].run, act) != s.workers[i].run
    ensures Step(c, s, Inside(i, act)) != s
  {
    AdvanceMoves(s, i, S.Apply(c.fine, s.sig, s.workers[i].run, act), act);
    InsideIs(c, s, i, act);
  }

  lemma InsideIs(c: Config, s: Sys, i: nat, act: S.Act)
    requires i < |s.workers| && (act.Main? ==> s.workers[i].pc.Transforming?)
    ensures Step(c, s, Inside(i, act)) == Advance(s, i, S.Apply(c.fine, s.sig, s.workers[i].run, act), act)
  {
  }

  lemma AdvanceMoves(s: Sys, i: nat, run: S.Run, act: S.Act)
    requires i < |s.workers| && run != s.workers[i].run
    ensures Advance(s, i, run, act) != s
  {
    assert Advance(s, i, run, act).workers[i].run == run;
  }

  lemma BusyMoves(c: Config, store0: Store, s: Sys, i: nat) returns (a: Act)
    requires Inv(c, store0, s) && i < |s.workers| && Busy(s.workers[i])
    requires s.coord.WaitWorkers? && s.chan.queue == [] && c.capacity > 0
    ensures a != Signal && Step(c, s, a) != s
  {
    var w := s.workers[i];
    assert WorkerOk(c, w);
    if w.pc.Matching? {
      var m := AnAnswer(s.store, w.id);
      a := Work(i, m);
      MatchMoves(c, s, i, m);
    } else if w.pc.Transforming? && !w.run.main.Returned? {
      ST.ControlledCanMove(c.fine, w.run);
      a := Inside(i, S.Main(true, true));
      InsideMoves(c, s, i, S.Main(true, true));
    } else {
      a := Work(i, Match("", "", NotExist));
      FinishMoves(c, s, i, Match("", "", NotExist));
    }
  }

  /** No reachable state is stuck: until `Transform` has returned and its results are drained,
      some thread can move without a signal. */
  lemma NeverStuck(c: Config, store: Store, ids: seq<string>, acts: seq<Act>)
    requires c.capacity > 0
    ensures var s := Exec(c, store, ids, acts);
      Complete(s) || exists a :: a != Signal && Step(c, s, a) != s
  {
    var s := Exec(c, store, ids, acts);
    ExecInv(c, store, ids, acts);
    if !Complete(s) { var a := SomeoneMoves(c, store, s); }
  }
}
