/** Invariants of `Transform` and its workers. */
module FanOutSafety {
  import opened Lists
  import opened Claims
  import opened FanOut
  import opened Options
  import S = Saga
  import SS = SagaSafety

  // ------------------------------------------------------------ counting

  function Bit(b: bool): nat { if b then 1 else 0 }

  function Count<T>(p: T -> bool, s: seq<T>): nat {
    if s == [] then 0 else Count(p, s[..|s| - 1]) + Bit(p(s[|s| - 1]))
  }

  lemma {:induction false} CountUpdate<T>(p: T -> bool, s: seq<T>, i: nat, x: T)
    requires i < |s|
    ensures Count(p, s[i := x]) + Bit(p(s[i])) == Count(p, s) + Bit(p(x))
  {
    var n := |s| - 1;
    if i < n {
      CountUpdate(p, s[..n], i, x);
      assert s[i := x][..n] == s[..n][i := x];
    } else {
      assert s[i := x][..n] == s[..n];
    }
  }

  lemma {:induction false} CountZero<T>(p: T -> bool, s: seq<T>)
    ensures Count(p, s) == 0 <==> forall i :: 0 <= i < |s| ==> !p(s[i])
  {
    if s != [] {
      var n := |s| - 1;
      CountZero(p, s[..n]);
      assert forall i :: 0 <= i < n ==> s[..n][i] == s[i];
    }
  }

  // ------------------------------------------------------------ the workers

  predicate Busy(w: Worker) { !w.pc.Unspawned? && !w.pc.Ended? }

  predicate Watched(w: Worker) { w.run.watch.Select? || w.run.watch.Watching? }

  predicate Reported(w: Worker) { w.pc.Signing? || w.pc.Ended? }

  /** Position and claim of a worker go together with its run. */
  ghost predicate WorkerOk(c: Config, w: Worker) {
    && (w.claim.None? ==> w.run == UNUSED && !w.pc.Transforming?)
    && (w.claim.Some? ==>
          && SS.Inv(c.fine, c.world(w.claim.value), w.run)
          && !w.pc.Unspawned? && !w.pc.Matching?
          && (!w.pc.Transforming? ==> w.run.main.Returned?))
  }

  ghost predicate WorkersOk(c: Config, ws: seq<Worker>) {
    forall i :: 0 <= i < |ws| ==> WorkerOk(c, ws[i])
  }

  /** The two wait groups count what they are meant to count. */
  ghost predicate Groups(ws: seq<Worker>, wg: int, signalWg: int) {
    wg == Count(Busy, ws) && signalWg == Count(Watched, ws)
  }

  predicate AllEnded(coord: Coord) { coord.WaitSignals? || coord.Closing? || coord.Returned? }

  predicate AllUnwatched(coord: Coord) { coord.Closing? || coord.Returned? }

  /** How far the coordinator is says how far the workers are. */
  ghost predicate Phase(ws: seq<Worker>, coord: Coord) {
    && (forall i :: 0 <= i < |ws| ==> (ws[i].pc.Unspawned? <==> coord.Spawning? && i >= coord.next))
    && (AllEnded(coord) ==> forall i :: 0 <= i < |ws| ==> ws[i].pc.Ended?)
    && (AllUnwatched(coord) ==> forall i :: 0 <= i < |ws| ==> !Watched(ws[i]))
  }

  /** The channel is closed when the coordinator has returned, and nobody sends after that. */
  predicate Orderly(coord: Coord, chan: Channel) { (chan.closed <==> coord.Returned?) && !chan.panicked }

  /** Everything sent so far, taken by the consumer or still in the channel. */
  function Sent(chan: Channel): seq<Result> { chan.received + chan.queue }

  function Senders(rs: seq<Result>): (r: seq<nat>)
    ensures |r| == |rs| && forall k :: 0 <= k < |rs| ==> r[k] == rs[k].worker
  {
    seq(|rs|, k requires 0 <= k < |rs| => rs[k].worker)
  }

  /** Exactly the workers that are past their report have sent, once each, for their own id. */
  ghost predicate Delivered(ws: seq<Worker>, sent: seq<Result>) {
    && Distinct(Senders(sent))
    && (forall i: nat :: i in Senders(sent) <==> i < |ws| && Reported(ws[i]))
    && forall k :: 0 <= k < |sent| ==> sent[k].worker < |ws| && sent[k].id == ws[sent[k].worker].id
  }

  /** Claims are fresh, flagged, and asked for by a prefix ... */
  ghost predicate ClaimOk(store0: Store, store: Store, w: Worker) {
    w.claim.Some? ==>
      var k := w.claim.value;
      k in store && k in store0 && store[k] && !store0[k] && w.id <= k
  }

  /** ... no container has two claims, and every new flag has one. */
  ghost predicate Claiming(store0: Store, store: Store, ws: seq<Worker>) {
    && store.Keys == store0.Keys
    && (forall i :: 0 <= i < |ws| ==> ClaimOk(store0, store, ws[i]))
    && (forall i, j :: 0 <= i < j < |ws| && ws[i].claim.Some? ==> ws[i].claim != ws[j].claim)
    && (forall k :: k in store && k in store0 ==>
          (store0[k] ==> store[k]) && (store[k] && !store0[k] ==> HasClaim(ws, k)))
  }

  ghost predicate HasClaim(ws: seq<Worker>, k: string) {
    exists i :: 0 <= i < |ws| && ws[i].claim == Some(k)
  }

  /** A verdict says what happened to the worker. */
  ghost predicate VerdictOk(store0: Store, w: Worker, v: Verdict) {
    match v
    case NotFound => w.claim.None? && forall k :: k in store0 ==> !(w.id <= k)
    case AlreadyTransformed => w.claim.None? && exists k :: k in store0 && w.id <= k
    case Finished(failedAt) => w.claim.Some? && w.run.main.Returned? && w.run.failedAt == failedAt
  }

  ghost predicate Truthful(store0: Store, ws: seq<Worker>, sent: seq<Result>) {
    && (forall i :: 0 <= i < |ws| && ws[i].pc.Reporting? ==> VerdictOk(store0, ws[i], ws[i].pc.verdict))
    && (forall k :: 0 <= k < |sent| ==>
          sent[k].worker < |ws| && VerdictOk(store0, ws[sent[k].worker], sent[k].verdict))
  }

  ghost predicate Inv(c: Config, store0: Store, s: Sys) {
    && WorkersOk(c, s.workers)
    && Groups(s.workers, s.wg, s.signalWg)
    && Phase(s.workers, s.coord) && Orderly(s.coord, s.chan)
    && Delivered(s.workers, Sent(s.chan)) && Truthful(store0, s.workers, Sent(s.chan))
    && Claiming(store0, s.store, s.workers)
  }

  lemma InitGroups(ids: seq<string>)
    ensures Groups(NewWorkers(ids), 0, 0)
  {
    CountZero(Busy, NewWorkers(ids));
    CountZero(Watched, NewWorkers(ids));
  }

  lemma InitWorkers(c: Config, store: Store, ids: seq<string>)
    ensures WorkersOk(c, NewWorkers(ids)) && Phase(NewWorkers(ids), Spawning(0))
    ensures Claiming(store, store, NewWorkers(ids))
  {
  }

  lemma InitSent(store: Store, ids: seq<string>)
    ensures Delivered(NewWorkers(ids), []) && Truthful(store, NewWorkers(ids), [])
  {
  }

  lemma InitInv(c: Config, store: Store, ids: seq<string>)
    ensures Inv(c, store, Init(store, ids))
  {
    InitGroups(ids);
    InitWorkers(c, store, ids);
    InitSent(store, ids);
    assert Sent(Init(store, ids).chan) == [];
  }

  // ------------------------------------------------------------ one worker changes

  /** The groups follow the contribution of the worker. */
  lemma GroupsSet(ws: seq<Worker>, wg: int, signalWg: int, i: nat, w: Worker)
    requires i < |ws| && Groups(ws, wg, signalWg)
    ensures Groups(ws[i := w], wg - Bit(Busy(ws[i])) + Bit(Busy(w)), signalWg - Bit(Watched(ws[i])) + Bit(Watched(w)))
  {
    CountUpdate(Busy, ws, i, w);
    CountUpdate(Watched, ws, i, w);
  }

  lemma WorkersOkSet(c: Config, ws: seq<Worker>, i: nat, w: Worker)
    requires i < |ws| && WorkersOk(c, ws) && WorkerOk(c, w)
    ensures WorkersOk(c, ws[i := w])
  {
  }

  lemma PhaseSet(ws: seq<Worker>, coord: Coord, i: nat, w: Worker)
    requires i < |ws| && Phase(ws, coord)
    requires w.pc.Unspawned? <==> ws[i].pc.Unspawned?
    requires ws[i].pc.Ended? ==> w.pc.Ended?
    requires Watched(w) ==> Watched(ws[i]) || !ws[i].pc.Ended?
    ensures Phase(ws[i := w], coord)
  {
  }

  lemma DeliveredSet(ws: seq<Worker>, sent: seq<Result>, i: nat, w: Worker)
    requires i < |ws| && Delivered(ws, sent)
    requires w.id == ws[i].id && (Reported(w) <==> Reported(ws[i]))
    ensures Delivered(ws[i := w], sent)
  {
  }

  lemma DeliveredSend(ws: seq<Worker>, sent: seq<Result>, i: nat, w: Worker, r: Result)
    requires i < |ws| && Delivered(ws, sent)
    requires w.id == ws[i].id && !Reported(ws[i]) && Reported(w) && r.worker == i && r.id == w.id
    ensures Delivered(ws[i := w], sent + [r])
  {
    assert Senders(sent + [r]) == Senders(sent) + [i];
  }

  /** What a change of a worker must respect for its verdict to stay true. */
  predicate SameFate(v: Worker, w: Worker) {
    && w.id == v.id && w.claim == v.claim
    && (v.run.main.Returned? ==> w.run.main.Returned? && w.run.failedAt == v.run.failedAt)
  }

  lemma TruthfulSet(store0: Store, ws: seq<Worker>, sent: seq<Result>, i: nat, w: Worker)
    requires i < |ws| && Truthful(store0, ws, sent)
    requires SameFate(ws[i], w) && (w.pc.Reporting? ==> VerdictOk(store0, w, w.pc.verdict))
    ensures Truthful(store0, ws[i := w], sent)
  {
    forall v | VerdictOk(store0, ws[i], v) ensures VerdictOk(store0, w, v) {}
  }

  lemma ClaimingSet(store0: Store, store: Store, ws: seq<Worker>, i: nat, w: Worker)
    requires i < |ws| && Claiming(store0, store, ws)
    requires w.id == ws[i].id && w.claim == ws[i].claim
    ensures Claiming(store0, store, ws[i := w])
  {
    var ws' := ws[i := w];
    forall k | HasClaim(ws, k) ensures HasClaim(ws', k) {
      var j :| 0 <= j < |ws| && ws[j].claim == Some(k);
      assert ws'[j].claim == Some(k);
    }
  }

  lemma ClaimingNew(store0: Store, store: Store, ws: seq<Worker>, i: nat, w: Worker, key: string)
    requires i < |ws| && Claiming(store0, store, ws)
    requires key in store && !store[key] && w.id <= key
    requires w.id == ws[i].id && ws[i].claim.None? && w.claim == Some(key)
    ensures Claiming(store0, store[key := true], ws[i := w])
  {
    var ws' := ws[i := w];
    assert ws'[i].claim == Some(key);
    forall k | HasClaim(ws, k) ensures HasClaim(ws', k) {
      var j :| 0 <= j < |ws| && ws[j].claim == Some(k);
      assert ws'[j].claim == Some(k);
    }
    forall j | 0 <= j < |ws| ensures ws[j].claim != Some(key) && ClaimOk(store0, store[key := true], ws'[j]) {
      assert ClaimOk(store0, store, ws[j]);
    }
  }

  // ------------------------------------------------------------ every step keeps them

  /** A change of one worker that touches neither claim nor reports. */
  lemma PlainKeeps(c: Config, store0: Store, s: Sys, i: nat, w: Worker, wg: int, signalWg: int)
    requires Inv(c, store0, s) && i < |s.workers| && WorkerOk(c, w)
    requires SameFate(s.workers[i], w) && (w.pc.Reporting? ==> VerdictOk(store0, w, w.pc.verdict))
    requires Reported(w) <==> Reported(s.workers[i])
    requires w.pc.Unspawned? <==> s.workers[i].pc.Unspawned?
    requires s.workers[i].pc.Ended? ==> w.pc.Ended?
    requires Watched(w) ==> Watched(s.workers[i]) || !s.workers[i].pc.Ended?
    requires wg == s.wg - Bit(Busy(s.workers[i])) + Bit(Busy(w))
    requires signalWg == s.signalWg - Bit(Watched(s.workers[i])) + Bit(Watched(w))
    ensures Inv(c, store0, SetWorker(s, i, w).(wg := wg, signalWg := signalWg))
  {
    WorkersOkSet(c, s.workers, i, w);
    GroupsSet(s.workers, s.wg, s.signalWg, i, w);
    PhaseSet(s.workers, s.coord, i, w);
    DeliveredSet(s.workers, Sent(s.chan), i, w);
    TruthfulSet(store0, s.workers, Sent(s.chan), i, w);
    ClaimingSet(store0, s.store, s.workers, i, w);
  }

  lemma SpawnKeeps(c: Config, store0: Store, s: Sys, k: nat)
    requires Inv(c, store0, s) && s.coord == Spawning(k) && k < |s.workers|
    ensures Inv(c, store0, CoordStep(s))
  {
    var w := s.workers[k].(pc := Matching);
    GroupsSet(s.workers, s.wg, s.signalWg, k, w);
    DeliveredSet(s.workers, Sent(s.chan), k, w);
    TruthfulSet(store0, s.workers, Sent(s.chan), k, w);
    ClaimingSet(store0, s.store, s.workers, k, w);
    assert Phase(s.workers[k := w], Spawning(k + 1));
  }

  lemma NoneBusy(ws: seq<Worker>, signalWg: int)
    requires Groups(ws, 0, signalWg) && Phase(ws, WaitWorkers)
    ensures Phase(ws, WaitSignals)
  {
    CountZero(Busy, ws);
  }

  lemma NoneWatched(ws: seq<Worker>, wg: int)
    requires Groups(ws, wg, 0) && Phase(ws, WaitSignals)
    ensures Phase(ws, Closing)
  {
    CountZero(Watched, ws);
  }

  /** The coordinator moves on without touching a worker. */
  lemma CoordMovesOn(c: Config, store0: Store, s: Sys, coord: Coord, chan: Channel)
    requires Inv(c, store0, s) && Phase(s.workers, coord) && Orderly(coord, chan) && Sent(chan) == Sent(s.chan)
    ensures Inv(c, store0, s.(coord := coord, chan := chan))
  {
  }

  lemma CoordKeeps(c: Config, store0: Store, s: Sys)
    requires Inv(c, store0, s)
    ensures Inv(c, store0, CoordStep(s))
  {
    match s.coord
    case Spawning(k) =>
      if k < |s.workers| { SpawnKeeps(c, store0, s, k); } else { CoordMovesOn(c, store0, s, WaitWorkers, s.chan); }
    case WaitWorkers =>
      if s.wg == 0 {
        NoneBusy(s.workers, s.signalWg);
        CoordMovesOn(c, store0, s, WaitSignals, s.chan);
      }
    case WaitSignals =>
      if s.signalWg == 0 {
        NoneWatched(s.workers, s.wg);
        CoordMovesOn(c, store0, s, Closing, s.chan);
      }
    case Closing => CoordMovesOn(c, store0, s, Returned, s.chan.(closed := true));
    case Returned =>
  }

  /** A worker that has not reported yet may take any course. */
  lemma TruthfulClaim(store0: Store, ws: seq<Worker>, sent: seq<Result>, i: nat, w: Worker)
    requires i < |ws| && Delivered(ws, sent) && Truthful(store0, ws, sent)
    requires !Reported(ws[i]) && !w.pc.Reporting?
    ensures Truthful(store0, ws[i := w], sent)
  {
    forall k | 0 <= k < |sent| ensures sent[k].worker != i {
      assert Senders(sent)[k] == sent[k].worker;
    }
  }

  lemma ClaimKeeps(c: Config, store0: Store, s: Sys, i: nat, m: Match)
    requires Inv(c, store0, s) && i < |s.workers| && s.workers[i].pc.Matching?
    requires m.id == s.workers[i].id && Answers(s.store, m) && m.status.NeedTransform?
    ensures Inv(c, store0, MatchStep(c, s, i, m))
  {
    var key := m.fullID;
    var w := s.workers[i].(pc := Transforming, claim := Some(key), run := S.Start(c.world(key)));
    SS.StartInv(c.fine, c.world(key));
    WorkersOkSet(c, s.workers, i, w);
    GroupsSet(s.workers, s.wg, s.signalWg, i, w);
    PhaseSet(s.workers, s.coord, i, w);
    DeliveredSet(s.workers, Sent(s.chan), i, w);
    ClaimingNew(store0, s.store, s.workers, i, w, key);
    TruthfulClaim(store0, s.workers, Sent(s.chan), i, w);
  }

  lemma MatchKeeps(c: Config, store0: Store, s: Sys, i: nat, m: Match)
    requires Inv(c, store0, s) && i < |s.workers| && s.workers[i].pc.Matching?
    ensures Inv(c, store0, MatchStep(c, s, i, m))
  {
    var w := s.workers[i];
    if m.id == w.id && Answers(s.store, m) {
      match m.status
      case NotExist => PlainKeeps(c, store0, s, i, w.(pc := Reporting(NotFound)), s.wg, s.signalWg);
      case HasBeenTransformed =>
        PlainKeeps(c, store0, s, i, w.(pc := Reporting(AlreadyTransformed)), s.wg, s.signalWg);
      case NeedTransform => ClaimKeeps(c, store0, s, i, m);
    }
  }

  /** What sending a result does to the channel and to the sender, invariant by invariant. */
  lemma SendParts(store0: Store, ws: seq<Worker>, coord: Coord, chan: Channel, i: nat, r: Result)
    requires i < |ws| && ws[i].pc == Reporting(r.verdict) && r.worker == i && r.id == ws[i].id
    requires Phase(ws, coord) && Orderly(coord, chan)
    requires Delivered(ws, Sent(chan)) && Truthful(store0, ws, Sent(chan))
    ensures !chan.closed
    ensures var ws', sent' := ws[i := ws[i].(pc := Signing)], Sent(chan.(queue := chan.queue + [r]));
      Phase(ws', coord) && Delivered(ws', sent') && Truthful(store0, ws', sent')
  {
    var w := ws[i].(pc := Signing);
    assert !AllEnded(coord);
    assert Sent(chan.(queue := chan.queue + [r])) == Sent(chan) + [r];
    PhaseSet(ws, coord, i, w);
    DeliveredSend(ws, Sent(chan), i, w, r);
    TruthfulSet(store0, ws, Sent(chan), i, w);
    assert VerdictOk(store0, w, r.verdict);
  }

  lemma SendKeeps(c: Config, store0: Store, s: Sys, i: nat, v: Verdict)
    requires Inv(c, store0, s) && i < |s.workers| && s.workers[i].pc == Reporting(v)
    ensures Inv(c, store0, Send(c, s, i, Result(i, s.workers[i].id, v)))
  {
    var w, r := s.workers[i].(pc := Signing), Result(i, s.workers[i].id, v);
    SendParts(store0, s.workers, s.coord, s.chan, i, r);
    if |s.chan.queue| < c.capacity {
      GroupsSet(s.workers, s.wg, s.signalWg, i, w);
      ClaimingSet(store0, s.store, s.workers, i, w);
      WorkersOkSet(c, s.workers, i, w);
    }
  }

  lemma TransformingKeeps(c: Config, store0: Store, s: Sys, i: nat, m: Match)
    requires Inv(c, store0, s) && i < |s.workers| && s.workers[i].pc.Transforming?
    ensures Inv(c, store0, WorkerStep(c, s, i, m))
  {
    var w := s.workers[i];
    if w.run.main.Returned? {
      PlainKeeps(c, store0, s, i, w.(pc := Reporting(Finished(w.run.failedAt))), s.wg, s.signalWg);
      assert WorkerStep(c, s, i, m) == SetWorker(s, i, w.(pc := Reporting(Finished(w.run.failedAt))));
    } else {
      assert WorkerStep(c, s, i, m) == s;
    }
  }

  lemma ReportingKeeps(c: Config, store0: Store, s: Sys, i: nat, m: Match)
    requires Inv(c, store0, s) && i < |s.workers| && s.workers[i].pc.Reporting?
    ensures Inv(c, store0, WorkerStep(c, s, i, m))
  {
    var w := s.workers[i];
    SendKeeps(c, store0, s, i, w.pc.verdict);
    assert WorkerStep(c, s, i, m) == Send(c, s, i, Result(i, w.id, w.pc.verdict));
  }

  lemma SigningKeeps(c: Config, store0: Store, s: Sys, i: nat, m: Match)
    requires Inv(c, store0, s) && i < |s.workers| && s.workers[i].pc.Signing?
    ensures Inv(c, store0, WorkerStep(c, s, i, m))
  {
    var w := s.workers[i].(pc := Ended);
    PlainKeeps(c, store0, s, i, w, s.wg - 1, s.signalWg);
    assert WorkerStep(c, s, i, m) == SetWorker(s, i, w).(wg := s.wg - 1, signalWg := s.signalWg);
  }

  lemma MatchingKeeps(c: Config, store0: Store, s: Sys, i: nat, m: Match)
    requires Inv(c, store0, s) && i < |s.workers| && s.workers[i].pc.Matching?
    ensures Inv(c, store0, WorkerStep(c, s, i, m))
  {
    MatchKeeps(c, store0, s, i, m);
    assert WorkerStep(c, s, i, m) == MatchStep(c, s, i, m);
  }

  lemma WorkerKeeps(c: Config, store0: Store, s: Sys, i: nat, m: Match)
    requires Inv(c, store0, s) && i < |s.workers|
    ensures Inv(c, store0, WorkerStep(c, s, i, m))
  {
    match s.workers[i].pc
    case Matching => MatchingKeeps(c, store0, s, i, m);
    case Transforming => TransformingKeeps(c, store0, s, i, m);
    case Reporting(v) => ReportingKeeps(c, store0, s, i, m);
    case Signing => SigningKeeps(c, store0, s, i, m);
    case _ => assert WorkerStep(c, s, i, m) == s;
  }

  /** What a step of a run does to its watcher. */
  lemma MainWatched(fine: bool, run: S.Run, ok: bool, odd: bool)
    ensures S.MainStep(fine, run, ok, odd).watch == if run.main.Idle? then S.Select else run.watch
    ensures run.main.Returned? ==> S.MainStep(fine, run, ok, odd) == run
  {
    match run.main
    case Work(step) => SS.WorkFrame(run, step, ok, odd);
    case Rolling(pc) => MainRollWatched(fine, run, pc, ok);
    case _ =>
  }

  lemma MainRollWatched(fine: bool, run: S.Run, pc: S.RunPc, ok: bool)
    ensures S.MainRoll(fine, run, pc, ok).watch == run.watch
  {
  }

  lemma WatchRollWatched(fine: bool, run: S.Run, pc: S.RunPc, ok: bool)
    ensures var run' := S.WatchRoll(fine, run, pc, ok);
      run'.main == run.main && run'.failedAt == run.failedAt && !run'.watch.Unborn?
  {
  }

  lemma WatchWatched(fine: bool, sig: bool, run: S.Run, onSignal: bool, ok: bool)
    ensures var run' := S.WatchStep(fine, sig, run, onSignal, ok);
      && run'.main == run.main && run'.failedAt == run.failedAt
      && (if run.watch.Unborn? || run.watch.Gone? then run' == run else !run'.watch.Unborn?)
  {
    if run.watch.Watching? { WatchRollWatched(fine, run, run.watch.pc, ok); }
  }

  /** What a step of a run can do to its threads. */
  predicate RunMoves(run: S.Run, run': S.Run, act: S.Act) {
    && (act.Main? ==> run'.watch == if run.main.Idle? then S.Select else run.watch)
    && (act.Main? && run.main.Returned? ==> run' == run)
    && (act.Watch? ==> run'.main == run.main && run'.failedAt == run.failedAt)
    && (act.Watch? ==> if run.watch.Unborn? || run.watch.Gone? then run' == run else !run'.watch.Unborn?)
  }

  lemma RunWatched(fine: bool, sig: bool, run: S.Run, act: S.Act)
    ensures RunMoves(run, S.Apply(fine, sig, run, act), act)
  {
    match act
    case Main(ok, odd) => MainWatched(fine, run, ok, odd);
    case Watch(onSignal, ok) => WatchWatched(fine, sig, run, onSignal, ok);
  }

  /** What a step inside a run does to its worker. */
  ghost predicate InsideOk(c: Config, w: Worker, w': Worker, act: S.Act) {
    && WorkerOk(c, w') && SameFate(w, w')
    && (Watched(w') ==> Watched(w) || !w.pc.Ended?)
    && GroupDelta(w.run, w'.run, act) == Bit(Watched(w')) - Bit(Watched(w))
  }

  lemma MovesAreOk(c: Config, w: Worker, run: S.Run, act: S.Act)
    requires WorkerOk(c, w) && (act.Watch? || w.pc.Transforming?)
    requires SS.Control(w.run) && RunMoves(w.run, run, act)
    requires w.claim.Some? ==> SS.Inv(c.fine, c.world(w.claim.value), run)
    ensures InsideOk(c, w, w.(run := run), act)
  {
  }

  lemma InsideWorker(c: Config, sig: bool, w: Worker, act: S.Act)
    requires WorkerOk(c, w) && (act.Watch? || w.pc.Transforming?)
    ensures InsideOk(c, w, w.(run := S.Apply(c.fine, sig, w.run, act)), act)
  {
    var run := S.Apply(c.fine, sig, w.run, act);
    RunWatched(c.fine, sig, w.run, act);
    if w.claim.Some? { SS.InvKept(c.fine, c.world(w.claim.value), sig, w.run, act); }
    WorkerControlled(c, w);
    MovesAreOk(c, w, run, act);
  }

  lemma WorkerControlled(c: Config, w: Worker)
    requires WorkerOk(c, w)
    ensures SS.Control(w.run)
  {
  }

  lemma AdvanceIs(s: Sys, i: nat, run: S.Run, act: S.Act)
    requires i < |s.workers|
    ensures Advance(s, i, run, act) == SetWorker(s, i, s.workers[i].(run := run))
      .(wg := s.wg, signalWg := s.signalWg + GroupDelta(s.workers[i].run, run, act))
  {
  }

  lemma AdvanceKeeps(c: Config, store0: Store, s: Sys, i: nat, run: S.Run, act: S.Act)
    requires Inv(c, store0, s) && i < |s.workers|
    requires InsideOk(c, s.workers[i], s.workers[i].(run := run), act)
    ensures Inv(c, store0, Advance(s, i, run, act))
  {
    var w := s.workers[i].(run := run);
    var signalWg := s.signalWg + GroupDelta(s.workers[i].run, run, act);
    AdvanceIs(s, i, run, act);
    TruthfulInside(store0, s.workers, Sent(s.chan), i, w);
    PlainKeeps(c, store0, s, i, w, s.wg, signalWg);
  }

  lemma InsideKeeps(c: Config, store0: Store, s: Sys, i: nat, act: S.Act)
    requires Inv(c, store0, s) && i < |s.workers|
    ensures Inv(c, store0, InsideStep(c, s, i, act))
  {
    var w := s.workers[i];
    if act.Watch? || w.pc.Transforming? {
      InsideWorker(c, s.sig, w, act);
      AdvanceKeeps(c, store0, s, i, S.Apply(c.fine, s.sig, w.run, act), act);
    }
  }

  /** A verdict that is about to be sent stays true. */
  lemma TruthfulInside(store0: Store, ws: seq<Worker>, sent: seq<Result>, i: nat, w: Worker)
    requires i < |ws| && Truthful(store0, ws, sent) && SameFate(ws[i], w) && w.pc == ws[i].pc
    ensures w.pc.Reporting? ==> VerdictOk(store0, w, w.pc.verdict)
  {
  }

  lemma SignalKeeps(c: Config, store0: Store, s: Sys)
    requires Inv(c, store0, s)
    ensures Inv(c, store0, s.(sig := true))
  {
  }

  lemma ReceiveKeeps(c: Config, store0: Store, s: Sys)
    requires Inv(c, store0, s)
    ensures Inv(c, store0, Step(c, s, Receive))
  {
    if s.chan.queue == [] {
      assert Step(c, s, Receive) == s;
    } else {
      var chan := s.chan.(queue := s.chan.queue[1..], received := s.chan.received + [s.chan.queue[0]]);
      assert Sent(chan) == Sent(s.chan);
      CoordMovesOn(c, store0, s, s.coord, chan);
      assert Step(c, s, Receive) == s.(coord := s.coord, chan := chan);
    }
  }

  lemma StepKeeps(c: Config, store0: Store, s: Sys, a: Act)
    requires Inv(c, store0, s)
    ensures Inv(c, store0, Step(c, s, a))
  {
    match a
    case Coordinate =>
      CoordKeeps(c, store0, s);
      assert Step(c, s, a) == CoordStep(s);
    case Work(i, m) =>
      if i < |s.workers| {
        WorkerKeeps(c, store0, s, i, m);
        assert Step(c, s, a) == WorkerStep(c, s, i, m);
      }
    case Inside(i, act) =>
      if i < |s.workers| {
        InsideKeeps(c, store0, s, i, act);
        assert Step(c, s, a) == InsideStep(c, s, i, act);
      }
    case Signal =>
      SignalKeeps(c, store0, s);
      assert Step(c, s, a) == s.(sig := true);
    case Receive => ReceiveKeeps(c, store0, s);
  }

  lemma {:induction false} ExecInv(c: Config, store: Store, ids: seq<string>, acts: seq<Act>)
    ensures Inv(c, store, Exec(c, store, ids, acts))
  {
    if acts == [] {
      InitInv(c, store, ids);
    } else {
      var n := |acts| - 1;
      ExecInv(c, store, ids, acts[..n]);
      StepKeeps(c, store, Exec(c, store, ids, acts[..n]), acts[n]);
    }
  }
}
