/** Every run inside `Transform` is a run of the saga's machine on the steps of its own worker and
    watcher, so what holds of all runs holds of each of them, and of `Transform` as a whole. */
module FanOutRuns {
  import opened Options
  import opened Claims
  import opened FanOut
  import opened FanOutSafety
  import opened FanOutTheorems
  import S = Saga
  import SS = SagaSafety
  import ST = SagaTheorems

  // ------------------------------------------------------------ one worker's part of an interleaving

  /** What a step of the system contributes to the run of worker `i`. */
  function Contribution(s: Sys, a: Act, i: nat): seq<S.Event> {
    if a.Inside? && a.i == i && i < |s.workers| && s.workers[i].claim.Some?
       && (a.act.Watch? || s.workers[i].pc.Transforming?)
    then [S.Event(s.sig, a.act)] else []
  }

  /** The steps of worker `i` and its watcher inside their run, in order. */
  function StepsOf(c: Config, store: Store, ids: seq<string>, acts: seq<Act>, i: nat): seq<S.Event> {
    if acts == [] then []
    else
      var n := |acts| - 1;
      StepsOf(c, store, ids, acts[..n], i) + Contribution(Exec(c, store, ids, acts[..n]), acts[n], i)
  }

  /** The run of a worker is the machine's on `es`, and the signal shows in `es` only if it has come. */
  ghost predicate IsRun(c: Config, sig: bool, w: Worker, es: seq<S.Event>) {
    && S.Schedule(es) && (!sig ==> ST.NoSignal(es))
    && (if w.claim.Some? then w.run == S.Exec(c.fine, c.world(w.claim.value), es) else es == [])
  }

  /** A worker's run changes by its own contribution only, and begins with its claim. */
  ghost predicate Follows(c: Config, w: Worker, w': Worker, es: seq<S.Event>) {
    if w.claim.None? then es == [] && (w'.claim.Some? ==> w'.run == S.Start(c.world(w'.claim.value)))
    else
      && w'.claim == w.claim
      && (if es == [] then w'.run == w.run
          else |es| == 1 && w'.run == S.Apply(c.fine, es[0].sig, w.run, es[0].act))
  }

  /** A worker that is left alone follows on nothing, and so does one that only moves on itself. */
  lemma SameFollows(c: Config, w: Worker, w': Worker)
    requires w'.claim == w.claim && w'.run == w.run
    ensures Follows(c, w, w', [])
  {
  }

  lemma MatchFollows(c: Config, s: Sys, i: nat, m: Match)
    requires i < |s.workers| && s.workers[i].claim.None?
    ensures Follows(c, s.workers[i], MatchStep(c, s, i, m).workers[i], [])
  {
  }

  lemma WorkFollows(c: Config, s: Sys, i: nat, j: nat, m: Match)
    requires i < |s.workers| && j < |s.workers| && WorkerOk(c, s.workers[i])
    ensures Follows(c, s.workers[j], WorkerStep(c, s, i, m).workers[j], [])
  {
    if i != j {
      WorkElsewhere(c, s, i, j, m);
      SameFollows(c, s.workers[j], s.workers[j]);
    } else if s.workers[i].pc.Matching? {
      MatchFollows(c, s, i, m);
    } else {
      assert WorkerStep(c, s, i, m).workers[i].claim == s.workers[i].claim;
      SameFollows(c, s.workers[i], WorkerStep(c, s, i, m).workers[i]);
    }
  }

  lemma WorkElsewhere(c: Config, s: Sys, i: nat, j: nat, m: Match)
    requires i < |s.workers| && j < |s.workers| && i != j
    ensures WorkerStep(c, s, i, m).workers[j] == s.workers[j]
  {
  }

  lemma InsideFollows(c: Config, s: Sys, i: nat, j: nat, act: S.Act)
    requires i < |s.workers| && j < |s.workers|
    ensures Follows(c, s.workers[j], InsideStep(c, s, i, act).workers[j], Contribution(s, Inside(i, act), j))
  {
  }

  lemma CoordFollows(c: Config, s: Sys, j: nat)
    requires j < |s.workers|
    ensures Follows(c, s.workers[j], CoordStep(s).workers[j], [])
  {
    SameFollows(c, s.workers[j], CoordStep(s).workers[j]);
  }

  lemma StepFollows(c: Config, s: Sys, a: Act, j: nat)
    requires j < |s.workers| && WorkersOk(c, s.workers)
    ensures j < |Step(c, s, a).workers|
    ensures Follows(c, s.workers[j], Step(c, s, a).workers[j], Contribution(s, a, j))
    ensures s.sig ==> Step(c, s, a).sig
  {
    StepKeepsIds(c, s, a);
    SignalStays(c, s, a);
    match a
    case Coordinate => CoordFollows(c, s, j);
    case Work(i, m) =>
      if i < |s.workers| { WorkFollows(c, s, i, j, m); } else { SameFollows(c, s.workers[j], s.workers[j]); }
    case Inside(i, act) =>
      if i < |s.workers| { InsideFollows(c, s, i, j, act); } else { SameFollows(c, s.workers[j], s.workers[j]); }
    case Signal => SameFollows(c, s.workers[j], s.workers[j]);
    case Receive => SameFollows(c, s.workers[j], s.workers[j]);
  }

  lemma SignalStays(c: Config, s: Sys, a: Act)
    ensures s.sig ==> Step(c, s, a).sig
  {
  }

  lemma FollowsKeeps(c: Config, sig: bool, sig': bool, w: Worker, w': Worker, es: seq<S.Event>, more: seq<S.Event>)
    requires IsRun(c, sig, w, es) && Follows(c, w, w', more) && (sig ==> sig')
    requires forall e :: e in more ==> e.sig == sig
    ensures IsRun(c, sig', w', es + more)
  {
    if more != [] {
      assert (es + more)[..|es|] == es && more == [more[0]];
      assert (es + more)[|es|] == more[0];
    } else {
      assert es + more == es;
    }
  }

  /** The run of every worker is the saga's machine on the steps that are its own. */
  lemma {:induction false} RunsAreRuns(c: Config, store: Store, ids: seq<string>, acts: seq<Act>, i: nat)
    requires i < |ids|
    ensures var s := Exec(c, store, ids, acts);
      i < |s.workers| && IsRun(c, s.sig, s.workers[i], StepsOf(c, store, ids, acts, i))
  {
    if acts != [] {
      var n := |acts| - 1;
      var s := Exec(c, store, ids, acts[..n]);
      RunsAreRuns(c, store, ids, acts[..n], i);
      ExecInv(c, store, ids, acts[..n]);
      StepFollows(c, s, acts[n], i);
      FollowsKeeps(c, s.sig, Step(c, s, acts[n]).sig, s.workers[i], Step(c, s, acts[n]).workers[i],
                   StepsOf(c, store, ids, acts[..n], i), Contribution(s, acts[n], i));
    }
  }

  // ------------------------------------------------------------ what follows for all runs at once

  /** In every interleaving of all workers, watchers and the signal, each run calls the undos it had
      registered when its rollback began in reverse order, each once. */
  lemma EveryTraceSafe(c: Config, store: Store, ids: seq<string>, acts: seq<Act>, i: nat)
    requires !c.fine && i < |ids|
    ensures var s, es := Exec(c, store, ids, acts), StepsOf(c, store, ids, acts, i);
      && i < |s.workers|
      && (s.workers[i].claim.Some? ==> RunIsSafe(c.world(s.workers[i].claim.value), s.workers[i].run, es))
  {
    RunsAreRuns(c, store, ids, acts, i);
    var w := Exec(c, store, ids, acts).workers[i];
    if w.claim.Some? { ST.RollbackTraceSafe(c.world(w.claim.value), StepsOf(c, store, ids, acts, i)); }
  }

  ghost predicate RunIsSafe(w0: S.World, run: S.Run, es: seq<S.Event>) {
    run == S.Exec(false, w0, es) && ST.TraceSafe(w0, es)
  }

  ghost predicate AllConsistent(c: Config) { forall k :: SS.Consistent(c.world(k)) }

  /** The claimed container of a worker is settled. */
  ghost predicate WorkerSettled(c: Config, w: Worker) {
    w.claim.Some? && ST.Settled(c.world(w.claim.value), w.run)
  }

  lemma ReturnedSettled(c: Config, store: Store, ids: seq<string>, acts: seq<Act>, i: nat)
    requires AllConsistent(c) && i < |ids|
    ensures var s := Exec(c, store, ids, acts);
      && i < |s.workers|
      && (!s.sig && s.workers[i].claim.Some? && s.workers[i].run.main.Returned? ==> WorkerSettled(c, s.workers[i]))
  {
    RunsAreRuns(c, store, ids, acts, i);
    var s := Exec(c, store, ids, acts);
    var w := s.workers[i];
    if !s.sig && w.claim.Some? {
      ST.AllOrNothing(c.fine, c.world(w.claim.value), StepsOf(c, store, ids, acts, i));
    }
  }

  /** All or nothing for `Transform`: as long as no signal has come, whenever a worker has reported
      how its run ended, its container holds everything or is as before, up to the two windows. */
  lemma ReportsAreTrue(c: Config, store: Store, ids: seq<string>, acts: seq<Act>, r: Result)
    requires AllConsistent(c)
    ensures var s := Exec(c, store, ids, acts);
      !s.sig && r in Sent(s.chan) && r.verdict.Finished? ==>
        && r.worker < |s.workers| && s.workers[r.worker].run.failedAt == r.verdict.failedAt
        && WorkerSettled(c, s.workers[r.worker])
  {
    var s := Exec(c, store, ids, acts);
    ExecInv(c, store, ids, acts);
    ExecIds(c, store, ids, acts);
    if !s.sig && r in Sent(s.chan) && r.verdict.Finished? {
      var k :| 0 <= k < |Sent(s.chan)| && Sent(s.chan)[k] == r;
      assert VerdictOk(store, s.workers[r.worker], r.verdict);
      ReturnedSettled(c, store, ids, acts, r.worker);
    }
  }

  /** `--all` without a signal: when the channel is closed, every stored container has been transformed
      or is as it was before, up to the two windows, and exactly one worker has dealt with it. */
  lemma AllContainersSettled(c: Config, store: Store, ids: seq<string>, acts: seq<Act>, k: string)
    requires AllConsistent(c) && AllRequest(store, ids) && k in store
    ensures var s := Exec(c, store, ids, acts);
      s.chan.closed && !s.sig ==>
        && (exists i :: DealsWith(c, s.workers, i, k))
        && forall i, j :: DealsWith(c, s.workers, i, k) && DealsWith(c, s.workers, j, k) ==> i == j
  {
    var s := Exec(c, store, ids, acts);
    ExecInv(c, store, ids, acts);
    ExecOwn(c, store, ids, acts);
    if s.chan.closed && !s.sig {
      var i :| 0 <= i < |ids| && ids[i] == k;
      assert Own(s.store, s.workers[i]) && s.workers[i].pc.Ended? && WorkerOk(c, s.workers[i]);
      ReturnedSettled(c, store, ids, acts, i);
      assert DealsWith(c, s.workers, i, k);
    }
  }

  ghost predicate DealsWith(c: Config, ws: seq<Worker>, i: int, k: string) {
    0 <= i < |ws| && ws[i].claim == Some(k) && WorkerSettled(c, ws[i])
  }

  /** With signals: when the channel is closed, every container that was claimed, and had no bundle
      directory before, holds exactly what its own passes did not cover. */
  lemma TransformLeavesBehind(c: Config, store: Store, ids: seq<string>, acts: seq<Act>, i: nat)
    requires AllConsistent(c) && i < |ids|
    ensures var s := Exec(c, store, ids, acts);
      && i < |s.workers|
      && (s.chan.closed && s.workers[i].claim.Some? && !c.world(s.workers[i].claim.value).bundle ==>
            !s.workers[i].run.undoFailed ==> ST.Remains(s.workers[i].run))
  {
    RunsAreRuns(c, store, ids, acts, i);
    ExecInv(c, store, ids, acts);
    var s := Exec(c, store, ids, acts);
    var w := s.workers[i];
    if s.chan.closed && w.claim.Some? && !c.world(w.claim.value).bundle {
      assert WorkerOk(c, w) && !Watched(w) && w.pc.Ended?;
      ST.LeftBehind(c.fine, c.world(w.claim.value), StepsOf(c, store, ids, acts, i));
    }
  }
}
