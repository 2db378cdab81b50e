/** `Transform` of transform/docker/docker.go: one worker per requested id, each with its own run
    and rollback watcher, two wait groups, and a bounded result channel that is closed at the end. */
module FanOut {
  import opened Claims
  import opened Options
  import S = Saga

  datatype Verdict = NotFound | AlreadyTransformed | Finished(failedAt: Option<S.Step>)

  /** What a worker sends: its position in the request, the id asked for, and the verdict. */
  datatype Result = Result(worker: nat, id: string, verdict: Verdict)

  datatype WorkerPc = Unspawned | Matching | Transforming | Reporting(verdict: Verdict) | Signing | Ended

  /** `claim` is the container the worker transforms, once it has one; `run` is then its run. */
  datatype Worker = Worker(id: string, pc: WorkerPc, claim: Option<string>, run: S.Run)

  /** Where the call of `Transform` is. */
  datatype Coord = Spawning(next: nat) | WaitWorkers | WaitSignals | Closing | Returned

  /** The result channel with what it holds, whether it is closed, what the consumer has taken
      (history), and whether someone sent on it after it was closed. */
  datatype Channel = Channel(queue: seq<Result>, closed: bool, received: seq<Result>, panicked: bool)

  datatype Sys = Sys(
    store: Store, sig: bool, workers: seq<Worker>, wg: int, signalWg: int, coord: Coord, chan: Channel)

  /** The capacity of the channel, the granularity of `rollback.run`, and the world of each container. */
  datatype Config = Config(capacity: nat, fine: bool, world: string -> S.World)

  /** Which thread moves. `m` is the answer a worker gets from `matchID`. */
  datatype Act = Coordinate | Work(i: nat, m: Match) | Inside(i: nat, act: S.Act) | Signal | Receive

  const UNUSED := S.Start(S.World(false, false, false, false))

  function NewWorker(id: string): Worker { Worker(id, Unspawned, None, UNUSED) }

  function Init(store: Store, ids: seq<string>): Sys {
    Sys(store, false, NewWorkers(ids), 0, 0, Spawning(0), Channel([], false, [], false))
  }

  function NewWorkers(ids: seq<string>): (ws: seq<Worker>)
    ensures |ws| == |ids| && forall i :: 0 <= i < |ids| ==> ws[i] == NewWorker(ids[i])
  {
    seq(|ids|, i requires 0 <= i < |ids| => NewWorker(ids[i]))
  }

  function SetWorker(s: Sys, i: nat, w: Worker): Sys
    requires i < |s.workers|
  {
    s.(workers := s.workers[i := w])
  }

  // ------------------------------------------------------------ the coordinator

  function CoordStep(s: Sys): Sys {
    match s.coord
    case Spawning(k) =>
      if k < |s.workers| then
        SetWorker(s, k, s.workers[k].(pc := Matching)).(wg := s.wg + 1, coord := Spawning(k + 1))
      else s.(coord := WaitWorkers)
    case WaitWorkers => if s.wg == 0 then s.(coord := WaitSignals) else s
    case WaitSignals => if s.signalWg == 0 then s.(coord := Closing) else s
    case Closing => s.(chan := s.chan.(closed := true), coord := Returned)
    case Returned => s
  }

  // ------------------------------------------------------------ a worker

  /** `matchID` as one step, with any answer it may give, and what the worker does with it. */
  function MatchStep(c: Config, s: Sys, i: nat, m: Match): Sys
    requires i < |s.workers|
  {
    var w := s.workers[i];
    if m.id != w.id || !Answers(s.store, m) then s
    else
      match m.status
      case NotExist => SetWorker(s, i, w.(pc := Reporting(NotFound)))
      case HasBeenTransformed => SetWorker(s, i, w.(pc := Reporting(AlreadyTransformed)))
      case NeedTransform =>
        SetWorker(s, i, w.(pc := Transforming, claim := Some(m.fullID), run := S.Start(c.world(m.fullID))))
          .(store := After(s.store, m))
  }

  /** `retCh <- ret`. */
  function Send(c: Config, s: Sys, i: nat, r: Result): Sys
    requires i < |s.workers|
  {
    if s.chan.closed then s.(chan := s.chan.(panicked := true))
    else if |s.chan.queue| < c.capacity then
      SetWorker(s, i, s.workers[i].(pc := Signing)).(chan := s.chan.(queue := s.chan.queue + [r]))
    else s
  }

  function WorkerStep(c: Config, s: Sys, i: nat, m: Match): Sys
    requires i < |s.workers|
  {
    var w := s.workers[i];
    match w.pc
    case Matching => MatchStep(c, s, i, m)
    case Transforming =>
      if w.run.main.Returned? then SetWorker(s, i, w.(pc := Reporting(Finished(w.run.failedAt)))) else s
    case Reporting(v) => Send(c, s, i, Result(i, w.id, v))
    case Signing => SetWorker(s, i, w.(pc := Ended)).(wg := s.wg - 1)
    case _ => s
  }

  // ------------------------------------------------------------ inside a run

  /** The main thread of a run is the worker itself; its first step is `signalWg.Add(1)` and the
      start of the watcher, whose last one is `signalWg.Done()`. */
  function InsideStep(c: Config, s: Sys, i: nat, act: S.Act): Sys
    requires i < |s.workers|
  {
    var w := s.workers[i];
    if act.Main? && !w.pc.Transforming? then s else Advance(s, i, S.Apply(c.fine, s.sig, w.run, act), act)
  }

  /** The run of worker `i` moves on, and the signal wait group with it. */
  function Advance(s: Sys, i: nat, run: S.Run, act: S.Act): Sys
    requires i < |s.workers|
  {
    var w := s.workers[i];
    SetWorker(s, i, w.(run := run)).(signalWg := s.signalWg + GroupDelta(w.run, run, act))
  }

  /** What a step inside a run does to the signal wait group. */
  function GroupDelta(run: S.Run, run': S.Run, act: S.Act): int {
    if act.Main? then (if run.main.Idle? then 1 else 0)
    else if run'.watch.Gone? && !run.watch.Gone? then -1 else 0
  }

  function Step(c: Config, s: Sys, a: Act): Sys {
    match a
    case Coordinate => CoordStep(s)
    case Work(i, m) => if i < |s.workers| then WorkerStep(c, s, i, m) else s
    case Inside(i, act) => if i < |s.workers| then InsideStep(c, s, i, act) else s
    case Signal => s.(sig := true)
    case Receive =>
      if s.chan.queue == [] then s
      else s.(chan := s.chan.(queue := s.chan.queue[1..], received := s.chan.received + [s.chan.queue[0]]))
  }

  /** The system after any interleaving of its threads, the signal and the consumer. */
  function Exec(c: Config, store: Store, ids: seq<string>, acts: seq<Act>): Sys {
    if acts == [] then Init(store, ids)
    else Step(c, Exec(c, store, ids, acts[..|acts| - 1]), acts[|acts| - 1])
  }
}
