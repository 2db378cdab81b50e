/** One run of `transform` (transform/docker/docker.go) together with its rollback watcher
    (transform/docker/rollback.go), as a machine of atomic steps that may interleave freely
    with each other and with the arrival of a signal. */
module Saga {
  import opened Options

  /** The state outside the program that a run acts on, for one container. */
  datatype World = World(paused: bool, bundle: bool, rootfs: bool, shm: bool)

  /** The three compensations a run registers. */
  datatype Undo = CleanBundle | CleanRootfs | UnmountShm

  const ALL_UNDOS: seq<Undo> := [CleanBundle, CleanRootfs, UnmountShm]

  /** The steps of `transform`, external calls and registrations, numbered in program order. */
  type Step = k: nat | k < 17

  const PAUSE: Step := 0
  const PREPARE_BUNDLE: Step := 1
  const REGISTER_BUNDLE: Step := 2
  const HOST_CONFIG: Step := 3
  const LOAD_V2: Step := 4
  const GENERATE_ROOTFS: Step := 5
  const SAVE_V2: Step := 6
  const REGISTER_ROOTFS: Step := 7
  const PREPARE_SHM: Step := 8
  const REGISTER_SHM: Step := 9
  const COPY_HOSTNAME: Step := 10
  const COPY_HOSTS: Step := 11
  const COPY_RESOLV: Step := 12
  const OCI_CONFIG: Step := 13
  const RW_LAYER: Step := 14
  const MARSHAL_OCI: Step := 15
  const LCR_CREATE: Step := 16

  /** Where a thread is inside `rollback.run`: before the load, between load and store, before
      the length of the undo list is read, or with `left` undos still to call. */
  datatype RunPc = Load | Store | Measure | Call(left: nat)

  datatype MainPc = Idle | Work(step: Step) | Rolling(pc: RunPc) | Sending | Closing | Returned

  datatype WatchPc = Unborn | Select | Watching(pc: RunPc) | Gone

  /** History of one thread's pass through `rollback.run`: how many undos were registered when
      it began, and the indices of the undos it called, in order. */
  datatype Pass = Pass(mark: Option<nat>, calls: seq<nat>)

  const NO_PASS := Pass(None, [])

  /** The fields of the source's `rollback`: `st`, `closed`, `rbFuncs`, and the one-slot `closeCh`. */
  datatype Rollback = Rollback(executed: bool, closed: bool, regs: seq<Undo>, slot: Option<bool>, chClosed: bool)

  const NEW_ROLLBACK := Rollback(false, false, [], None, false)

  /** `failedAt` is the step whose error is returned; the last six fields are history. `remade`: a
      failing shm mount has made the bundle directory again after the watcher called its undo. */
  datatype Run = Run(
    world: World, main: MainPc, watch: WatchPc, rb: Rollback, retErr: bool, failedAt: Option<Step>,
    mainPass: Pass, watchPass: Pass, gotRootfs: bool, gotShm: bool, remade: bool,
    undoFailed: bool)

  function Start(world: World): Run {
    Run(world, Idle, Unborn, NEW_ROLLBACK, false, None, NO_PASS, NO_PASS, false, false, false, false)
  }

  /** What the scheduler and the outside decide at one step. `ok`: the external call of the step
      succeeds. `odd`: a failing pause says "already paused"; a failing shm mount has already
      made its directory. `onSignal`: the watcher's select takes the signal branch. */
  datatype Act = Main(ok: bool, odd: bool) | Watch(onSignal: bool, ok: bool)

  // ------------------------------------------------------------ rollback.run

  /** The effect of one undo; a bundle directory with the mount inside it cannot be removed. */
  function ApplyUndo(w: World, u: Undo, ok: bool): World {
    if !ok then w
    else match u
      case CleanBundle => if w.shm then w else w.(bundle := false)
      case CleanRootfs => w.(rootfs := false)
      case UnmountShm => w.(shm := false)
  }

  /** Where a thread inside `run` goes next; None when the call returns. With `fine` the load,
      the store and the reading of the length are steps of their own. */
  function NextPc(fine: bool, s: Run, pc: RunPc): Option<RunPc> {
    match pc
    case Load => if s.rb.closed || s.rb.executed then None else if fine then Some(Store) else Some(Call(|s.rb.regs|))
    case Store => Some(Measure)
    case Measure => Some(Call(|s.rb.regs|))
    case Call(left) => if left == 0 then None else Some(Call(left - 1))
  }

  predicate SetsExecuted(fine: bool, s: Run, pc: RunPc) {
    pc.Store? || (pc.Load? && !fine && !s.rb.closed && !s.rb.executed)
  }

  predicate CallsUndo(s: Run, pc: RunPc) { pc.Call? && 0 < pc.left <= |s.rb.regs| }

  /** The shared state after one step inside `run`. */
  function RunStep(fine: bool, s: Run, pc: RunPc, ok: bool): Run {
    s.(rb := s.rb.(executed := s.rb.executed || SetsExecuted(fine, s, pc)),
       world := if CallsUndo(s, pc) then ApplyUndo(s.world, s.rb.regs[pc.left - 1], ok) else s.world,
       undoFailed := s.undoFailed || (CallsUndo(s, pc) && !ok))
  }

  /** The history of the thread's pass after that step. */
  function Record(fine: bool, s: Run, pc: RunPc, pass: Pass): Pass {
    match pc
    case Load => if !fine && !s.rb.closed && !s.rb.executed then pass.(mark := Some(|s.rb.regs|)) else pass
    case Store => pass
    case Measure => pass.(mark := Some(|s.rb.regs|))
    case Call(left) => if CallsUndo(s, pc) then pass.(calls := pass.calls + [left - 1]) else pass
  }

  // ------------------------------------------------------------ transform

  predicate IsRegister(step: Step) { step == REGISTER_BUNDLE || step == REGISTER_ROOTFS || step == REGISTER_SHM }

  function UndoOf(step: Step): Undo
    requires IsRegister(step)
  {
    if step == REGISTER_BUNDLE then CleanBundle else if step == REGISTER_ROOTFS then CleanRootfs else UnmountShm
  }

  /** What a successful external call leaves behind. */
  function Acquire(w: World, step: Step): World {
    if step == PAUSE then w.(paused := true)
    else if step == PREPARE_BUNDLE then w.(bundle := true)
    else if step == GENERATE_ROOTFS then w.(rootfs := true)
    else if step == PREPARE_SHM then w.(bundle := true, shm := true)
    else w
  }

  /** The deferred function of `transform`: roll back if `retErr` is set, then close. */
  function Leave(s: Run): Run { s.(main := if s.retErr then Rolling(Load) else Sending) }

  function Fail(s: Run, step: Step, odd: bool): Run {
    var makes := step == PREPARE_SHM && odd;
    // the marshalling error is not stored in retErr
    Leave(s.(
      world := if makes then s.world.(bundle := true) else s.world,
      remade := s.remade || (makes && 0 in s.watchPass.calls),
      failedAt := Some(step), retErr := if step == MARSHAL_OCI then s.retErr else true))
  }

  function Succeed(s: Run, step: Step): Run {
    var s' := s.(
      world := Acquire(s.world, step),
      retErr := if step == MARSHAL_OCI then s.retErr else false,
      gotRootfs := s.gotRootfs || step == GENERATE_ROOTFS,
      gotShm := s.gotShm || step == PREPARE_SHM);
    if step == LCR_CREATE then Leave(s') else s'.(main := Work(step + 1))
  }

  function WorkStep(s: Run, step: Step, ok: bool, odd: bool): Run {
    if IsRegister(step) then s.(rb := s.rb.(regs := s.rb.regs + [UndoOf(step)]), main := Work(step + 1))
    else if step == PAUSE && !ok && odd then
      // "already paused" is not fatal; the error stays in retErr until the next call
      s.(world := Acquire(s.world, step), retErr := true, main := Work(step + 1))
    else if ok && !(step == PREPARE_BUNDLE && s.world.bundle) then Succeed(s, step)
    else Fail(s, step, odd)
  }

  function MainRoll(fine: bool, s: Run, pc: RunPc, ok: bool): Run {
    var next := NextPc(fine, s, pc);
    RunStep(fine, s, pc, ok).(
      main := if next.None? then Sending else Rolling(next.value),
      mainPass := Record(fine, s, pc, s.mainPass))
  }

  function MainStep(fine: bool, s: Run, ok: bool, odd: bool): Run {
    match s.main
    case Idle => s.(main := Work(PAUSE), watch := Select)
    case Work(step) => WorkStep(s, step, ok, odd)
    case Rolling(pc) => MainRoll(fine, s, pc, ok)
    case Sending => if s.rb.slot.None? then s.(rb := s.rb.(slot := Some(true)), main := Closing) else s
    case Closing => s.(rb := s.rb.(chClosed := true), main := Returned)
    case Returned => s
  }

  function WatchRoll(fine: bool, s: Run, pc: RunPc, ok: bool): Run {
    var next := NextPc(fine, s, pc);
    RunStep(fine, s, pc, ok).(
      watch := if next.None? then Gone else Watching(next.value),
      watchPass := Record(fine, s, pc, s.watchPass))
  }

  /** `select` between the signal and the channel; a closed, drained channel yields false. */
  function WatchSelect(sig: bool, s: Run, onSignal: bool): Run {
    if onSignal then (if sig then s.(watch := Watching(Load)) else s)
    else if s.rb.slot.Some? then s.(rb := s.rb.(closed := s.rb.slot.value, slot := None), watch := Gone)
    else if s.rb.chClosed then s.(rb := s.rb.(closed := false), watch := Gone)
    else s
  }

  function WatchStep(fine: bool, sig: bool, s: Run, onSignal: bool, ok: bool): Run {
    match s.watch
    case Select => WatchSelect(sig, s, onSignal)
    case Watching(pc) => WatchRoll(fine, s, pc, ok)
    case _ => s
  }

  /** One step; a thread that cannot move leaves the state as it is. */
  function Apply(fine: bool, sig: bool, s: Run, a: Act): Run {
    match a
    case Main(ok, odd) => MainStep(fine, s, ok, odd)
    case Watch(onSignal, ok) => WatchStep(fine, sig, s, onSignal, ok)
  }

  /** An event of an interleaving: a step, with the signal delivered or not at that time. */
  datatype Event = Event(sig: bool, act: Act)

  /** A signal, once delivered, stays delivered. */
  predicate Schedule(es: seq<Event>) {
    forall i, j :: 0 <= i < j < |es| && es[i].sig ==> es[j].sig
  }

  /** The state after an interleaving. */
  function Exec(fine: bool, w0: World, es: seq<Event>): Run {
    if es == [] then Start(w0)
    else
      var n := |es| - 1;
      Apply(fine, es[n].sig, Exec(fine, w0, es[..n]), es[n].act)
  }
}
