/**
 * The synchronous delivery scheduler as a step system: actors run register, cancel, finish, stop, submit, start
 * and join; workers run the handler loop. One step is one critical section under the state lock, or one
 * acquisition, release or notification between them. The `registered` lock and the lock of the worker handles
 * are held across several steps and so are modelled as owned by an actor.
 */
module Schedulers {
  import opened Prelude

  datatype Worker = Looking | Parked | Running(job: nat) | Exited

  /** What a join knew when it set `stopped`: submitted and queued jobs, spawned workers, a live one, resets. */
  datatype JoinNote = JoinNote(submitted: nat, queued: seq<nat>, spawned: nat, live: bool, resets: nat)

  datatype Actor =
    | Free
    | Cancelling(id: nat, rest: set<nat>)
    | Cancelled(rest: set<nat>)
    | Removing(id: nat)
    | Removed
    | Snapshotting(immediate: bool)
    | Stopping(rest: set<nat>)
    | Submitting
    | JoinNotify(note: JoinNote)
    | JoinLock(note: JoinNote)
    | Joining(note: JoinNote, left: set<nat>)
    | Joined(note: JoinNote)
    | Starting(spawned: nat)
    | FailNotify
    | FailJoining(left: set<nat>)

  /** Jobs are numbered in the order of submission; `takers[j]` is the worker that took job `j`. */
  datatype State = State(
    registered: set<nat>,
    cancelled: set<nat>,
    registeredLock: Option<nat>,
    draining: bool,
    immediate: bool,
    stopped: bool,
    jobs: seq<nat>,
    submitted: nat,
    takers: seq<nat>,
    finished: set<nat>,
    workers: seq<Worker>,
    handles: set<nat>,
    workersLock: Option<nat>,
    maxWorkers: nat,
    resets: nat,
    actors: seq<Actor>)

  function Init(actors: nat, maxWorkers: nat): (s: State) {
    State({}, {}, None, false, false, false, [], 0, [], {}, [], {}, None, maxWorkers, 0, seq(actors, _ => Free))
  }

  datatype Step =
    | Register(id: nat, admitted: bool)
    | CancelLock(id: nat)
    | CancelMark
    | CancelUnlock
    | FinishLock(id: nat)
    | FinishUnmark
    | FinishUnlock
    | StopFlags(immediate: bool)
    | StopSnapshot
    | StopNext(id: nat)
    | Submit
    | NotifyOne(worker: nat)
    | JoinStop
    | NotifyAll
    | JoinDrain
    | ReapWorker(worker: nat)
    | JoinReturn
    | StartLock
    | SpawnWorker(ok: bool)
    | StartReset

  datatype WorkerStep = Look | FinishJob | WakeSpuriously

  /** Whose turn it is. */
  datatype Turn = ActorTurn(actor: nat, step: Step) | WorkerTurn(worker: nat, move: WorkerStep)

  // ----- the two queries -----

  predicate HandlerMayStart(s: State, id: nat, cancelled: bool) {
    !s.immediate && id !in s.cancelled && (!cancelled || s.draining)
  }

  predicate ShouldDrain(s: State, id: nat) {
    s.draining && !s.immediate && id !in s.cancelled
  }

  // ----- steps of an actor -----

  function Goto(s: State, t: nat, pc: Actor): (r: State)
    requires t < |s.actors|
  {
    s.(actors := s.actors[t := pc])
  }

  /** `admitted` is the answer of the scheduling core. */
  function DoRegister(s: State, t: nat, id: nat, admitted: bool): (r: State)
    requires t < |s.actors|
  {
    if !s.actors[t].Free? || s.registeredLock.Some? || !admitted then s else s.(registered := s.registered + {id})
  }

  function DoCancelLock(s: State, t: nat, id: nat, rest: set<nat>): (r: State)
    requires t < |s.actors|
  {
    if s.registeredLock.Some? then s
    else if id !in s.registered then Goto(s, t, if rest == {} then Free else Stopping(rest))
    else Goto(s.(registeredLock := Some(t)), t, Cancelling(id, rest))
  }

  function DoCancelMark(s: State, t: nat): (r: State)
    requires t < |s.actors|
  {
    var pc := s.actors[t];
    if !pc.Cancelling? then s else Goto(s.(cancelled := s.cancelled + {pc.id}), t, Cancelled(pc.rest))
  }

  function DoCancelUnlock(s: State, t: nat): (r: State)
    requires t < |s.actors|
  {
    var pc := s.actors[t];
    if !pc.Cancelled? then s
    else Goto(s.(registeredLock := None), t, if pc.rest == {} then Free else Stopping(pc.rest))
  }

  function DoFinishLock(s: State, t: nat, id: nat): (r: State)
    requires t < |s.actors|
  {
    if !s.actors[t].Free? || s.registeredLock.Some? then s
    else Goto(s.(registeredLock := Some(t), registered := s.registered - {id}), t, Removing(id))
  }

  function DoFinishUnmark(s: State, t: nat): (r: State)
    requires t < |s.actors|
  {
    var pc := s.actors[t];
    if !pc.Removing? then s else Goto(s.(cancelled := s.cancelled - {pc.id}), t, Removed)
  }

  function DoFinishUnlock(s: State, t: nat): (r: State)
    requires t < |s.actors|
  {
    if !s.actors[t].Removed? then s else Goto(s.(registeredLock := None), t, Free)
  }

  function DoStopFlags(s: State, t: nat, immediate: bool): (r: State)
    requires t < |s.actors|
  {
    if !s.actors[t].Free? then s
    else Goto(s.(draining := true, immediate := s.immediate || immediate), t, Snapshotting(immediate))
  }

  /** A graceful stop only notifies the owners, which has no effect on this state. */
  function DoStopSnapshot(s: State, t: nat): (r: State)
    requires t < |s.actors|
  {
    var pc := s.actors[t];
    if !pc.Snapshotting? || s.registeredLock.Some? then s
    else Goto(s, t, if pc.immediate && s.registered != {} then Stopping(s.registered) else Free)
  }

  function DoStopNext(s: State, t: nat, id: nat): (r: State)
    requires t < |s.actors|
  {
    var pc := s.actors[t];
    if !pc.Stopping? || id !in pc.rest then s else DoCancelLock(s, t, id, pc.rest - {id})
  }

  function DoSubmit(s: State, t: nat): (r: State)
    requires t < |s.actors|
  {
    if !s.actors[t].Free? then s
    else Goto(s.(jobs := s.jobs + [s.submitted], submitted := s.submitted + 1), t, Submitting)
  }

  predicate AnyParked(workers: seq<Worker>) {
    exists w | 0 <= w < |workers| :: workers[w].Parked?
  }

  /** Wakes one parked worker, if there is one. */
  function DoNotifyOne(s: State, t: nat, w: nat): (r: State)
    requires t < |s.actors|
  {
    if !s.actors[t].Submitting? then s
    else if w < |s.workers| && s.workers[w].Parked? then Goto(s.(workers := s.workers[w := Looking]), t, Free)
    else if AnyParked(s.workers) then s
    else Goto(s, t, Free)
  }

  function Unparked(workers: seq<Worker>): (r: seq<Worker>)
    ensures |r| == |workers|
  {
    seq(|workers|, i requires 0 <= i < |workers| => if workers[i].Parked? then Looking else workers[i])
  }

  predicate AnyLive(workers: seq<Worker>) {
    exists w | 0 <= w < |workers| :: !workers[w].Exited?
  }

  function DoJoinStop(s: State, t: nat): (r: State)
    requires t < |s.actors|
  {
    if !s.actors[t].Free? then s
    else Goto(s.(stopped := true), t, JoinNotify(JoinNote(s.submitted, s.jobs, |s.workers|, AnyLive(s.workers), s.resets)))
  }

  /** `notify_all` of a join, or of a start that failed; the latter goes on to reap its workers. */
  function DoNotifyAll(s: State, t: nat): (r: State)
    requires t < |s.actors|
  {
    match s.actors[t]
    case JoinNotify(note) => Goto(s.(workers := Unparked(s.workers)), t, JoinLock(note))
    case FailNotify => Goto(s.(workers := Unparked(s.workers), handles := {}), t, FailJoining(s.handles))
    case _ => s
  }

  function DoJoinDrain(s: State, t: nat): (r: State)
    requires t < |s.actors|
  {
    var pc := s.actors[t];
    if !pc.JoinLock? || s.workersLock.Some? then s
    else Goto(s.(workersLock := Some(t), handles := {}), t, Joining(pc.note, s.handles))
  }

  /** `handle.join()` returns once the worker has exited. */
  function DoReap(s: State, t: nat, w: nat): (r: State)
    requires t < |s.actors|
  {
    if w >= |s.workers| || !s.workers[w].Exited? then s
    else match s.actors[t]
         case Joining(note, left) => if w in left then Goto(s, t, Joining(note, left - {w})) else s
         case FailJoining(left) => if w in left then Goto(s, t, FailJoining(left - {w})) else s
         case _ => s
  }

  function DoJoinReturn(s: State, t: nat): (r: State)
    requires t < |s.actors|
  {
    var pc := s.actors[t];
    if !pc.Joining? || pc.left != {} then s else Goto(s.(workersLock := None), t, Joined(pc.note))
  }

  function DoStartLock(s: State, t: nat): (r: State)
    requires t < |s.actors|
  {
    if !s.actors[t].Free? || s.workersLock.Some? || s.handles != {} || s.maxWorkers == 0 then s
    else Goto(s.(workersLock := Some(t)), t, Starting(0))
  }

  function DoSpawn(s: State, t: nat, ok: bool): (r: State)
    requires t < |s.actors|
  {
    var pc := s.actors[t];
    if !pc.Starting? then s
    else if !ok then Goto(s.(stopped := true), t, FailNotify)
    else
      var s' := s.(workers := s.workers + [Looking], handles := s.handles + {|s.workers|});
      if pc.spawned + 1 >= s.maxWorkers then Goto(s'.(workersLock := None), t, Free)
      else Goto(s', t, Starting(pc.spawned + 1))
  }

  function DoStartReset(s: State, t: nat): (r: State)
    requires t < |s.actors|
  {
    var pc := s.actors[t];
    if !pc.FailJoining? || pc.left != {} then s
    else Goto(s.(stopped := false, resets := s.resets + 1, workersLock := None), t, Free)
  }

  // ----- steps of a worker -----

  /** One turn under the state lock: take the oldest job, exit when stopped, or sleep. */
  function DoLook(s: State, w: nat): (r: State) {
    if w >= |s.workers| || !s.workers[w].Looking? then s
    else if s.jobs != [] then
      s.(jobs := s.jobs[1..], takers := s.takers + [w], workers := s.workers[w := Running(s.jobs[0])])
    else s.(workers := s.workers[w := if s.stopped then Exited else Parked])
  }

  function DoFinishJob(s: State, w: nat): (r: State) {
    if w >= |s.workers| || !s.workers[w].Running? then s
    else s.(finished := s.finished + {s.workers[w].job}, workers := s.workers[w := Looking])
  }

  function DoWake(s: State, w: nat): (r: State) {
    if w >= |s.workers| || !s.workers[w].Parked? then s else s.(workers := s.workers[w := Looking])
  }

  function Act(s: State, t: nat, a: Step): (r: State)
    requires t < |s.actors|
  {
    match a
    case Register(id, admitted) => DoRegister(s, t, id, admitted)
    case CancelLock(id) => if s.actors[t].Free? then DoCancelLock(s, t, id, {}) else s
    case CancelMark => DoCancelMark(s, t)
    case CancelUnlock => DoCancelUnlock(s, t)
    case FinishLock(id) => DoFinishLock(s, t, id)
    case FinishUnmark => DoFinishUnmark(s, t)
    case FinishUnlock => DoFinishUnlock(s, t)
    case StopFlags(immediate) => DoStopFlags(s, t, immediate)
    case StopSnapshot => DoStopSnapshot(s, t)
    case StopNext(id) => DoStopNext(s, t, id)
    case Submit => DoSubmit(s, t)
    case NotifyOne(w) => DoNotifyOne(s, t, w)
    case JoinStop => DoJoinStop(s, t)
    case NotifyAll => DoNotifyAll(s, t)
    case JoinDrain => DoJoinDrain(s, t)
    case ReapWorker(w) => DoReap(s, t, w)
    case JoinReturn => DoJoinReturn(s, t)
    case StartLock => DoStartLock(s, t)
    case SpawnWorker(ok) => DoSpawn(s, t, ok)
    case StartReset => DoStartReset(s, t)
  }

  /** A turn that is not enabled changes nothing. */
  function Next(s: State, turn: Turn): (r: State) {
    match turn
    case ActorTurn(t, a) => if t < |s.actors| then Act(s, t, a) else s
    case WorkerTurn(w, Look) => DoLook(s, w)
    case WorkerTurn(w, FinishJob) => DoFinishJob(s, w)
    case WorkerTurn(w, WakeSpuriously) => DoWake(s, w)
  }

  function Run(s: State, turns: seq<Turn>): (r: State) {
    if turns == [] then s else Next(Run(s, turns[..|turns| - 1]), turns[|turns| - 1])
  }
}
