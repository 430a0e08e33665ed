/**
 * The asynchronous provider as a step system. An actor is a task or a thread in the middle of publish, receive,
 * settle, close or shutdown; one step is one critical section, one registration or one wake call. Wakers are
 * numbers; waking a waker marks every task last polled with it. The registry lock is held across the steps of
 * the drain check and of the final sweep.
 */
module AsyncBus {
  import opened Prelude
  import opened Routing
  import opened OutstandingBudgets
  import opened Queues
  import opened Deliveries
  import opened Fanout
  import opened ReadyHeads
  import opened ReceiveTimers
  import opened AsyncSignals

  /** Mailboxes by subscription id, the ids of each topic, where the last publish started, and payload types. */
  datatype Bus = Bus(
    mailboxes: map<nat, nat>,
    members: map<string, set<nat>>,
    starts: map<string, nat>,
    types: map<string, nat>,
    closed: bool,
    outcome: Option<ShutdownOutcome>)

  /** A receive across its polls; `deadline` is when its timeout ends, if it is finite. */
  datatype ReceiveTask = ReceiveTask(waiter: Option<nat>, waker: nat, woken: bool, timer: TimerState, deadline: Option<nat>)

  datatype ReceiveStage = Polling | Registered | TimerDue | Sleeping | Leaving

  /**
   * A graceful shutdown across its polls: the registration it keeps and the one of the current poll, its timeout,
   * the instant that ends it, and the instant its timer completes once it is armed.
   */
  datatype StopTask = StopTask(
    kept: Option<nat>,
    next: Option<nat>,
    waker: nat,
    woken: bool,
    timeout: Option<nat>,
    deadline: Option<nat>,
    armed: Option<nat>)

  datatype StopStage =
    | Entering(graceful: bool)
    | Awaiting
    | Listening
    | Checking(todo: set<nat>)
    | Checked(seen: Option<nat>)
    | Arming(busy: nat)
    | Dozing(busy: nat)
    | Finishing(outcome: ShutdownOutcome)
    | Sweeping(outcome: ShutdownOutcome, left: set<nat>, all: set<nat>)

  datatype Pc =
    | Idle
    | Publishing(event: LocalEvent, snapshot: seq<nat>, done: seq<Admission>)
    | Published(event: LocalEvent, snapshot: seq<nat>, done: seq<Admission>, report: seq<Admission>)
    | Receiving(queue: nat, stage: ReceiveStage, task: ReceiveTask)
    | Stopping(phase: StopStage, stop: StopTask)

  /** An actor owes the notifications in `readies` and `changed`, and calls to the wakers it has drained. */
  datatype Actor = Actor(pc: Pc, readies: set<nat>, changed: bool, wakes: map<nat, nat>)

  datatype State = State(
    core: Core,
    bus: Bus,
    busLock: Option<nat>,
    ready: seq<Signal>,
    changed: Signal,
    actors: seq<Actor>,
    clock: nat,
    limit: nat,
    publications: nat,
    capacity: nat)

  datatype Step =
    | Tick
    | Subscribe(id: nat, topic: string, payloadType: nat)
    | BeginPublish(topic: string, eventId: string, key: Key, weight: Option<nat>, payloadType: nat, notBefore: Option<nat>)
    | AdmitNext
    | EndPublish
    | DrainReady(queue: nat)
    | DrainChanged
    | WakeOne(registration: nat)
    | ReceiveNow(queue: nat, key: Key)
    | BeginReceive(queue: nat, timeout: Option<nat>, waker: nat)
    | PollAgain(waker: nat)
    | RegisterWaiter
    | InspectQueue(key: Key)
    | PollTimer
    | FireTimer
    | LeaveReceive
    | SettleToken(queue: nat, handle: nat, disposition: Disposition)
    | CloseMailbox(queue: nat)
    | BeginShutdown(graceful: bool, timeout: Option<nat>, waker: nat)
    | CloseAdmission
    | RegisterChanged
    | LockBus
    | CheckMailbox(queue: nat)
    | EndCheck
    | Decide
    | PollStopTimer
    | FireStopTimer
    | DropShutdown
    | LockSweep
    | SweepMailbox(queue: nat)
    | EndSweep

  function Init(actors: nat, capacity: nat, maxCount: nat, maxWeight: Option<nat>, limit: nat): (s: State) {
    State(NewCore(maxCount, maxWeight), Bus(map[], map[], map[], map[], false, None), None, [], NewSignal(),
          seq(actors, _ => Actor(Idle, {}, false, map[])), 0, limit, 0, capacity)
  }

  /** Nothing is left to notify or wake. */
  predicate Quiet(a: Actor) {
    a.readies == {} && !a.changed && a.wakes == map[]
  }

  predicate Free(a: Actor) {
    Quiet(a) && (a.pc.Idle? || a.pc.Published?)
  }

  function Set(s: State, t: nat, a: Actor): (r: State)
    requires t < |s.actors|
  {
    s.(actors := s.actors[t := a])
  }

  function Goto(s: State, t: nat, pc: Pc): (r: State)
    requires t < |s.actors|
  {
    Set(s, t, s.actors[t].(pc := pc))
  }

  // ----- registry -----

  function Members(bus: Bus, topic: string): (m: set<nat>) {
    if topic in bus.members then bus.members[topic] else {}
  }

  predicate TypeConflict(bus: Bus, topic: string, payloadType: nat) {
    topic in bus.types && bus.types[topic] != payloadType
  }

  function Insert(bus: Bus, id: nat, topic: string, payloadType: nat, queue: nat): (r: Bus) {
    bus.(mailboxes := bus.mailboxes[id := queue],
         members := bus.members[topic := Members(bus, topic) + {id}],
         types := bus.types[topic := payloadType])
  }

  /** Removes the mailbox only while its entry is the same mailbox; the last one takes the topic along. */
  function Remove(bus: Bus, q: Queue<nat>, queue: nat): (r: Bus) {
    if q.id !in bus.mailboxes || bus.mailboxes[q.id] != queue then bus
    else
      var rest := Members(bus, q.topic) - {q.id};
      if rest == {} then
        bus.(mailboxes := bus.mailboxes - {q.id}, members := bus.members - {q.topic},
             starts := bus.starts - {q.topic}, types := bus.types - {q.topic})
      else bus.(mailboxes := bus.mailboxes - {q.id}, members := bus.members[q.topic := rest])
  }

  /** Every member of a topic has a mailbox; the filter of the source drops nothing. */
  ghost function Order(bus: Bus, topic: string): (r: seq<nat>) {
    PublishOrder(Members(bus, topic), if topic in bus.starts then Some(bus.starts[topic]) else None)
  }

  ghost function Snapshot(bus: Bus, topic: string): (r: seq<nat>) {
    var order := Order(bus, topic);
    seq(|order|, j requires 0 <= j < |order| => if order[j] in bus.mailboxes then bus.mailboxes[order[j]] else 0)
  }

  ghost function Rotated(bus: Bus, topic: string): (r: Bus) {
    var order := Order(bus, topic);
    if order == [] then bus else bus.(starts := bus.starts[topic := order[0]])
  }

  // ----- subscribe and publish -----

  function DoSubscribe(s: State, t: nat, id: nat, topic: string, payloadType: nat): (r: State)
    requires t < |s.actors|
  {
    if !Free(s.actors[t]) || s.busLock.Some? || s.bus.closed || TypeConflict(s.bus, topic, payloadType)
       || id in s.bus.mailboxes then s
    else Goto(s.(core := AddQueue(s.core, id, topic, payloadType, s.capacity),
                 bus := Insert(s.bus, id, topic, payloadType, |s.core.queues|),
                 ready := s.ready + [NewSignal()]), t, Idle)
  }

  ghost function DoBeginPublish(s: State, t: nat, a: Step): (r: State)
    requires t < |s.actors| && a.BeginPublish?
  {
    if !Free(s.actors[t]) || s.busLock.Some? || s.bus.closed || TypeConflict(s.bus, a.topic, a.payloadType)
       || (RequiresWeight(s.core.budget) && a.weight.None?) then s
    else
      var e := LocalEvent(s.publications, a.eventId, a.key, EffectiveWeight(s.core.budget, a.weight), a.payloadType, a.notBefore);
      Goto(s.(bus := Rotated(s.bus, a.topic), publications := s.publications + 1), t,
           Publishing(e, Snapshot(s.bus, a.topic), []))
  }

  ghost function DoAdmitNext(s: State, t: nat): (r: State)
    requires t < |s.actors|
  {
    var a := s.actors[t];
    var pc := a.pc;
    if !Quiet(a) || !pc.Publishing? || |pc.done| >= |pc.snapshot| || pc.snapshot[|pc.done|] >= |s.core.queues|
       || |s.core.queues| != |s.core.ledgers| then s
    else
      var i := pc.snapshot[|pc.done|];
      var q := s.core.queues[i];
      var refusal := AdmissionRefusal(q, s.core.budget, pc.event);
      Set(s.(core := Admit(s.core, i, pc.event)), t,
          Actor(Publishing(pc.event, pc.snapshot, pc.done + [Admission(q.id, refusal)]),
                if refusal.None? then {i} else {}, false, map[]))
  }

  function DoEndPublish(s: State, t: nat): (r: State)
    requires t < |s.actors|
  {
    var a := s.actors[t];
    var pc := a.pc;
    if !Quiet(a) || !pc.Publishing? || |pc.done| != |pc.snapshot| then s
    else Set(s, t, Actor(Published(pc.event, pc.snapshot, pc.done, SortById(pc.done)), {}, pc.snapshot != [], map[]))
  }

  // ----- notifications -----

  /** `notify_all` takes the whole registry first and wakes afterwards, with the registry unlocked. */
  function DoDrainReady(s: State, t: nat, i: nat): (r: State)
    requires t < |s.actors|
  {
    var a := s.actors[t];
    if i !in a.readies || a.wakes != map[] || i >= |s.ready| then s
    else Set(s.(ready := s.ready[i := Drained(s.ready[i])]), t, a.(readies := a.readies - {i}, wakes := s.ready[i].waiters))
  }

  function DoDrainChanged(s: State, t: nat): (r: State)
    requires t < |s.actors|
  {
    var a := s.actors[t];
    if !a.changed || a.readies != {} || a.wakes != map[] then s
    else Set(s.(changed := Drained(s.changed)), t, a.(changed := false, wakes := s.changed.waiters))
  }

  /** The program counter belongs to a task last polled with waker `w`. */
  predicate PolledWith(pc: Pc, w: nat) {
    (pc.Receiving? && pc.task.waker == w) || (pc.Stopping? && pc.stop.waker == w)
  }

  function Woken(a: Actor, w: nat): (r: Actor) {
    if !PolledWith(a.pc, w) then a
    else match a.pc
         case Receiving(q, stage, task) => a.(pc := Receiving(q, stage, task.(woken := true)))
         case Stopping(phase, stop) => a.(pc := Stopping(phase, stop.(woken := true)))
         case _ => a
  }

  function WakeAll(actors: seq<Actor>, w: nat): (r: seq<Actor>)
    ensures |r| == |actors|
  {
    seq(|actors|, i requires 0 <= i < |actors| => Woken(actors[i], w))
  }

  function DoWakeOne(s: State, t: nat, id: nat): (r: State)
    requires t < |s.actors|
  {
    var a := s.actors[t];
    if id !in a.wakes then s
    else s.(actors := WakeAll(s.actors[t := a.(wakes := a.wakes - {id})], a.wakes[id]))
  }

  // ----- receive -----

  /** A subscription is borrowed by at most one receive at a time. */
  predicate ReceiverActive(s: State, i: nat) {
    exists t | 0 <= t < |s.actors| :: s.actors[t].pc.Receiving? && s.actors[t].pc.queue == i
  }

  /** The zero timeout: one look at the queue, without a registration. */
  function DoReceiveNow(s: State, t: nat, i: nat, k: Key): (r: State)
    requires t < |s.actors|
  {
    if !Free(s.actors[t]) || i >= |s.core.queues| || ReceiverActive(s, i) || !HeadReady(s.core.queues[i], k, s.clock) then s
    else s.(core := Receive(s.core, i, k))
  }

  function DoBeginReceive(s: State, t: nat, i: nat, timeout: Option<nat>, waker: nat): (r: State)
    requires t < |s.actors|
  {
    if !Free(s.actors[t]) || i >= |s.core.queues| || ReceiverActive(s, i) || timeout == Some(0) then s
    else Goto(s, t, Receiving(i, Polling, ReceiveTask(None, waker, false, NoTimer(),
                                                      if timeout.Some? then Some(s.clock + timeout.value) else None)))
  }

  /** The executor polls a sleeping task, with any waker and at any time. */
  function DoPollAgain(s: State, t: nat, waker: nat): (r: State)
    requires t < |s.actors|
  {
    match s.actors[t].pc
    case Receiving(i, Sleeping, task) => Goto(s, t, Receiving(i, Polling, task.(waker := waker, woken := false)))
    case Stopping(Dozing(_), stop) => Goto(s, t, Stopping(Awaiting, stop.(waker := waker, woken := false)))
    case _ => s
  }

  function DoRegisterWaiter(s: State, t: nat): (r: State)
    requires t < |s.actors|
  {
    match s.actors[t].pc
    case Receiving(i, Polling, task) =>
      if i >= |s.ready| then s
      else Goto(s.(ready := s.ready[i := RegisterOrUpdate(s.ready[i], task.waiter, task.waker)]), t,
                Receiving(i, Registered, task.(waiter := Some(WaiterId(s.ready[i], task.waiter)))))
    case _ => s
  }

  /** The critical section of a poll: closed, a delivery, timed out, or nothing yet and the timer is set. */
  ghost function DoInspect(s: State, t: nat, k: Key): (r: State)
    requires t < |s.actors|
  {
    match s.actors[t].pc
    case Receiving(i, Registered, task) =>
      if i >= |s.core.queues| then s
      else
        var q := s.core.queues[i];
        if q.closed then Goto(s, t, Receiving(i, Leaving, task))
        else if HeadReady(q, k, s.clock) then Goto(s.(core := Receive(s.core, i, k)), t, Receiving(i, Leaving, task))
        else if HasReady(q, s.clock) then s
        else if task.deadline.Some? && task.deadline.value <= s.clock then Goto(s, t, Receiving(i, Leaving, task))
        else
          var remaining := if task.deadline.Some? then Some(task.deadline.value - s.clock) else None;
          Goto(s, t, Receiving(i, TimerDue, task.(timer := Arm(task.timer, s.clock, NextDelay(q, s.clock), remaining, s.limit))))
    case _ => s
  }

  /** The timer is polled: when it has fired, the future wakes its own task. */
  function DoPollTimer(s: State, t: nat): (r: State)
    requires t < |s.actors|
  {
    match s.actors[t].pc
    case Receiving(i, TimerDue, task) =>
      if task.timer.armed.Some? && task.timer.armed.value <= s.clock
      then Goto(s, t, Receiving(i, Sleeping, task.(timer := NoTimer(), woken := true)))
      else Goto(s, t, Receiving(i, Sleeping, task))
    case _ => s
  }

  function DoFireTimer(s: State, t: nat): (r: State)
    requires t < |s.actors|
  {
    match s.actors[t].pc
    case Receiving(i, Sleeping, task) =>
      if task.timer.armed.Some? && task.timer.armed.value <= s.clock
      then Goto(s, t, Receiving(i, Sleeping, task.(woken := true)))
      else s
    case _ => s
  }

  /** The waiter is dropped: after an answer, or because the future itself is dropped between two polls. */
  function DoLeaveReceive(s: State, t: nat): (r: State)
    requires t < |s.actors|
  {
    match s.actors[t].pc
    case Receiving(i, stage, task) =>
      if !(stage.Leaving? || stage.Sleeping?) || i >= |s.ready| then s
      else Goto(if task.waiter.None? then s else s.(ready := s.ready[i := Unregister(s.ready[i], task.waiter.value)]), t, Idle)
    case _ => s
  }

  // ----- settle and close -----

  function DoSettle(s: State, t: nat, i: nat, h: nat, d: Disposition): (r: State)
    requires t < |s.actors|
  {
    if !Free(s.actors[t]) || i >= |s.core.queues| || |s.core.queues| != |s.core.ledgers| || h >= |s.core.tokens| then s
    else if SettleVerdict(s.core.queues[i], h, s.core.tokens[h], d) != Applies then s
    else Set(s.(core := Settle(s.core, i, h, d)), t, Actor(Idle, {i}, true, map[]))
  }

  /** Under the registry lock and the queue lock together. */
  ghost function DoCloseMailbox(s: State, t: nat, i: nat): (r: State)
    requires t < |s.actors|
  {
    if !Free(s.actors[t]) || s.busLock.Some? || i >= |s.core.queues| || |s.core.queues| != |s.core.ledgers| then s
    else Set(s.(core := Close(s.core, i), bus := Remove(s.bus, s.core.queues[i], i)), t, Actor(Idle, {i}, true, map[]))
  }

  // ----- shutdown -----

  function DoBeginShutdown(s: State, t: nat, graceful: bool, timeout: Option<nat>, waker: nat): (r: State)
    requires t < |s.actors|
  {
    if !Free(s.actors[t]) then s
    else Goto(s, t, Stopping(Entering(graceful), StopTask(None, None, waker, false, timeout, None, None)))
  }

  function DoCloseAdmission(s: State, t: nat): (r: State)
    requires t < |s.actors|
  {
    match s.actors[t].pc
    case Stopping(Entering(graceful), stop) =>
      if s.busLock.Some? then s
      else Goto(s.(bus := s.bus.(closed := true)), t,
                Stopping(if graceful then Awaiting else Finishing(Complete),
                         stop.(deadline := if stop.timeout.Some? then Some(s.clock + stop.timeout.value) else None)))
    case _ => s
  }

  function DoRegisterChanged(s: State, t: nat): (r: State)
    requires t < |s.actors|
  {
    match s.actors[t].pc
    case Stopping(Awaiting, stop) =>
      Goto(s.(changed := Register(s.changed, stop.waker)), t, Stopping(Listening, stop.(next := Some(s.changed.nextId))))
    case _ => s
  }

  function DoLockBus(s: State, t: nat): (r: State)
    requires t < |s.actors|
  {
    match s.actors[t].pc
    case Stopping(Listening, stop) =>
      if s.busLock.Some? then s
      else Goto(s.(busLock := Some(t)), t, Stopping(Checking(s.bus.mailboxes.Values), stop))
    case _ => s
  }

  function DoCheckMailbox(s: State, t: nat, i: nat): (r: State)
    requires t < |s.actors|
  {
    match s.actors[t].pc
    case Stopping(Checking(todo), stop) =>
      if i !in todo || i >= |s.core.queues| then s
      else if Busy(s.core, i) then Goto(s.(busLock := None), t, Stopping(Checked(Some(i)), stop))
      else Goto(s, t, Stopping(Checking(todo - {i}), stop))
    case _ => s
  }

  function DoEndCheck(s: State, t: nat): (r: State)
    requires t < |s.actors|
  {
    match s.actors[t].pc
    case Stopping(Checking(todo), stop) =>
      if todo != {} then s else Goto(s.(busLock := None), t, Stopping(Checked(None), stop))
    case _ => s
  }

  function Retired(s: Signal, id: Option<nat>): (r: Signal) {
    if id.Some? then Unregister(s, id.value) else s
  }

  /**
   * The previous registration is dropped. Without a busy queue, or with the time used up, the wait ends and drops its
   * own; otherwise the timer is armed, once, for the time that remains.
   */
  function DoDecide(s: State, t: nat): (r: State)
    requires t < |s.actors|
  {
    match s.actors[t].pc
    case Stopping(Checked(seen), stop) =>
      var left := Retired(s.changed, stop.kept);
      if seen.None? || (stop.deadline.Some? && stop.deadline.value <= s.clock)
      then Goto(s.(changed := Retired(left, stop.next)), t,
                Stopping(Finishing(if seen.None? then Complete else TimedOut), stop.(kept := None, next := None)))
      else Goto(s.(changed := left), t,
                Stopping(Arming(seen.value),
                         stop.(kept := stop.next, next := None,
                               armed := if stop.armed.Some? then stop.armed else stop.deadline)))
    case _ => s
  }

  predicate StopTimerDue(s: State, stop: StopTask) {
    stop.armed.Some? && stop.armed.value <= s.clock
  }

  /** The armed timer is polled in the same poll: a completed one ends the wait, otherwise the shutdown sleeps. */
  function DoPollStopTimer(s: State, t: nat): (r: State)
    requires t < |s.actors|
  {
    match s.actors[t].pc
    case Stopping(Arming(i), stop) =>
      if StopTimerDue(s, stop)
      then Goto(s.(changed := Retired(s.changed, stop.kept)), t, Stopping(Finishing(TimedOut), stop.(kept := None)))
      else Goto(s, t, Stopping(Dozing(i), stop))
    case _ => s
  }

  function DoFireStopTimer(s: State, t: nat): (r: State)
    requires t < |s.actors|
  {
    match s.actors[t].pc
    case Stopping(Dozing(i), stop) =>
      if StopTimerDue(s, stop) then Goto(s, t, Stopping(Dozing(i), stop.(woken := true))) else s
    case _ => s
  }

  /** The future of a sleeping shutdown is dropped; admission stays closed. */
  function DoDropShutdown(s: State, t: nat): (r: State)
    requires t < |s.actors|
  {
    match s.actors[t].pc
    case Stopping(Dozing(_), stop) => Goto(s.(changed := Retired(s.changed, stop.kept)), t, Idle)
    case _ => s
  }

  /** The first to get here drains the registry; a later one returns the recorded outcome. */
  function DoLockSweep(s: State, t: nat): (r: State)
    requires t < |s.actors|
  {
    match s.actors[t].pc
    case Stopping(Finishing(outcome), stop) =>
      if s.busLock.Some? then s
      else if s.bus.outcome.Some? then Goto(s, t, Idle)
      else Goto(s.(busLock := Some(t), bus := s.bus.(closed := true, mailboxes := map[], members := map[], starts := map[])), t,
                Stopping(Sweeping(outcome, s.bus.mailboxes.Values, s.bus.mailboxes.Values), stop))
    case _ => s
  }

  ghost function DoSweep(s: State, t: nat, i: nat): (r: State)
    requires t < |s.actors|
  {
    match s.actors[t].pc
    case Stopping(Sweeping(outcome, left, all), stop) =>
      if i !in left || i >= |s.core.queues| || |s.core.queues| != |s.core.ledgers| then s
      else Goto(s.(core := Close(s.core, i)), t, Stopping(Sweeping(outcome, left - {i}, all), stop))
    case _ => s
  }

  function DoEndSweep(s: State, t: nat): (r: State)
    requires t < |s.actors|
  {
    match s.actors[t].pc
    case Stopping(Sweeping(outcome, left, all), stop) =>
      if left != {} then s
      else Set(s.(busLock := None, bus := s.bus.(types := map[], outcome := Some(outcome))), t, Actor(Idle, all, true, map[]))
    case _ => s
  }

  ghost function Next(s: State, t: nat, a: Step): (r: State) {
    if t >= |s.actors| then s
    else match a
      case Tick => s.(clock := s.clock + 1)
      case Subscribe(id, topic, payloadType) => DoSubscribe(s, t, id, topic, payloadType)
      case BeginPublish(_, _, _, _, _, _) => DoBeginPublish(s, t, a)
      case AdmitNext => DoAdmitNext(s, t)
      case EndPublish => DoEndPublish(s, t)
      case DrainReady(i) => DoDrainReady(s, t, i)
      case DrainChanged => DoDrainChanged(s, t)
      case WakeOne(id) => DoWakeOne(s, t, id)
      case ReceiveNow(i, k) => DoReceiveNow(s, t, i, k)
      case BeginReceive(i, timeout, waker) => DoBeginReceive(s, t, i, timeout, waker)
      case PollAgain(waker) => DoPollAgain(s, t, waker)
      case RegisterWaiter => DoRegisterWaiter(s, t)
      case InspectQueue(k) => DoInspect(s, t, k)
      case PollTimer => DoPollTimer(s, t)
      case FireTimer => DoFireTimer(s, t)
      case LeaveReceive => DoLeaveReceive(s, t)
      case SettleToken(i, h, d) => DoSettle(s, t, i, h, d)
      case CloseMailbox(i) => DoCloseMailbox(s, t, i)
      case BeginShutdown(graceful, timeout, waker) => DoBeginShutdown(s, t, graceful, timeout, waker)
      case CloseAdmission => DoCloseAdmission(s, t)
      case RegisterChanged => DoRegisterChanged(s, t)
      case LockBus => DoLockBus(s, t)
      case CheckMailbox(i) => DoCheckMailbox(s, t, i)
      case EndCheck => DoEndCheck(s, t)
      case Decide => DoDecide(s, t)
      case PollStopTimer => DoPollStopTimer(s, t)
      case FireStopTimer => DoFireStopTimer(s, t)
      case DropShutdown => DoDropShutdown(s, t)
      case LockSweep => DoLockSweep(s, t)
      case SweepMailbox(i) => DoSweep(s, t, i)
      case EndSweep => DoEndSweep(s, t)
  }

  ghost function Run(s: State, steps: seq<(nat, Step)>): (r: State) {
    if steps == [] then s
    else Next(Run(s, steps[..|steps| - 1]), steps[|steps| - 1].0, steps[|steps| - 1].1)
  }
}
