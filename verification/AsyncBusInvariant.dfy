/** What every reachable state of the asynchronous provider satisfies. */
module AsyncBusInvariant {
  import opened Prelude
  import opened OutstandingBudgets
  import opened Queues
  import opened Deliveries
  import opened Fanout
  import opened ReadyHeads
  import opened ReceiveTimers
  import opened AsyncSignals
  import opened AsyncBus

  // ----- registry -----

  /** The mailbox under `id` is a queue of that id, listed under its topic. */
  predicate MailboxOk(c: Core, bus: Bus, id: nat)
    requires id in bus.mailboxes
  {
    var i := bus.mailboxes[id];
    i < |c.queues| && c.queues[i].id == id && id in Members(bus, c.queues[i].topic)
  }

  /** A listed id has a mailbox of the topic, with the type bound to the topic while the provider is open. */
  predicate MemberOk(c: Core, bus: Bus, topic: string, id: nat) {
    && id in bus.mailboxes && bus.mailboxes[id] < |c.queues| && c.queues[bus.mailboxes[id]].topic == topic
    && (!bus.closed ==> topic in bus.types && bus.types[topic] == c.queues[bus.mailboxes[id]].declaredType)
  }

  ghost predicate MailboxesOk(c: Core, bus: Bus) {
    forall id | id in bus.mailboxes :: MailboxOk(c, bus, id)
  }

  ghost predicate MembersOk(c: Core, bus: Bus) {
    && (forall topic, id | id in Members(bus, topic) :: MemberOk(c, bus, topic, id))
    && (forall topic | topic in bus.members :: bus.members[topic] != {})
    && (!bus.closed ==> forall topic | topic in bus.types :: topic in bus.members)
  }

  predicate HasMailbox(c: Core, bus: Bus, i: nat)
    requires i < |c.queues|
  {
    c.queues[i].id in bus.mailboxes && bus.mailboxes[c.queues[i].id] == i
  }

  /** A queue that is not closed has a mailbox, or the final sweep is about to close it. */
  ghost predicate OpenOk(c: Core, bus: Bus, sweep: set<nat>) {
    forall i | 0 <= i < |c.queues| && !c.queues[i].closed :: HasMailbox(c, bus, i) || i in sweep
  }

  function SweepOf(pc: Pc): (left: set<nat>) {
    match pc
    case Stopping(Sweeping(_, left, _), _) => left
    case _ => {}
  }

  function Sweep(s: State): (left: set<nat>) {
    if s.busLock.Some? && s.busLock.value < |s.actors| then SweepOf(s.actors[s.busLock.value].pc) else {}
  }

  ghost predicate BusOk(s: State) {
    MailboxesOk(s.core, s.bus) && MembersOk(s.core, s.bus) && OpenOk(s.core, s.bus, Sweep(s))
  }

  predicate HoldsBus(pc: Pc) {
    pc.Stopping? && (pc.phase.Checking? || pc.phase.Sweeping?)
  }

  ghost predicate LockOk(s: State) {
    && (s.busLock.Some? ==> s.busLock.value < |s.actors|)
    && (forall t | 0 <= t < |s.actors| :: HoldsBus(s.actors[t].pc) <==> s.busLock == Some(t))
    && (forall t | 0 <= t < |s.actors| && s.actors[t].pc.Stopping? && s.actors[t].pc.phase.Sweeping? ::
          s.bus.outcome.None? && s.bus.closed && s.bus.mailboxes == map[] && s.bus.members == map[])
    && (s.bus.outcome.Some? ==> s.bus.closed && AllClosed(s.core))
  }

  // ----- actors -----

  predicate TimeoutOk(task: ReceiveTask) {
    task.woken || (task.deadline.Some? ==> task.timer.armed.Some? && task.timer.armed.value <= task.deadline.value)
  }

  ghost predicate ReceiverOk(c: Core, ready: seq<Signal>, limit: nat, i: nat, stage: ReceiveStage, task: ReceiveTask) {
    && i < |c.queues| && i < |ready| && TimerOk(task.timer, limit)
    && (task.waiter.Some? ==> task.waiter.value < ready[i].nextId)
    && (stage.Registered? || stage.TimerDue? || stage.Sleeping? ==> task.waiter.Some?)
    && (stage.TimerDue? || stage.Sleeping? ==> TimeoutOk(task))
  }

  ghost predicate PhaseOk(c: Core, bus: Bus, phase: StopStage) {
    && (!phase.Entering? ==> bus.closed)
    && match phase
       case Checking(todo) => forall i | i in todo :: i < |c.queues|
       case Checked(seen) => seen.Some? ==> seen.value < |c.queues|
       case Arming(i) => i < |c.queues|
       case Dozing(i) => i < |c.queues|
       case Sweeping(_, left, all) => left <= all && (forall i | i in all :: i < |c.queues|)
       case _ => true
  }

  ghost predicate StopOk(changed: Signal, phase: StopStage, stop: StopTask) {
    && (stop.kept.Some? ==> stop.kept.value < changed.nextId)
    && (stop.next.Some? ==> stop.next.value < changed.nextId && stop.next != stop.kept)
    && (stop.next.Some? <==> phase.Listening? || phase.Checking? || phase.Checked?)
    && (stop.armed.Some? ==> !phase.Entering? && stop.armed == stop.deadline)
    && (phase.Arming? || phase.Dozing? ==> stop.kept.Some? && stop.armed == stop.deadline)
  }

  /** A shutdown gives up only once its timeout is over. */
  predicate OutcomeOk(clock: nat, phase: StopStage, stop: StopTask) {
    (phase.Finishing? || phase.Sweeping?) && phase.outcome == TimedOut ==>
      stop.deadline.Some? && stop.deadline.value <= clock
  }

  ghost predicate PcOk(s: State, pc: Pc) {
    match pc
    case Idle => true
    case Publishing(e, snapshot, done) => ReportOk(s.core, e, snapshot, done) && e.publication < s.publications
    case Published(e, snapshot, done, report) =>
      && ReportOk(s.core, e, snapshot, done) && |done| == |snapshot| && e.publication < s.publications
      && report == SortById(done)
    case Receiving(i, stage, task) => ReceiverOk(s.core, s.ready, s.limit, i, stage, task)
    case Stopping(phase, stop) =>
      PhaseOk(s.core, s.bus, phase) && StopOk(s.changed, phase, stop) && OutcomeOk(s.clock, phase, stop)
  }

  ghost predicate PcsOk(s: State) {
    forall t | 0 <= t < |s.actors| :: PcOk(s, s.actors[t].pc)
  }

  function PublicationOf(pc: Pc): (p: Option<nat>) {
    match pc
    case Publishing(e, _, _) => Some(e.publication)
    case Published(e, _, _, _) => Some(e.publication)
    case _ => None
  }

  ghost predicate PublicationsOk(s: State) {
    && (forall i, d | 0 <= i < |s.core.ledgers| && d in s.core.ledgers[i].admitted :: d.publication < s.publications)
    && (forall t, u | 0 <= t < u < |s.actors| && PublicationOf(s.actors[t].pc).Some? ::
          PublicationOf(s.actors[t].pc) != PublicationOf(s.actors[u].pc))
  }

  predicate SharesQueue(a: Pc, b: Pc) {
    a.Receiving? && b.Receiving? && a.queue == b.queue
  }

  predicate Registers(pc: Pc, id: nat) {
    pc.Stopping? && (pc.stop.kept == Some(id) || pc.stop.next == Some(id))
  }

  predicate SharesId(a: Pc, b: Pc) {
    || (a.Stopping? && a.stop.kept.Some? && Registers(b, a.stop.kept.value))
    || (a.Stopping? && a.stop.next.Some? && Registers(b, a.stop.next.value))
  }

  /** One receive at a time on a queue, and registrations of different shutdowns are different. */
  predicate ApartOk(s: State) {
    forall t, u | 0 <= t < |s.actors| && 0 <= u < |s.actors| && t != u ::
      !SharesQueue(s.actors[t].pc, s.actors[u].pc) && !SharesId(s.actors[t].pc, s.actors[u].pc)
  }

  // ----- wake-ups -----

  ghost predicate Wakes(a: Actor, w: nat) {
    exists id :: id in a.wakes && a.wakes[id] == w
  }

  ghost predicate SomeWakes(actors: seq<Actor>, w: nat) {
    exists t | 0 <= t < |actors| :: Wakes(actors[t], w)
  }

  predicate OwesReady(a: Actor, i: nat) {
    i in a.readies || (a.pc.Stopping? && a.pc.phase.Sweeping? && i in a.pc.phase.all)
  }

  predicate OwesChanged(a: Actor) {
    a.changed || (a.pc.Stopping? && a.pc.phase.Sweeping?)
  }

  ghost predicate SomeOwesReady(actors: seq<Actor>, i: nat) {
    exists t | 0 <= t < |actors| :: OwesReady(actors[t], i)
  }

  ghost predicate SomeOwesChanged(actors: seq<Actor>) {
    exists t | 0 <= t < |actors| :: OwesChanged(actors[t])
  }

  predicate IsRegistered(signal: Signal, id: Option<nat>, w: nat) {
    id.Some? && id.value in signal.waiters && signal.waiters[id.value] == w
  }

  /** The timer fires no later than this head becomes ready. */
  predicate HeadCovered(e: LocalEvent, timer: TimerState) {
    e.notBefore.Some? && timer.armed.Some? && timer.armed.value <= e.notBefore.value
  }

  predicate HeadsCovered(q: Queue<nat>, timer: TimerState) {
    !q.closed && forall k | k in q.lanes && q.lanes[k] != [] :: HeadCovered(q.lanes[k][0], timer)
  }

  /** A receive that saw nothing was woken, or will be: for whatever the queue holds now there is a signal. */
  ghost predicate ReceiveWakeOk(s: State, pc: Pc)
    requires pc.Receiving? && pc.queue < |s.core.queues| && pc.queue < |s.ready|
  {
    var task := pc.task;
    pc.stage.Registered? || pc.stage.TimerDue? || pc.stage.Sleeping? ==>
      || task.woken
      || SomeWakes(s.actors, task.waker)
      || (&& IsRegistered(s.ready[pc.queue], task.waiter, task.waker)
          && (pc.stage.Registered? || SomeOwesReady(s.actors, pc.queue) || HeadsCovered(s.core.queues[pc.queue], task.timer)))
  }

  /** The registration and the busy queue a waiting shutdown relies on. */
  function StopRegistration(pc: Pc): (id: Option<nat>)
    requires pc.Stopping?
  {
    if pc.phase.Arming? || pc.phase.Dozing? then pc.stop.kept else pc.stop.next
  }

  function StopWitness(pc: Pc): (i: Option<nat>)
    requires pc.Stopping?
  {
    match pc.phase
    case Checked(seen) => seen
    case Arming(i) => Some(i)
    case Dozing(i) => Some(i)
    case _ => None
  }

  ghost predicate StopWakeOk(s: State, pc: Pc)
    requires pc.Stopping? && (StopWitness(pc).Some? ==> StopWitness(pc).value < |s.core.queues|)
  {
    pc.phase.Listening? || pc.phase.Checking? || pc.phase.Checked? || pc.phase.Arming? || pc.phase.Dozing? ==>
      || pc.stop.woken
      || SomeWakes(s.actors, pc.stop.waker)
      || (&& IsRegistered(s.changed, StopRegistration(pc), pc.stop.waker)
          && (StopWitness(pc).Some? ==> Busy(s.core, StopWitness(pc).value) || SomeOwesChanged(s.actors)))
  }

  ghost predicate WakeOk(s: State, pc: Pc) {
    && (pc.Receiving? ==> pc.queue < |s.core.queues| && pc.queue < |s.ready| && ReceiveWakeOk(s, pc))
    && (pc.Stopping? ==> (StopWitness(pc).Some? ==> StopWitness(pc).value < |s.core.queues|) && StopWakeOk(s, pc))
  }

  ghost predicate WakesOk(s: State) {
    forall t | 0 <= t < |s.actors| :: WakeOk(s, s.actors[t].pc)
  }

  predicate IdsOk(signal: Signal) {
    forall id | id in signal.waiters :: id < signal.nextId
  }

  predicate SignalsOk(s: State) {
    && |s.ready| == |s.core.queues| && IdsOk(s.changed)
    && (forall t | 0 <= t < |s.actors| && s.actors[t].pc.Stopping? :: Quiet(s.actors[t]))
    && (forall t, i | 0 <= t < |s.actors| && i in s.actors[t].readies :: i < |s.core.queues|)
  }

  ghost predicate Inv(s: State) {
    CoreOk(s.core) && BusOk(s) && LockOk(s) && PcsOk(s) && PublicationsOk(s) && ApartOk(s) && SignalsOk(s) && WakesOk(s)
  }

  lemma InitOk(actors: nat, capacity: nat, maxCount: nat, maxWeight: Option<nat>, limit: nat)
    requires 0 < maxCount <= USIZE_MAX && (maxWeight.Some? ==> 0 < maxWeight.value <= USIZE_MAX)
    ensures Inv(Init(actors, capacity, maxCount, maxWeight, limit))
  {
  }
}
