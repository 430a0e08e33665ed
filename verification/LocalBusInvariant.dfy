/** What every reachable state of the synchronous provider satisfies. */
module LocalBusInvariant {
  import opened Prelude
  import opened OutstandingBudgets
  import opened Queues
  import opened Deliveries
  import opened Fanout
  import opened LocalBus

  // ----- registry -----

  predicate Holds(bus: Bus, topic: string, id: nat) {
    topic in bus.topics && id in bus.topics[topic].queues
  }

  predicate EntryFor(c: Core, bus: Bus, topic: string, id: nat)
    requires Holds(bus, topic, id)
  {
    var i := bus.topics[topic].queues[id];
    && i < |c.queues|
    && c.queues[i].id == id && c.queues[i].topic == topic
    && c.queues[i].declaredType == bus.topics[topic].payloadType
    && id in bus.ids
  }

  predicate IsRegistered(c: Core, bus: Bus, i: nat)
    requires i < |c.queues|
  {
    var q := c.queues[i];
    Holds(bus, q.topic, q.id) && bus.topics[q.topic].queues[q.id] == i
  }

  ghost predicate Listed(bus: Bus, id: nat) {
    exists topic :: Holds(bus, topic, id)
  }

  ghost predicate EntriesOk(c: Core, bus: Bus) {
    forall topic, id | Holds(bus, topic, id) :: EntryFor(c, bus, topic, id)
  }

  /** Ids are unique across topics and `ids` is exactly the set of registered ids; no bucket is empty. */
  ghost predicate IdsOk(bus: Bus) {
    && (forall topic | topic in bus.topics :: bus.topics[topic].queues != map[])
    && (forall p, q, id | Holds(bus, p, id) && Holds(bus, q, id) :: p == q)
    && (forall id | id in bus.ids :: Listed(bus, id))
  }

  ghost predicate OpenOk(c: Core, bus: Bus) {
    forall i | 0 <= i < |c.queues| && !c.queues[i].closed :: IsRegistered(c, bus, i)
  }

  /** Every entry points to a queue of its id, topic and type, and a queue that is not closed is registered. */
  ghost predicate BusOk(c: Core, bus: Bus) {
    EntriesOk(c, bus) && IdsOk(bus) && OpenOk(c, bus)
  }

  // ----- threads -----

  ghost predicate WaitOk(c: Core, bus: Bus, w: Waiting, version: nat) {
    version <= bus.version && (w.Drain? ==> bus.closed)
  }

  /** Queue `i` is one the waiter asked about. */
  predicate Watches(c: Core, w: Waiting, i: nat) {
    i < |c.queues| && (w.TopicIdle? ==> c.queues[i].topic == w.topic)
  }

  ghost predicate AfterOk(c: Core, bus: Bus, publications: nat, after: After) {
    match after
    case Finish => true
    case Report(e, snapshot, done) => ReportOk(c, e, snapshot, done) && |done| == |snapshot| && e.publication < publications
    case Proceed(_) => bus.closed
    case OpenGate => bus.outcome.Some?
  }

  ghost predicate PcOk(c: Core, bus: Bus, publications: nat, pc: Pc) {
    match pc
    case Idle => true
    case Publishing(e, snapshot, done) => ReportOk(c, e, snapshot, done) && e.publication < publications
    case Published(e, snapshot, done, report) =>
      && ReportOk(c, e, snapshot, done) && |done| == |snapshot| && e.publication < publications
      && report == SortById(done)
    case Closing(i) => i < |c.queues| && c.queues[i].closed
    case Bumping(after) => AfterOk(c, bus, publications, after)
    case Notifying(after) => AfterOk(c, bus, publications, after)
    case Reading(w) => w.Drain? ==> bus.closed
    case Checking(w, version, todo) => WaitOk(c, bus, w, version) && forall i | i in todo :: Watches(c, w, i)
    case Deciding(w, version, seen) => WaitOk(c, bus, w, version) && Watches(c, w, seen)
    case Parked(w, version, seen) => WaitOk(c, bus, w, version) && Watches(c, w, seen)
    case Gated(_) => true
    case Entering(_) => true
    case Listing(_) => bus.closed
    case Sweeping(_, left) =>
      bus.closed && (forall i | i in left :: i < |c.queues|) && forall i | 0 <= i < |c.queues| && !c.queues[i].closed :: i in left
    case Recording(_) => bus.closed && AllClosed(c)
  }

  /** The publication a thread is reporting on. */
  function PublicationOf(pc: Pc): (p: Option<nat>) {
    match pc
    case Publishing(e, _, _) => Some(e.publication)
    case Published(e, _, _, _) => Some(e.publication)
    case Bumping(Report(e, _, _)) => Some(e.publication)
    case Notifying(Report(e, _, _)) => Some(e.publication)
    case _ => None
  }

  predicate ShutdownAfter(after: After) {
    after.Proceed? || after.OpenGate?
  }

  /** The thread is inside shutdown and so holds the gate. */
  predicate InShutdown(pc: Pc) {
    match pc
    case Bumping(after) => ShutdownAfter(after)
    case Notifying(after) => ShutdownAfter(after)
    case Reading(w) => w.Drain?
    case Checking(w, _, _) => w.Drain?
    case Deciding(w, _, _) => w.Drain?
    case Parked(w, _, _) => w.Drain?
    case Gated(_) => true
    case Entering(_) => true
    case Listing(_) => true
    case Sweeping(_, _) => true
    case Recording(_) => true
    case _ => false
  }

  /** The thread will still set the outcome. */
  predicate WillRecord(pc: Pc) {
    InShutdown(pc) && !pc.Gated? && !((pc.Bumping? || pc.Notifying?) && pc.after.OpenGate?)
  }

  /** The thread changed, or is about to change, a queue to idle and has not yet advanced the version. */
  predicate OwesBump(pc: Pc) {
    pc.Bumping? || pc.Closing? || pc.Sweeping? || pc.Recording?
  }

  ghost predicate SomeOwesBump(threads: seq<Pc>) {
    exists u | 0 <= u < |threads| :: OwesBump(threads[u])
  }

  ghost predicate SomeOwesNotify(threads: seq<Pc>) {
    exists u | 0 <= u < |threads| :: threads[u].Notifying?
  }

  /** A waiter that decided to sleep saw a busy queue; if it is idle now, somebody will still signal. */
  ghost predicate WakeOk(s: State, pc: Pc) {
    match pc
    case Deciding(_, version, seen) =>
      seen < |s.core.queues| && (Busy(s.core, seen) || SomeOwesBump(s.threads) || version < s.bus.version)
    case Parked(_, version, seen) =>
      seen < |s.core.queues| && (Busy(s.core, seen) || SomeOwesBump(s.threads) || SomeOwesNotify(s.threads))
    case _ => true
  }

  ghost predicate PublicationsOk(s: State) {
    && (forall i, d | 0 <= i < |s.core.ledgers| && d in s.core.ledgers[i].admitted :: d.publication < s.publications)
    && (forall t, u | 0 <= t < u < |s.threads| && PublicationOf(s.threads[t]).Some? :: PublicationOf(s.threads[t]) != PublicationOf(s.threads[u]))
  }

  ghost predicate ShutdownOk(s: State) {
    && (forall t | 0 <= t < |s.threads| :: InShutdown(s.threads[t]) <==> s.gate == Some(t))
    && (forall t | 0 <= t < |s.threads| :: WillRecord(s.threads[t]) ==> s.bus.outcome.None?)
    && (s.bus.outcome.Some? ==> s.bus.closed && AllClosed(s.core))
  }

  ghost predicate PcsOk(s: State) {
    forall t | 0 <= t < |s.threads| :: PcOk(s.core, s.bus, s.publications, s.threads[t])
  }

  ghost predicate WakesOk(s: State) {
    forall t | 0 <= t < |s.threads| :: WakeOk(s, s.threads[t])
  }

  ghost predicate Inv(s: State) {
    CoreOk(s.core) && BusOk(s.core, s.bus) && PcsOk(s) && PublicationsOk(s) && ShutdownOk(s) && WakesOk(s)
  }

  lemma InitOk(threads: nat, capacity: nat, maxCount: nat, maxWeight: Option<nat>)
    requires 0 < maxCount <= USIZE_MAX && (maxWeight.Some? ==> 0 < maxWeight.value <= USIZE_MAX)
    ensures Inv(Init(threads, capacity, maxCount, maxWeight))
  {
  }

  // ----- stability -----

  predicate BusEvolves(bus: Bus, bus': Bus) {
    && (bus.closed ==> bus'.closed)
    && bus.version <= bus'.version
    && (bus.outcome.Some? ==> bus'.outcome == bus.outcome)
  }

  /** What the steps of other threads cannot take away from a thread. */
  lemma PcStable(c: Core, bus: Bus, n: nat, c': Core, bus': Bus, n': nat, e: Option<LocalEvent>, pc: Pc)
    requires PcOk(c, bus, n, pc) && Evolves(c, c', e) && BusEvolves(bus, bus') && n <= n'
    requires bus.closed ==> |c'.queues| == |c.queues|
    requires e.Some? && PublicationOf(pc).Some? ==> e.value.publication != PublicationOf(pc).value
    ensures PcOk(c', bus', n', pc)
  {
    hide PcOk, Evolves;
    if PublicationOf(pc).Some? {
      ReportingStable(c, bus, n, c', bus', n', e, pc);
    } else {
      PlainStable(c, bus, n, c', bus', n', e, pc);
    }
  }

  lemma ReportingStable(c: Core, bus: Bus, n: nat, c': Core, bus': Bus, n': nat, e: Option<LocalEvent>, pc: Pc)
    requires PcOk(c, bus, n, pc) && Evolves(c, c', e) && n <= n' && PublicationOf(pc).Some?
    requires e.Some? ==> e.value.publication != PublicationOf(pc).value
    ensures PcOk(c', bus', n', pc)
  {
    hide ReportOk, Evolves, SortById;
    match pc {
      case Publishing(f, snapshot, done) => ReportStable(c, c', e, f, snapshot, done);
      case Published(f, snapshot, done, _) => ReportStable(c, c', e, f, snapshot, done);
      case Bumping(Report(f, snapshot, done)) => ReportStable(c, c', e, f, snapshot, done);
      case Notifying(Report(f, snapshot, done)) => ReportStable(c, c', e, f, snapshot, done);
    }
  }

  lemma PlainStable(c: Core, bus: Bus, n: nat, c': Core, bus': Bus, n': nat, e: Option<LocalEvent>, pc: Pc)
    requires PcOk(c, bus, n, pc) && Evolves(c, c', e) && BusEvolves(bus, bus') && PublicationOf(pc).None?
    requires bus.closed ==> |c'.queues| == |c.queues|
    ensures PcOk(c', bus', n', pc)
  {
    hide ReportOk, LedgerGrows, TokensKeep, SortById;
    assert forall i | 0 <= i < |c.queues| :: SameQueue(c.queues[i], c'.queues[i]);
  }

  /** Registry facts survive every step that keeps the registry and does not reopen or add queues. */
  lemma BusStable(c: Core, c': Core, e: Option<LocalEvent>, bus: Bus)
    requires BusOk(c, bus) && Evolves(c, c', e) && |c'.queues| == |c.queues|
    ensures BusOk(c', bus)
  {
  }
}
