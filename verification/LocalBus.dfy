/**
 * The synchronous provider as a step system: any number of threads, each between two critical sections of
 * publish, subscribe, receive, settle, close, wait_for_topic_idle or shutdown. One step is one critical
 * section under the registry lock, a queue lock or the condition variable, so a run is any interleaving.
 */
module LocalBus {
  import opened Prelude
  import opened Routing
  import opened OutstandingBudgets
  import opened Queues
  import opened ReadyHeads
  import opened Deliveries
  import opened Fanout

  datatype Mode = Immediate | Graceful

  /** Live queues of one topic by subscription id; an empty bucket is removed together with its topic. */
  datatype Bucket = Bucket(queues: map<nat, nat>, payloadType: nat, lastStart: Option<nat>)

  datatype Bus = Bus(
    topics: map<string, Bucket>,
    ids: set<nat>,
    closed: bool,
    outcome: Option<ShutdownOutcome>,
    version: nat)

  /** Who is waiting for idleness: a topic observer, with or without a deadline, or a graceful shutdown. */
  datatype Waiting = TopicIdle(topic: string, bounded: bool) | Drain

  /** What a thread does once its change has been signalled. */
  datatype After =
    | Finish
    | Report(event: LocalEvent, snapshot: seq<nat>, done: seq<Admission>)
    | Proceed(mode: Mode)
    | OpenGate

  /** Where a thread stands. */
  datatype Pc =
    | Idle
    | Publishing(event: LocalEvent, snapshot: seq<nat>, done: seq<Admission>)
    | Published(event: LocalEvent, snapshot: seq<nat>, done: seq<Admission>, report: seq<Admission>)
    | Closing(queue: nat)
    | Bumping(after: After)
    | Notifying(after: After)
    | Reading(wait: Waiting)
    | Checking(wait: Waiting, version: nat, todo: set<nat>)
    | Deciding(wait: Waiting, version: nat, seen: nat)
    | Parked(wait: Waiting, version: nat, seen: nat)
    | Gated(mode: Mode)
    | Entering(mode: Mode)
    | Listing(outcome: ShutdownOutcome)
    | Sweeping(outcome: ShutdownOutcome, left: set<nat>)
    | Recording(outcome: ShutdownOutcome)

  datatype State = State(
    core: Core,
    bus: Bus,
    gate: Option<nat>,
    threads: seq<Pc>,
    publications: nat,
    capacity: nat,
    clock: nat)

  datatype Step =
    | Tick
    | Subscribe(id: nat, topic: string, payloadType: nat)
    | BeginPublish(topic: string, eventId: string, key: Key, weight: Option<nat>, payloadType: nat, notBefore: Option<nat>)
    | AdmitNext
    | EndPublish
    | ReceiveHead(queue: nat, key: Key)
    | SettleToken(queue: nat, handle: nat, disposition: Disposition)
    | CloseNow(queue: nat)
    | Unregister
    | Bump
    | NotifyAll
    | BeginWait(topic: string, bounded: bool)
    | ReadQueues
    | CheckQueue(queue: nat)
    | FinishCheck
    | ParkOrRetry
    | TimeOut
    | WakeSpuriously
    | BeginShutdown(mode: Mode)
    | CheckOutcome
    | CloseAdmission
    | ListQueues
    | SweepQueue(queue: nat)
    | FinishSweep
    | RecordOutcome

  function Init(threads: nat, capacity: nat, maxCount: nat, maxWeight: Option<nat>): (s: State) {
    State(NewCore(maxCount, maxWeight), Bus(map[], {}, false, None, 0), None, seq(threads, _ => Idle), 0, capacity, 0)
  }

  function Goto(s: State, t: nat, pc: Pc): (r: State)
    requires t < |s.threads|
  {
    s.(threads := s.threads[t := pc])
  }

  /** A thread may start an operation when it is between operations. */
  predicate Free(pc: Pc) {
    pc.Idle? || pc.Published?
  }

  // ----- registry -----

  function EmptyBucket(payloadType: nat): (b: Bucket) {
    Bucket(map[], payloadType, None)
  }

  function Registered(bus: Bus, topic: string): (m: map<nat, nat>) {
    if topic in bus.topics then bus.topics[topic].queues else map[]
  }

  predicate TypeConflict(bus: Bus, topic: string, payloadType: nat) {
    topic in bus.topics && bus.topics[topic].payloadType != payloadType
  }

  function Register(bus: Bus, id: nat, topic: string, payloadType: nat, queue: nat): (r: Bus) {
    var b := if topic in bus.topics then bus.topics[topic] else EmptyBucket(payloadType);
    bus.(topics := bus.topics[topic := b.(queues := b.queues[id := queue], payloadType := payloadType)],
         ids := bus.ids + {id})
  }

  /** Removes the entry only while it still points to the closing queue. */
  function Deregister(bus: Bus, q: Queue<nat>, queue: nat): (r: Bus) {
    if q.topic !in bus.topics || q.id !in bus.topics[q.topic].queues || bus.topics[q.topic].queues[q.id] != queue then bus
    else
      var rest := bus.topics[q.topic].queues - {q.id};
      bus.(topics := if rest == map[] then bus.topics - {q.topic}
                     else bus.topics[q.topic := bus.topics[q.topic].(queues := rest)],
           ids := bus.ids - {q.id})
  }

  ghost function LiveQueues(bus: Bus): (s: set<nat>) {
    set topic, id | topic in bus.topics && id in bus.topics[topic].queues :: bus.topics[topic].queues[id]
  }

  ghost function Watched(bus: Bus, w: Waiting): (s: set<nat>) {
    if w.Drain? then LiveQueues(bus) else Registered(bus, w.topic).Values
  }

  // ----- steps of one thread -----

  function DoSubscribe(s: State, t: nat, id: nat, topic: string, payloadType: nat): (r: State)
    requires t < |s.threads|
  {
    if !Free(s.threads[t]) || s.bus.closed || TypeConflict(s.bus, topic, payloadType) || id in s.bus.ids then s
    else Goto(s.(core := AddQueue(s.core, id, topic, payloadType, s.capacity),
                 bus := Register(s.bus, id, topic, payloadType, |s.core.queues|)), t, Idle)
  }

  /** The queues a publish will visit, fixed under the registry lock. */
  ghost function Snapshot(bus: Bus, topic: string): (r: seq<nat>) {
    var m := Registered(bus, topic);
    var order := PublishOrder(m.Keys, if topic in bus.topics then bus.topics[topic].lastStart else None);
    seq(|order|, j requires 0 <= j < |order| => assert order[j] in m; m[order[j]])
  }

  ghost function Rotated(bus: Bus, topic: string): (r: Bus) {
    if topic !in bus.topics then bus
    else
      var b := bus.topics[topic];
      var order := PublishOrder(b.queues.Keys, b.lastStart);
      bus.(topics := bus.topics[topic := b.(lastStart := if order == [] then b.lastStart else Some(order[0]))])
  }

  ghost function DoBeginPublish(s: State, t: nat, a: Step): (r: State)
    requires t < |s.threads| && a.BeginPublish?
  {
    if !Free(s.threads[t]) || s.bus.closed || TypeConflict(s.bus, a.topic, a.payloadType)
       || (RequiresWeight(s.core.budget) && a.weight.None?) then s
    else
      var e := LocalEvent(s.publications, a.eventId, a.key, EffectiveWeight(s.core.budget, a.weight), a.payloadType, a.notBefore);
      Goto(s.(bus := Rotated(s.bus, a.topic), publications := s.publications + 1), t,
           Publishing(e, Snapshot(s.bus, a.topic), []))
  }

  ghost function DoAdmitNext(s: State, t: nat): (r: State)
    requires t < |s.threads|
  {
    var pc := s.threads[t];
    if !pc.Publishing? || |pc.done| >= |pc.snapshot| || pc.snapshot[|pc.done|] >= |s.core.queues|
       || |s.core.queues| != |s.core.ledgers| then s
    else
      var i := pc.snapshot[|pc.done|];
      var q := s.core.queues[i];
      Goto(s.(core := Admit(s.core, i, pc.event)), t,
           Publishing(pc.event, pc.snapshot,
                      pc.done + [Admission(q.id, AdmissionRefusal(q, s.core.budget, pc.event))]))
  }

  predicate AnyAdmitted(done: seq<Admission>) {
    exists j | 0 <= j < |done| :: done[j].rejection.None?
  }

  function DoEndPublish(s: State, t: nat): (r: State)
    requires t < |s.threads|
  {
    var pc := s.threads[t];
    if !pc.Publishing? || |pc.done| != |pc.snapshot| then s
    else if AnyAdmitted(pc.done) then Goto(s, t, Bumping(Report(pc.event, pc.snapshot, pc.done)))
    else Goto(s, t, Published(pc.event, pc.snapshot, pc.done, SortById(pc.done)))
  }

  /** Takes a lane head that is ready by now; which of them is up to the queue. */
  function DoReceive(s: State, t: nat, i: nat, k: Key): (r: State)
    requires t < |s.threads|
  {
    if !Free(s.threads[t]) || i >= |s.core.queues| || !HeadReady(s.core.queues[i], k, s.clock) then s
    else if Receive(s.core, i, k) == s.core then s
    else Goto(s.(core := Receive(s.core, i, k)), t, Bumping(Finish))
  }

  function DoSettle(s: State, t: nat, i: nat, h: nat, d: Disposition): (r: State)
    requires t < |s.threads|
  {
    if !Free(s.threads[t]) || i >= |s.core.queues| || |s.core.queues| != |s.core.ledgers| || h >= |s.core.tokens| then s
    else if SettleVerdict(s.core.queues[i], h, s.core.tokens[h], d) != Applies then s
    else Goto(s.(core := Settle(s.core, i, h, d)), t, Bumping(Finish))
  }

  /** Close and drop: discard under the queue lock, unless the queue is closed already. */
  ghost function DoClose(s: State, t: nat, i: nat): (r: State)
    requires t < |s.threads|
  {
    if !Free(s.threads[t]) || i >= |s.core.queues| || |s.core.queues| != |s.core.ledgers| then s
    else Goto(if s.core.queues[i].closed then s else s.(core := Close(s.core, i)), t, Closing(i))
  }

  function DoUnregister(s: State, t: nat): (r: State)
    requires t < |s.threads|
  {
    var pc := s.threads[t];
    if !pc.Closing? || pc.queue >= |s.core.queues| then s
    else Goto(s.(bus := Deregister(s.bus, s.core.queues[pc.queue], pc.queue)), t, Bumping(Finish))
  }

  function DoBump(s: State, t: nat): (r: State)
    requires t < |s.threads|
  {
    if !s.threads[t].Bumping? then s
    else Goto(s.(bus := s.bus.(version := s.bus.version + 1)), t, Notifying(s.threads[t].after))
  }

  /** The condition variable releases every parked thread. */
  function Unparked(threads: seq<Pc>): (r: seq<Pc>)
    ensures |r| == |threads|
  {
    seq(|threads|, i requires 0 <= i < |threads| => if threads[i].Parked? then Reading(threads[i].wait) else threads[i])
  }

  function Resume(after: After): (pc: Pc) {
    match after
    case Finish => Idle
    case Report(e, snapshot, done) => Published(e, snapshot, done, SortById(done))
    case Proceed(Immediate) => Listing(Complete)
    case Proceed(Graceful) => Reading(Drain)
    case OpenGate => Idle
  }

  function DoNotify(s: State, t: nat): (r: State)
    requires t < |s.threads|
  {
    var pc := s.threads[t];
    if !pc.Notifying? then s
    else s.(threads := Unparked(s.threads)[t := Resume(pc.after)],
            gate := if pc.after.OpenGate? then None else s.gate)
  }

  // ----- the wait loop -----

  ghost function DoRead(s: State, t: nat): (r: State)
    requires t < |s.threads|
  {
    if !s.threads[t].Reading? then s
    else Goto(s, t, Checking(s.threads[t].wait, s.bus.version, Watched(s.bus, s.threads[t].wait)))
  }

  ghost function DoCheck(s: State, t: nat, i: nat): (r: State)
    requires t < |s.threads|
  {
    var pc := s.threads[t];
    if !pc.Checking? || i !in pc.todo || i >= |s.core.queues| then s
    else if Busy(s.core, i) then Goto(s, t, Deciding(pc.wait, pc.version, i))
    else Goto(s, t, pc.(todo := pc.todo - {i}))
  }

  function DoFinishCheck(s: State, t: nat): (r: State)
    requires t < |s.threads|
  {
    var pc := s.threads[t];
    if !pc.Checking? || pc.todo != {} then s
    else Goto(s, t, if pc.wait.Drain? then Listing(Complete) else Idle)
  }

  function DoPark(s: State, t: nat): (r: State)
    requires t < |s.threads|
  {
    var pc := s.threads[t];
    if !pc.Deciding? then s
    else if pc.version != s.bus.version then Goto(s, t, Reading(pc.wait))
    else Goto(s, t, Parked(pc.wait, pc.version, pc.seen))
  }

  function DoTimeOut(s: State, t: nat): (r: State)
    requires t < |s.threads|
  {
    var pc := s.threads[t];
    if !(pc.Deciding? || pc.Parked?) then s
    else match pc.wait
         case TopicIdle(_, bounded) => if bounded then Goto(s, t, Idle) else s
         case Drain => Goto(s, t, Listing(TimedOut))
  }

  function DoWake(s: State, t: nat): (r: State)
    requires t < |s.threads|
  {
    if s.threads[t].Parked? then Goto(s, t, Reading(s.threads[t].wait)) else s
  }

  // ----- shutdown -----

  function DoBeginShutdown(s: State, t: nat, mode: Mode): (r: State)
    requires t < |s.threads|
  {
    if !Free(s.threads[t]) || s.gate.Some? then s else Goto(s.(gate := Some(t)), t, Gated(mode))
  }

  function DoCheckOutcome(s: State, t: nat): (r: State)
    requires t < |s.threads|
  {
    var pc := s.threads[t];
    if !pc.Gated? then s
    else if s.bus.outcome.Some? then Goto(s.(gate := None), t, Idle)
    else Goto(s, t, Entering(pc.mode))
  }

  function DoCloseAdmission(s: State, t: nat): (r: State)
    requires t < |s.threads|
  {
    var pc := s.threads[t];
    if !pc.Entering? then s
    else Goto(s.(bus := s.bus.(closed := true)), t, Bumping(Proceed(pc.mode)))
  }

  ghost function DoList(s: State, t: nat): (r: State)
    requires t < |s.threads|
  {
    if !s.threads[t].Listing? then s else Goto(s, t, Sweeping(s.threads[t].outcome, LiveQueues(s.bus)))
  }

  ghost function DoSweep(s: State, t: nat, i: nat): (r: State)
    requires t < |s.threads|
  {
    var pc := s.threads[t];
    if !pc.Sweeping? || i !in pc.left || i >= |s.core.queues| || |s.core.queues| != |s.core.ledgers| then s
    else Goto(s.(core := Close(s.core, i)), t, pc.(left := pc.left - {i}))
  }

  function DoFinishSweep(s: State, t: nat): (r: State)
    requires t < |s.threads|
  {
    var pc := s.threads[t];
    if !pc.Sweeping? || pc.left != {} then s else Goto(s, t, Recording(pc.outcome))
  }

  function DoRecord(s: State, t: nat): (r: State)
    requires t < |s.threads|
  {
    var pc := s.threads[t];
    if !pc.Recording? then s
    else Goto(s.(bus := s.bus.(outcome := Some(pc.outcome))), t, Bumping(OpenGate))
  }

  /** One step of thread `t`; a step that is not enabled changes nothing. */
  ghost function Next(s: State, t: nat, a: Step): (r: State) {
    if t >= |s.threads| then s
    else match a
      case Tick => s.(clock := s.clock + 1)
      case Subscribe(id, topic, payloadType) => DoSubscribe(s, t, id, topic, payloadType)
      case BeginPublish(_, _, _, _, _, _) => DoBeginPublish(s, t, a)
      case AdmitNext => DoAdmitNext(s, t)
      case EndPublish => DoEndPublish(s, t)
      case ReceiveHead(i, k) => DoReceive(s, t, i, k)
      case SettleToken(i, h, d) => DoSettle(s, t, i, h, d)
      case CloseNow(i) => DoClose(s, t, i)
      case Unregister => DoUnregister(s, t)
      case Bump => DoBump(s, t)
      case NotifyAll => DoNotify(s, t)
      case BeginWait(topic, bounded) => if Free(s.threads[t]) then Goto(s, t, Reading(TopicIdle(topic, bounded))) else s
      case ReadQueues => DoRead(s, t)
      case CheckQueue(i) => DoCheck(s, t, i)
      case FinishCheck => DoFinishCheck(s, t)
      case ParkOrRetry => DoPark(s, t)
      case TimeOut => DoTimeOut(s, t)
      case WakeSpuriously => DoWake(s, t)
      case BeginShutdown(mode) => DoBeginShutdown(s, t, mode)
      case CheckOutcome => DoCheckOutcome(s, t)
      case CloseAdmission => DoCloseAdmission(s, t)
      case ListQueues => DoList(s, t)
      case SweepQueue(i) => DoSweep(s, t, i)
      case FinishSweep => DoFinishSweep(s, t)
      case RecordOutcome => DoRecord(s, t)
  }

  /** A run: any thread takes any step at any time. */
  ghost function Run(s: State, steps: seq<(nat, Step)>): (r: State) {
    if steps == [] then s
    else
      var last := steps[|steps| - 1];
      Next(Run(s, steps[..|steps| - 1]), last.0, last.1)
  }
}
