/**
 * The blocking receive of a synchronous subscription. Looking at the queue and going to sleep happen under the
 * queue lock, and so do the notifications of publish, retry and close. Shutdown closes the queue under the lock but
 * notifies after releasing it. A subscription is borrowed by one receive at a time.
 */
module BlockingReceives {
  import opened Prelude
  import opened Queues
  import opened ReadyHeads

  datatype Receiver = Idle | Looking(deadline: nat) | Sleeping(until: nat, deadline: nat)

  /** `owed` counts shutdowns that have closed the queue and not yet notified it. */
  datatype State = State(queue: Queue<nat>, receiver: Receiver, owed: nat, clock: nat, tokens: nat)

  datatype Step =
    | Tick
    | Begin(timeout: nat)
    | Look(key: Key)
    | WakeSpuriously
    | TimeOut
    | Enqueue(event: LocalEvent)
    | SettleDelivery(tokenId: string, disposition: Disposition)
    | Close
    | ShutdownClose
    | NotifyClosed

  function Init(id: nat, topic: string, declaredType: nat, capacity: nat): (s: State) {
    State(Queue(id, topic, declaredType, capacity, map[], map[], false, 0), Idle, 0, 0, 0)
  }

  /** A notification releases the sleeper, if there is one. */
  function Notified(r: Receiver): (r': Receiver) {
    match r
    case Sleeping(_, deadline) => Looking(deadline)
    case _ => r
  }

  /** One turn of the receive loop: an answer ends the receive, otherwise it sleeps for the shorter wait. */
  ghost function DoLook(s: State, k: Key): (r: State) {
    if !s.receiver.Looking? then s
    else if s.queue.closed then s.(receiver := Idle)
    else if HeadReady(s.queue, k, s.clock) then s.(queue := PopMessage(s.queue, k, s.tokens), tokens := s.tokens + 1, receiver := Idle)
    else if HasReady(s.queue, s.clock) then s
    else if s.receiver.deadline <= s.clock then s.(receiver := Idle)
    else
      var remaining := s.receiver.deadline - s.clock;
      var delay := NextDelay(s.queue, s.clock);
      var waitFor := if delay.Some? && delay.value < remaining then delay.value else remaining;
      s.(receiver := Sleeping(s.clock + waitFor, s.receiver.deadline))
  }

  ghost function Next(s: State, a: Step): (r: State) {
    match a
    case Tick => s.(clock := s.clock + 1)
    case Begin(timeout) => if s.receiver.Idle? then s.(receiver := Looking(s.clock + timeout)) else s
    case Look(k) => DoLook(s, k)
    case WakeSpuriously => s.(receiver := Notified(s.receiver))
    case TimeOut =>
      if !s.receiver.Sleeping? || s.clock < s.receiver.until then s
      else s.(receiver := if s.receiver.deadline < s.clock then Idle else Notified(s.receiver))
    case Enqueue(e) =>
      if s.queue.closed then s
      else s.(queue := s.queue.(lanes := PushBack(s.queue.lanes, e)), receiver := Notified(s.receiver))
    case SettleDelivery(t, d) =>
      if t !in s.queue.inFlight then s
      else s.(queue := SettleQueue(s.queue, t, d), receiver := if d == Retry then Notified(s.receiver) else s.receiver)
    case Close => if s.queue.closed then s else s.(queue := CloseQueue(s.queue), receiver := Notified(s.receiver))
    case ShutdownClose => s.(queue := CloseQueue(s.queue), owed := s.owed + 1)
    case NotifyClosed => if s.owed == 0 then s else s.(owed := s.owed - 1, receiver := Notified(s.receiver))
  }

  ghost function Run(s: State, steps: seq<Step>): (r: State) {
    if steps == [] then s else Next(Run(s, steps[..|steps| - 1]), steps[|steps| - 1])
  }

  /**
   * A sleeper wakes by itself no later than its deadline and than any lane head becomes ready; on a closed queue a
   * notification is still on its way to it.
   */
  predicate SleepOk(s: State) {
    s.receiver.Sleeping? ==>
      && (s.queue.closed ==> s.owed > 0) && s.receiver.until <= s.receiver.deadline
      && forall k | k in s.queue.lanes && s.queue.lanes[k] != [] ::
           s.queue.lanes[k][0].notBefore.Some? && s.receiver.until <= s.queue.lanes[k][0].notBefore.value
  }

  lemma LookOk(s: State, k: Key)
    requires SleepOk(s)
    ensures SleepOk(DoLook(s, k))
  {
    hide NextDelay;
    var s' := DoLook(s, k);
    if s'.receiver.Sleeping? && s' != s {
      NextDelayIs(s.queue, s.clock);
      forall j | j in s.queue.lanes && s.queue.lanes[j] != []
        ensures s.queue.lanes[j][0].notBefore.Some? && s'.receiver.until <= s.queue.lanes[j][0].notBefore.value
      {
        assert !HeadReady(s.queue, j, s.clock);
        assert NextDelay(s.queue, s.clock).value <= HeadDelay(s.queue, j, s.clock);
      }
    }
  }

  lemma StepOk(s: State, a: Step)
    requires SleepOk(s)
    ensures SleepOk(Next(s, a))
  {
    hide DoLook;
    if a.Look? {
      LookOk(s, a.key);
    }
  }

  lemma {:induction false} RunOk(s: State, steps: seq<Step>)
    requires SleepOk(s)
    ensures SleepOk(Run(s, steps))
  {
    hide SleepOk, Next;
    if steps != [] {
      RunOk(s, steps[..|steps| - 1]);
      StepOk(Run(s, steps[..|steps| - 1]), steps[|steps| - 1]);
    }
  }

  /**
   * No lost wake-up: in every run a receive that sleeps while its queue is closed is owed a notification, it wakes by
   * itself no later than its timeout, and as long as that moment has not come no lane head is ready.
   */
  lemma BlockedReceiveIsRight(id: nat, topic: string, declaredType: nat, capacity: nat, steps: seq<Step>)
    ensures var s := Run(Init(id, topic, declaredType, capacity), steps);
            s.receiver.Sleeping? ==>
              && (s.queue.closed ==> s.owed > 0) && s.receiver.until <= s.receiver.deadline
              && (s.clock < s.receiver.until ==> !HasReady(s.queue, s.clock))
  {
    hide Run;
    RunOk(Init(id, topic, declaredType, capacity), steps);
  }

  /** The notification a shutdown owes ends the sleep, and the next look ends the receive. */
  lemma OwedNotificationEndsReceive(s: State, k: Key)
    requires s.receiver.Sleeping? && s.queue.closed && s.owed > 0
    ensures var s' := Next(s, NotifyClosed);
            s'.receiver.Looking? && s'.owed == s.owed - 1 && Next(s', Look(k)).receiver == Idle && Next(s', Look(k)).queue == s.queue
  {
  }

  /** Between closing the queue and notifying it a receive does sleep on a closed queue. */
  lemma ClosedSleeperExists(id: nat, topic: string, declaredType: nat, capacity: nat)
    ensures var s := Run(Init(id, topic, declaredType, capacity), [Begin(1), Look(None), ShutdownClose]);
            s.receiver.Sleeping? && s.queue.closed && s.owed == 1
  {
    var s := Init(id, topic, declaredType, capacity);
    var a, b, c := Begin(1), Look(None), ShutdownClose;
    assert [a, b, c][..2] == [a, b] && [a, b][..1] == [a] && [a][..0] == [];
    assert Run(s, [a]) == Next(s, a);
    assert !HasReady(s.queue, 0);
    assert Run(s, [a, b]) == Next(Next(s, a), b);
    assert Next(Next(s, a), b).receiver.Sleeping?;
  }
}
