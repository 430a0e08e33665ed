/**
 * The critical sections that publish, receive, settle, close and shutdown run under one queue lock,
 * written against the queue object and the shared budget object. Each one refines the function of the
 * same name on queue values, which is what the step systems of the two providers are built from.
 */
module LocalQueues {
  import opened Prelude
  import opened Bags
  import opened Decimal
  import opened OutstandingBudgets
  import opened Queues
  import opened QueueStates

  /** The budget holds at least the reservations of this queue. */
  ghost predicate Accounts<H>(b: Budget, q: Queue<H>) {
    && Size(q) <= b.count
    && Weight(Outstanding(q)) <= if RequiresWeight(b) then b.weight else 0
  }

  /** The released weight of a settled delivery is covered by the budget. */
  lemma FlightCovered<H>(b: Budget, q: Queue<H>, tokenId: string)
    requires Accounts(b, q) && tokenId in q.inFlight
    ensures 1 <= b.count && q.inFlight[tokenId].event.weight <= if RequiresWeight(b) then b.weight else 0
  {
    RemoveFlight(q.inFlight, tokenId);
    var e := q.inFlight[tokenId].event;
    var rest := Bag(q.lanes) + Bag(FlightEvents(q.inFlight - {tokenId}));
    assert Outstanding(q) == rest + multiset{e};
    WeightUnion(rest, multiset{e});
    WeightOne(e);
    SizeIsOutstanding(q);
  }

  /** The sum of the weights; the addition is unchecked in the source and stays below the total. */
  method TotalWeight(events: seq<LocalEvent>) returns (total: nat)
    requires Weight(multiset(events)) <= USIZE_MAX
    ensures total == Weight(multiset(events))
  {
    total := 0;
    for i := 0 to |events|
      invariant total == Weight(multiset(events[..i])) && total <= USIZE_MAX
    {
      WeightPrefix(events, i);
      total := total + events[i].weight;
    }
    assert events[..|events|] == events;
  }

  lemma WeightPrefix(events: seq<LocalEvent>, i: nat)
    requires i < |events|
    ensures Weight(multiset(events[..i + 1])) == Weight(multiset(events[..i])) + events[i].weight
    ensures Weight(multiset(events[..i + 1])) <= Weight(multiset(events))
  {
    assert events[..i + 1] == events[..i] + [events[i]];
    WeightUnion(multiset(events[..i]), multiset{events[i]});
    WeightOne(events[i]);
    assert events == events[..i + 1] + events[i + 1..];
    WeightUnion(multiset(events[..i + 1]), multiset(events[i + 1..]));
  }

  class LocalQueue {
    const id: nat
    const topic: string
    const capacity: nat
    const state: LocalQueueState
    ghost const declaredType: nat

    /** The queue as a value. */
    ghost function View(): (q: Queue<Settlement>)
      reads this, state
    {
      Queue(id, topic, declaredType, capacity, Contents(state.lanes), state.inFlight, state.closed,
            state.nextDeliveryToken)
    }

    ghost predicate Valid()
      reads this, state
    {
      state.Valid() && (state.closed ==> state.lanes == map[] && state.inFlight == map[])
    }

    constructor (id: nat, topic: string, capacity: nat, declaredType: nat)
      ensures Valid() && fresh(state) && state.clock == 0
      ensures View() == Queue(id, topic, declaredType, capacity, map[], map[], false, 0)
    {
      this.id, this.topic, this.capacity, this.declaredType := id, topic, capacity, declaredType;
      state := new LocalQueueState();
    }

    /** The loop body of publish. */
    method Admit(budget: OutstandingBudget, event: LocalEvent, now: nat) returns (refusal: Option<RejectionKind>)
      requires Valid() && state.clock <= now && LimitsOk(budget.State()) && event.weight <= USIZE_MAX
      modifies state, budget
      ensures Valid() && state.clock >= old(state.clock)
      ensures refusal == AdmissionRefusal(old(View()), old(budget.State()), event)
      ensures View() == AdmitQueue(old(View()), old(budget.State()), event)
      ensures budget.State() == AdmitBudget(old(View()), old(budget.State()), event)
    {
      if state.closed {
        budget.RecordRejection(SubscriptionClosed);
        return Some(SubscriptionClosed);
      }
      if state.pendingCount + |state.inFlight| >= capacity {
        budget.RecordRejection(SubscriptionCapacity);
        return Some(SubscriptionCapacity);
      }
      refusal := budget.TryReserve(event.weight);
      if refusal.None? {
        state.EnqueueBackAt(event, now);
      }
    }

    /** One round of receive on an open queue, or `None` once the queue is closed. */
    method Receive(now: nat) returns (r: Option<Popped>)
      requires Valid() && state.clock <= now
      modifies state
      ensures Valid() && (r.None? <==> old(state.closed))
      ensures !(r.Some? && r.value.Message?) ==> View() == old(View())
      ensures r == Some(NotReady) ==> forall k | k in View().lanes :: !Eligible(View().lanes[k][0], now)
      ensures r == Some(Exhausted) ==> View().nextToken >= U64_MAX
      ensures r.Some? && r.value.Message? ==>
                && var e := r.value.event;
                && e.key in old(View()).lanes && e == old(View()).lanes[e.key][0] && Eligible(e, now)
                && View() == PopMessage(old(View()), e.key, r.value.settlement)
                && old(View()).nextToken < U64_MAX
                && fresh(r.value.settlement) && r.value.settlement.disposition == None
                && r.value.settlement.tokenId == TokenId(e.eventId, View().nextToken)
    {
      hide IndexOk, Counted, Bag, TokenId, PopHead;
      if state.closed {
        return None;
      }
      var popped := state.PopMessage(now);
      r := Some(popped);
    }

    /** Applies a disposition at most once; every refusal leaves queue, budget and token untouched. */
    method Settle(budget: OutstandingBudget, settlement: Settlement, subscriptionId: nat, d: Disposition, now: nat)
      returns (v: Verdict)
      requires Valid() && state.clock <= now && Accounts(budget.State(), View())
      modifies state, budget, settlement
      ensures Valid()
      ensures v == SettleVerdict(old(View()), settlement,
                                 Token(subscriptionId, settlement.tokenId, old(settlement.disposition)), d)
      ensures !v.Applies? ==> View() == old(View()) && budget.State() == old(budget.State())
                              && settlement.disposition == old(settlement.disposition)
      ensures v.Applies? ==>
                && settlement.tokenId in old(View()).inFlight
                && View() == SettleQueue(old(View()), settlement.tokenId, d)
                && settlement.disposition == Some(d)
                && var e := old(View()).inFlight[settlement.tokenId].event;
                && old(budget.State()) == if d == Retry then budget.State() else Charge(budget.State(), e.weight)
    {
      if subscriptionId != id {
        return Foreign;
      }
      if settlement.disposition.Some? {
        return if settlement.disposition.value == d then Repeated else Conflicting;
      }
      var tokenId := settlement.tokenId;
      if tokenId !in state.inFlight || state.inFlight[tokenId].settlement != settlement {
        return Unknown;
      }
      Apply(budget, settlement, d, now);
      v := Applies;
    }

    /** The effect of a settlement whose token was found authentic and unused. */
    method Apply(budget: OutstandingBudget, settlement: Settlement, d: Disposition, now: nat)
      requires Valid() && state.clock <= now && Accounts(budget.State(), View())
      requires settlement.tokenId in state.inFlight
      modifies state, budget, settlement
      ensures Valid() && settlement.disposition == Some(d)
      ensures View() == SettleQueue(old(View()), settlement.tokenId, d)
      ensures old(budget.State()) == if d == Retry then budget.State()
                                     else Charge(budget.State(), old(state.inFlight)[settlement.tokenId].event.weight)
    {
      hide Weight, Outstanding, Size, Bag, IndexOk, Counted, LaneMapOk;
      FlightCovered(budget.State(), View(), settlement.tokenId);
      settlement.disposition := Some(d);
      if d == Retry {
        state.RetryInFlight(settlement.tokenId, now);
      } else {
        budget.Release(1, state.inFlight[settlement.tokenId].event.weight);
        var event := state.TakeFromFlight(settlement.tokenId);
      }
    }

    /** Closes the queue, hands everything unsettled to the caller and returns its reservations once. */
    method CloseAndDiscard(budget: OutstandingBudget) returns (discarded: seq<LocalEvent>)
      requires Valid() && Accounts(budget.State(), View()) && WithinLimits(budget.State())
      modifies state, budget
      ensures Valid() && View() == CloseQueue(old(View()))
      ensures multiset(discarded) == old(Outstanding(View()))
      ensures budget.State() == old(CloseBudget(View(), budget.State()))
    {
      hide Weight, Size, Bag, IndexOk, Counted, LaneMapOk, Contents, FlightEvents;
      SizeIsOutstanding(View());
      discarded := state.CloseAndClear();
      var weight := TotalWeight(discarded);
      assert |discarded| == |multiset(discarded)|;
      budget.Release(|discarded|, weight);
    }
  }

  // ----- the fan-out loop -----

  /** The budget after visiting the first `n` queues. */
  ghost function BudgetAfter<H>(qs: seq<Queue<H>>, b: Budget, e: LocalEvent, n: nat): (r: Budget)
    requires n <= |qs|
  {
    if n == 0 then b else AdmitBudget(qs[n - 1], BudgetAfter(qs, b, e, n - 1), e)
  }

  /** How many of the first `n` queues admit the event, each deciding with the budget its predecessors left. */
  ghost function AdmittedAmong<H>(qs: seq<Queue<H>>, b: Budget, e: LocalEvent, n: nat): (r: nat)
    requires n <= |qs|
  {
    if n == 0 then 0
    else AdmittedAmong(qs, b, e, n - 1) + if AdmissionRefusal(qs[n - 1], BudgetAfter(qs, b, e, n - 1), e).None? then 1 else 0
  }

  lemma AdmitCharges<H>(q: Queue<H>, b: Budget, e: LocalEvent)
    requires WithinLimits(b)
    ensures var r := AdmitBudget(q, b, e); var admitted := AdmissionRefusal(q, b, e).None?;
            && WithinLimits(r) && r.maxCount == b.maxCount && r.maxWeight == b.maxWeight
            && r.count == b.count + (if admitted then 1 else 0)
            && r.weight == b.weight + if admitted && RequiresWeight(b) then e.weight else 0
  {
  }

  /** A fan-out charges the budget once for each queue that admitted a copy, and never past a limit. */
  lemma {:induction false} FanOutCharges<H>(qs: seq<Queue<H>>, b: Budget, e: LocalEvent, n: nat)
    requires n <= |qs| && WithinLimits(b)
    ensures var r := BudgetAfter(qs, b, e, n); var k := AdmittedAmong(qs, b, e, n);
            && WithinLimits(r) && r.maxCount == b.maxCount && r.maxWeight == b.maxWeight
            && r.count == b.count + k
            && r.weight == b.weight + if RequiresWeight(b) then k * e.weight else 0
  {
    hide AdmitBudget, AdmissionRefusal;
    if n > 0 {
      FanOutCharges(qs, b, e, n - 1);
      AdmitCharges(qs[n - 1], BudgetAfter(qs, b, e, n - 1), e);
      var k := AdmittedAmong(qs, b, e, n - 1);
      assert (k + 1) * e.weight == k * e.weight + e.weight;
    }
  }

  ghost function States(queues: seq<LocalQueue>): (r: set<object>)
    reads queues
  {
    set i | 0 <= i < |queues| :: queues[i].state
  }

  ghost function Views(queues: seq<LocalQueue>): (qs: seq<Queue<Settlement>>)
    reads queues, States(queues)
    ensures |qs| == |queues| && forall i | 0 <= i < |qs| :: qs[i] == queues[i].View()
  {
    if queues == [] then [] else Views(queues[..|queues| - 1]) + [queues[|queues| - 1].View()]
  }

  predicate Apart(queues: seq<LocalQueue>)
    reads queues
  {
    forall i, j | 0 <= i < j < |queues| :: queues[i].state != queues[j].state
  }

  lemma AfterKeepsLimits<H>(qs: seq<Queue<H>>, b: Budget, e: LocalEvent, n: nat)
    requires n <= |qs| && LimitsOk(b)
    ensures LimitsOk(BudgetAfter(qs, b, e, n))
  {
  }

  lemma VisitNone<H>(qs: seq<Queue<H>>, b: Budget, e: LocalEvent)
    ensures BudgetAfter(qs, b, e, 0) == b
  {
  }

  lemma VisitNext<H>(qs: seq<Queue<H>>, b: Budget, e: LocalEvent, n: nat)
    requires n < |qs|
    ensures BudgetAfter(qs, b, e, n + 1) == AdmitBudget(qs[n], BudgetAfter(qs, b, e, n), e)
  {
  }

  /** The loop of publish, without other threads: every queue decides with the budget its predecessors left. */
  method FanOut(queues: seq<LocalQueue>, budget: OutstandingBudget, event: LocalEvent, now: nat)
    returns (refusals: seq<Option<RejectionKind>>)
    requires Apart(queues) && forall i | 0 <= i < |queues| :: queues[i].Valid() && queues[i].state.clock <= now
    requires LimitsOk(budget.State()) && event.weight <= USIZE_MAX
    modifies budget, States(queues)
    ensures |refusals| == |queues|
    ensures budget.State() == BudgetAfter(old(Views(queues)), old(budget.State()), event, |queues|)
    ensures forall i | 0 <= i < |queues| ::
              && refusals[i] == AdmissionRefusal(old(Views(queues))[i], BudgetAfter(old(Views(queues)), old(budget.State()), event, i), event)
              && queues[i].View() == AdmitQueue(old(Views(queues))[i], BudgetAfter(old(Views(queues)), old(budget.State()), event, i), event)
  {
    hide AdmissionRefusal, AdmitQueue, AdmitBudget, IndexOk, Counted, LaneMapOk, Bag, Contents, LocalQueue.View, LocalQueue.Valid,
         BudgetAfter, Views, OutstandingBudget.State;
    ghost var qs, b := Views(queues), budget.State();
    VisitNone(qs, b, event);
    refusals := [];
    for n := 0 to |queues|
      invariant |refusals| == n && budget.State() == BudgetAfter(qs, b, event, n)
      invariant forall i | n <= i < |queues| :: queues[i].Valid() && queues[i].state.clock <= now && queues[i].View() == qs[i]
      invariant forall i | 0 <= i < n :: refusals[i] == AdmissionRefusal(qs[i], BudgetAfter(qs, b, event, i), event)
      invariant forall i | 0 <= i < n :: queues[i].View() == AdmitQueue(qs[i], BudgetAfter(qs, b, event, i), event)
    {
      AfterKeepsLimits(qs, b, event, n);
      VisitNext(qs, b, event, n);
      var refusal := queues[n].Admit(budget, event, now);
      refusals := refusals + [refusal];
    }
  }
}
