/**
 * All queues of one provider with the shared budget and the issued tokens. Each function here is one
 * critical section under a queue lock, so an interleaving of provider operations is a sequence of them.
 * `panicked` records that an assertion or an unchecked addition of the source would have failed.
 */
module Deliveries {
  import opened Prelude
  import opened Bags
  import opened Decimal
  import opened OutstandingBudgets
  import opened Queues

  /** What became of the copies of one queue: all ever admitted, and where each of them ended. */
  datatype Ledger = Ledger(
    admitted: multiset<LocalEvent>,
    accepted: multiset<LocalEvent>,
    rejected: multiset<LocalEvent>,
    discarded: multiset<LocalEvent>)

  datatype Core = Core(
    queues: seq<Queue<nat>>,
    ledgers: seq<Ledger>,
    tokens: seq<Token>,
    budget: Budget,
    refusals: seq<RejectionKind>,
    panicked: bool)

  function NewCore(maxCount: nat, maxWeight: Option<nat>): (c: Core) {
    Core([], [], [], Budget(maxCount, maxWeight, 0, 0, Tally(0, 0, 0, 0)), [], false)
  }

  // ----- critical sections -----

  /** `release`, with its two assertions; the weight is an unchecked `usize` sum. */
  function Release(c: Core, count: nat, weight: nat): (r: Core) {
    if weight <= USIZE_MAX && count <= c.budget.count && (RequiresWeight(c.budget) ==> weight <= c.budget.weight)
    then c.(budget := Released(c.budget, count, weight))
    else c.(panicked := true)
  }

  function AddQueue(c: Core, id: nat, topic: string, declaredType: nat, capacity: nat): (r: Core) {
    c.(queues := c.queues + [Queue(id, topic, declaredType, capacity, map[], map[], false, 0)],
       ledgers := c.ledgers + [Ledger(multiset{}, multiset{}, multiset{}, multiset{})])
  }

  /** One iteration of the publish loop. */
  ghost function Admit(c: Core, i: nat, e: LocalEvent): (r: Core)
    requires i < |c.queues| == |c.ledgers|
  {
    var q := c.queues[i];
    var l := c.ledgers[i];
    match AdmissionRefusal(q, c.budget, e)
    case Some(kind) =>
      c.(budget := AdmitBudget(q, c.budget, e), refusals := c.refusals + [kind])
    case None =>
      c.(queues := c.queues[i := AdmitQueue(q, c.budget, e)],
         ledgers := c.ledgers[i := l.(admitted := l.admitted + multiset{e})],
         budget := AdmitBudget(q, c.budget, e))
  }

  /** Receives the head of lane `k`; the new token is the next handle. */
  function Receive(c: Core, i: nat, k: Key): (r: Core)
    requires i < |c.queues| && k in c.queues[i].lanes && c.queues[i].lanes[k] != []
  {
    var q := c.queues[i];
    if q.closed || q.nextToken >= U64_MAX then c
    else c.(queues := c.queues[i := PopMessage(q, k, |c.tokens|)],
            tokens := c.tokens + [Token(q.id, TokenId(q.lanes[k][0].eventId, q.nextToken + 1), None)])
  }

  function LedgerSettled(l: Ledger, e: LocalEvent, d: Disposition): (r: Ledger) {
    match d
    case Accept => l.(accepted := l.accepted + multiset{e})
    case Reject => l.(rejected := l.rejected + multiset{e})
    case Retry => l
  }

  /** Settles token `h` against queue `i`; only an authentic unused token has any effect. */
  function Settle(c: Core, i: nat, h: nat, d: Disposition): (r: Core)
    requires i < |c.queues| == |c.ledgers| && h < |c.tokens|
  {
    var q := c.queues[i];
    var t := c.tokens[h];
    if SettleVerdict(q, h, t, d) != Applies then c
    else
      var e := q.inFlight[t.tokenId].event;
      var moved := c.(queues := c.queues[i := SettleQueue(q, t.tokenId, d)],
                      ledgers := c.ledgers[i := LedgerSettled(c.ledgers[i], e, d)],
                      tokens := c.tokens[h := t.(disposition := Some(d))]);
      if d == Retry then moved else Release(moved, 1, e.weight)
  }

  /** Closes queue `i`, discarding and releasing whatever it still holds. */
  ghost function Close(c: Core, i: nat): (r: Core)
    requires i < |c.queues| == |c.ledgers|
  {
    var q := c.queues[i];
    var l := c.ledgers[i];
    Release(c.(queues := c.queues[i := CloseQueue(q)],
               ledgers := c.ledgers[i := l.(discarded := l.discarded + Outstanding(q))]),
            Size(q), Weight(Outstanding(q)))
  }

  // ----- totals -----

  ghost function TotalSize(qs: seq<Queue<nat>>): (n: nat) {
    if qs == [] then 0 else Size(qs[0]) + TotalSize(qs[1..])
  }

  ghost function TotalWeight(qs: seq<Queue<nat>>): (n: nat) {
    if qs == [] then 0 else Weight(Outstanding(qs[0])) + TotalWeight(qs[1..])
  }

  lemma {:induction false} TotalsUpdate(qs: seq<Queue<nat>>, i: nat, q: Queue<nat>)
    requires i < |qs|
    ensures TotalSize(qs[i := q]) + Size(qs[i]) == TotalSize(qs) + Size(q)
    ensures TotalWeight(qs[i := q]) + Weight(Outstanding(qs[i])) == TotalWeight(qs) + Weight(Outstanding(q))
  {
    hide Outstanding, Size, Weight;
    if i == 0 {
      assert qs[i := q][1..] == qs[1..];
    } else {
      TotalsUpdate(qs[1..], i - 1, q);
      assert qs[i := q][1..] == qs[1..][i - 1 := q];
    }
  }

  lemma {:induction false} TotalsAppend(qs: seq<Queue<nat>>, q: Queue<nat>)
    ensures TotalSize(qs + [q]) == TotalSize(qs) + Size(q)
    ensures TotalWeight(qs + [q]) == TotalWeight(qs) + Weight(Outstanding(q))
  {
    if qs == [] {
      assert qs + [q] == [q];
    } else {
      TotalsAppend(qs[1..], q);
      assert (qs + [q])[1..] == qs[1..] + [q];
    }
  }

  lemma {:induction false} TotalsCover(qs: seq<Queue<nat>>, i: nat)
    requires i < |qs|
    ensures Size(qs[i]) <= TotalSize(qs) && Weight(Outstanding(qs[i])) <= TotalWeight(qs)
  {
    if i > 0 {
      TotalsCover(qs[1..], i - 1);
    }
  }

  lemma {:induction false} TotalsZero(qs: seq<Queue<nat>>)
    requires forall i | 0 <= i < |qs| :: qs[i].lanes == map[] && qs[i].inFlight == map[]
    ensures TotalSize(qs) == 0 && TotalWeight(qs) == 0
  {
    if qs != [] {
      assert FlightEvents(qs[0].inFlight) == map[];
      assert Outstanding(qs[0]) == multiset{};
      TotalsZero(qs[1..]);
    }
  }

  /** How often `kind` occurs. */
  function Occurrences(s: seq<RejectionKind>, kind: RejectionKind): (n: nat) {
    if s == [] then 0
    else Occurrences(s[..|s| - 1], kind) + if s[|s| - 1] == kind then 1 else 0
  }

  // ----- the invariant -----

  /** Exactly-once: the admitted copies are the disjoint union of the outstanding and the finished ones. */
  ghost predicate BalancedBag(outstanding: multiset<LocalEvent>, l: Ledger) {
    && l.admitted == outstanding + l.accepted + l.rejected + l.discarded
    && (forall e :: l.admitted[e] <= 1)
    && (forall d, e | d in l.admitted && e in l.admitted && d.publication == e.publication :: d == e)
  }

  /** Every copy ever admitted carries the payload type the subscription declared, and no weight unless weights count. */
  ghost predicate TypedBag(b: multiset<LocalEvent>, declaredType: nat, weighted: bool) {
    forall e | e in b :: e.payloadType == declaredType && (!weighted ==> e.weight == 0)
  }

  ghost predicate Balanced(q: Queue<nat>, l: Ledger, weighted: bool) {
    BalancedBag(Outstanding(q), l) && TypedBag(l.admitted, q.declaredType, weighted)
  }

  /** A token key names its event and a sequence number already handed out. */
  ghost predicate Issued(q: Queue<nat>, t: string)
    requires t in q.inFlight
  {
    exists n | 1 <= n <= q.nextToken :: t == TokenId(q.inFlight[t].event.eventId, n)
  }

  ghost predicate QueueOk(q: Queue<nat>) {
    && LaneMapOk(q.lanes)
    && Size(q) <= q.capacity
    && q.nextToken <= U64_MAX
    && (q.closed ==> q.lanes == map[] && q.inFlight == map[])
    && (forall t | t in q.inFlight :: Issued(q, t))
  }

  /** Every flight is vouched for by exactly one unsettled token. */
  predicate TokenOk(c: Core, i: nat, t: string)
    requires i < |c.queues| && t in c.queues[i].inFlight
  {
    var h := c.queues[i].inFlight[t].settlement;
    h < |c.tokens| && c.tokens[h] == Token(c.queues[i].id, t, None)
  }

  predicate SameFlight(c: Core, i: nat, t: string, j: nat, u: string)
    requires i < |c.queues| && t in c.queues[i].inFlight && j < |c.queues| && u in c.queues[j].inFlight
  {
    c.queues[i].inFlight[t].settlement == c.queues[j].inFlight[u].settlement ==> i == j && t == u
  }

  ghost predicate TokensOk(c: Core) {
    && (forall i, t | 0 <= i < |c.queues| && t in c.queues[i].inFlight :: TokenOk(c, i, t))
    && (forall i, t, j, u | 0 <= i < |c.queues| && t in c.queues[i].inFlight
                            && 0 <= j < |c.queues| && u in c.queues[j].inFlight :: SameFlight(c, i, t, j, u))
  }

  ghost predicate QueuesOk(c: Core) {
    && |c.ledgers| == |c.queues|
    && (forall i | 0 <= i < |c.queues| :: QueueOk(c.queues[i]))
    && (forall i | 0 <= i < |c.queues| :: Balanced(c.queues[i], c.ledgers[i], RequiresWeight(c.budget)))
  }

  /** The budget agrees with the real contents of all queues, and the counters with all refusals. */
  ghost predicate BudgetOk(c: Core) {
    && WithinLimits(c.budget)
    && c.budget.count == TotalSize(c.queues)
    && c.budget.weight == TotalWeight(c.queues)
    && (forall kind :: c.budget.rejected.Of(kind)
                       == if Occurrences(c.refusals, kind) <= U64_MAX then Occurrences(c.refusals, kind) else U64_MAX)
  }

  ghost predicate CoreOk(c: Core) {
    QueuesOk(c) && TokensOk(c) && BudgetOk(c) && !c.panicked
  }

  predicate AllClosed(c: Core) {
    forall i | 0 <= i < |c.queues| :: c.queues[i].closed
  }

  /** The queue still holds deliveries. */
  predicate Busy(c: Core, i: nat)
    requires i < |c.queues|
  {
    c.queues[i].lanes != map[] || c.queues[i].inFlight != map[]
  }

  // ----- one queue -----

  lemma AdmitOutstanding(q: Queue<nat>, e: LocalEvent)
    ensures var q' := q.(lanes := PushBack(q.lanes, e));
            && Outstanding(q') == Outstanding(q) + multiset{e}
            && Size(q') == Size(q) + 1
            && Weight(Outstanding(q')) == Weight(Outstanding(q)) + e.weight
  {
    PushBag(q.lanes, e);
    WeightUnion(Outstanding(q), multiset{e});
    WeightOne(e);
    assert Bag(PushBack(q.lanes, e)) + Bag(FlightEvents(q.inFlight)) == Outstanding(q) + multiset{e};
  }

  lemma BalanceAdmit(b: multiset<LocalEvent>, l: Ledger, e: LocalEvent)
    requires BalancedBag(b, l) && forall d | d in l.admitted :: d.publication != e.publication
    ensures BalancedBag(b + multiset{e}, l.(admitted := l.admitted + multiset{e}))
  {
  }

  lemma BalanceSettle(b: multiset<LocalEvent>, l: Ledger, e: LocalEvent, d: Disposition)
    requires d != Retry && BalancedBag(b + multiset{e}, l)
    ensures BalancedBag(b, LedgerSettled(l, e, d))
  {
  }

  lemma BalanceDiscard(b: multiset<LocalEvent>, l: Ledger)
    requires BalancedBag(b, l)
    ensures BalancedBag(multiset{}, l.(discarded := l.discarded + b))
  {
  }

  lemma TypedAdmit(b: multiset<LocalEvent>, e: LocalEvent, declaredType: nat, weighted: bool)
    requires TypedBag(b, declaredType, weighted) && e.payloadType == declaredType && (!weighted ==> e.weight == 0)
    ensures TypedBag(b + multiset{e}, declaredType, weighted)
  {
  }

  lemma AdmitKeeps(q: Queue<nat>, l: Ledger, b: Budget, e: LocalEvent)
    requires QueueOk(q) && Balanced(q, l, RequiresWeight(b))
    requires AdmissionRefusal(q, b, e) == None
    requires e.payloadType == q.declaredType && (!RequiresWeight(b) ==> e.weight == 0)
    requires forall d | d in l.admitted :: d.publication != e.publication
    ensures QueueOk(AdmitQueue(q, b, e))
    ensures Balanced(AdmitQueue(q, b, e), l.(admitted := l.admitted + multiset{e}), RequiresWeight(b))
  {
    hide Outstanding, BalancedBag, LaneMapOk, TypedBag;
    PushKeepsKeys(q.lanes, e);
    AdmitOutstanding(q, e);
    TypedAdmit(l.admitted, e, q.declaredType, RequiresWeight(b));
    BalanceAdmit(Outstanding(q), l, e);
    var q' := AdmitQueue(q, b, e);
    forall t | t in q'.inFlight ensures Issued(q', t) {
      assert Issued(q, t);
    }
  }

  /** Token texts of one queue never repeat, whatever the event ids look like. */
  lemma FreshToken(q: Queue<nat>, eventId: string)
    requires QueueOk(q)
    ensures TokenId(eventId, q.nextToken + 1) !in q.inFlight
  {
    var t := TokenId(eventId, q.nextToken + 1);
    if t in q.inFlight {
      assert Issued(q, t);
      var n :| 1 <= n <= q.nextToken && t == TokenId(q.inFlight[t].event.eventId, n);
      TokenIdInjective(eventId, q.nextToken + 1, q.inFlight[t].event.eventId, n);
    }
  }

  lemma ReceiveOutstanding(q: Queue<nat>, k: Key, h: nat)
    requires QueueOk(q) && k in q.lanes && q.lanes[k] != [] && q.nextToken < U64_MAX
    ensures Outstanding(PopMessage(q, k, h)) == Outstanding(q) && Size(PopMessage(q, k, h)) == Size(q)
  {
    hide PopHead, TokenId, Bag, LaneMapOk;
    var e := q.lanes[k][0];
    var q' := PopMessage(q, k, h);
    FreshToken(q, e.eventId);
    PopBag(q.lanes, k);
    InsertFlight(q.inFlight, TokenId(e.eventId, q.nextToken + 1), Flight(e, h));
    SizeIsOutstanding(q);
    SizeIsOutstanding(q');
  }

  lemma ReceiveKeeps(q: Queue<nat>, l: Ledger, weighted: bool, k: Key, h: nat)
    requires QueueOk(q) && Balanced(q, l, weighted) && k in q.lanes && q.lanes[k] != [] && q.nextToken < U64_MAX
    ensures QueueOk(PopMessage(q, k, h)) && Balanced(PopMessage(q, k, h), l, weighted)
  {
    hide Outstanding, Size, BalancedBag, LaneMapOk, TypedBag;
    PopKeepsKeys(q.lanes, k);
    ReceiveOutstanding(q, k, h);
    var q' := PopMessage(q, k, h);
    forall t | t in q'.inFlight ensures Issued(q', t) {
      if t != TokenId(q.lanes[k][0].eventId, q.nextToken + 1) {
        assert Issued(q, t);
      }
    }
  }

  lemma SettleOutstanding(q: Queue<nat>, t: string, d: Disposition)
    requires t in q.inFlight
    ensures var q' := SettleQueue(q, t, d); var e := q.inFlight[t].event;
            if d == Retry then Outstanding(q') == Outstanding(q)
            else Outstanding(q') + multiset{e} == Outstanding(q)
  {
    hide Bag, PushFront, FlightEvents;
    RemoveFlight(q.inFlight, t);
    PushBag(q.lanes, q.inFlight[t].event);
    var q' := SettleQueue(q, t, d);
    assert Outstanding(q) == Bag(q.lanes) + Bag(FlightEvents(q.inFlight - {t})) + multiset{q.inFlight[t].event};
  }

  lemma SettleSizes(q: Queue<nat>, t: string, d: Disposition)
    requires t in q.inFlight
    ensures var q' := SettleQueue(q, t, d); var e := q.inFlight[t].event;
            && Size(q) == Size(q') + (if d == Retry then 0 else 1)
            && Weight(Outstanding(q)) == Weight(Outstanding(q')) + if d == Retry then 0 else e.weight
  {
    var q' := SettleQueue(q, t, d);
    SettleOutstanding(q, t, d);
    SizeIsOutstanding(q);
    SizeIsOutstanding(q');
    WeightUnion(Outstanding(q'), multiset{q.inFlight[t].event});
    WeightOne(q.inFlight[t].event);
  }

  lemma SettleKeeps(q: Queue<nat>, l: Ledger, weighted: bool, t: string, d: Disposition)
    requires QueueOk(q) && Balanced(q, l, weighted) && t in q.inFlight
    ensures QueueOk(SettleQueue(q, t, d))
    ensures Balanced(SettleQueue(q, t, d), LedgerSettled(l, q.inFlight[t].event, d), weighted)
  {
    hide Outstanding, Size, BalancedBag, LaneMapOk, TypedBag;
    var q' := SettleQueue(q, t, d);
    PushKeepsKeys(q.lanes, q.inFlight[t].event);
    SettleOutstanding(q, t, d);
    SettleSizes(q, t, d);
    if d != Retry {
      BalanceSettle(Outstanding(q'), l, q.inFlight[t].event, d);
    }
    forall u | u in q'.inFlight ensures Issued(q', u) {
      assert Issued(q, u);
    }
  }

  lemma CloseKeeps(q: Queue<nat>, l: Ledger, weighted: bool)
    requires QueueOk(q) && Balanced(q, l, weighted)
    ensures QueueOk(CloseQueue(q))
    ensures Balanced(CloseQueue(q), l.(discarded := l.discarded + Outstanding(q)), weighted)
    ensures Size(CloseQueue(q)) == 0 && Weight(Outstanding(CloseQueue(q))) == 0
  {
    hide BalancedBag, TypedBag, LaneMapOk;
    assert FlightEvents(CloseQueue(q).inFlight) == map[];
    assert Outstanding(CloseQueue(q)) == multiset{};
    BalanceDiscard(Outstanding(q), l);
    assert LaneMapOk(CloseQueue(q).lanes) by { EmptyLanesOk(); }
  }

  lemma EmptyLanesOk()
    ensures LaneMapOk(map[])
  {
  }

  // ----- the whole provider -----

  /** Replacing one queue keeps the per-queue facts when the new queue satisfies them. */
  lemma QueuesReplace(c: Core, c': Core, i: nat)
    requires QueuesOk(c) && i < |c.queues| && |c'.queues| == |c.queues| == |c'.ledgers|
    requires RequiresWeight(c'.budget) == RequiresWeight(c.budget)
    requires c'.queues == c.queues[i := c'.queues[i]] && c'.ledgers == c.ledgers[i := c'.ledgers[i]]
    requires QueueOk(c'.queues[i]) && Balanced(c'.queues[i], c'.ledgers[i], RequiresWeight(c.budget))
    ensures QueuesOk(c')
  {
  }

  /** Dropping flights of one queue, or settling a token that is no longer in flight, keeps tokens unique. */
  lemma TokensShrink(c: Core, c': Core, i: nat)
    requires TokensOk(c) && i < |c.queues| == |c'.queues| && |c'.tokens| == |c.tokens|
    requires c'.queues == c.queues[i := c'.queues[i]] && c'.queues[i].id == c.queues[i].id
    requires forall t | t in c'.queues[i].inFlight :: t in c.queues[i].inFlight && c'.queues[i].inFlight[t] == c.queues[i].inFlight[t]
    requires forall j, t | 0 <= j < |c'.queues| && t in c'.queues[j].inFlight && c'.queues[j].inFlight[t].settlement < |c.tokens| ::
               c'.tokens[c'.queues[j].inFlight[t].settlement] == c.tokens[c'.queues[j].inFlight[t].settlement]
    ensures TokensOk(c')
  {
    forall j, t | 0 <= j < |c'.queues| && t in c'.queues[j].inFlight ensures TokenOk(c', j, t) {
      assert TokenOk(c, j, t);
    }
    forall j, t, k, u | 0 <= j < |c'.queues| && t in c'.queues[j].inFlight
                        && 0 <= k < |c'.queues| && u in c'.queues[k].inFlight ensures SameFlight(c', j, t, k, u) {
      assert SameFlight(c, j, t, k, u);
    }
  }

  lemma TokensGrow(c: Core, i: nat, k: Key)
    requires TokensOk(c) && i < |c.queues| && k in c.queues[i].lanes && c.queues[i].lanes[k] != []
    requires TokenId(c.queues[i].lanes[k][0].eventId, c.queues[i].nextToken + 1) !in c.queues[i].inFlight
    ensures TokensOk(Receive(c, i, k))
  {
    hide TokenId;
    var c' := Receive(c, i, k);
    var new_ := TokenId(c.queues[i].lanes[k][0].eventId, c.queues[i].nextToken + 1);
    forall j, t | 0 <= j < |c'.queues| && t in c'.queues[j].inFlight
      ensures TokenOk(c', j, t)
      ensures c' == c || (j == i && t == new_) || c'.queues[j].inFlight[t].settlement < |c.tokens|
    {
      if !(j == i && t == new_) {
        assert TokenOk(c, j, t);
      }
    }
    forall j, t, m, u | 0 <= j < |c'.queues| && t in c'.queues[j].inFlight
                        && 0 <= m < |c'.queues| && u in c'.queues[m].inFlight ensures SameFlight(c', j, t, m, u) {
      if !(j == i && t == new_) && !(m == i && u == new_) {
        assert SameFlight(c, j, t, m, u);
      }
    }
  }

  lemma CountRefusal(refusals: seq<RejectionKind>, kind: RejectionKind)
    ensures forall k :: Occurrences(refusals + [kind], k) == Occurrences(refusals, k) + if k == kind then 1 else 0
  {
  }

  lemma AdmitOk(c: Core, i: nat, e: LocalEvent)
    requires CoreOk(c) && i < |c.queues|
    requires e.payloadType == c.queues[i].declaredType && (!RequiresWeight(c.budget) ==> e.weight == 0)
    requires forall d | d in c.ledgers[i].admitted :: d.publication != e.publication
    ensures CoreOk(Admit(c, i, e))
  {
    hide Outstanding, Size, Weight, QueueOk, Balanced, TokenOk, SameFlight, Occurrences;
    var c' := Admit(c, i, e);
    var q := c.queues[i];
    var refusal := AdmissionRefusal(q, c.budget, e);
    if refusal.Some? {
      CountRefusal(c.refusals, refusal.value);
      SameTokens(c, c');
    } else {
      AdmitKeeps(q, c.ledgers[i], c.budget, e);
      AdmitOutstanding(q, e);
      TotalsUpdate(c.queues, i, AdmitQueue(q, c.budget, e));
      QueuesReplace(c, c', i);
      TokensShrink(c, c', i);
    }
  }

  lemma SameTokens(c: Core, c': Core)
    requires TokensOk(c) && c'.queues == c.queues && c'.tokens == c.tokens
    ensures TokensOk(c')
  {
    forall i, t | 0 <= i < |c'.queues| && t in c'.queues[i].inFlight ensures TokenOk(c', i, t) {
      assert TokenOk(c, i, t);
    }
    forall i, t, j, u | 0 <= i < |c'.queues| && t in c'.queues[i].inFlight
                        && 0 <= j < |c'.queues| && u in c'.queues[j].inFlight ensures SameFlight(c', i, t, j, u) {
      assert SameFlight(c, i, t, j, u);
    }
  }

  lemma ReceiveOk(c: Core, i: nat, k: Key)
    requires CoreOk(c) && i < |c.queues| && k in c.queues[i].lanes && c.queues[i].lanes[k] != []
    ensures CoreOk(Receive(c, i, k))
  {
    hide Outstanding, Size, Weight, QueueOk, Balanced, TokensOk, Occurrences;
    var q := c.queues[i];
    if !q.closed && q.nextToken < U64_MAX {
      var c' := Receive(c, i, k);
      ReceiveKeeps(q, c.ledgers[i], RequiresWeight(c.budget), k, |c.tokens|);
      ReceiveOutstanding(q, k, |c.tokens|);
      FreshToken(q, q.lanes[k][0].eventId);
      TotalsUpdate(c.queues, i, PopMessage(q, k, |c.tokens|));
      QueuesReplace(c, c', i);
      TokensGrow(c, i, k);
    }
  }

  /** No release can underflow the budget: it covers every queue it is the sum of. */
  lemma Covered(c: Core, i: nat)
    requires CoreOk(c) && i < |c.queues|
    ensures Size(c.queues[i]) <= c.budget.count && Weight(Outstanding(c.queues[i])) <= c.budget.weight <= USIZE_MAX
  {
    hide QueuesOk, TokensOk;
    TotalsCover(c.queues, i);
  }

  lemma SettleOk(c: Core, i: nat, h: nat, d: Disposition)
    requires CoreOk(c) && i < |c.queues| && h < |c.tokens|
    ensures CoreOk(Settle(c, i, h, d))
  {
    hide Outstanding, Size, Weight, QueueOk, Balanced, TokensOk, Occurrences;
    var q := c.queues[i];
    var t := c.tokens[h];
    if SettleVerdict(q, h, t, d) == Applies {
      var c' := Settle(c, i, h, d);
      Covered(c, i);
      SettleKeeps(q, c.ledgers[i], RequiresWeight(c.budget), t.tokenId, d);
      SettleSizes(q, t.tokenId, d);
      TotalsUpdate(c.queues, i, SettleQueue(q, t.tokenId, d));
      QueuesReplace(c, c', i);
      SettleTokens(c, i, h, d);
    }
  }

  lemma SettleTokens(c: Core, i: nat, h: nat, d: Disposition)
    requires TokensOk(c) && i < |c.queues| == |c.ledgers| && h < |c.tokens|
    requires SettleVerdict(c.queues[i], h, c.tokens[h], d) == Applies
    ensures TokensOk(Settle(c, i, h, d))
  {
    var c' := Settle(c, i, h, d);
    var t := c.tokens[h].tokenId;
    forall j, u | 0 <= j < |c'.queues| && u in c'.queues[j].inFlight && c'.queues[j].inFlight[u].settlement < |c.tokens|
      ensures c'.tokens[c'.queues[j].inFlight[u].settlement] == c.tokens[c'.queues[j].inFlight[u].settlement]
    {
      assert SameFlight(c, j, u, i, t);
    }
    TokensShrink(c, c', i);
  }

  lemma CloseOk(c: Core, i: nat)
    requires CoreOk(c) && i < |c.queues|
    ensures CoreOk(Close(c, i)) && Close(c, i).queues[i].closed
  {
    hide Outstanding, Size, Weight, QueueOk, Balanced, TokenOk, SameFlight, Occurrences;
    var q := c.queues[i];
    var c' := Close(c, i);
    Covered(c, i);
    CloseKeeps(q, c.ledgers[i], RequiresWeight(c.budget));
    TotalsUpdate(c.queues, i, CloseQueue(q));
    QueuesReplace(c, c', i);
    TokensShrink(c, c', i);
  }

  lemma EmptyQueueOk(q: Queue<nat>, weighted: bool)
    requires q.lanes == map[] && q.inFlight == map[] && q.nextToken == 0
    ensures QueueOk(q) && Balanced(q, Ledger(multiset{}, multiset{}, multiset{}, multiset{}), weighted)
    ensures Size(q) == 0 && Weight(Outstanding(q)) == 0
  {
  }

  lemma AddQueueOk(c: Core, id: nat, topic: string, declaredType: nat, capacity: nat)
    requires CoreOk(c)
    ensures CoreOk(AddQueue(c, id, topic, declaredType, capacity))
  {
    hide Outstanding, Size, Weight, QueueOk, Balanced, Occurrences;
    var c' := AddQueue(c, id, topic, declaredType, capacity);
    var q := c'.queues[|c.queues|];
    EmptyQueueOk(q, RequiresWeight(c.budget));
    TotalsAppend(c.queues, q);
    forall i, t | 0 <= i < |c'.queues| && t in c'.queues[i].inFlight ensures TokenOk(c', i, t) {
      assert TokenOk(c, i, t);
    }
    forall i, t, j, u | 0 <= i < |c'.queues| && t in c'.queues[i].inFlight
                        && 0 <= j < |c'.queues| && u in c'.queues[j].inFlight ensures SameFlight(c', i, t, j, u) {
      assert SameFlight(c, i, t, j, u);
    }
  }
}
