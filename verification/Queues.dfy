/**
 * One subscription queue as a value: what each critical section under the queue lock does to it.
 * `H` is the identity of a settlement handle (a reference in the classes, a number in the step systems).
 */
module Queues {
  import opened Prelude
  import opened Bags
  import opened Decimal
  import opened OutstandingBudgets

  /** Pending deliveries in arrival order per ordering key; no lane is empty. */
  type LaneMap = map<Key, seq<LocalEvent>>

  predicate LaneMapOk(m: LaneMap) {
    forall k | k in m :: m[k] != [] && forall i | 0 <= i < |m[k]| :: m[k][i].key == k
  }

  function PushBack(m: LaneMap, e: LocalEvent): (r: LaneMap) {
    m[e.key := (if e.key in m then m[e.key] else []) + [e]]
  }

  function PushFront(m: LaneMap, e: LocalEvent): (r: LaneMap) {
    m[e.key := [e] + if e.key in m then m[e.key] else []]
  }

  /** Takes the head of lane `k`; an emptied lane disappears. */
  function PopHead(m: LaneMap, k: Key): (r: LaneMap)
    requires k in m && m[k] != []
  {
    if |m[k]| == 1 then m - {k} else m[k := m[k][1..]]
  }

  lemma PushKeepsKeys(m: LaneMap, e: LocalEvent)
    requires LaneMapOk(m)
    ensures LaneMapOk(PushBack(m, e)) && LaneMapOk(PushFront(m, e))
  {
  }

  lemma PopKeepsKeys(m: LaneMap, k: Key)
    requires LaneMapOk(m) && k in m
    ensures LaneMapOk(PopHead(m, k)) && m[k][0].key == k
  {
  }

  lemma PushBag(m: LaneMap, e: LocalEvent)
    ensures Bag(PushBack(m, e)) == Bag(m) + multiset{e}
    ensures Bag(PushFront(m, e)) == Bag(m) + multiset{e}
  {
    if e.key in m {
      BagUpdate(m, e.key, m[e.key] + [e]);
      BagUpdate(m, e.key, [e] + m[e.key]);
      assert multiset([e] + m[e.key]) == multiset(m[e.key]) + multiset{e};
    } else {
      assert [] + [e] == [e] == [e] + [];
      BagInsert(m, e.key, [e]);
    }
  }

  lemma PopBag(m: LaneMap, k: Key)
    requires k in m && m[k] != []
    ensures Bag(PopHead(m, k)) + multiset{m[k][0]} == Bag(m)
    ensures |Bag(m)| > 0
  {
    BagUpdate(m, k, m[k][1..]);
    assert m[k] == [m[k][0]] + m[k][1..];
    assert multiset(m[k]) == multiset(m[k][1..]) + multiset{m[k][0]};
  }

  /** A received delivery retained until its token is settled. */
  datatype Flight<H> = Flight(event: LocalEvent, settlement: H)

  /**
   * `declaredType` is the payload type of the subscription request that created the queue; the
   * source keeps it in the registry only.
   */
  datatype Queue<H> = Queue(
    id: nat,
    topic: string,
    declaredType: nat,
    capacity: nat,
    lanes: LaneMap,
    inFlight: map<string, Flight<H>>,
    closed: bool,
    nextToken: nat)

  function FlightEvents<H>(m: map<string, Flight<H>>): (r: map<string, seq<LocalEvent>>) {
    map t | t in m :: [m[t].event]
  }

  /** Every unsettled delivery of the queue: pending and in flight. */
  ghost function Outstanding<H>(q: Queue<H>): (b: multiset<LocalEvent>) {
    Bag(q.lanes) + Bag(FlightEvents(q.inFlight))
  }

  lemma FlightsWithout<H>(m: map<string, Flight<H>>, t: string)
    requires t in m
    ensures t in FlightEvents(m) && FlightEvents(m)[t] == [m[t].event] && FlightEvents(m) - {t} == FlightEvents(m - {t})
  {
  }

  lemma RemoveFlight<H>(m: map<string, Flight<H>>, t: string)
    requires t in m
    ensures Bag(FlightEvents(m)) == Bag(FlightEvents(m - {t})) + multiset{m[t].event}
  {
    hide Bag, FlightEvents;
    FlightsWithout(m, t);
    BagSplit(FlightEvents(m), t);
  }

  lemma InsertFlight<H>(m: map<string, Flight<H>>, t: string, f: Flight<H>)
    requires t !in m
    ensures Bag(FlightEvents(m[t := f])) == Bag(FlightEvents(m)) + multiset{f.event}
  {
    hide Bag, FlightEvents;
    assert m[t := f] - {t} == m;
    RemoveFlight(m[t := f], t);
  }

  /** `pending_count() + in_flight.len()`. */
  ghost function Size<H>(q: Queue<H>): (n: nat) {
    |Bag(q.lanes)| + |q.inFlight|
  }

  lemma SizeIsOutstanding<H>(q: Queue<H>)
    ensures Size(q) == |Outstanding(q)|
  {
    BagOfSingletons(FlightEvents(q.inFlight));
    assert FlightEvents(q.inFlight).Keys == q.inFlight.Keys;
  }

  /** The loop body of publish under one queue lock: refusal reasons in their order of precedence. */
  ghost function AdmissionRefusal<H>(q: Queue<H>, b: Budget, e: LocalEvent): (r: Option<RejectionKind>) {
    if q.closed then Some(SubscriptionClosed)
    else if Size(q) >= q.capacity then Some(SubscriptionCapacity)
    else Refusal(b, e.weight)
  }

  ghost function AdmitQueue<H>(q: Queue<H>, b: Budget, e: LocalEvent): (r: Queue<H>) {
    if AdmissionRefusal(q, b, e).Some? then q else q.(lanes := PushBack(q.lanes, e))
  }

  ghost function AdmitBudget<H>(q: Queue<H>, b: Budget, e: LocalEvent): (r: Budget) {
    match AdmissionRefusal(q, b, e)
    case Some(kind) => CountRejection(b, kind)
    case None => Charge(b, e.weight)
  }

  /** Moves the head of lane `k` into flight under a fresh token, unless the token sequence is exhausted. */
  function PopMessage<H>(q: Queue<H>, k: Key, h: H): (r: Queue<H>)
    requires k in q.lanes && q.lanes[k] != []
  {
    if q.nextToken >= U64_MAX then q
    else
      var e := q.lanes[k][0];
      q.(lanes := PopHead(q.lanes, k),
         nextToken := q.nextToken + 1,
         inFlight := q.inFlight[TokenId(e.eventId, q.nextToken + 1) := Flight(e, h)])
  }

  /** What a token remembers: its in-flight key and the first disposition that took effect. */
  datatype Token = Token(subscriptionId: nat, tokenId: string, disposition: Option<Disposition>)

  datatype Verdict = Foreign | Repeated | Conflicting | Unknown | Applies

  /** The checks of settle, in source order. */
  function SettleVerdict<H(==)>(q: Queue<H>, h: H, t: Token, d: Disposition): (v: Verdict) {
    if t.subscriptionId != q.id then Foreign
    else if t.disposition.Some? then (if t.disposition.value == d then Repeated else Conflicting)
    else if t.tokenId !in q.inFlight || q.inFlight[t.tokenId].settlement != h then Unknown
    else Applies
  }

  /** Removes the delivery from flight; a retry puts it back at the head of its lane. */
  function SettleQueue<H>(q: Queue<H>, tokenId: string, d: Disposition): (r: Queue<H>)
    requires tokenId in q.inFlight
  {
    var rest := q.(inFlight := q.inFlight - {tokenId});
    if d == Retry then rest.(lanes := PushFront(q.lanes, q.inFlight[tokenId].event)) else rest
  }

  function CloseQueue<H>(q: Queue<H>): (r: Queue<H>) {
    q.(closed := true, lanes := map[], inFlight := map[])
  }

  ghost function CloseBudget<H>(q: Queue<H>, b: Budget): (r: Budget)
    requires Size(q) <= b.count && (RequiresWeight(b) ==> Weight(Outstanding(q)) <= b.weight)
  {
    Released(b, Size(q), Weight(Outstanding(q)))
  }
}
