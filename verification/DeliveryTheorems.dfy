/** Consequences of the delivery invariant that both providers share. */
module DeliveryTheorems {
  import opened Prelude
  import opened Bags
  import opened OutstandingBudgets
  import opened Queues
  import opened Deliveries
  import opened Fanout

  /** The limits a provider configuration accepts. */
  predicate ValidLimits(maxCount: nat, maxWeight: Option<nat>) {
    0 < maxCount <= USIZE_MAX && (maxWeight.Some? ==> 0 < maxWeight.value <= USIZE_MAX)
  }

  lemma FollowsSelf(c: Core)
    requires |c.queues| == |c.ledgers|
    ensures Follows(c, c)
  {
  }

  lemma SameLimits(c: Core, i: nat)
    requires i < |c.queues| == |c.ledgers|
    ensures forall e :: Admit(c, i, e).budget.maxCount == c.budget.maxCount && Admit(c, i, e).budget.maxWeight == c.budget.maxWeight
    ensures forall h, d | 0 <= h < |c.tokens| :: Settle(c, i, h, d).budget.maxCount == c.budget.maxCount
    ensures forall h, d | 0 <= h < |c.tokens| :: Settle(c, i, h, d).budget.maxWeight == c.budget.maxWeight
    ensures Close(c, i).budget.maxCount == c.budget.maxCount && Close(c, i).budget.maxWeight == c.budget.maxWeight
  {
  }

  lemma AddKeepsLimits(c: Core, id: nat, topic: string, declaredType: nat, capacity: nat)
    ensures AddQueue(c, id, topic, declaredType, capacity).budget == c.budget
  {
  }

  lemma ReceiveKeepsLimits(c: Core, i: nat, k: Key)
    requires i < |c.queues| && k in c.queues[i].lanes && c.queues[i].lanes[k] != []
    ensures Receive(c, i, k).budget == c.budget && |Receive(c, i, k).queues| == |c.queues|
  {
  }

  lemma CloseLater(c: Core, i: nat)
    requires i < |c.queues| == |c.ledgers|
    ensures Follows(c, Close(c, i)) && |Close(c, i).queues| == |c.queues|
    ensures Close(c, i).budget.maxCount == c.budget.maxCount && Close(c, i).budget.maxWeight == c.budget.maxWeight
  {
    hide Follows, Evolves;
    CloseEvolves(c, i);
    EvolvesFollows(c, Close(c, i), None);
    SameLimits(c, i);
    CloseChanges(c, i);
  }

  lemma OneFate(c: Core, i: nat, e: LocalEvent)
    requires CoreOk(c) && i < |c.queues|
    ensures c.ledgers[i].admitted[e] <= 1
    ensures c.ledgers[i].admitted[e] == Outstanding(c.queues[i])[e] + c.ledgers[i].accepted[e]
                                        + c.ledgers[i].rejected[e] + c.ledgers[i].discarded[e]
  {
  }

  lemma ClosedIsEmpty(c: Core)
    requires CoreOk(c) && AllClosed(c)
    ensures c.budget.count == 0 && c.budget.weight == 0
    ensures forall i | 0 <= i < |c.queues| :: c.queues[i].closed && c.queues[i].lanes == map[] && c.queues[i].inFlight == map[]
  {
    hide TokensOk, Balanced, Outstanding, Size;
    forall i | 0 <= i < |c.queues| ensures c.queues[i].lanes == map[] && c.queues[i].inFlight == map[] {
      assert QueueOk(c.queues[i]);
    }
    TotalsZero(c.queues);
  }

  lemma ReportEntries(c: Core, e: LocalEvent, snapshot: seq<nat>, done: seq<Admission>)
    requires CoreOk(c) && ReportOk(c, e, snapshot, done) && |done| == |snapshot|
    ensures forall j | 0 <= j < |snapshot| ::
              && snapshot[j] < |c.queues| == |c.ledgers|
              && done[j].id == c.queues[snapshot[j]].id
              && c.ledgers[snapshot[j]].admitted[e] == if done[j].rejection.None? then 1 else 0
    ensures forall i | 0 <= i < |c.ledgers| && i !in snapshot :: e !in c.ledgers[i].admitted
    ensures forall j, k | 0 <= j < k < |done| :: done[j].id != done[k].id
  {
    hide CoreOk;
    forall j | 0 <= j < |snapshot|
      ensures snapshot[j] < |c.queues| && done[j].id == c.queues[snapshot[j]].id
      ensures c.ledgers[snapshot[j]].admitted[e] == if done[j].rejection.None? then 1 else 0
    {
      assert Compatible(c, e, snapshot[j]) && EntryOk(c, e, snapshot[j], done[j]);
      OneFate(c, snapshot[j], e);
    }
    assert snapshot[..|done|] == snapshot;
    forall i | 0 <= i < |c.ledgers| && i !in snapshot ensures e !in c.ledgers[i].admitted {
      assert Unseen(c, i, e.publication);
    }
  }

  lemma SpentToken(c: Core, h: nat)
    requires CoreOk(c) && h < |c.tokens| && c.tokens[h].disposition.Some?
    ensures forall i, d | 0 <= i < |c.queues| :: Settle(c, i, h, d) == c
    ensures forall i, t | 0 <= i < |c.queues| && t in c.queues[i].inFlight :: c.queues[i].inFlight[t].settlement != h
  {
    hide QueueOk, Balanced, BudgetOk, SameFlight;
    forall i, t | 0 <= i < |c.queues| && t in c.queues[i].inFlight ensures c.queues[i].inFlight[t].settlement != h {
      assert TokenOk(c, i, t);
    }
  }

  /** A retry keeps the reservation and puts the copy back at the head of its lane. */
  lemma RetryEffect(c: Core, i: nat, h: nat)
    requires CoreOk(c) && i < |c.queues| && h < |c.tokens| && SettleVerdict(c.queues[i], h, c.tokens[h], Retry) == Applies
    ensures var c' := Settle(c, i, h, Retry); var q := c.queues[i]; var e := q.inFlight[c.tokens[h].tokenId].event;
            && |c'.queues| == |c.queues| && c'.budget == c.budget && c'.ledgers == c.ledgers
            && c'.tokens[h].disposition == Some(Retry) && c.tokens[h].tokenId !in c'.queues[i].inFlight
            && Outstanding(c'.queues[i]) == Outstanding(q)
            && e.key in c'.queues[i].lanes && c'.queues[i].lanes[e.key] != [] && c'.queues[i].lanes[e.key][0] == e
  {
    hide Outstanding, Size, Weight, TokensOk, Balanced, TotalSize, TotalWeight;
    SettleOutstanding(c.queues[i], c.tokens[h].tokenId, Retry);
    assert Settle(c, i, h, Retry).ledgers == c.ledgers;
  }

  /** Accept and reject end exactly one outstanding copy and return exactly its reservation. */
  lemma SettleEffect(c: Core, i: nat, h: nat, d: Disposition)
    requires CoreOk(c) && i < |c.queues| && h < |c.tokens| && d != Retry
    requires SettleVerdict(c.queues[i], h, c.tokens[h], d) == Applies
    ensures var c' := Settle(c, i, h, d); var q := c.queues[i]; var e := q.inFlight[c.tokens[h].tokenId].event;
            && |c'.queues| == |c.queues| && Charge(c'.budget, e.weight) == c.budget
            && c'.tokens[h].disposition == Some(d) && c.tokens[h].tokenId !in c'.queues[i].inFlight
            && Outstanding(c'.queues[i]) + multiset{e} == Outstanding(q) && c'.queues[i].lanes == q.lanes
            && c'.ledgers == c.ledgers[i := LedgerSettled(c.ledgers[i], e, d)]
  {
    hide Outstanding, Size, Weight, TokensOk, Balanced, LedgerSettled, TotalSize, TotalWeight;
    SettleOutstanding(c.queues[i], c.tokens[h].tokenId, d);
    Covered(c, i);
    FlightWeight(c.queues[i], c.tokens[h].tokenId);
  }

  lemma FlightWeight(q: Queue<nat>, t: string)
    requires t in q.inFlight
    ensures 1 <= Size(q) && q.inFlight[t].event.weight <= Weight(Outstanding(q))
  {
    SettleSizes(q, t, Accept);
  }
}
