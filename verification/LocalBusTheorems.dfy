/** What the synchronous provider guarantees in every run, from creation on, for any number of threads. */
module LocalBusTheorems {
  import opened Prelude
  import opened Bags
  import opened Routing
  import opened OutstandingBudgets
  import opened Queues
  import opened Deliveries
  import opened Fanout
  import opened DeliveryTheorems
  import opened FanoutReceipts
  import Receipts
  import opened LocalBus
  import opened LocalBusInvariant
  import opened LocalBusSteps

  /** `s` is reachable by the steps `steps` of `threads` threads. */
  ghost predicate Reaches(s: State, threads: nat, capacity: nat, maxCount: nat, maxWeight: Option<nat>, steps: seq<(nat, Step)>) {
    ValidLimits(maxCount, maxWeight) && s == Run(Init(threads, capacity, maxCount, maxWeight), steps)
  }

  lemma ReachesInv(s: State, threads: nat, capacity: nat, maxCount: nat, maxWeight: Option<nat>, steps: seq<(nat, Step)>)
    requires Reaches(s, threads, capacity, maxCount, maxWeight, steps)
    ensures Inv(s)
  {
    hide Inv, Run, Init;
    InitOk(threads, capacity, maxCount, maxWeight);
    RunOk(Init(threads, capacity, maxCount, maxWeight), steps);
  }

  // ----- what no step can undo -----

  /** Queues keep their identity, closing is final, fates and dispositions are final, an outcome is final. */
  predicate Later(s: State, s': State) {
    && Follows(s.core, s'.core) && BusEvolves(s.bus, s'.bus)
    && s'.capacity == s.capacity && s'.core.budget.maxCount == s.core.budget.maxCount
    && s'.core.budget.maxWeight == s.core.budget.maxWeight
    && (s.bus.closed ==> |s'.core.queues| == |s.core.queues|)
  }

  lemma SubscribeLater(s: State, t: nat, id: nat, topic: string, payloadType: nat)
    requires t < |s.threads| && |s.core.queues| == |s.core.ledgers|
    ensures Later(s, DoSubscribe(s, t, id, topic, payloadType))
  {
    hide Evolves, Follows, AddQueue;
    FollowsSelf(s.core);
    AddEvolves(s.core, id, topic, payloadType, s.capacity);
    EvolvesFollows(s.core, AddQueue(s.core, id, topic, payloadType, s.capacity), None);
    AddKeepsLimits(s.core, id, topic, payloadType, s.capacity);
  }

  lemma AdmitLater(s: State, t: nat)
    requires t < |s.threads| && |s.core.queues| == |s.core.ledgers|
    ensures Later(s, DoAdmitNext(s, t))
  {
    hide Evolves, Follows, Admit, AdmissionRefusal;
    FollowsSelf(s.core);
    if DoAdmitNext(s, t) != s {
      var pc := s.threads[t];
      var i := pc.snapshot[|pc.done|];
      AdmitEvolves(s.core, i, pc.event);
      EvolvesFollows(s.core, Admit(s.core, i, pc.event), Some(pc.event));
      SameLimits(s.core, i);
      AdmitChanges(s.core, i, pc.event);
    }
  }

  lemma ReceiveLater(s: State, t: nat, i: nat, k: Key)
    requires t < |s.threads| && |s.core.queues| == |s.core.ledgers|
    ensures Later(s, DoReceive(s, t, i, k))
  {
    hide Evolves, Follows, Receive;
    FollowsSelf(s.core);
    if DoReceive(s, t, i, k) != s {
      ReceiveEvolves(s.core, i, k);
      EvolvesFollows(s.core, Receive(s.core, i, k), None);
      ReceiveKeepsLimits(s.core, i, k);
    }
  }

  lemma SettleLater(s: State, t: nat, i: nat, h: nat, d: Disposition)
    requires t < |s.threads| && |s.core.queues| == |s.core.ledgers|
    ensures Later(s, DoSettle(s, t, i, h, d))
  {
    hide Evolves, Follows, Settle;
    FollowsSelf(s.core);
    if DoSettle(s, t, i, h, d) != s {
      SettleEvolves(s.core, i, h, d);
      EvolvesFollows(s.core, Settle(s.core, i, h, d), None);
      SameLimits(s.core, i);
      SettleChanges(s.core, i, h, d);
    }
  }

  lemma DiscardLater(s: State, t: nat, i: nat)
    requires t < |s.threads| && |s.core.queues| == |s.core.ledgers|
    ensures Later(s, DoClose(s, t, i)) && Later(s, DoSweep(s, t, i))
  {
    hide Follows, Close;
    FollowsSelf(s.core);
    if i < |s.core.queues| {
      CloseLater(s.core, i);
    }
  }

  predicate MovesDeliveries(a: Step) {
    a.Subscribe? || a.AdmitNext? || a.ReceiveHead? || a.SettleToken? || a.CloseNow? || a.SweepQueue?
  }

  /** The steps that leave the deliveries alone. */
  lemma QuietLater(s: State, t: nat, a: Step)
    requires Inv(s) && |s.core.queues| == |s.core.ledgers| && !MovesDeliveries(a)
    ensures Later(s, Next(s, t, a))
  {
    hide Inv, Follows, Snapshot, LiveQueues, Watched, SortById, Unparked;
    FollowsSelf(s.core);
    if a.RecordOutcome? && t < |s.threads| && s.threads[t].Recording? {
      RecordsOnce(s, t);
    }
  }

  lemma StepLater(s: State, t: nat, a: Step)
    requires Inv(s)
    ensures Later(s, Next(s, t, a))
  {
    hide Inv, Later, DoSubscribe, DoAdmitNext, DoReceive, DoSettle, DoClose, DoSweep;
    InvLedgers(s);
    if t >= |s.threads| {
      SameLater(s);
    } else {
      match a {
        case Subscribe(id, topic, payloadType) => SubscribeLater(s, t, id, topic, payloadType);
        case AdmitNext => AdmitLater(s, t);
        case ReceiveHead(i, k) => ReceiveLater(s, t, i, k);
        case SettleToken(i, h, d) => SettleLater(s, t, i, h, d);
        case CloseNow(i) => DiscardLater(s, t, i);
        case SweepQueue(i) => DiscardLater(s, t, i);
        case _ => QuietLater(s, t, a);
      }
    }
  }

  lemma SameLater(s: State)
    requires |s.core.queues| == |s.core.ledgers|
    ensures Later(s, s)
  {
    FollowsSelf(s.core);
  }

  lemma InvLedgers(s: State)
    requires Inv(s)
    ensures |s.core.queues| == |s.core.ledgers|
  {
  }

  lemma RecordsOnce(s: State, t: nat)
    requires Inv(s) && t < |s.threads| && s.threads[t].Recording?
    ensures s.bus.outcome.None?
  {
    hide CoreOk, BusOk, PcsOk, PublicationsOk, WakesOk;
  }

  lemma {:induction false} RunLater(s: State, steps: seq<(nat, Step)>)
    requires Inv(s)
    ensures Later(s, Run(s, steps))
  {
    hide Inv, Next, Follows;
    if steps == [] {
      InvLedgers(s);
      FollowsSelf(s.core);
    } else {
      var before := steps[..|steps| - 1];
      var last := steps[|steps| - 1];
      RunLater(s, before);
      RunOk(s, before);
      StepLater(Run(s, before), last.0, last.1);
      FollowsTransitive(s.core, Run(s, before).core, Run(s, steps).core);
    }
  }

  // ----- the guarantees -----

  /**
   * Budget conservation: between critical sections the two budget counters are exactly the number and the
   * weight of all unsettled deliveries; they respect their limits, and no assertion or sum ever fails.
   */
  lemma BudgetConserved(s: State, threads: nat, capacity: nat, maxCount: nat, maxWeight: Option<nat>, steps: seq<(nat, Step)>)
    requires Reaches(s, threads, capacity, maxCount, maxWeight, steps)
    ensures s.core.budget.count == TotalSize(s.core.queues) <= maxCount
    ensures s.core.budget.weight == TotalWeight(s.core.queues)
    ensures maxWeight.Some? ==> TotalWeight(s.core.queues) <= maxWeight.value
    ensures maxWeight.None? ==> TotalWeight(s.core.queues) == 0
    ensures forall i | 0 <= i < |s.core.queues| :: Weight(Outstanding(s.core.queues[i])) <= USIZE_MAX
    ensures !s.core.panicked
  {
    hide Inv, Run, TotalSize, TotalWeight, Outstanding, Weight, Size;
    ReachesInv(s, threads, capacity, maxCount, maxWeight, steps);
    assert Later(Init(threads, capacity, maxCount, maxWeight), s) by {
      InitOk(threads, capacity, maxCount, maxWeight);
      RunLater(Init(threads, capacity, maxCount, maxWeight), steps);
    }
    assert CoreOk(s.core) by { InvCore(s); }
    forall i | 0 <= i < |s.core.queues| ensures Weight(Outstanding(s.core.queues[i])) <= USIZE_MAX {
      Covered(s.core, i);
    }
  }

  lemma InvCore(s: State)
    requires Inv(s)
    ensures CoreOk(s.core)
  {
  }

  predicate Uniform(s: State) {
    forall i | 0 <= i < |s.core.queues| :: s.core.queues[i].capacity == s.capacity
  }

  lemma StepUniform(s: State, t: nat, a: Step)
    requires Inv(s) && Uniform(s)
    ensures Uniform(Next(s, t, a))
  {
    hide Inv, Admit, Receive, Settle, Close, Snapshot, LiveQueues, Watched, SortById;
    StepLater(s, t, a);
    InvLedgers(s);
    var s' := Next(s, t, a);
    forall i | 0 <= i < |s'.core.queues| ensures s'.core.queues[i].capacity == s'.capacity {
      if i < |s.core.queues| {
        assert SameQueue(s.core.queues[i], s'.core.queues[i]);
      } else {
        OnlySubscribeAdds(s, t, a);
      }
    }
  }

  lemma OnlySubscribeAdds(s: State, t: nat, a: Step)
    requires |s.core.queues| == |s.core.ledgers|
    ensures var s' := Next(s, t, a);
            |s'.core.queues| <= |s.core.queues|
            || (|s'.core.queues| == |s.core.queues| + 1 && s'.core.queues[|s.core.queues|].capacity == s.capacity)
  {
    hide Size, Outstanding, Weight, Snapshot, LiveQueues, Watched, SortById;
  }

  lemma {:induction false} RunUniform(s: State, steps: seq<(nat, Step)>)
    requires Inv(s) && Uniform(s)
    ensures Uniform(Run(s, steps)) && Run(s, steps).capacity == s.capacity
  {
    hide Inv, Next, Uniform;
    if steps != [] {
      var before := steps[..|steps| - 1];
      RunUniform(s, before);
      RunOk(s, before);
      StepUniform(Run(s, before), steps[|steps| - 1].0, steps[|steps| - 1].1);
      StepLater(Run(s, before), steps[|steps| - 1].0, steps[|steps| - 1].1);
    }
  }

  /** No queue exceeds the configured capacity, counting deliveries in flight. */
  lemma CapacityRespected(s: State, threads: nat, capacity: nat, maxCount: nat, maxWeight: Option<nat>,
                          steps: seq<(nat, Step)>, i: nat)
    requires Reaches(s, threads, capacity, maxCount, maxWeight, steps) && i < |s.core.queues|
    ensures |Outstanding(s.core.queues[i])| <= capacity
  {
    hide Inv, Run, Outstanding, Size;
    InitOk(threads, capacity, maxCount, maxWeight);
    RunUniform(Init(threads, capacity, maxCount, maxWeight), steps);
    ReachesInv(s, threads, capacity, maxCount, maxWeight, steps);
    InvCore(s);
    assert QueueOk(s.core.queues[i]);
    SizeIsOutstanding(s.core.queues[i]);
  }

  /** Every copy ever admitted to a queue is in exactly one place, and a finished copy stays finished. */
  lemma ExactlyOneFate(s: State, threads: nat, capacity: nat, maxCount: nat, maxWeight: Option<nat>,
                       steps: seq<(nat, Step)>, more: seq<(nat, Step)>, i: nat, e: LocalEvent)
    requires Reaches(s, threads, capacity, maxCount, maxWeight, steps) && i < |s.core.queues| && i < |s.core.ledgers|
    ensures e in s.core.ledgers[i].admitted ==>
              Outstanding(s.core.queues[i])[e] + s.core.ledgers[i].accepted[e]
              + s.core.ledgers[i].rejected[e] + s.core.ledgers[i].discarded[e] == 1
    ensures e !in s.core.ledgers[i].admitted ==>
              e !in Outstanding(s.core.queues[i]) && e !in s.core.ledgers[i].accepted
              && e !in s.core.ledgers[i].rejected && e !in s.core.ledgers[i].discarded
    ensures var c := Run(s, more).core;
            && i < |c.queues| == |c.ledgers|
            && (e in s.core.ledgers[i].accepted ==> e in c.ledgers[i].accepted && e !in Outstanding(c.queues[i]))
            && (e in s.core.ledgers[i].rejected ==> e in c.ledgers[i].rejected && e !in Outstanding(c.queues[i]))
            && (e in s.core.ledgers[i].discarded ==> e in c.ledgers[i].discarded && e !in Outstanding(c.queues[i]))
  {
    hide Inv, Run, Outstanding;
    ReachesInv(s, threads, capacity, maxCount, maxWeight, steps);
    InvCore(s);
    OneFate(s.core, i, e);
    RunOk(s, more);
    RunLater(s, more);
    var c := Run(s, more).core;
    InvCore(Run(s, more));
    assert LedgerFollows(s.core.ledgers[i], c.ledgers[i]);
    OneFate(c, i, e);
  }

  /** Every event ever placed in a queue has the type its subscription declared, whatever was rebound meanwhile. */
  lemma PayloadTypesMatch(s: State, threads: nat, capacity: nat, maxCount: nat, maxWeight: Option<nat>,
                          steps: seq<(nat, Step)>, i: nat, e: LocalEvent)
    requires Reaches(s, threads, capacity, maxCount, maxWeight, steps) && i < |s.core.queues| && i < |s.core.ledgers|
    requires e in s.core.ledgers[i].admitted || e in Outstanding(s.core.queues[i])
    ensures e.payloadType == s.core.queues[i].declaredType
  {
    hide Inv, Run, Outstanding;
    ReachesInv(s, threads, capacity, maxCount, maxWeight, steps);
    InvCore(s);
    OneFate(s.core, i, e);
    assert Balanced(s.core.queues[i], s.core.ledgers[i], RequiresWeight(s.core.budget));
  }

  /**
   * Once a shutdown has recorded its outcome, every queue is closed and empty and both counters are zero;
   * this and the outcome stay so, whatever old publishers, subscribers and token holders still do.
   */
  lemma ShutdownIsFinal(s: State, threads: nat, capacity: nat, maxCount: nat, maxWeight: Option<nat>,
                        steps: seq<(nat, Step)>, more: seq<(nat, Step)>)
    requires Reaches(s, threads, capacity, maxCount, maxWeight, steps) && s.bus.outcome.Some?
    ensures var r := Run(s, more);
            && r.bus.outcome == s.bus.outcome && r.bus.closed
            && |r.core.queues| == |s.core.queues|
            && r.core.budget.count == 0 && r.core.budget.weight == 0
            && forall i | 0 <= i < |r.core.queues| ::
                 r.core.queues[i].closed && r.core.queues[i].lanes == map[] && r.core.queues[i].inFlight == map[]
  {
    hide Run, CoreOk, BusOk, PcsOk, PublicationsOk, WakesOk, Follows;
    ReachesInv(s, threads, capacity, maxCount, maxWeight, steps);
    RunOk(s, more);
    RunLater(s, more);
    ClosedIsEmpty(Run(s, more).core);
  }

  /**
   * No lost wake-up: when nobody owes a version bump or a notification, a thread asleep in an idle wait or a
   * graceful shutdown has a queue it asked about that is busy.
   */
  lemma NoLostWakeup(s: State, threads: nat, capacity: nat, maxCount: nat, maxWeight: Option<nat>,
                     steps: seq<(nat, Step)>, t: nat)
    requires Reaches(s, threads, capacity, maxCount, maxWeight, steps)
    requires t < |s.threads| && s.threads[t].Parked?
    requires forall u | 0 <= u < |s.threads| :: !OwesBump(s.threads[u]) && !s.threads[u].Notifying?
    ensures Watches(s.core, s.threads[t].wait, s.threads[t].seen)
    ensures var q := s.core.queues[s.threads[t].seen]; q.lanes != map[] || q.inFlight != map[]
  {
    hide Run, CoreOk, BusOk, PublicationsOk, ShutdownOk;
    ReachesInv(s, threads, capacity, maxCount, maxWeight, steps);
    assert WakeOk(s, s.threads[t]) && PcOk(s.core, s.bus, s.publications, s.threads[t]);
  }

  /** A thread that owes a signal is never blocked: bumping and then notifying releases every sleeper. */
  lemma SignalsReleaseSleepers(s: State, t: nat)
    requires t < |s.threads| && s.threads[t].Bumping?
    ensures var r := Run(s, [(t, Bump), (t, NotifyAll)]);
            r.bus.version == s.bus.version + 1 && |r.threads| == |s.threads|
            && forall u | 0 <= u < |r.threads| :: !r.threads[u].Parked?
  {
    hide SortById;
    var steps := [(t, Bump), (t, NotifyAll)];
    assert steps[..1] == [(t, Bump)];
    assert Run(s, [(t, Bump)]) == DoBump(s, t) by {
      assert [(t, Bump)][..0] == [];
    }
    assert Run(s, steps) == DoNotify(DoBump(s, t), t);
  }

  /**
   * The report of a publish: one entry for each queue of its snapshot, sorted by distinct id; an entry is
   * accepted exactly when the queue admitted a copy, and no other queue ever admitted one.
   */
  lemma ReportIsTrue(s: State, threads: nat, capacity: nat, maxCount: nat, maxWeight: Option<nat>,
                     steps: seq<(nat, Step)>, t: nat)
    requires Reaches(s, threads, capacity, maxCount, maxWeight, steps)
    requires t < |s.threads| && s.threads[t].Published?
    ensures var pc := s.threads[t];
            && SortedById(pc.report) && multiset(pc.report) == multiset(pc.done) && |pc.done| == |pc.snapshot|
            && (forall j | 0 <= j < |pc.snapshot| ::
                  && pc.snapshot[j] < |s.core.queues| == |s.core.ledgers|
                  && pc.done[j].id == s.core.queues[pc.snapshot[j]].id
                  && s.core.ledgers[pc.snapshot[j]].admitted[pc.event] == if pc.done[j].rejection.None? then 1 else 0)
            && (forall i | 0 <= i < |s.core.ledgers| && i !in pc.snapshot :: pc.event !in s.core.ledgers[i].admitted)
  {
    hide Run, BusOk, PublicationsOk, ShutdownOk, WakesOk, CoreOk, SortById;
    ReachesInv(s, threads, capacity, maxCount, maxWeight, steps);
    var pc := s.threads[t];
    assert PcOk(s.core, s.bus, s.publications, pc);
    ReportEntries(s.core, pc.event, pc.snapshot, pc.done);
    SortIs(pc.done);
  }

  /** The rejection counters are the saturated counts of all refusals reported so far. */
  lemma RefusalsCounted(s: State, threads: nat, capacity: nat, maxCount: nat, maxWeight: Option<nat>,
                        steps: seq<(nat, Step)>, kind: RejectionKind)
    requires Reaches(s, threads, capacity, maxCount, maxWeight, steps)
    ensures var n := Occurrences(s.core.refusals, kind);
            s.core.budget.rejected.Of(kind) == if n <= U64_MAX then n else U64_MAX
  {
    hide Inv, Run, QueuesOk, TokensOk;
    ReachesInv(s, threads, capacity, maxCount, maxWeight, steps);
    InvCore(s);
  }

  /**
   * A settled token is spent: in every later state, settling with it changes nothing, so it can neither repeat
   * its effect nor touch a redelivered copy. Each delivery in flight is vouched for by one unsettled token of
   * its own queue, and no two deliveries share a token.
   */
  lemma TokensSettleOnce(s: State, threads: nat, capacity: nat, maxCount: nat, maxWeight: Option<nat>,
                         steps: seq<(nat, Step)>, more: seq<(nat, Step)>, h: nat)
    requires Reaches(s, threads, capacity, maxCount, maxWeight, steps)
    requires h < |s.core.tokens| && s.core.tokens[h].disposition.Some?
    ensures var c := Run(s, more).core;
            && h < |c.tokens| && c.tokens[h] == s.core.tokens[h] && |c.queues| == |c.ledgers|
            && (forall i, d | 0 <= i < |c.queues| :: Settle(c, i, h, d) == c)
            && (forall i, t | 0 <= i < |c.queues| && t in c.queues[i].inFlight :: c.queues[i].inFlight[t].settlement != h)
            && TokensOk(c)
  {
    hide Inv, Run;
    ReachesInv(s, threads, capacity, maxCount, maxWeight, steps);
    RunOk(s, more);
    RunLater(s, more);
    var c := Run(s, more).core;
    InvCore(Run(s, more));
    assert TokenKeeps(s.core.tokens[h], c.tokens[h]);
    SpentToken(c, h);
  }


  /** Successive publishes to a topic whose subscribers stay the same start at successive subscribers. */
  lemma PublishesTakeTurns(bus: Bus, topic: string)
    requires topic in bus.topics && bus.topics[topic].queues != map[]
    ensures var m := bus.topics[topic].queues; var sorted := Increasing(m.Keys);
            var i := StartAfter(sorted, bus.topics[topic].lastStart); var next := if i + 1 < |sorted| then i + 1 else 0;
            && i < |sorted| && next < |sorted| && sorted[i] in m && sorted[next] in m
            && |Snapshot(bus, topic)| == |m| == |Snapshot(Rotated(bus, topic), topic)|
            && Snapshot(bus, topic)[0] == m[sorted[i]]
            && Snapshot(Rotated(bus, topic), topic)[0] == m[sorted[next]]
  {
    var m := bus.topics[topic].queues;
    assert m.Keys != {};
    IncreasingElements(m.Keys);
    NextStart(m.Keys, bus.topics[topic].lastStart);
    assert forall x :: x in Increasing(m.Keys) <==> x in m.Keys;
  }

  /**
   * The receipt counts exactly the queues that admitted a copy; at least one accepted destination is reported exactly
   * when there is one; the strictest requirement passes exactly when every queue of a nonempty snapshot admitted one.
   */
  lemma ReceiptCountsCopies(s: State, threads: nat, capacity: nat, maxCount: nat, maxWeight: Option<nat>,
                            steps: seq<(nat, Step)>, t: nat)
    requires Reaches(s, threads, capacity, maxCount, maxWeight, steps) && t < |s.threads| && s.threads[t].Published?
    ensures var pc := s.threads[t]; var ack := Receipts.DestinationAdmissions(ToDestinations(pc.report));
            && Receipts.Count(ack.destinations, Receipts.Accepted) == |Holders(s.core, pc.event)|
            && (Receipts.CheckAdmission(ack, Receipts.AtLeastOneAccepted).Passed? <==> Holders(s.core, pc.event) != {})
            && (Receipts.CheckAdmission(ack, Receipts.AtLeastOneAcceptedAndNoRejected).Passed? <==>
                  pc.snapshot != [] && forall j | 0 <= j < |pc.snapshot| :: pc.snapshot[j] in Holders(s.core, pc.event))
  {
    hide Run, BusOk, PublicationsOk, ShutdownOk, WakesOk, CoreOk, SortById, Holders, ReportOk;
    ReachesInv(s, threads, capacity, maxCount, maxWeight, steps);
    var pc := s.threads[t];
    assert PcOk(s.core, s.bus, s.publications, pc);
    ReceiptOf(s.core, pc.event, pc.snapshot, pc.done);
  }
}
