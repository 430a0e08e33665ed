/** What the asynchronous provider guarantees in every run, from creation on, for any number of tasks. */
module AsyncBusTheorems {
  import opened Prelude
  import opened Bags
  import opened OutstandingBudgets
  import opened Queues
  import opened Deliveries
  import opened Fanout
  import opened DeliveryTheorems
  import opened FanoutReceipts
  import Receipts
  import opened ReadyHeads
  import opened ReceiveTimers
  import opened AsyncSignals
  import opened AsyncBus
  import opened AsyncBusInvariant
  import opened AsyncBusSteps

  /** How a provider is created: tasks, queue capacity, the two limits and the last instant of the clock. */
  datatype Setup = Setup(actors: nat, capacity: nat, maxCount: nat, maxWeight: Option<nat>, limit: nat)

  ghost predicate Reaches(s: State, setup: Setup, steps: seq<(nat, Step)>) {
    && ValidLimits(setup.maxCount, setup.maxWeight)
    && s == Run(Init(setup.actors, setup.capacity, setup.maxCount, setup.maxWeight, setup.limit), steps)
  }

  lemma ReachesInv(s: State, setup: Setup, steps: seq<(nat, Step)>)
    requires Reaches(s, setup, steps)
    ensures Inv(s)
  {
    hide Inv, Run, Init;
    InitOk(setup.actors, setup.capacity, setup.maxCount, setup.maxWeight, setup.limit);
    RunOk(Init(setup.actors, setup.capacity, setup.maxCount, setup.maxWeight, setup.limit), steps);
  }

  // ----- what no step can undo -----

  predicate Later(s: State, s': State) {
    && Follows(s.core, s'.core)
    && s'.core.budget.maxCount == s.core.budget.maxCount && s'.core.budget.maxWeight == s.core.budget.maxWeight
    && (s.bus.closed ==> s'.bus.closed && |s'.core.queues| == |s.core.queues|)
    && (s.bus.outcome.Some? ==> s'.bus.outcome == s.bus.outcome)
  }

  lemma InvLedgers(s: State)
    requires Inv(s)
    ensures |s.core.queues| == |s.core.ledgers|
  {
  }

  lemma InvCore(s: State)
    requires Inv(s)
    ensures CoreOk(s.core)
  {
  }

  lemma RecordsOnce(s: State, t: nat)
    requires Inv(s) && t < |s.actors| && InSweep(s.actors[t].pc)
    ensures s.bus.outcome.None?
  {
  }

  lemma PopLater(s: State, i: nat, k: Key)
    requires i < |s.core.queues| == |s.core.ledgers| && HeadReady(s.core.queues[i], k, s.clock)
    ensures var c := Receive(s.core, i, k); Follows(s.core, c) && c.budget == s.core.budget && |c.queues| == |s.core.queues|
  {
  }

  predicate MovesDeliveries(a: Step) {
    a.Subscribe? || a.AdmitNext? || a.ReceiveNow? || a.InspectQueue? || a.SettleToken? || a.CloseMailbox? || a.SweepMailbox?
  }

  predicate MovesBus(a: Step) {
    a.BeginPublish? || a.CloseAdmission? || a.LockSweep? || a.EndSweep?
  }

  /** The steps of tasks and notifiers that leave deliveries and registry alone. */
  lemma TaskSteps(s: State, t: nat, a: Step)
    requires t < |s.actors| && !MovesDeliveries(a) && !MovesBus(a)
    ensures Next(s, t, a).core == s.core && Next(s, t, a).bus == s.bus && Next(s, t, a).capacity == s.capacity
  {
    hide SortById, WakeAll, Retired;
  }

  lemma BusSteps(s: State, t: nat, a: Step)
    requires Inv(s) && t < |s.actors| && MovesBus(a)
    ensures var s' := Next(s, t, a);
            && s'.core == s.core && s'.capacity == s.capacity && (s.bus.closed ==> s'.bus.closed)
            && (s.bus.outcome.Some? ==> s'.bus.outcome == s.bus.outcome)
  {
    hide Inv, Snapshot, Order;
    if a.EndSweep? && InSweep(s.actors[t].pc) {
      RecordsOnce(s, t);
    }
  }

  /** The steps that leave the deliveries alone. */
  lemma QuietLater(s: State, t: nat, a: Step)
    requires Inv(s) && t < |s.actors| && |s.core.queues| == |s.core.ledgers| && !MovesDeliveries(a)
    ensures Later(s, Next(s, t, a)) && Next(s, t, a).core == s.core && Next(s, t, a).capacity == s.capacity
  {
    hide Inv, Follows, Next;
    FollowsSelf(s.core);
    if MovesBus(a) {
      BusSteps(s, t, a);
    } else {
      TaskSteps(s, t, a);
    }
  }

  lemma SubscribeLater(s: State, t: nat, id: nat, topic: string, payloadType: nat)
    requires t < |s.actors| && |s.core.queues| == |s.core.ledgers|
    ensures Later(s, DoSubscribe(s, t, id, topic, payloadType))
  {
    hide Evolves, Follows, AddQueue;
    FollowsSelf(s.core);
    AddEvolves(s.core, id, topic, payloadType, s.capacity);
    EvolvesFollows(s.core, AddQueue(s.core, id, topic, payloadType, s.capacity), None);
    AddKeepsLimits(s.core, id, topic, payloadType, s.capacity);
  }

  lemma AdmitLater(s: State, t: nat)
    requires t < |s.actors| && |s.core.queues| == |s.core.ledgers|
    ensures Later(s, DoAdmitNext(s, t))
  {
    hide Evolves, Follows, Admit, AdmissionRefusal;
    FollowsSelf(s.core);
    if DoAdmitNext(s, t) != s {
      var pc := s.actors[t].pc;
      var i := pc.snapshot[|pc.done|];
      AdmitEvolves(s.core, i, pc.event);
      EvolvesFollows(s.core, Admit(s.core, i, pc.event), Some(pc.event));
      SameLimits(s.core, i);
      AdmitChanges(s.core, i, pc.event);
    }
  }

  lemma ReceiveLater(s: State, t: nat, i: nat, k: Key)
    requires t < |s.actors| && |s.core.queues| == |s.core.ledgers|
    ensures Later(s, DoReceiveNow(s, t, i, k)) && Later(s, DoInspect(s, t, k))
  {
    hide Follows, Receive, Arm, NextDelay, HasReady;
    FollowsSelf(s.core);
    if DoReceiveNow(s, t, i, k) != s {
      PopLater(s, i, k);
    }
    if DoInspect(s, t, k).core != s.core {
      PopLater(s, s.actors[t].pc.queue, k);
    }
  }

  lemma SettleLater(s: State, t: nat, i: nat, h: nat, d: Disposition)
    requires t < |s.actors| && |s.core.queues| == |s.core.ledgers|
    ensures Later(s, DoSettle(s, t, i, h, d))
  {
    hide Evolves, Follows, Settle;
    FollowsSelf(s.core);
    if DoSettle(s, t, i, h, d) != s {
      SettleEvolves(s.core, i, h, d);
      EvolvesFollows(s.core, Settle(s.core, i, h, d), None);
      SameLimits(s.core, i);
      SettleChanges(s.core, i, h, d);
    }
  }

  lemma DiscardLater(s: State, t: nat, i: nat)
    requires t < |s.actors| && |s.core.queues| == |s.core.ledgers|
    ensures Later(s, DoCloseMailbox(s, t, i)) && Later(s, DoSweep(s, t, i))
  {
    hide Follows, Close, Remove;
    FollowsSelf(s.core);
    if i < |s.core.queues| {
      CloseLater(s.core, i);
      RemoveClosed(s.bus, s.core.queues[i], i);
    }
  }

  lemma StepLater(s: State, t: nat, a: Step)
    requires Inv(s)
    ensures Later(s, Next(s, t, a))
  {
    hide Inv, Later, DoSubscribe, DoAdmitNext, DoReceiveNow, DoInspect, DoSettle, DoCloseMailbox, DoSweep;
    InvLedgers(s);
    if t >= |s.actors| {
      SameLater(s);
    } else {
      match a {
        case Subscribe(id, topic, payloadType) => SubscribeLater(s, t, id, topic, payloadType);
        case AdmitNext => AdmitLater(s, t);
        case ReceiveNow(i, k) => ReceiveLater(s, t, i, k);
        case InspectQueue(k) => ReceiveLater(s, t, 0, k);
        case SettleToken(i, h, d) => SettleLater(s, t, i, h, d);
        case CloseMailbox(i) => DiscardLater(s, t, i);
        case SweepMailbox(i) => DiscardLater(s, t, i);
        case _ => QuietLater(s, t, a);
      }
    }
  }

  lemma SameLater(s: State)
    requires |s.core.queues| == |s.core.ledgers|
    ensures Later(s, s)
  {
    FollowsSelf(s.core);
  }

  lemma {:induction false} RunLater(s: State, steps: seq<(nat, Step)>)
    requires Inv(s)
    ensures Later(s, Run(s, steps))
  {
    hide Inv, Next, Follows;
    if steps == [] {
      InvLedgers(s);
      FollowsSelf(s.core);
    } else {
      var before := steps[..|steps| - 1];
      RunLater(s, before);
      RunOk(s, before);
      StepLater(Run(s, before), steps[|steps| - 1].0, steps[|steps| - 1].1);
      FollowsTransitive(s.core, Run(s, before).core, Run(s, steps).core);
    }
  }

  // ----- deliveries and budget -----

  predicate Uniform(s: State) {
    forall i | 0 <= i < |s.core.queues| :: s.core.queues[i].capacity == s.capacity
  }

  lemma OnlySubscribeAdds(s: State, t: nat, a: Step)
    requires Inv(s) && |s.core.queues| == |s.core.ledgers|
    ensures var s' := Next(s, t, a);
            && s'.capacity == s.capacity
            && (|s'.core.queues| <= |s.core.queues|
                || (|s'.core.queues| == |s.core.queues| + 1 && s'.core.queues[|s.core.queues|].capacity == s.capacity))
  {
    hide Inv, Admit, Receive, Settle, Close, Arm, NextDelay, HasReady, Remove;
    if t < |s.actors| && !MovesDeliveries(a) {
      QuietLater(s, t, a);
    } else if t < |s.actors| && !a.Subscribe? {
      DeliveryStepsKeepLength(s, t, a);
    }
  }

  lemma DeliveryStepsKeepLength(s: State, t: nat, a: Step)
    requires |s.core.queues| == |s.core.ledgers| && t < |s.actors| && MovesDeliveries(a) && !a.Subscribe?
    ensures |Next(s, t, a).core.queues| == |s.core.queues| && Next(s, t, a).capacity == s.capacity
  {
    hide Size, Outstanding, Weight, AdmissionRefusal, Arm, NextDelay, HasReady, Remove;
  }

  lemma {:induction false} RunUniform(s: State, steps: seq<(nat, Step)>)
    requires Inv(s) && Uniform(s)
    ensures Uniform(Run(s, steps)) && Run(s, steps).capacity == s.capacity
  {
    hide Inv, Next;
    if steps != [] {
      var r := Run(s, steps[..|steps| - 1]);
      var (t, a) := steps[|steps| - 1];
      RunUniform(s, steps[..|steps| - 1]);
      RunOk(s, steps[..|steps| - 1]);
      InvLedgers(r);
      StepLater(r, t, a);
      OnlySubscribeAdds(r, t, a);
      var r' := Next(r, t, a);
      forall i | 0 <= i < |r'.core.queues| ensures r'.core.queues[i].capacity == r'.capacity {
        assert i < |r.core.queues| ==> SameQueue(r.core.queues[i], r'.core.queues[i]);
      }
    }
  }

  /** The budget agrees with all queues, respects its limits, and no assertion or sum of the source ever fails. */
  lemma BudgetConserved(s: State, setup: Setup, steps: seq<(nat, Step)>)
    requires Reaches(s, setup, steps)
    ensures s.core.budget.count == TotalSize(s.core.queues) <= setup.maxCount
    ensures s.core.budget.weight == TotalWeight(s.core.queues)
    ensures setup.maxWeight.Some? ==> TotalWeight(s.core.queues) <= setup.maxWeight.value
    ensures forall i | 0 <= i < |s.core.queues| :: |Outstanding(s.core.queues[i])| <= setup.capacity
    ensures !s.core.panicked
  {
    hide Inv, Run, TotalSize, TotalWeight, Outstanding, Size;
    ReachesInv(s, setup, steps);
    var s0 := Init(setup.actors, setup.capacity, setup.maxCount, setup.maxWeight, setup.limit);
    assert Later(s0, s) by {
      InitOk(setup.actors, setup.capacity, setup.maxCount, setup.maxWeight, setup.limit);
      RunLater(s0, steps);
    }
    assert Uniform(s) && s.capacity == setup.capacity by {
      InitOk(setup.actors, setup.capacity, setup.maxCount, setup.maxWeight, setup.limit);
      RunUniform(s0, steps);
    }
    InvCore(s);
    forall i | 0 <= i < |s.core.queues| ensures |Outstanding(s.core.queues[i])| <= setup.capacity {
      assert QueueOk(s.core.queues[i]);
      SizeIsOutstanding(s.core.queues[i]);
    }
  }

  /** Every copy ever admitted has one fate, keeps it, and carries the type its subscription declared. */
  lemma ExactlyOneFate(s: State, setup: Setup, steps: seq<(nat, Step)>, more: seq<(nat, Step)>, i: nat, e: LocalEvent)
    requires Reaches(s, setup, steps) && i < |s.core.queues| && i < |s.core.ledgers|
    ensures s.core.ledgers[i].admitted[e] <= 1
    ensures s.core.ledgers[i].admitted[e] == Outstanding(s.core.queues[i])[e] + s.core.ledgers[i].accepted[e]
                                             + s.core.ledgers[i].rejected[e] + s.core.ledgers[i].discarded[e]
    ensures e in s.core.ledgers[i].admitted ==> e.payloadType == s.core.queues[i].declaredType
    ensures var c := Run(s, more).core;
            i < |c.queues| == |c.ledgers| && LedgerFollows(s.core.ledgers[i], c.ledgers[i])
  {
    hide Inv, Run, Outstanding;
    ReachesInv(s, setup, steps);
    InvCore(s);
    OneFate(s.core, i, e);
    assert Balanced(s.core.queues[i], s.core.ledgers[i], RequiresWeight(s.core.budget));
    RunLater(s, more);
    assert LedgerFollows(s.core.ledgers[i], Run(s, more).core.ledgers[i]);
  }

  /** After the outcome is recorded, every queue is closed and empty and both counters are zero, for ever. */
  lemma ShutdownIsFinal(s: State, setup: Setup, steps: seq<(nat, Step)>, more: seq<(nat, Step)>)
    requires Reaches(s, setup, steps) && s.bus.outcome.Some?
    ensures var r := Run(s, more);
            && r.bus.outcome == s.bus.outcome && |r.core.queues| == |s.core.queues|
            && r.core.budget.count == 0 && r.core.budget.weight == 0
            && forall i | 0 <= i < |r.core.queues| ::
                 r.core.queues[i].closed && r.core.queues[i].lanes == map[] && r.core.queues[i].inFlight == map[]
  {
    hide Run, CoreOk, BusOk, PcsOk, PublicationsOk, ApartOk, SignalsOk, WakesOk, Follows;
    ReachesInv(s, setup, steps);
    RunOk(s, more);
    RunLater(s, more);
    ClosedIsEmpty(Run(s, more).core);
  }

  /** A settled token is spent in every later state. */
  lemma TokensSettleOnce(s: State, setup: Setup, steps: seq<(nat, Step)>, more: seq<(nat, Step)>, h: nat)
    requires Reaches(s, setup, steps) && h < |s.core.tokens| && s.core.tokens[h].disposition.Some?
    ensures var c := Run(s, more).core;
            && h < |c.tokens| && c.tokens[h] == s.core.tokens[h] && |c.queues| == |c.ledgers|
            && (forall i, d | 0 <= i < |c.queues| :: Settle(c, i, h, d) == c)
            && (forall i, t | 0 <= i < |c.queues| && t in c.queues[i].inFlight :: c.queues[i].inFlight[t].settlement != h)
            && TokensOk(c)
  {
    hide Inv, Run;
    ReachesInv(s, setup, steps);
    RunOk(s, more);
    RunLater(s, more);
    var c := Run(s, more).core;
    InvCore(Run(s, more));
    assert TokenKeeps(s.core.tokens[h], c.tokens[h]);
    SpentToken(c, h);
  }

  /** The report names each queue of the snapshot once, sorted by id, accepted exactly where a copy was admitted. */
  lemma ReportIsTrue(s: State, setup: Setup, steps: seq<(nat, Step)>, t: nat)
    requires Reaches(s, setup, steps) && t < |s.actors| && s.actors[t].pc.Published?
    ensures var pc := s.actors[t].pc;
            && SortedById(pc.report) && multiset(pc.report) == multiset(pc.done) && |pc.done| == |pc.snapshot|
            && (forall j | 0 <= j < |pc.snapshot| ::
                  && pc.snapshot[j] < |s.core.queues| == |s.core.ledgers|
                  && pc.done[j].id == s.core.queues[pc.snapshot[j]].id
                  && s.core.ledgers[pc.snapshot[j]].admitted[pc.event] == if pc.done[j].rejection.None? then 1 else 0)
            && (forall i | 0 <= i < |s.core.ledgers| && i !in pc.snapshot :: pc.event !in s.core.ledgers[i].admitted)
  {
    hide Run, BusOk, LockOk, PublicationsOk, ApartOk, SignalsOk, WakesOk, CoreOk, SortById;
    ReachesInv(s, setup, steps);
    var pc := s.actors[t].pc;
    assert PcOk(s, pc);
    ReportEntries(s.core, pc.event, pc.snapshot, pc.done);
    SortIs(pc.done);
  }

  /**
   * The receipt counts exactly the queues that admitted a copy; at least one accepted destination is reported exactly
   * when there is one; the strictest requirement passes exactly when every queue of a nonempty snapshot admitted one.
   */
  lemma ReceiptCountsCopies(s: State, setup: Setup, steps: seq<(nat, Step)>, t: nat)
    requires Reaches(s, setup, steps) && t < |s.actors| && s.actors[t].pc.Published?
    ensures var pc := s.actors[t].pc; var ack := Receipts.DestinationAdmissions(ToDestinations(pc.report));
            && Receipts.Count(ack.destinations, Receipts.Accepted) == |Holders(s.core, pc.event)|
            && (Receipts.CheckAdmission(ack, Receipts.AtLeastOneAccepted).Passed? <==> Holders(s.core, pc.event) != {})
            && (Receipts.CheckAdmission(ack, Receipts.AtLeastOneAcceptedAndNoRejected).Passed? <==>
                  pc.snapshot != [] && forall j | 0 <= j < |pc.snapshot| :: pc.snapshot[j] in Holders(s.core, pc.event))
  {
    hide Run, BusOk, PublicationsOk, LockOk, ApartOk, SignalsOk, WakesOk, CoreOk, SortById, Holders, ReportOk;
    ReachesInv(s, setup, steps);
    var pc := s.actors[t].pc;
    assert PcOk(s, pc);
    ReceiptOf(s.core, pc.event, pc.snapshot, pc.done);
  }

  /** The rejection counters are the saturated counts of all refusals of the run. */
  lemma RefusalsCounted(s: State, setup: Setup, steps: seq<(nat, Step)>, kind: RejectionKind)
    requires Reaches(s, setup, steps)
    ensures var n := Occurrences(s.core.refusals, kind);
            s.core.budget.rejected.Of(kind) == if n <= U64_MAX then n else U64_MAX
  {
    hide Inv, Run, QueuesOk, TokensOk;
    ReachesInv(s, setup, steps);
    InvCore(s);
  }

  // ----- wake-ups -----

  /**
   * A sleeping receive whose queue is closed, or holds a delivery that is ready by now, has been woken, or some
   * actor will still call its waker, or its waker is registered and some actor still owes the queue a
   * notification, or its timer has come due.
   */
  lemma ReceiveIsNotForgotten(s: State, setup: Setup, steps: seq<(nat, Step)>, t: nat)
    requires Reaches(s, setup, steps) && t < |s.actors| && s.actors[t].pc.Receiving? && s.actors[t].pc.stage.Sleeping?
    ensures var pc := s.actors[t].pc; pc.queue < |s.core.queues| == |s.ready|
    ensures var pc := s.actors[t].pc; var q := s.core.queues[pc.queue];
            q.closed || HasReady(q, s.clock) ==>
              || pc.task.woken
              || SomeWakes(s.actors, pc.task.waker)
              || (IsRegistered(s.ready[pc.queue], pc.task.waiter, pc.task.waker) && SomeOwesReady(s.actors, pc.queue))
              || (pc.task.timer.armed.Some? && pc.task.timer.armed.value <= s.clock)
  {
    hide Run, CoreOk, BusOk, LockOk, PublicationsOk, ApartOk, SomeWakes, SomeOwesReady, SomeOwesChanged;
    ReachesInv(s, setup, steps);
    var pc := s.actors[t].pc;
    assert WakeOk(s, pc);
    var q := s.core.queues[pc.queue];
    if HasReady(q, s.clock) && HeadsCovered(q, pc.task.timer) {
      var k :| k in q.lanes && HeadReady(q, k, s.clock);
      assert HeadCovered(q.lanes[k][0], pc.task.timer);
    }
  }

  /** A receive with a finite timeout that sleeps has been woken or has a timer armed no later than its deadline. */
  lemma ReceiveTimesOut(s: State, setup: Setup, steps: seq<(nat, Step)>, t: nat)
    requires Reaches(s, setup, steps) && t < |s.actors| && s.actors[t].pc.Receiving? && s.actors[t].pc.stage.Sleeping?
    requires s.actors[t].pc.task.deadline.Some?
    ensures var task := s.actors[t].pc.task;
            task.woken || (task.timer.armed.Some? && task.timer.armed.value <= task.deadline.value)
  {
    hide Run, CoreOk, BusOk, LockOk, PublicationsOk, ApartOk, WakesOk;
    ReachesInv(s, setup, steps);
    assert PcOk(s, s.actors[t].pc);
  }

  /**
   * A sleeping graceful shutdown has been woken, or some actor will still call its waker, or it is registered
   * and the queue it found busy is still busy or some actor still owes a notification.
   */
  lemma ShutdownIsNotForgotten(s: State, setup: Setup, steps: seq<(nat, Step)>, t: nat)
    requires Reaches(s, setup, steps) && t < |s.actors| && s.actors[t].pc.Stopping? && s.actors[t].pc.phase.Dozing?
    ensures s.actors[t].pc.phase.busy < |s.core.queues|
    ensures var pc := s.actors[t].pc;
            || pc.stop.woken
            || SomeWakes(s.actors, pc.stop.waker)
            || (IsRegistered(s.changed, pc.stop.kept, pc.stop.waker) && (Busy(s.core, pc.phase.busy) || SomeOwesChanged(s.actors)))
  {
    hide Run, CoreOk, BusOk, LockOk, PublicationsOk, ApartOk, SomeWakes, SomeOwesReady, SomeOwesChanged;
    ReachesInv(s, setup, steps);
    assert WakeOk(s, s.actors[t].pc);
  }

  /**
   * A sleeping graceful shutdown with a finite timeout has its timer armed for exactly the end of the timeout, so from
   * then on firing the timer wakes it; the poll that follows ends the wait.
   */
  lemma ShutdownTimesOut(s: State, setup: Setup, steps: seq<(nat, Step)>, t: nat)
    requires Reaches(s, setup, steps) && t < |s.actors| && s.actors[t].pc.Stopping? && s.actors[t].pc.phase.Dozing?
    requires s.actors[t].pc.stop.deadline.Some?
    ensures s.actors[t].pc.stop.armed == s.actors[t].pc.stop.deadline
    ensures s.actors[t].pc.stop.deadline.value <= s.clock ==>
              var pc := Next(s, t, FireStopTimer).actors[t].pc; pc.Stopping? && pc.stop.woken
  {
    hide Run, CoreOk, BusOk, LockOk, PublicationsOk, ApartOk, WakesOk;
    ReachesInv(s, setup, steps);
    assert PcOk(s, s.actors[t].pc);
  }

  /** A shutdown gives up exactly when it decides, or finds its timer done, after the end of a finite timeout. */
  lemma GivesUpInTime(s: State, setup: Setup, steps: seq<(nat, Step)>, t: nat)
    requires Reaches(s, setup, steps) && t < |s.actors| && s.actors[t].pc.Stopping?
    ensures var Stopping(phase, stop) := s.actors[t].pc;
            && ((phase.Finishing? || phase.Sweeping?) && phase.outcome == TimedOut ==>
                  stop.deadline.Some? && stop.deadline.value <= s.clock)
            && (phase.Checked? && phase.seen.Some? ==>
                  (Next(s, t, Decide).actors[t].pc.phase == Finishing(TimedOut) <==>
                     stop.deadline.Some? && stop.deadline.value <= s.clock))
            && (phase.Arming? ==>
                  (Next(s, t, PollStopTimer).actors[t].pc.phase == Finishing(TimedOut) <==>
                     stop.deadline.Some? && stop.deadline.value <= s.clock))
  {
    hide Run, Next, CoreOk, BusOk, LockOk, PublicationsOk, ApartOk, WakesOk;
    ReachesInv(s, setup, steps);
    assert PcOk(s, s.actors[t].pc);
    NextStop(s, t);
  }

  lemma NextStop(s: State, t: nat)
    requires t < |s.actors|
    ensures Next(s, t, Decide) == DoDecide(s, t) && Next(s, t, PollStopTimer) == DoPollStopTimer(s, t)
  {
  }

  /** In particular: with no notification and no wake call under way, a sleeper has nothing to wake up for. */
  lemma QuietSleepersAreRight(s: State, setup: Setup, steps: seq<(nat, Step)>, t: nat)
    requires Reaches(s, setup, steps) && t < |s.actors|
    requires forall u | 0 <= u < |s.actors| :: Quiet(s.actors[u]) && !InSweep(s.actors[u].pc)
    ensures var pc := s.actors[t].pc;
            pc.Receiving? && pc.stage.Sleeping? && !pc.task.woken
            && (pc.task.timer.armed.Some? ==> s.clock < pc.task.timer.armed.value) ==>
              pc.queue < |s.core.queues| && !s.core.queues[pc.queue].closed && !HasReady(s.core.queues[pc.queue], s.clock)
    ensures var pc := s.actors[t].pc;
            pc.Stopping? && pc.phase.Dozing? && !pc.stop.woken ==> pc.phase.busy < |s.core.queues| && Busy(s.core, pc.phase.busy)
  {
    hide Reaches, HasReady;
    var pc := s.actors[t].pc;
    assert forall w :: !SomeWakes(s.actors, w);
    assert forall i :: !SomeOwesReady(s.actors, i);
    assert !SomeOwesChanged(s.actors);
    if pc.Receiving? && pc.stage.Sleeping? {
      ReceiveIsNotForgotten(s, setup, steps, t);
    }
    if pc.Stopping? && pc.phase.Dozing? {
      ShutdownIsNotForgotten(s, setup, steps, t);
    }
  }
}
