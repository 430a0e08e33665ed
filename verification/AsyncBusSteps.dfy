/** Every step of every actor keeps the invariant of the asynchronous provider. */
module AsyncBusSteps {
  import opened Prelude
  import opened Routing
  import opened OutstandingBudgets
  import opened Queues
  import opened Deliveries
  import opened Fanout
  import opened ReadyHeads
  import opened ReceiveTimers
  import opened AsyncSignals
  import opened AsyncBus
  import opened AsyncBusInvariant

  // ----- one actor moves -----

  predicate OnlyActs(s: State, s': State, t: nat) {
    && t < |s.actors| == |s'.actors|
    && (forall u | 0 <= u < |s.actors| && u != t :: s'.actors[u] == s.actors[u])
  }

  predicate SignalGrows(a: Signal, b: Signal) {
    a.nextId <= b.nextId
  }

  /** Nothing another actor relies on is taken back; the only copy admitted, if any, is `e`. */
  predicate Grows(s: State, s': State, e: Option<LocalEvent>) {
    && Evolves(s.core, s'.core, e) && s.publications <= s'.publications && s'.limit == s.limit && s.clock <= s'.clock
    && (s.bus.closed ==> s'.bus.closed) && SignalGrows(s.changed, s'.changed)
    && |s.ready| <= |s'.ready| && (forall i | 0 <= i < |s.ready| :: SignalGrows(s.ready[i], s'.ready[i]))
  }

  lemma PcStable(s: State, s': State, e: Option<LocalEvent>, pc: Pc)
    requires PcOk(s, pc) && Grows(s, s', e)
    requires e.Some? && PublicationOf(pc).Some? ==> e.value.publication != PublicationOf(pc).value
    ensures PcOk(s', pc)
  {
    hide ReportOk, LedgerGrows, SortById;
    match pc {
      case Publishing(f, snapshot, done) => ReportStable(s.core, s'.core, e, f, snapshot, done);
      case Published(f, snapshot, done, _) => ReportStable(s.core, s'.core, e, f, snapshot, done);
      case Receiving(i, _, _) => assert i < |s.ready| ==> SignalGrows(s.ready[i], s'.ready[i]);
      case _ =>
    }
  }

  lemma KeepPcs(s: State, s': State, t: nat, e: Option<LocalEvent>)
    requires PcsOk(s) && PublicationsOk(s) && OnlyActs(s, s', t) && Grows(s, s', e)
    requires e.Some? ==> PublicationOf(s.actors[t].pc) == Some(e.value.publication)
    requires PcOk(s', s'.actors[t].pc)
    ensures PcsOk(s')
  {
    hide PcOk, Grows;
    forall u | 0 <= u < |s'.actors| ensures PcOk(s', s'.actors[u].pc) {
      if u != t {
        assert t < u ==> PublicationOf(s.actors[t].pc) != PublicationOf(s.actors[u].pc) || PublicationOf(s.actors[t].pc).None?;
        PcStable(s, s', e, s.actors[u].pc);
      }
    }
  }

  lemma KeepPublications(s: State, s': State, t: nat, e: Option<LocalEvent>)
    requires PublicationsOk(s) && PcsOk(s) && OnlyActs(s, s', t) && Grows(s, s', e)
    requires e.Some? ==> e.value.publication < s'.publications
    requires var p := PublicationOf(s'.actors[t].pc);
             p.None? || p == PublicationOf(s.actors[t].pc) || (p == Some(s.publications) && s.publications < s'.publications)
    ensures PublicationsOk(s')
  {
    hide ReportOk, SortById;
    forall u | 0 <= u < |s.actors|
      ensures PublicationOf(s.actors[u].pc).Some? ==> PublicationOf(s.actors[u].pc).value < s.publications
    {
      assert PcOk(s, s.actors[u].pc);
    }
    forall i, d | 0 <= i < |s'.core.ledgers| && d in s'.core.ledgers[i].admitted ensures d.publication < s'.publications {
      assert i < |s.core.ledgers| ==> LedgerGrows(s.core.ledgers[i], s'.core.ledgers[i], e);
    }
  }

  lemma KeepApart(s: State, s': State, t: nat)
    requires ApartOk(s) && PcsOk(s) && OnlyActs(s, s', t)
    requires var pc, pc' := s.actors[t].pc, s'.actors[t].pc;
             pc'.Receiving? ==> (pc.Receiving? && pc.queue == pc'.queue) || !ReceiverActive(s, pc'.queue)
    requires forall id: nat | Registers(s'.actors[t].pc, id) :: Registers(s.actors[t].pc, id) || s.changed.nextId <= id
    ensures ApartOk(s')
  {
    var pc, pc' := s.actors[t].pc, s'.actors[t].pc;
    forall u | 0 <= u < |s.actors| && u != t
      ensures !SharesQueue(pc', s.actors[u].pc) && !SharesId(pc', s.actors[u].pc) && !SharesId(s.actors[u].pc, pc')
    {
      assert !SharesQueue(pc, s.actors[u].pc) && !SharesId(pc, s.actors[u].pc) && !SharesId(s.actors[u].pc, pc);
      OldIds(s, u);
    }
  }

  lemma OldIds(s: State, u: nat)
    requires PcsOk(s) && u < |s.actors|
    ensures forall id: nat | Registers(s.actors[u].pc, id) :: id < s.changed.nextId
  {
  }

  // ----- what the others rely on to be woken -----

  /** Every waker registered on queue `i` is still registered, or the mover will wake it, or it is the mover's own. */
  ghost predicate ReadyKept(s: State, s': State, t: nat, i: nat)
    requires t < |s.actors| && t < |s'.actors| && i < |s.ready| && i < |s'.ready|
  {
    forall id | id in s.ready[i].waiters ::
      || (id in s'.ready[i].waiters && s'.ready[i].waiters[id] == s.ready[i].waiters[id])
      || Wakes(s'.actors[t], s.ready[i].waiters[id])
      || (s.actors[t].pc.Receiving? && s.actors[t].pc.queue == i)
  }

  ghost predicate ChangedKept(s: State, s': State, t: nat)
    requires t < |s.actors| && t < |s'.actors|
  {
    forall id | id in s.changed.waiters ::
      || (id in s'.changed.waiters && s'.changed.waiters[id] == s.changed.waiters[id])
      || Wakes(s'.actors[t], s.changed.waiters[id])
      || Registers(s.actors[t].pc, id)
  }

  ghost predicate AllWoken(signal: Signal, a: Actor) {
    forall id | id in signal.waiters :: Wakes(a, signal.waiters[id])
  }

  /** The contents of queue `i` are the same, or the mover owes it a notification, or nobody else is receiving. */
  predicate QueueKept(s: State, s': State, t: nat, i: nat)
    requires t < |s.actors| && t < |s'.actors| && i < |s.core.queues| && i < |s'.core.queues|
  {
    || (s'.core.queues[i].lanes == s.core.queues[i].lanes && s'.core.queues[i].closed == s.core.queues[i].closed)
    || OwesReady(s'.actors[t], i)
    || (s.actors[t].pc.Receiving? && s.actors[t].pc.queue == i)
    || !ReceiverActive(s, i)
  }

  ghost predicate Supports(s: State, s': State, t: nat) {
    && OnlyActs(s, s', t)
    && |s.core.queues| == |s.ready| <= |s'.core.queues| == |s'.ready|
    && (forall w | Wakes(s.actors[t], w) :: Wakes(s'.actors[t], w))
    && (forall i | 0 <= i < |s.ready| :: ReadyKept(s, s', t, i) && QueueKept(s, s', t, i))
    && (forall i | 0 <= i < |s.ready| && OwesReady(s.actors[t], i) :: OwesReady(s'.actors[t], i) || AllWoken(s.ready[i], s'.actors[t]))
    && ChangedKept(s, s', t)
    && (forall i | 0 <= i < |s.ready| && Busy(s.core, i) :: Busy(s'.core, i) || OwesChanged(s'.actors[t]))
    && (OwesChanged(s.actors[t]) ==> OwesChanged(s'.actors[t]) || AllWoken(s.changed, s'.actors[t]))
  }

  lemma SomeKept(s: State, s': State, t: nat)
    requires Supports(s, s', t)
    ensures forall w | SomeWakes(s.actors, w) :: SomeWakes(s'.actors, w)
    ensures forall w | Wakes(s'.actors[t], w) :: SomeWakes(s'.actors, w)
    ensures forall i | OwesReady(s'.actors[t], i) :: SomeOwesReady(s'.actors, i)
    ensures OwesChanged(s'.actors[t]) ==> SomeOwesChanged(s'.actors)
    ensures forall i | 0 <= i < |s.ready| && SomeOwesReady(s.actors, i) ::
              SomeOwesReady(s'.actors, i) || AllWoken(s.ready[i], s'.actors[t])
    ensures SomeOwesChanged(s.actors) ==> SomeOwesChanged(s'.actors) || AllWoken(s.changed, s'.actors[t])
  {
  }

  lemma ReceiverKept(s: State, s': State, t: nat, u: nat)
    requires Supports(s, s', t) && u < |s.actors| && u != t && s.actors[u].pc.Receiving?
    requires WakeOk(s, s.actors[u].pc) && !SharesQueue(s.actors[t].pc, s.actors[u].pc)
    ensures WakeOk(s', s.actors[u].pc)
  {
    hide SomeWakes, SomeOwesReady, SomeOwesChanged, Wakes, OwesReady, OwesChanged, Busy, ChangedKept, HeadCovered;
    var i := s.actors[u].pc.queue;
    SomeKept(s, s', t);
    assert ReadyKept(s, s', t, i) && QueueKept(s, s', t, i);
  }

  lemma StopperKept(s: State, s': State, t: nat, u: nat)
    requires Supports(s, s', t) && u < |s.actors| && u != t && s.actors[u].pc.Stopping?
    requires WakeOk(s, s.actors[u].pc) && !SharesId(s.actors[u].pc, s.actors[t].pc)
    ensures WakeOk(s', s.actors[u].pc)
  {
  }

  lemma KeepWakes(s: State, s': State, t: nat)
    requires WakesOk(s) && ApartOk(s) && Supports(s, s', t) && WakeOk(s', s'.actors[t].pc)
    ensures WakesOk(s')
  {
    hide WakeOk, SharesQueue, SharesId, ReadyKept, QueueKept, ChangedKept, Wakes, OwesReady, OwesChanged, Busy, AllWoken;
    forall u | 0 <= u < |s'.actors| ensures WakeOk(s', s'.actors[u].pc) {
      if u != t {
        var pc := s.actors[u].pc;
        assert WakeOk(s, pc);
        if pc.Receiving? {
          ReceiverKept(s, s', t, u);
        } else if pc.Stopping? {
          StopperKept(s, s', t, u);
        } else {
          Plain(s', pc);
        }
      }
    }
  }

  lemma Plain(s: State, pc: Pc)
    requires !pc.Receiving? && !pc.Stopping?
    ensures WakeOk(s, pc)
  {
  }

  // ----- steps that move one program counter -----

  predicate SameDebts(a: Actor, b: Actor) {
    b.readies == a.readies && b.changed == a.changed && b.wakes == a.wakes
  }

  predicate InSweep(pc: Pc) {
    pc.Stopping? && pc.phase.Sweeping?
  }

  lemma LedgersMatch(s: State)
    requires CoreOk(s.core)
    ensures |s.core.queues| == |s.core.ledgers|
  {
  }

  lemma Unmoved(s: State, s': State)
    requires |s.core.queues| == |s.core.ledgers| && s'.core == s.core && s'.bus == s.bus && s'.ready == s.ready
    requires s'.changed == s.changed && s'.limit == s.limit && s'.publications == s.publications && s'.clock == s.clock
    ensures Grows(s, s', None)
  {
  }

  lemma SupportsMove(s: State, s': State, t: nat)
    requires SignalsOk(s) && OnlyActs(s, s', t) && s'.core == s.core && s'.ready == s.ready && s'.changed == s.changed
    requires SameDebts(s.actors[t], s'.actors[t]) && !InSweep(s.actors[t].pc)
    ensures Supports(s, s', t)
  {
  }

  lemma KeepSignals(s: State, s': State, t: nat)
    requires SignalsOk(s) && OnlyActs(s, s', t) && |s'.ready| == |s'.core.queues| >= |s.core.queues| && IdsOk(s'.changed)
    requires forall i | i in s'.actors[t].readies :: i < |s'.core.queues|
    requires s'.actors[t].pc.Stopping? ==> Quiet(s'.actors[t])
    ensures SignalsOk(s')
  {
  }

  lemma PcMove(s: State, s': State, t: nat)
    requires Inv(s) && OnlyActs(s, s', t) && s' == s.(busLock := s'.busLock, actors := s'.actors)
    requires SameDebts(s.actors[t], s'.actors[t]) && !InSweep(s.actors[t].pc) && !InSweep(s'.actors[t].pc)
    requires PcOk(s', s'.actors[t].pc) && WakeOk(s', s'.actors[t].pc)
    requires PublicationOf(s'.actors[t].pc).None? || PublicationOf(s'.actors[t].pc) == PublicationOf(s.actors[t].pc)
    requires s'.actors[t].pc.Stopping? ==> Quiet(s'.actors[t])
    requires var pc, pc' := s.actors[t].pc, s'.actors[t].pc;
             pc'.Receiving? ==> (pc.Receiving? && pc.queue == pc'.queue) || !ReceiverActive(s, pc'.queue)
    requires forall id: nat | Registers(s'.actors[t].pc, id) :: Registers(s.actors[t].pc, id)
    requires HoldsBus(s'.actors[t].pc) <==> s'.busLock == Some(t)
    requires s'.busLock == s.busLock || (s.busLock == None && s'.busLock == Some(t)) || (s.busLock == Some(t) && s'.busLock == None)
    ensures Inv(s')
  {
    hide CoreOk, PcOk, WakeOk, MailboxesOk, MembersOk, OpenOk, Supports, Grows;
    LedgersMatch(s);
    Unmoved(s, s');
    KeepPcs(s, s', t, None);
    KeepPublications(s, s', t, None);
    KeepApart(s, s', t);
    KeepSignals(s, s', t);
    SupportsMove(s, s', t);
    KeepWakes(s, s', t);
    assert Sweep(s') == Sweep(s);
  }

  lemma BeginReceiveOk(s: State, t: nat, i: nat, timeout: Option<nat>, waker: nat)
    requires Inv(s) && t < |s.actors|
    ensures Inv(DoBeginReceive(s, t, i, timeout, waker))
  {
    hide CoreOk, BusOk, PcsOk, PublicationsOk, WakesOk, ApartOk;
    var s' := DoBeginReceive(s, t, i, timeout, waker);
    if s' != s {
      PcMove(s, s', t);
    }
  }

  lemma PollAgainOk(s: State, t: nat, waker: nat)
    requires Inv(s) && t < |s.actors|
    ensures Inv(DoPollAgain(s, t, waker))
  {
    hide CoreOk, BusOk, PublicationsOk, WakesOk, ApartOk;
    var s' := DoPollAgain(s, t, waker);
    if s' != s {
      assert PcOk(s, s.actors[t].pc);
      PcMove(s, s', t);
    }
  }

  lemma PollTimerOk(s: State, t: nat)
    requires Inv(s) && t < |s.actors|
    ensures Inv(DoPollTimer(s, t)) && Inv(DoFireTimer(s, t))
  {
    hide CoreOk, BusOk, PublicationsOk, ApartOk, SomeWakes, SomeOwesReady, SomeOwesChanged, HeadsCovered;
    assert PcOk(s, s.actors[t].pc) && WakeOk(s, s.actors[t].pc);
    var s1 := DoPollTimer(s, t);
    if s1 != s {
      DebtsKept(s.actors, s1.actors, t);
      PcMove(s, s1, t);
    }
    var s2 := DoFireTimer(s, t);
    if s2 != s {
      DebtsKept(s.actors, s2.actors, t);
      PcMove(s, s2, t);
    }
  }

  lemma BeginShutdownOk(s: State, t: nat, graceful: bool, timeout: Option<nat>, waker: nat)
    requires Inv(s) && t < |s.actors|
    ensures Inv(DoBeginShutdown(s, t, graceful, timeout, waker))
  {
    hide CoreOk, BusOk, PcsOk, PublicationsOk, WakesOk, ApartOk;
    var s' := DoBeginShutdown(s, t, graceful, timeout, waker);
    if s' != s {
      PcMove(s, s', t);
    }
  }

  lemma LockBusOk(s: State, t: nat)
    requires Inv(s) && t < |s.actors|
    ensures Inv(DoLockBus(s, t))
  {
    hide CoreOk, BusOk, PublicationsOk, ApartOk, SomeWakes, SomeOwesReady, SomeOwesChanged, Busy;
    assert PcOk(s, s.actors[t].pc) && WakeOk(s, s.actors[t].pc);
    var s' := DoLockBus(s, t);
    if s' != s {
      DebtsKept(s.actors, s'.actors, t);
      MailboxRange(s);
      PcMove(s, s', t);
    }
  }

  /** Looking into one mailbox under the registry lock; the drain check ends at the first busy one. */
  lemma CheckOk(s: State, t: nat, i: nat)
    requires Inv(s) && t < |s.actors|
    ensures Inv(DoCheckMailbox(s, t, i))
  {
    hide CoreOk, BusOk, PublicationsOk, ApartOk, SomeWakes, SomeOwesReady, SomeOwesChanged, Busy;
    assert PcOk(s, s.actors[t].pc) && WakeOk(s, s.actors[t].pc);
    var s' := DoCheckMailbox(s, t, i);
    if s' != s {
      DebtsKept(s.actors, s'.actors, t);
      PcMove(s, s', t);
    }
  }

  lemma EndCheckOk(s: State, t: nat)
    requires Inv(s) && t < |s.actors|
    ensures Inv(DoEndCheck(s, t))
  {
    hide CoreOk, BusOk, PublicationsOk, ApartOk, SomeWakes, SomeOwesReady, SomeOwesChanged, Busy;
    assert PcOk(s, s.actors[t].pc) && WakeOk(s, s.actors[t].pc);
    var s' := DoEndCheck(s, t);
    if s' != s {
      DebtsKept(s.actors, s'.actors, t);
      PcMove(s, s', t);
    }
  }

  lemma MailboxRange(s: State)
    requires BusOk(s)
    ensures forall i | i in s.bus.mailboxes.Values :: i < |s.core.queues|
  {
  }

  lemma TickOk(s: State)
    requires Inv(s)
    ensures Inv(s.(clock := s.clock + 1))
  {
    hide CoreOk, PcOk, WakeOk, BusOk, LockOk, PublicationsOk, ApartOk, SignalsOk;
    var s' := s.(clock := s.clock + 1);
    TickRest(s, s');
    forall t | 0 <= t < |s.actors| ensures PcOk(s', s'.actors[t].pc) && WakeOk(s', s'.actors[t].pc) {
      assert PcOk(s, s.actors[t].pc) && WakeOk(s, s.actors[t].pc);
      TickPc(s, s', s.actors[t].pc);
    }
  }

  lemma TickPc(s: State, s': State, pc: Pc)
    requires s' == s.(clock := s'.clock) && s.clock <= s'.clock && PcOk(s, pc) && WakeOk(s, pc)
    ensures PcOk(s', pc) && WakeOk(s', pc)
  {
  }

  lemma TickRest(s: State, s': State)
    requires s' == s.(clock := s'.clock)
    requires BusOk(s) && LockOk(s) && PublicationsOk(s) && ApartOk(s) && SignalsOk(s)
    ensures BusOk(s') && LockOk(s') && PublicationsOk(s') && ApartOk(s') && SignalsOk(s')
  {
  }

  // ----- notifications -----

  lemma EndPublishOk(s: State, t: nat)
    requires Inv(s) && t < |s.actors|
    ensures Inv(DoEndPublish(s, t))
  {
    hide CoreOk, MailboxesOk, MembersOk, OpenOk, ReportOk, SortById, Grows, Supports;
    var s' := DoEndPublish(s, t);
    if s' != s {
      assert PcOk(s, s.actors[t].pc);
      LedgersMatch(s);
      Unmoved(s, s');
      KeepPcs(s, s', t, None);
      KeepPublications(s, s', t, None);
      KeepApart(s, s', t);
      KeepSignals(s, s', t);
      SupportsMore(s, s', t);
      KeepWakes(s, s', t);
      assert Sweep(s') == Sweep(s);
    }
  }

  /** A quiet actor takes on debts. */
  lemma SupportsMore(s: State, s': State, t: nat)
    requires SignalsOk(s) && OnlyActs(s, s', t) && s'.core == s.core && s'.ready == s.ready && s'.changed == s.changed
    requires Quiet(s.actors[t]) && !InSweep(s.actors[t].pc)
    ensures Supports(s, s', t)
  {
  }

  lemma DrainReadyOk(s: State, t: nat, i: nat)
    requires Inv(s) && t < |s.actors|
    ensures Inv(DoDrainReady(s, t, i))
  {
    hide CoreOk, MailboxesOk, MembersOk, OpenOk, PcOk, WakeOk, Evolves, Supports, ApartOk;
    var s' := DoDrainReady(s, t, i);
    if s' != s {
      LedgersMatch(s);
      CoreUnmoved(s.core);
      assert PcOk(s, s.actors[t].pc);
      PcStable(s, s', None, s.actors[t].pc);
      KeepPcs(s, s', t, None);
      KeepPublications(s, s', t, None);
      KeepApart(s, s', t);
      KeepSignals(s, s', t);
      SupportsDrain(s, t, i);
      DrainOwn(s, s', t);
      KeepWakes(s, s', t);
      assert Sweep(s') == Sweep(s);
    }
  }

  lemma SupportsDrain(s: State, t: nat, i: nat)
    requires SignalsOk(s) && t < |s.actors| && i in s.actors[t].readies && s.actors[t].wakes == map[] && i < |s.ready|
    ensures Supports(s, DoDrainReady(s, t, i), t)
  {
  }

  /** The mover keeps being woken when its own program counter stays. */
  lemma DrainOwn(s: State, s': State, t: nat)
    requires Supports(s, s', t) && s'.actors[t].pc == s.actors[t].pc && WakeOk(s, s.actors[t].pc)
    requires s'.core == s.core
    requires forall j | 0 <= j < |s.ready| :: s'.ready[j] == s.ready[j] || (s'.ready[j].waiters == map[] && AllWoken(s.ready[j], s'.actors[t]))
    requires s'.changed == s.changed || (s'.changed.waiters == map[] && AllWoken(s.changed, s'.actors[t]))
    ensures WakeOk(s', s'.actors[t].pc)
  {
  }

  lemma DrainChangedOk(s: State, t: nat)
    requires Inv(s) && t < |s.actors|
    ensures Inv(DoDrainChanged(s, t))
  {
    hide CoreOk, MailboxesOk, MembersOk, OpenOk, PcOk, WakeOk, Evolves, Supports, ApartOk;
    var s' := DoDrainChanged(s, t);
    if s' != s {
      LedgersMatch(s);
      CoreUnmoved(s.core);
      assert PcOk(s, s.actors[t].pc);
      PcStable(s, s', None, s.actors[t].pc);
      KeepPcs(s, s', t, None);
      KeepPublications(s, s', t, None);
      KeepApart(s, s', t);
      KeepSignals(s, s', t);
      SupportsChanged(s, t);
      DrainOwn(s, s', t);
      KeepWakes(s, s', t);
      assert Sweep(s') == Sweep(s);
    }
  }

  lemma SupportsChanged(s: State, t: nat)
    requires SignalsOk(s) && t < |s.actors| && s.actors[t].changed && s.actors[t].readies == {} && s.actors[t].wakes == map[]
    ensures Supports(s, DoDrainChanged(s, t), t)
  {
  }

  // ----- waking -----

  /** The same program counter, its task woken if it was last polled with `w`. */
  predicate PcWoken(pc: Pc, pc': Pc, w: nat) {
    match pc
    case Receiving(i, stage, task) => pc' == Receiving(i, stage, task.(woken := task.woken || task.waker == w))
    case Stopping(phase, stop) => pc' == Stopping(phase, stop.(woken := stop.woken || stop.waker == w))
    case _ => pc' == pc
  }

  /** One waker was called: everybody polled with it is woken, and only the caller loses a debt, that call. */
  predicate CallsWaker(s: State, s': State, t: nat, id: nat) {
    && t < |s.actors| == |s'.actors| && id in s.actors[t].wakes
    && s' == s.(actors := s'.actors)
    && (forall u | 0 <= u < |s.actors| ::
          && PcWoken(s.actors[u].pc, s'.actors[u].pc, s.actors[t].wakes[id])
          && s'.actors[u].readies == s.actors[u].readies && s'.actors[u].changed == s.actors[u].changed
          && s'.actors[u].wakes == if u == t then s.actors[u].wakes - {id} else s.actors[u].wakes)
  }

  lemma WakeOneCalls(s: State, t: nat, id: nat)
    requires t < |s.actors| && id in s.actors[t].wakes
    ensures CallsWaker(s, DoWakeOne(s, t, id), t, id)
  {
  }

  lemma CallKeeps(s: State, s': State, t: nat, id: nat)
    requires CallsWaker(s, s', t, id)
    ensures forall w | SomeWakes(s.actors, w) && w != s.actors[t].wakes[id] :: SomeWakes(s'.actors, w)
    ensures forall i | SomeOwesReady(s.actors, i) :: SomeOwesReady(s'.actors, i)
    ensures SomeOwesChanged(s.actors) ==> SomeOwesChanged(s'.actors)
  {
    forall w | SomeWakes(s.actors, w) && w != s.actors[t].wakes[id] ensures SomeWakes(s'.actors, w) {
      var u :| 0 <= u < |s.actors| && Wakes(s.actors[u], w);
      var k :| k in s.actors[u].wakes && s.actors[u].wakes[k] == w;
      assert k in s'.actors[u].wakes && s'.actors[u].wakes[k] == w;
      assert Wakes(s'.actors[u], w);
    }
    forall i | SomeOwesReady(s.actors, i) ensures SomeOwesReady(s'.actors, i) {
      var u :| 0 <= u < |s.actors| && OwesReady(s.actors[u], i);
      assert OwesReady(s'.actors[u], i);
    }
    if SomeOwesChanged(s.actors) {
      var u :| 0 <= u < |s.actors| && OwesChanged(s.actors[u]);
      assert OwesChanged(s'.actors[u]);
    }
  }

  lemma CallPc(s: State, s': State, t: nat, id: nat, u: nat)
    requires CallsWaker(s, s', t, id) && u < |s.actors| && PcOk(s, s.actors[u].pc)
    ensures PcOk(s', s'.actors[u].pc)
  {
  }

  lemma CallWake(s: State, s': State, t: nat, id: nat, u: nat)
    requires CallsWaker(s, s', t, id) && u < |s.actors| && WakeOk(s, s.actors[u].pc)
    ensures WakeOk(s', s'.actors[u].pc)
  {
    hide SomeWakes, SomeOwesReady, SomeOwesChanged, HeadsCovered, Busy;
    assert PcWoken(s.actors[u].pc, s'.actors[u].pc, s.actors[t].wakes[id]);
    CallKeeps(s, s', t, id);
  }

  lemma CallRest(s: State, s': State, t: nat, id: nat)
    requires CallsWaker(s, s', t, id) && BusOk(s) && LockOk(s) && PublicationsOk(s) && ApartOk(s) && SignalsOk(s)
    ensures BusOk(s') && LockOk(s') && PublicationsOk(s') && ApartOk(s') && SignalsOk(s')
  {
    hide MailboxesOk, MembersOk, OpenOk;
    forall u | 0 <= u < |s.actors| ensures PcWoken(s.actors[u].pc, s'.actors[u].pc, s.actors[t].wakes[id]) {
    }
    assert Sweep(s') == Sweep(s);
    forall u, v | 0 <= u < |s.actors| && 0 <= v < |s.actors| && u != v
      ensures !SharesQueue(s'.actors[u].pc, s'.actors[v].pc) && !SharesId(s'.actors[u].pc, s'.actors[v].pc)
    {
      assert !SharesQueue(s.actors[u].pc, s.actors[v].pc) && !SharesId(s.actors[u].pc, s.actors[v].pc);
    }
    forall u | 0 <= u < |s.actors|
      ensures PublicationOf(s'.actors[u].pc) == PublicationOf(s.actors[u].pc) && HoldsBus(s'.actors[u].pc) == HoldsBus(s.actors[u].pc)
    {
    }
  }

  lemma WakeOneOk(s: State, t: nat, id: nat)
    requires Inv(s) && t < |s.actors|
    ensures Inv(DoWakeOne(s, t, id))
  {
    hide CoreOk, BusOk, LockOk, PublicationsOk, ApartOk, SignalsOk, PcOk, WakeOk, CallsWaker;
    if id in s.actors[t].wakes {
      var s' := DoWakeOne(s, t, id);
      WakeOneCalls(s, t, id);
      CallRest(s, s', t, id);
      forall u | 0 <= u < |s'.actors| ensures PcOk(s', s'.actors[u].pc) && WakeOk(s', s'.actors[u].pc) {
        CallPc(s, s', t, id, u);
        CallWake(s, s', t, id, u);
      }
    }
  }

  // ----- registrations -----

  /** A step that changes registrations only, by the actor they belong to. */
  lemma SignalMove(s: State, s': State, t: nat)
    requires Inv(s) && OnlyActs(s, s', t) && s' == s.(ready := s'.ready, changed := s'.changed, actors := s'.actors)
    requires SameDebts(s.actors[t], s'.actors[t]) && !InSweep(s.actors[t].pc) && !InSweep(s'.actors[t].pc)
    requires !HoldsBus(s.actors[t].pc) && !HoldsBus(s'.actors[t].pc) && IdsOk(s'.changed)
    requires PublicationOf(s'.actors[t].pc).None? && (s'.actors[t].pc.Stopping? ==> Quiet(s'.actors[t]))
    requires |s'.ready| == |s.ready| && (forall i | 0 <= i < |s.ready| :: SignalGrows(s.ready[i], s'.ready[i])) && SignalGrows(s.changed, s'.changed)
    requires forall i | 0 <= i < |s.ready| :: s'.ready[i] == s.ready[i] || (s.actors[t].pc.Receiving? && s.actors[t].pc.queue == i)
    requires ChangedKept(s, s', t)
    requires s'.actors[t].pc.Receiving? ==> s.actors[t].pc.Receiving? && s'.actors[t].pc.queue == s.actors[t].pc.queue
    requires forall id: nat | Registers(s'.actors[t].pc, id) :: Registers(s.actors[t].pc, id) || s.changed.nextId <= id
    requires PcOk(s', s'.actors[t].pc) && WakeOk(s', s'.actors[t].pc)
    ensures Inv(s')
  {
    hide CoreOk, PcOk, WakeOk, MailboxesOk, MembersOk, OpenOk, Supports, Evolves, ChangedKept;
    LedgersMatch(s);
    CoreUnmoved(s.core);
    KeepPcs(s, s', t, None);
    KeepPublications(s, s', t, None);
    KeepApart(s, s', t);
    KeepSignals(s, s', t);
    SupportsSignals(s, s', t);
    KeepWakes(s, s', t);
    assert Sweep(s') == Sweep(s);
  }

  lemma SupportsSignals(s: State, s': State, t: nat)
    requires SignalsOk(s) && OnlyActs(s, s', t) && s'.core == s.core && |s'.ready| == |s.ready|
    requires SameDebts(s.actors[t], s'.actors[t]) && !InSweep(s.actors[t].pc) && ChangedKept(s, s', t)
    requires forall i | 0 <= i < |s.ready| :: s'.ready[i] == s.ready[i] || (s.actors[t].pc.Receiving? && s.actors[t].pc.queue == i)
    ensures Supports(s, s', t)
  {
  }

  lemma RegisterWaiterOk(s: State, t: nat)
    requires Inv(s) && t < |s.actors|
    ensures Inv(DoRegisterWaiter(s, t)) && Inv(DoLeaveReceive(s, t))
  {
    hide CoreOk, BusOk, PublicationsOk, ApartOk, SomeWakes, SomeOwesReady, SomeOwesChanged;
    assert PcOk(s, s.actors[t].pc);
    var s1 := DoRegisterWaiter(s, t);
    if s1 != s {
      SignalMove(s, s1, t);
    }
    var s2 := DoLeaveReceive(s, t);
    if s2 != s {
      SignalMove(s, s2, t);
    }
  }

  lemma RegisterChangedOk(s: State, t: nat)
    requires Inv(s) && t < |s.actors|
    ensures Inv(DoRegisterChanged(s, t))
  {
    hide CoreOk, BusOk, PublicationsOk, ApartOk, SomeWakes, SomeOwesReady, SomeOwesChanged;
    assert PcOk(s, s.actors[t].pc);
    var s' := DoRegisterChanged(s, t);
    if s' != s {
      SignalMove(s, s', t);
    }
  }

  lemma DecidedPc(s: State, t: nat)
    requires t < |s.actors| && s.actors[t].pc.Stopping? && s.actors[t].pc.phase.Checked? && PcOk(s, s.actors[t].pc)
    ensures var s' := DoDecide(s, t); t < |s'.actors| && PcOk(s', s'.actors[t].pc)
  {
  }

  lemma DecideOk(s: State, t: nat)
    requires Inv(s) && t < |s.actors|
    ensures Inv(DoDecide(s, t))
  {
    hide CoreOk, BusOk, PublicationsOk, ApartOk, SomeWakes, SomeOwesReady, SomeOwesChanged, Busy;
    assert PcOk(s, s.actors[t].pc) && WakeOk(s, s.actors[t].pc);
    var s' := DoDecide(s, t);
    if s' != s {
      DecidedPc(s, t);
      hide PhaseOk, OutcomeOk;
      DebtsKept(s.actors, s'.actors, t);
      SignalMove(s, s', t);
    }
  }

  lemma PollStopTimerOk(s: State, t: nat)
    requires Inv(s) && t < |s.actors|
    ensures Inv(DoPollStopTimer(s, t))
  {
    hide CoreOk, BusOk, PublicationsOk, ApartOk, SomeWakes, SomeOwesReady, SomeOwesChanged, Busy;
    assert PcOk(s, s.actors[t].pc) && WakeOk(s, s.actors[t].pc);
    var s' := DoPollStopTimer(s, t);
    if s' != s {
      DebtsKept(s.actors, s'.actors, t);
      SignalMove(s, s', t);
    }
  }

  lemma FireStopTimerOk(s: State, t: nat)
    requires Inv(s) && t < |s.actors|
    ensures Inv(DoFireStopTimer(s, t))
  {
    hide CoreOk, BusOk, PublicationsOk, ApartOk, WakesOk;
    assert PcOk(s, s.actors[t].pc);
    var s' := DoFireStopTimer(s, t);
    if s' != s {
      PcMove(s, s', t);
    }
  }

  lemma DropShutdownOk(s: State, t: nat)
    requires Inv(s) && t < |s.actors|
    ensures Inv(DoDropShutdown(s, t))
  {
    hide CoreOk, BusOk, PublicationsOk, ApartOk, WakesOk;
    assert PcOk(s, s.actors[t].pc);
    var s' := DoDropShutdown(s, t);
    if s' != s {
      SignalMove(s, s', t);
    }
  }

  lemma DebtsKept(actors: seq<Actor>, actors': seq<Actor>, t: nat)
    requires t < |actors| == |actors'| && (forall u | 0 <= u < |actors| && u != t :: actors'[u] == actors[u])
    requires SameDebts(actors[t], actors'[t]) && !InSweep(actors[t].pc)
    ensures forall w | SomeWakes(actors, w) :: SomeWakes(actors', w)
    ensures forall i | SomeOwesReady(actors, i) :: SomeOwesReady(actors', i)
    ensures SomeOwesChanged(actors) ==> SomeOwesChanged(actors')
  {
  }

  // ----- steps under a queue lock -----

  lemma BusEvolves(c: Core, c': Core, e: Option<LocalEvent>, bus: Bus, sweep: set<nat>, sweep': set<nat>)
    requires MailboxesOk(c, bus) && MembersOk(c, bus) && OpenOk(c, bus, sweep) && Evolves(c, c', e) && |c'.queues| == |c.queues|
    requires forall i | 0 <= i < |c.queues| && i in sweep && !c'.queues[i].closed :: i in sweep'
    ensures MailboxesOk(c', bus) && MembersOk(c', bus) && OpenOk(c', bus, sweep')
  {
  }

  lemma CoreMove(s: State, s': State, t: nat, e: Option<LocalEvent>)
    requires Inv(s) && Supports(s, s', t) && s' == s.(core := s'.core, actors := s'.actors)
    requires CoreOk(s'.core) && Evolves(s.core, s'.core, e) && |s'.core.queues| == |s.core.queues|
    requires PcOk(s', s'.actors[t].pc) && WakeOk(s', s'.actors[t].pc)
    requires e.Some? ==> PublicationOf(s.actors[t].pc) == Some(e.value.publication)
    requires PublicationOf(s'.actors[t].pc).None? || PublicationOf(s'.actors[t].pc) == PublicationOf(s.actors[t].pc)
    requires HoldsBus(s'.actors[t].pc) == HoldsBus(s.actors[t].pc) && InSweep(s'.actors[t].pc) == InSweep(s.actors[t].pc)
    requires s'.actors[t].pc.Receiving? ==> s.actors[t].pc.Receiving? && s'.actors[t].pc.queue == s.actors[t].pc.queue
    requires forall id: nat | Registers(s'.actors[t].pc, id) :: Registers(s.actors[t].pc, id)
    requires s'.actors[t].pc.Stopping? ==> Quiet(s'.actors[t])
    requires forall i | i in s'.actors[t].readies :: i < |s.core.queues|
    requires forall i | 0 <= i < |s.core.queues| && i in SweepOf(s.actors[t].pc) && !s'.core.queues[i].closed :: i in SweepOf(s'.actors[t].pc)
    ensures Inv(s')
  {
    hide CoreOk, PcOk, WakeOk, MailboxesOk, MembersOk, OpenOk, Supports, Evolves, SweepOf;
    assert OnlyActs(s, s', t) by { SupportsActs(s, s', t); }
    PublicationSmall(s, t);
    KeepPcs(s, s', t, e);
    KeepPublications(s, s', t, e);
    KeepApart(s, s', t);
    KeepSignals(s, s', t);
    KeepWakes(s, s', t);
    BusEvolves(s.core, s'.core, e, s.bus, Sweep(s), Sweep(s'));
    StillClosed(s.core, s'.core, e);
  }

  lemma SupportsActs(s: State, s': State, t: nat)
    requires Supports(s, s', t)
    ensures OnlyActs(s, s', t)
  {
  }

  lemma PublicationSmall(s: State, t: nat)
    requires PcsOk(s) && t < |s.actors|
    ensures PublicationOf(s.actors[t].pc).Some? ==> PublicationOf(s.actors[t].pc).value < s.publications
  {
  }

  lemma StillClosed(c: Core, c': Core, e: Option<LocalEvent>)
    requires Evolves(c, c', e) && |c'.queues| == |c.queues|
    ensures AllClosed(c) ==> AllClosed(c')
  {
  }

  /** Only queue `i` changes and the mover, quiet or the sweeper before, answers for it. */
  lemma SupportsCore(s: State, s': State, t: nat, i: nat)
    requires SignalsOk(s) && OnlyActs(s, s', t) && s'.ready == s.ready && s'.changed == s.changed && i < |s.core.queues|
    requires |s'.core.queues| == |s.core.queues| && s'.core.queues == s.core.queues[i := s'.core.queues[i]]
    requires s'.actors[t].wakes == s.actors[t].wakes
    requires forall j | OwesReady(s.actors[t], j) :: OwesReady(s'.actors[t], j)
    requires OwesChanged(s.actors[t]) ==> OwesChanged(s'.actors[t])
    requires QueueKept(s, s', t, i)
    requires Busy(s.core, i) ==> Busy(s'.core, i) || OwesChanged(s'.actors[t])
    ensures Supports(s, s', t)
  {
  }

  lemma AdmitNextOk(s: State, t: nat)
    requires Inv(s) && t < |s.actors|
    ensures Inv(DoAdmitNext(s, t))
    ensures var s' := DoAdmitNext(s, t); var pc := s.actors[t].pc;
            s' != s ==>
              && |pc.done| < |pc.snapshot| && pc.snapshot[|pc.done|] < |s.core.queues| && pc.snapshot[|pc.done|] < |s'.core.queues|
              && var i := pc.snapshot[|pc.done|];
                 s'.core.queues[i] != s.core.queues[i] ==> OwesReady(s'.actors[t], i)
  {
    hide CoreOk, BusOk, LockOk, WakesOk, PublicationsOk, ReportOk, Evolves, AdmissionRefusal, ApartOk, Supports;
    var pc := s.actors[t].pc;
    assert PcOk(s, pc);
    var s' := DoAdmitNext(s, t);
    if s' != s {
      var i := pc.snapshot[|pc.done|];
      NextVisit(s.core, pc.event, pc.snapshot, pc.done);
      AdmitOk(s.core, i, pc.event);
      AdmitEvolves(s.core, i, pc.event);
      ReportExtends(s.core, pc.event, pc.snapshot, pc.done);
      AdmitChanges(s.core, i, pc.event);
      SupportsCore(s, s', t, i);
      CoreMove(s, s', t, Some(pc.event));
    }
  }

  lemma ReceiveNowOk(s: State, t: nat, i: nat, k: Key)
    requires Inv(s) && t < |s.actors|
    ensures Inv(DoReceiveNow(s, t, i, k))
  {
    hide CoreOk, BusOk, LockOk, PublicationsOk, Evolves, ApartOk, Supports, Receive, PcOk, WakeOk;
    var s' := DoReceiveNow(s, t, i, k);
    if s' != s {
      LedgersMatch(s);
      ReceiveOk(s.core, i, k);
      ReceiveEvolves(s.core, i, k);
      ReceiveChanges(s.core, i, k);
      SupportsCore(s, s', t, i);
      assert PcOk(s, s.actors[t].pc);
      assert Grows(s, s', None);
      PcStable(s, s', None, s.actors[t].pc);
      Plain(s', s.actors[t].pc);
      CoreMove(s, s', t, None);
    }
  }

  lemma SettleStepOk(s: State, t: nat, i: nat, h: nat, d: Disposition)
    requires Inv(s) && t < |s.actors|
    ensures Inv(DoSettle(s, t, i, h, d))
    ensures DoSettle(s, t, i, h, d) != s ==>
              OwesReady(DoSettle(s, t, i, h, d).actors[t], i) && OwesChanged(DoSettle(s, t, i, h, d).actors[t])
  {
    hide CoreOk, BusOk, LockOk, PublicationsOk, Evolves, ApartOk, Supports, Settle, PcsOk, WakesOk, Busy;
    var s' := DoSettle(s, t, i, h, d);
    if s' != s {
      SettleOk(s.core, i, h, d);
      SettleEvolves(s.core, i, h, d);
      SettleChanges(s.core, i, h, d);
      SupportsCore(s, s', t, i);
      CoreMove(s, s', t, None);
    }
  }

  lemma SweepStepOk(s: State, t: nat, i: nat)
    requires Inv(s) && t < |s.actors|
    ensures Inv(DoSweep(s, t, i))
  {
    hide CoreOk, BusOk, LockOk, PublicationsOk, Evolves, ApartOk, Supports, Close, WakesOk, Busy;
    var s' := DoSweep(s, t, i);
    assert PcOk(s, s.actors[t].pc);
    if s' != s {
      CloseOk(s.core, i);
      CloseEvolves(s.core, i);
      CloseChanges(s.core, i);
      SupportsCore(s, s', t, i);
      CoreMove(s, s', t, None);
    }
  }

  // ----- the critical section of a receive -----

  lemma ArmedCovers(q: Queue<nat>, timer: TimerState, now: nat, deadline: Option<nat>, limit: nat)
    requires TimerOk(timer, limit) && !q.closed && !HasReady(q, now) && (deadline.Some? ==> now < deadline.value)
    ensures var r := Arm(timer, now, NextDelay(q, now), if deadline.Some? then Some(deadline.value - now) else None, limit);
            && TimerOk(r, limit) && HeadsCovered(q, r)
            && (deadline.Some? ==> r.armed.Some? && r.armed.value <= deadline.value)
  {
    hide Arm, NextDelay;
    var delay := NextDelay(q, now);
    var remaining := if deadline.Some? then Some(deadline.value - now) else None;
    NextDelayIs(q, now);
    ArmedInTime(timer, now, delay, remaining, limit);
    var r := Arm(timer, now, delay, remaining, limit);
    forall k | k in q.lanes && q.lanes[k] != [] ensures HeadCovered(q.lanes[k][0], r) {
      assert !HeadReady(q, k, now);
      assert delay.value <= HeadDelay(q, k, now);
    }
  }

  lemma InspectOk(s: State, t: nat, k: Key)
    requires Inv(s) && t < |s.actors|
    ensures Inv(DoInspect(s, t, k))
  {
    hide CoreOk, BusOk, LockOk, PublicationsOk, ApartOk, SomeWakes, SomeOwesReady, SomeOwesChanged, Receive, Arm, NextDelay, HasReady, HeadReady, HeadsCovered;
    var pc := s.actors[t].pc;
    var s' := DoInspect(s, t, k);
    assert PcOk(s, pc) && WakeOk(s, pc);
    if s' != s {
      DebtsKept(s.actors, s'.actors, t);
      if s'.core != s.core {
        InspectPops(s, t, k);
      } else {
        if s'.actors[t].pc.stage.TimerDue? {
          ArmedCovers(s.core.queues[pc.queue], pc.task.timer, s.clock, pc.task.deadline, s.limit);
        }
        assert HoldsBus(pc) <==> s.busLock == Some(t) by { LockAt(s, t); }
        PcMove(s, s', t);
      }
    }
  }

  lemma LockAt(s: State, t: nat)
    requires LockOk(s) && t < |s.actors|
    ensures HoldsBus(s.actors[t].pc) <==> s.busLock == Some(t)
  {
  }

  lemma InspectPops(s: State, t: nat, k: Key)
    requires Inv(s) && t < |s.actors| && DoInspect(s, t, k).core != s.core
    ensures Inv(DoInspect(s, t, k))
  {
    hide CoreOk, BusOk, LockOk, PublicationsOk, ApartOk, Evolves, Supports, Receive, Arm, NextDelay, HasReady, WakesOk;
    var i := s.actors[t].pc.queue;
    var s' := DoInspect(s, t, k);
    assert PcOk(s, s.actors[t].pc);
    LedgersMatch(s);
    ReceiveOk(s.core, i, k);
    ReceiveEvolves(s.core, i, k);
    ReceiveChanges(s.core, i, k);
    SupportsCore(s, s', t, i);
    CoreMove(s, s', t, None);
  }

  // ----- steps under the registry lock -----

  lemma BusMove(s: State, s': State, t: nat)
    requires Inv(s) && OnlyActs(s, s', t)
    requires s' == s.(bus := s'.bus, busLock := s'.busLock, publications := s'.publications, actors := s'.actors)
    requires (s.bus.closed ==> s'.bus.closed) && s.publications <= s'.publications && Supports(s, s', t)
    requires BusOk(s') && LockOk(s') && PcOk(s', s'.actors[t].pc) && WakeOk(s', s'.actors[t].pc)
    requires var p := PublicationOf(s'.actors[t].pc); p.None? || (p == Some(s.publications) && s.publications < s'.publications)
    requires !s'.actors[t].pc.Receiving? && (s'.actors[t].pc.Stopping? ==> Quiet(s'.actors[t]))
    requires forall id: nat | Registers(s'.actors[t].pc, id) :: Registers(s.actors[t].pc, id)
    requires forall i | i in s'.actors[t].readies :: i < |s.core.queues|
    ensures Inv(s')
  {
    hide CoreOk, BusOk, LockOk, PcOk, WakeOk, Supports, Evolves;
    LedgersMatch(s);
    CoreUnmoved(s.core);
    KeepPcs(s, s', t, None);
    KeepPublications(s, s', t, None);
    KeepApart(s, s', t);
    KeepSignals(s, s', t);
    KeepWakes(s, s', t);
  }

  lemma CloseAdmissionOk(s: State, t: nat)
    requires Inv(s) && t < |s.actors|
    ensures Inv(DoCloseAdmission(s, t))
  {
    hide CoreOk, PublicationsOk, ApartOk, WakesOk, MailboxesOk, OpenOk, Supports;
    var s' := DoCloseAdmission(s, t);
    assert PcOk(s, s.actors[t].pc);
    if s' != s {
      SupportsMove(s, s', t);
      ClosedBus(s.core, s.bus);
      assert Sweep(s') == Sweep(s);
      BusMove(s, s', t);
    }
  }

  lemma ClosedBus(c: Core, bus: Bus)
    ensures MailboxesOk(c, bus) ==> MailboxesOk(c, bus.(closed := true))
    ensures MembersOk(c, bus) ==> MembersOk(c, bus.(closed := true))
    ensures forall sweep | OpenOk(c, bus, sweep) :: OpenOk(c, bus.(closed := true), sweep)
  {
    var bus' := bus.(closed := true);
    if MailboxesOk(c, bus) {
      forall id | id in bus'.mailboxes ensures MailboxOk(c, bus', id) {
        assert MailboxOk(c, bus, id);
      }
    }
    if MembersOk(c, bus) {
      forall topic, id | id in Members(bus', topic) ensures MemberOk(c, bus', topic, id) {
        assert id in Members(bus, topic) && MemberOk(c, bus, topic, id);
      }
    }
    forall sweep | OpenOk(c, bus, sweep) ensures OpenOk(c, bus', sweep) {
      forall i | 0 <= i < |c.queues| && !c.queues[i].closed ensures HasMailbox(c, bus', i) || i in sweep {
        assert HasMailbox(c, bus, i) || i in sweep;
      }
    }
  }

  lemma LockSweepOk(s: State, t: nat)
    requires Inv(s) && t < |s.actors|
    ensures Inv(DoLockSweep(s, t))
    ensures s.actors[t].pc.Stopping? && s.actors[t].pc.phase.Finishing? && s.busLock.None? ==>
              var s' := DoLockSweep(s, t); var pc := s'.actors[t].pc;
              if s.bus.outcome.Some? then pc == Idle && s'.bus == s.bus && s'.busLock == None
              else InSweep(pc) && pc.phase.left == pc.phase.all == s.bus.mailboxes.Values && s'.bus.mailboxes == map[]
  {
    hide CoreOk, PublicationsOk, ApartOk, WakesOk, Supports;
    var s' := DoLockSweep(s, t);
    assert PcOk(s, s.actors[t].pc);
    if s' != s {
      if s.bus.outcome.Some? {
        PcMove(s, s', t);
      } else {
        SupportsMove(s, s', t);
        MailboxRange(s);
        SweptBus(s, s', t);
        BusMove(s, s', t);
      }
    }
  }

  lemma SweptBus(s: State, s': State, t: nat)
    requires BusOk(s) && LockOk(s) && t < |s.actors| && s' == DoLockSweep(s, t) && s' != s && s.bus.outcome.None?
    ensures BusOk(s')
  {
    forall i | 0 <= i < |s.core.queues| && !s.core.queues[i].closed ensures i in Sweep(s') {
      assert HasMailbox(s.core, s.bus, i);
      assert i in s.bus.mailboxes.Values;
    }
  }

  lemma EndSweepOk(s: State, t: nat)
    requires Inv(s) && t < |s.actors|
    ensures Inv(DoEndSweep(s, t))
  {
    hide CoreOk, PublicationsOk, ApartOk, WakesOk, Supports;
    var s' := DoEndSweep(s, t);
    assert PcOk(s, s.actors[t].pc);
    if s' != s {
      SupportsEndSweep(s, s', t);
      AllSwept(s, t);
      BusMove(s, s', t);
    }
  }

  lemma SupportsEndSweep(s: State, s': State, t: nat)
    requires SignalsOk(s) && t < |s.actors| && s' == DoEndSweep(s, t) && s' != s
    ensures Supports(s, s', t)
  {
  }

  lemma AllSwept(s: State, t: nat)
    requires BusOk(s) && LockOk(s) && t < |s.actors| && DoEndSweep(s, t) != s
    ensures AllClosed(s.core)
  {
    assert Sweep(s) == {} && s.bus.mailboxes == map[];
  }

  // ----- close, publish and subscribe -----

  lemma RemoveMailboxes(c: Core, bus: Bus, i: nat)
    requires MailboxesOk(c, bus) && i < |c.queues|
    ensures MailboxesOk(c, Remove(bus, c.queues[i], i))
  {
    var bus' := Remove(bus, c.queues[i], i);
    forall id | id in bus'.mailboxes ensures MailboxOk(c, bus', id) {
      assert MailboxOk(c, bus, id);
    }
  }

  lemma RemoveMembers(c: Core, bus: Bus, i: nat)
    requires MembersOk(c, bus) && i < |c.queues|
    ensures MembersOk(c, Remove(bus, c.queues[i], i))
  {
    var q := c.queues[i];
    var bus' := Remove(bus, q, i);
    if bus' != bus {
      forall topic, id | id in Members(bus', topic) ensures MemberOk(c, bus', topic, id) {
        assert id in Members(bus, topic) && MemberOk(c, bus, topic, id);
        assert topic != q.topic ==> c.queues[bus.mailboxes[id]].topic != q.topic;
      }
      assert forall topic | topic in bus'.members && topic != q.topic :: topic in bus.members && bus'.members[topic] == bus.members[topic];
    }
  }

  lemma RemoveOpen(c: Core, bus: Bus, sweep: set<nat>, i: nat)
    requires OpenOk(c, bus, sweep) && i < |c.queues| && c.queues[i].closed
    ensures OpenOk(c, Remove(bus, c.queues[i], i), sweep)
  {
  }

  lemma CloseMailboxOk(s: State, t: nat, i: nat)
    requires Inv(s) && t < |s.actors|
    ensures Inv(DoCloseMailbox(s, t, i))
    ensures var s' := DoCloseMailbox(s, t, i);
            s' != s ==>
              && i < |s'.core.queues| && s'.core.queues[i].closed && OwesReady(s'.actors[t], i) && OwesChanged(s'.actors[t])
              && (!s'.bus.closed && Members(s'.bus, s.core.queues[i].topic) == {} ==> s.core.queues[i].topic !in s'.bus.types)
  {
    hide CoreOk, PublicationsOk, ApartOk, WakesOk, PcsOk, Supports, Close, Evolves, MailboxesOk, MembersOk, OpenOk, Remove, Busy;
    var s' := DoCloseMailbox(s, t, i);
    if s' != s {
      CloseOk(s.core, i);
      CloseEvolves(s.core, i);
      CloseChanges(s.core, i);
      CloseIdentity(s.core, i);
      SupportsCore(s, s', t, i);
      assert Grows(s, s', None) by { RemoveClosed(s.bus, s.core.queues[i], i); }
      KeepPcs(s, s', t, None);
      KeepPublications(s, s', t, None);
      KeepApart(s, s', t);
      KeepSignals(s, s', t);
      KeepWakes(s, s', t);
      BusEvolves(s.core, s'.core, None, s.bus, Sweep(s), Sweep(s'));
      RemoveMailboxes(s'.core, s.bus, i);
      RemoveMembers(s'.core, s.bus, i);
      RemoveOpen(s'.core, s.bus, Sweep(s'), i);
      StillClosed(s.core, s'.core, None);
      RemoveClosed(s.bus, s.core.queues[i], i);
      if !s'.bus.closed {
        TypesListed(s'.core, s'.bus, s.core.queues[i].topic);
      }
    }
  }

  lemma TypesListed(c: Core, bus: Bus, topic: string)
    requires MembersOk(c, bus) && !bus.closed
    ensures topic in bus.types ==> Members(bus, topic) != {}
  {
  }

  lemma CloseIdentity(c: Core, i: nat)
    requires i < |c.queues| == |c.ledgers|
    ensures forall bus :: Remove(bus, Close(c, i).queues[i], i) == Remove(bus, c.queues[i], i)
  {
  }

  lemma RemoveClosed(bus: Bus, q: Queue<nat>, i: nat)
    ensures var bus' := Remove(bus, q, i);
            bus'.closed == bus.closed && bus'.outcome == bus.outcome
            && (bus.mailboxes == map[] && bus.members == map[] ==> bus' == bus)
  {
  }

  lemma RotatedBus(c: Core, bus: Bus, topic: string)
    ensures MailboxesOk(c, bus) ==> MailboxesOk(c, Rotated(bus, topic))
    ensures MembersOk(c, bus) ==> MembersOk(c, Rotated(bus, topic))
    ensures forall sweep | OpenOk(c, bus, sweep) :: OpenOk(c, Rotated(bus, topic), sweep)
    ensures var r := Rotated(bus, topic); r.closed == bus.closed && r.outcome == bus.outcome && r.mailboxes == bus.mailboxes && r.members == bus.members
  {
    hide Order;
    var bus' := Rotated(bus, topic);
    if MailboxesOk(c, bus) {
      forall id | id in bus'.mailboxes ensures MailboxOk(c, bus', id) {
        assert MailboxOk(c, bus, id);
      }
    }
    if MembersOk(c, bus) {
      forall p, id | id in Members(bus', p) ensures MemberOk(c, bus', p, id) {
        assert id in Members(bus, p) && MemberOk(c, bus, p, id);
      }
    }
    forall sweep | OpenOk(c, bus, sweep) ensures OpenOk(c, bus', sweep) {
      forall i | 0 <= i < |c.queues| && !c.queues[i].closed ensures HasMailbox(c, bus', i) || i in sweep {
        assert HasMailbox(c, bus, i) || i in sweep;
      }
    }
  }

  /** A snapshot holds only queues of the published type, each id once. */
  lemma SnapshotOk(c: Core, bus: Bus, e: LocalEvent, topic: string)
    requires MailboxesOk(c, bus) && MembersOk(c, bus) && !bus.closed && |c.queues| == |c.ledgers|
    requires !TypeConflict(bus, topic, e.payloadType) && (!RequiresWeight(c.budget) ==> e.weight == 0)
    requires forall i, d | 0 <= i < |c.ledgers| && d in c.ledgers[i].admitted :: d.publication < e.publication
    ensures ReportOk(c, e, Snapshot(bus, topic), [])
  {
    hide PublishOrder;
    var snapshot := Snapshot(bus, topic);
    var order := Order(bus, topic);
    forall j | 0 <= j < |snapshot| ensures Compatible(c, e, snapshot[j]) && c.queues[snapshot[j]].id == order[j] {
      assert order[j] in Members(bus, topic);
      assert MemberOk(c, bus, topic, order[j]);
      assert MailboxOk(c, bus, order[j]);
    }
  }

  lemma BeginPublishOk(s: State, t: nat, a: Step)
    requires Inv(s) && t < |s.actors| && a.BeginPublish?
    ensures Inv(DoBeginPublish(s, t, a))
  {
    hide CoreOk, ApartOk, WakesOk, PcsOk, Supports, ReportOk, Snapshot, MailboxesOk, MembersOk, OpenOk, Rotated;
    var s' := DoBeginPublish(s, t, a);
    if s' != s {
      LedgersMatch(s);
      SnapshotOk(s.core, s.bus, s'.actors[t].pc.event, a.topic);
      RotatedBus(s.core, s.bus, a.topic);
      SupportsMove(s, s', t);
      assert Sweep(s') == Sweep(s);
      BusMove(s, s', t);
    }
  }

  lemma InsertMailboxes(c: Core, bus: Bus, id: nat, topic: string, payloadType: nat, capacity: nat)
    requires MailboxesOk(c, bus) && MembersOk(c, bus) && id !in bus.mailboxes && !bus.closed && !TypeConflict(bus, topic, payloadType)
    ensures var c' := AddQueue(c, id, topic, payloadType, capacity); var bus' := Insert(bus, id, topic, payloadType, |c.queues|);
            MailboxesOk(c', bus') && MembersOk(c', bus')
  {
    var c' := AddQueue(c, id, topic, payloadType, capacity);
    var bus' := Insert(bus, id, topic, payloadType, |c.queues|);
    forall j | j in bus'.mailboxes ensures MailboxOk(c', bus', j) {
      if j != id {
        assert MailboxOk(c, bus, j);
      }
    }
    forall p, j | j in Members(bus', p) ensures MemberOk(c', bus', p, j) {
      if !(p == topic && j == id) {
        assert j in Members(bus, p) && MemberOk(c, bus, p, j);
      }
    }
    assert id in bus'.members[topic];
  }

  lemma InsertOpen(c: Core, bus: Bus, sweep: set<nat>, id: nat, topic: string, payloadType: nat, capacity: nat)
    requires OpenOk(c, bus, sweep) && id !in bus.mailboxes
    ensures OpenOk(AddQueue(c, id, topic, payloadType, capacity), Insert(bus, id, topic, payloadType, |c.queues|), sweep)
  {
  }

  lemma SupportsSubscribe(s: State, s': State, t: nat, id: nat, topic: string, payloadType: nat)
    requires SignalsOk(s) && t < |s.actors| && s' == DoSubscribe(s, t, id, topic, payloadType) && s' != s
    ensures Supports(s, s', t)
  {
  }

  lemma SubscribeOk(s: State, t: nat, id: nat, topic: string, payloadType: nat)
    requires Inv(s) && t < |s.actors|
    ensures Inv(DoSubscribe(s, t, id, topic, payloadType))
  {
    hide CoreOk, PublicationsOk, ApartOk, WakesOk, PcsOk, Supports, Evolves, MailboxesOk, MembersOk, OpenOk;
    var s' := DoSubscribe(s, t, id, topic, payloadType);
    if s' != s {
      LedgersMatch(s);
      AddQueueOk(s.core, id, topic, payloadType, s.capacity);
      AddEvolves(s.core, id, topic, payloadType, s.capacity);
      InsertMailboxes(s.core, s.bus, id, topic, payloadType, s.capacity);
      InsertOpen(s.core, s.bus, Sweep(s'), id, topic, payloadType, s.capacity);
      SupportsSubscribe(s, s', t, id, topic, payloadType);
      KeepPcs(s, s', t, None);
      KeepPublications(s, s', t, None);
      KeepApart(s, s', t);
      KeepSignals(s, s', t);
      KeepWakes(s, s', t);
    }
  }

  // ----- runs -----

  lemma StepOk(s: State, t: nat, a: Step)
    requires Inv(s)
    ensures Inv(Next(s, t, a))
  {
    hide Inv, DoSubscribe, DoBeginPublish, DoAdmitNext, DoEndPublish, DoDrainReady, DoDrainChanged, DoWakeOne, DoReceiveNow,
         DoBeginReceive, DoPollAgain, DoRegisterWaiter, DoInspect, DoPollTimer, DoFireTimer, DoLeaveReceive, DoSettle,
         DoCloseMailbox, DoBeginShutdown, DoCloseAdmission, DoRegisterChanged, DoLockBus, DoCheckMailbox, DoEndCheck,
         DoDecide, DoPollStopTimer, DoFireStopTimer, DoDropShutdown, DoLockSweep, DoSweep, DoEndSweep;
    if t < |s.actors| {
      match a {
        case Tick => TickOk(s);
        case Subscribe(id, topic, payloadType) => SubscribeOk(s, t, id, topic, payloadType);
        case BeginPublish(_, _, _, _, _, _) => BeginPublishOk(s, t, a);
        case AdmitNext => AdmitNextOk(s, t);
        case EndPublish => EndPublishOk(s, t);
        case DrainReady(i) => DrainReadyOk(s, t, i);
        case DrainChanged => DrainChangedOk(s, t);
        case WakeOne(id) => WakeOneOk(s, t, id);
        case ReceiveNow(i, k) => ReceiveNowOk(s, t, i, k);
        case BeginReceive(i, timeout, waker) => BeginReceiveOk(s, t, i, timeout, waker);
        case PollAgain(waker) => PollAgainOk(s, t, waker);
        case RegisterWaiter => RegisterWaiterOk(s, t);
        case InspectQueue(k) => InspectOk(s, t, k);
        case PollTimer => PollTimerOk(s, t);
        case FireTimer => PollTimerOk(s, t);
        case LeaveReceive => RegisterWaiterOk(s, t);
        case SettleToken(i, h, d) => SettleStepOk(s, t, i, h, d);
        case CloseMailbox(i) => CloseMailboxOk(s, t, i);
        case BeginShutdown(graceful, timeout, waker) => BeginShutdownOk(s, t, graceful, timeout, waker);
        case CloseAdmission => CloseAdmissionOk(s, t);
        case RegisterChanged => RegisterChangedOk(s, t);
        case LockBus => LockBusOk(s, t);
        case CheckMailbox(i) => CheckOk(s, t, i);
        case EndCheck => EndCheckOk(s, t);
        case Decide => DecideOk(s, t);
        case PollStopTimer => PollStopTimerOk(s, t);
        case FireStopTimer => FireStopTimerOk(s, t);
        case DropShutdown => DropShutdownOk(s, t);
        case LockSweep => LockSweepOk(s, t);
        case SweepMailbox(i) => SweepStepOk(s, t, i);
        case EndSweep => EndSweepOk(s, t);
      }
    }
  }

  lemma {:induction false} RunOk(s: State, steps: seq<(nat, Step)>)
    requires Inv(s)
    ensures Inv(Run(s, steps))
  {
    hide Inv, Next;
    if steps != [] {
      RunOk(s, steps[..|steps| - 1]);
      StepOk(Run(s, steps[..|steps| - 1]), steps[|steps| - 1].0, steps[|steps| - 1].1);
    }
  }
}
