/** Every step of every thread keeps the invariant of the synchronous provider. */
module LocalBusSteps {
  import opened Prelude
  import opened Routing
  import opened OutstandingBudgets
  import opened Queues
  import opened ReadyHeads
  import opened Deliveries
  import opened Fanout
  import opened LocalBus
  import opened LocalBusInvariant

  // ----- one thread moves, the others stand still -----

  predicate OnlyMoves(s: State, s': State, t: nat) {
    && t < |s.threads| == |s'.threads|
    && (forall u | 0 <= u < |s.threads| && u != t :: s'.threads[u] == s.threads[u])
  }

  /** The provider moved from `s` to `s'`, admitting at most `e`, which only thread `t` reports on. */
  predicate Moves(s: State, s': State, t: nat, e: Option<LocalEvent>) {
    && OnlyMoves(s, s', t)
    && Evolves(s.core, s'.core, e) && BusEvolves(s.bus, s'.bus) && s.publications <= s'.publications
    && (s.bus.closed ==> |s'.core.queues| == |s.core.queues|)
    && (e.Some? ==> PublicationOf(s.threads[t]) == Some(e.value.publication))
  }

  lemma KeepPcs(s: State, s': State, t: nat, e: Option<LocalEvent>)
    requires PcsOk(s) && PublicationsOk(s) && Moves(s, s', t, e)
    requires PcOk(s'.core, s'.bus, s'.publications, s'.threads[t])
    ensures PcsOk(s')
  {
    hide PcOk, Evolves;
    forall u | 0 <= u < |s'.threads| ensures PcOk(s'.core, s'.bus, s'.publications, s'.threads[u]) {
      if u != t {
        assert t < u ==> PublicationOf(s.threads[t]) != PublicationOf(s.threads[u]) || PublicationOf(s.threads[t]).None?;
        PcStable(s.core, s.bus, s.publications, s'.core, s'.bus, s'.publications, e, s.threads[u]);
      }
    }
  }

  lemma KeepPublications(s: State, s': State, t: nat, e: Option<LocalEvent>)
    requires PublicationsOk(s) && PcsOk(s) && Moves(s, s', t, e) && |s'.core.ledgers| == |s.core.ledgers|
    requires var p := PublicationOf(s'.threads[t]);
             p.None? || p == PublicationOf(s.threads[t]) || (p == Some(s.publications) && s.publications < s'.publications)
    ensures PublicationsOk(s')
  {
    hide ReportOk;
    forall u | 0 <= u < |s.threads| ensures PublicationOf(s.threads[u]).Some? ==> PublicationOf(s.threads[u]).value < s.publications {
      assert PcOk(s.core, s.bus, s.publications, s.threads[u]);
    }
    forall i, d | 0 <= i < |s'.core.ledgers| && d in s'.core.ledgers[i].admitted ensures d.publication < s'.publications {
      assert LedgerGrows(s.core.ledgers[i], s'.core.ledgers[i], e);
    }
  }

  lemma KeepShutdown(s: State, s': State, t: nat)
    requires ShutdownOk(s) && OnlyMoves(s, s', t)
    requires s'.gate == s.gate || s.gate == Some(t) || (s.gate == None && s'.gate == Some(t))
    requires s'.gate == s.gate || s'.gate == None || s'.gate == Some(t)
    requires InShutdown(s'.threads[t]) <==> s'.gate == Some(t)
    requires WillRecord(s'.threads[t]) ==> s'.bus.outcome.None?
    requires s'.bus.outcome == s.bus.outcome || WillRecord(s.threads[t])
    requires s'.bus.outcome.Some? ==> s'.bus.closed && AllClosed(s'.core)
    ensures ShutdownOk(s')
  {
  }

  /** Whatever was busy stays busy, or the mover owes a signal for it. */
  ghost predicate KeepsBusy(s: State, s': State, t: nat) {
    && t < |s'.threads| && |s.core.queues| <= |s'.core.queues|
    && (OwesBump(s'.threads[t]) || forall i | 0 <= i < |s.core.queues| :: Busy(s.core, i) ==> Busy(s'.core, i))
  }

  lemma KeepWakes(s: State, s': State, t: nat)
    requires WakesOk(s) && PcsOk(s) && OnlyMoves(s, s', t) && KeepsBusy(s, s', t) && s.bus.version <= s'.bus.version
    requires OwesBump(s.threads[t]) ==> OwesBump(s'.threads[t]) || (s.bus.version < s'.bus.version && s'.threads[t].Notifying?)
    requires s.threads[t].Notifying? ==> s'.threads[t].Notifying?
    requires WakeOk(s', s'.threads[t])
    ensures WakesOk(s')
  {
  }

  lemma KeepOwing(s: State, s': State, t: nat)
    requires OnlyMoves(s, s', t)
    requires OwesBump(s.threads[t]) ==> OwesBump(s'.threads[t]) || s'.threads[t].Notifying?
    requires s.threads[t].Notifying? ==> s'.threads[t].Notifying?
    ensures OwesBump(s'.threads[t]) ==> SomeOwesBump(s'.threads)
    ensures s'.threads[t].Notifying? ==> SomeOwesNotify(s'.threads)
    ensures SomeOwesBump(s.threads) ==> SomeOwesBump(s'.threads) || (OwesBump(s.threads[t]) && s'.threads[t].Notifying?)
    ensures SomeOwesNotify(s.threads) ==> SomeOwesNotify(s'.threads)
  {
  }

  /** Only the program counter of `t` and possibly the gate change. */
  lemma LocalMove(s: State, s': State, t: nat)
    requires Inv(s) && OnlyMoves(s, s', t) && s'.core == s.core && s'.bus == s.bus && s'.publications == s.publications
    requires PcOk(s.core, s.bus, s.publications, s'.threads[t])
    requires PublicationOf(s'.threads[t]).None? || PublicationOf(s'.threads[t]) == PublicationOf(s.threads[t])
    requires s'.gate == s.gate || s.gate == Some(t) || s.gate == None
    requires s'.gate == s.gate || s'.gate == None || s'.gate == Some(t)
    requires InShutdown(s'.threads[t]) <==> s'.gate == Some(t)
    requires WillRecord(s'.threads[t]) ==> s.bus.outcome.None?
    requires OwesBump(s.threads[t]) ==> OwesBump(s'.threads[t])
    requires !s.threads[t].Notifying?
    requires WakeOk(s', s'.threads[t])
    ensures Inv(s')
  {
    hide CoreOk, BusOk, PcOk, WakeOk;
    assert Evolves(s.core, s'.core, None) by {
      assert |s.core.queues| == |s.core.ledgers| by { LedgersMatch(s); }
    }
    KeepPcs(s, s', t, None);
    KeepPublications(s, s', t, None);
    KeepShutdown(s, s', t);
    KeepWakes(s, s', t);
  }

  lemma LedgersMatch(s: State)
    requires CoreOk(s.core)
    ensures |s.core.queues| == |s.core.ledgers|
  {
  }

  // ----- steps that move one thread only -----

  lemma WatchedOk(c: Core, bus: Bus, w: Waiting)
    requires BusOk(c, bus)
    ensures forall i | i in Watched(bus, w) :: Watches(c, w, i)
  {
    forall i | i in Watched(bus, w) ensures Watches(c, w, i) {
      if w.Drain? {
        var topic, id :| topic in bus.topics && id in bus.topics[topic].queues && bus.topics[topic].queues[id] == i;
        assert EntryFor(c, bus, topic, id);
      } else {
        var id :| id in Registered(bus, w.topic) && Registered(bus, w.topic)[id] == i;
        assert EntryFor(c, bus, w.topic, id);
      }
    }
  }

  /** The sweep list covers every queue that is not closed. */
  lemma LiveCoversOpen(c: Core, bus: Bus)
    requires BusOk(c, bus)
    ensures forall i | 0 <= i < |c.queues| && !c.queues[i].closed :: i in LiveQueues(bus)
  {
  }

  lemma EndPublishOk(s: State, t: nat)
    requires Inv(s) && t < |s.threads|
    ensures Inv(DoEndPublish(s, t))
  {
    hide CoreOk, BusOk, ReportOk, WakesOk, PublicationsOk;
    var pc := s.threads[t];
    assert PcOk(s.core, s.bus, s.publications, pc);
    if pc.Publishing? && |pc.done| == |pc.snapshot| {
      LocalMove(s, DoEndPublish(s, t), t);
    }
  }

  lemma ReadOk(s: State, t: nat)
    requires Inv(s) && t < |s.threads|
    ensures Inv(DoRead(s, t))
  {
    hide CoreOk, BusOk, ReportOk, WakesOk, PublicationsOk, Watched;
    assert PcOk(s.core, s.bus, s.publications, s.threads[t]);
    if s.threads[t].Reading? {
      WatchedOk(s.core, s.bus, s.threads[t].wait);
      LocalMove(s, DoRead(s, t), t);
    }
  }

  lemma CheckOk(s: State, t: nat, i: nat)
    requires Inv(s) && t < |s.threads|
    ensures Inv(DoCheck(s, t, i)) && Inv(DoFinishCheck(s, t))
  {
    hide CoreOk, BusOk, ReportOk, WakesOk, PublicationsOk;
    var pc := s.threads[t];
    assert PcOk(s.core, s.bus, s.publications, pc);
    if pc.Checking? && i in pc.todo && i < |s.core.queues| {
      LocalMove(s, DoCheck(s, t, i), t);
    }
    if pc.Checking? && pc.todo == {} {
      LocalMove(s, DoFinishCheck(s, t), t);
    }
  }

  /** Parking is decided under the registry lock: with an unchanged version the sighting is still good. */
  /** A waiter goes to sleep exactly when the version has not moved since it looked. */
  lemma ParkOk(s: State, t: nat)
    requires Inv(s) && t < |s.threads|
    ensures Inv(DoPark(s, t))
    ensures s.threads[t].Deciding? ==> (DoPark(s, t).threads[t].Parked? <==> s.threads[t].version == s.bus.version)
  {
    hide CoreOk, BusOk, ReportOk, PublicationsOk, WakesOk, SomeOwesBump, SomeOwesNotify, Busy;
    var pc := s.threads[t];
    assert PcOk(s.core, s.bus, s.publications, pc);
    assert WakeOk(s, pc) by { WakeAt(s, t); }
    if pc.Deciding? {
      var s' := DoPark(s, t);
      KeepOwing(s, s', t);
      LocalMove(s, s', t);
    }
  }

  lemma WakeAt(s: State, t: nat)
    requires WakesOk(s) && t < |s.threads|
    ensures WakeOk(s, s.threads[t])
  {
  }

  lemma UnparkOk(s: State, t: nat)
    requires Inv(s) && t < |s.threads|
    ensures Inv(DoTimeOut(s, t)) && Inv(DoWake(s, t))
  {
    hide CoreOk, BusOk, ReportOk, PublicationsOk, WakesOk;
    var pc := s.threads[t];
    assert PcOk(s.core, s.bus, s.publications, pc);
    if pc.Deciding? || pc.Parked? {
      if DoTimeOut(s, t) != s {
        LocalMove(s, DoTimeOut(s, t), t);
      }
    }
    if pc.Parked? {
      LocalMove(s, DoWake(s, t), t);
    }
  }

  lemma BeginWaitOk(s: State, t: nat, topic: string, bounded: bool)
    requires Inv(s) && t < |s.threads| && Free(s.threads[t])
    ensures Inv(Goto(s, t, Reading(TopicIdle(topic, bounded))))
  {
    hide CoreOk, BusOk, ReportOk, WakesOk, PublicationsOk;
    LocalMove(s, Goto(s, t, Reading(TopicIdle(topic, bounded))), t);
  }

  lemma GateOk(s: State, t: nat, mode: Mode)
    requires Inv(s) && t < |s.threads|
    ensures Inv(DoBeginShutdown(s, t, mode)) && Inv(DoCheckOutcome(s, t))
  {
    hide CoreOk, BusOk, ReportOk, WakesOk, PublicationsOk;
    var pc := s.threads[t];
    if Free(pc) && s.gate.None? {
      LocalMove(s, DoBeginShutdown(s, t, mode), t);
    }
    if pc.Gated? {
      LocalMove(s, DoCheckOutcome(s, t), t);
    }
  }

  /** The final pass lists every queue that is not closed. */
  lemma ListOk(s: State, t: nat)
    requires Inv(s) && t < |s.threads|
    ensures Inv(DoList(s, t)) && Inv(DoFinishSweep(s, t))
    ensures s.threads[t].Listing? ==>
              && DoList(s, t).threads[t].Sweeping?
              && forall i | 0 <= i < |s.core.queues| && !s.core.queues[i].closed :: i in DoList(s, t).threads[t].left
  {
    hide CoreOk, ReportOk, WakesOk, PublicationsOk, LiveQueues;
    var pc := s.threads[t];
    assert PcOk(s.core, s.bus, s.publications, pc);
    if pc.Listing? {
      WatchedOk(s.core, s.bus, Drain);
      LiveCoversOpen(s.core, s.bus);
      assert Watched(s.bus, Drain) == LiveQueues(s.bus);
      LocalMove(s, DoList(s, t), t);
    }
    if pc.Sweeping? && pc.left == {} {
      LocalMove(s, DoFinishSweep(s, t), t);
    }
  }

  // ----- steps under a queue lock -----

  lemma CoreMove(s: State, s': State, t: nat, e: Option<LocalEvent>)
    requires Inv(s) && Moves(s, s', t, e) && s'.bus == s.bus && s'.gate == s.gate && s'.publications == s.publications
    requires |s'.core.queues| == |s.core.queues| && CoreOk(s'.core)
    requires PcOk(s'.core, s.bus, s.publications, s'.threads[t])
    requires PublicationOf(s'.threads[t]).None? || PublicationOf(s'.threads[t]) == PublicationOf(s.threads[t])
    requires InShutdown(s'.threads[t]) <==> InShutdown(s.threads[t])
    requires WillRecord(s'.threads[t]) <==> WillRecord(s.threads[t])
    requires KeepsBusy(s, s', t) && (OwesBump(s.threads[t]) ==> OwesBump(s'.threads[t]))
    requires !s.threads[t].Notifying? && !s'.threads[t].Deciding? && !s'.threads[t].Parked?
    ensures Inv(s')
  {
    hide CoreOk, BusOk, PcOk, WakeOk, Evolves;
    assert |s'.core.ledgers| == |s.core.ledgers| by { LedgersMatch(s); LedgersMatch(s'); }
    BusStable(s.core, s'.core, e, s.bus);
    KeepPcs(s, s', t, e);
    KeepPublications(s, s', t, e);
    assert s.bus.outcome.Some? ==> AllClosed(s'.core) by { ClosedStays(s.core, s'.core, e); }
    KeepShutdown(s, s', t);
    assert WakeOk(s', s'.threads[t]) by { NotWaiting(s', s'.threads[t]); }
    KeepWakes(s, s', t);
  }

  lemma NotWaiting(s: State, pc: Pc)
    requires !pc.Deciding? && !pc.Parked?
    ensures WakeOk(s, pc)
  {
  }

  lemma ClosedStays(c: Core, c': Core, e: Option<LocalEvent>)
    requires Evolves(c, c', e) && |c'.queues| == |c.queues|
    ensures AllClosed(c) ==> AllClosed(c')
  {
  }

  lemma AdmitNextOk(s: State, t: nat)
    requires Inv(s) && t < |s.threads|
    ensures Inv(DoAdmitNext(s, t))
  {
    hide CoreOk, BusOk, WakesOk, PublicationsOk, ReportOk, Evolves, AdmissionRefusal;
    var pc := s.threads[t];
    assert PcOk(s.core, s.bus, s.publications, pc);
    if DoAdmitNext(s, t) != s {
      var i := pc.snapshot[|pc.done|];
      NextVisit(s.core, pc.event, pc.snapshot, pc.done);
      AdmitOk(s.core, i, pc.event);
      AdmitEvolves(s.core, i, pc.event);
      ReportExtends(s.core, pc.event, pc.snapshot, pc.done);
      AdmitChanges(s.core, i, pc.event);
      CoreMove(s, DoAdmitNext(s, t), t, Some(pc.event));
    }
  }

  lemma ReceivedStays(c: Core, i: nat, k: Key)
    requires CoreOk(c) && i < |c.queues| && k in c.queues[i].lanes && c.queues[i].lanes[k] != []
    ensures |Receive(c, i, k).queues| == |c.queues| && Outstanding(Receive(c, i, k).queues[i]) == Outstanding(c.queues[i])
  {
    hide Outstanding, PopMessage, QueueOk, Balanced;
    if Receive(c, i, k) != c {
      ReceiveOutstanding(c.queues[i], k, |c.tokens|);
    }
  }

  lemma ReceiveStepOk(s: State, t: nat, i: nat, k: Key)
    requires Inv(s) && t < |s.threads|
    ensures Inv(DoReceive(s, t, i, k))
    ensures var s' := DoReceive(s, t, i, k);
            s' != s ==>
              && i < |s.core.queues| && HeadReady(s.core.queues[i], k, s.clock) && OwesBump(s'.threads[t])
              && i < |s'.core.queues| && |s'.core.tokens| == |s.core.tokens| + 1
              && Outstanding(s'.core.queues[i]) == Outstanding(s.core.queues[i])
  {
    hide BusOk, WakesOk, PublicationsOk, ReportOk, Evolves, CoreOk, PopMessage, Outstanding;
    if DoReceive(s, t, i, k) != s {
      ReceivedStays(s.core, i, k);
      LedgersMatch(s);
      ReceiveOk(s.core, i, k);
      ReceiveEvolves(s.core, i, k);
      CoreMove(s, DoReceive(s, t, i, k), t, None);
    }
  }

  lemma SettleStepOk(s: State, t: nat, i: nat, h: nat, d: Disposition)
    requires Inv(s) && t < |s.threads|
    ensures Inv(DoSettle(s, t, i, h, d))
  {
    hide BusOk, WakesOk, PublicationsOk, ReportOk, Evolves, CoreOk;
    if DoSettle(s, t, i, h, d) != s {
      SettleOk(s.core, i, h, d);
      SettleEvolves(s.core, i, h, d);
      CoreMove(s, DoSettle(s, t, i, h, d), t, None);
    }
  }

  lemma CloseStepOk(s: State, t: nat, i: nat)
    requires Inv(s) && t < |s.threads|
    ensures Inv(DoClose(s, t, i))
    ensures Free(s.threads[t]) && i < |s.core.queues| ==>
              var s' := DoClose(s, t, i); i < |s'.core.queues| && s'.core.queues[i].closed && OwesBump(s'.threads[t])
  {
    hide BusOk, WakesOk, PublicationsOk, ReportOk, Evolves, CoreOk, Close;
    LedgersMatch(s);
    if Free(s.threads[t]) && i < |s.core.queues| == |s.core.ledgers| {
      var s' := DoClose(s, t, i);
      CloseOk(s.core, i);
      CloseChanges(s.core, i);
      CloseEvolves(s.core, i);
      CoreUnmoved(s.core);
      CoreMove(s, s', t, None);
    }
  }

  lemma SweepOk(s: State, t: nat, i: nat)
    requires Inv(s) && t < |s.threads|
    ensures Inv(DoSweep(s, t, i))
  {
    hide BusOk, WakesOk, PublicationsOk, ReportOk, Evolves, CoreOk, Close;
    var pc := s.threads[t];
    assert PcOk(s.core, s.bus, s.publications, pc);
    if DoSweep(s, t, i) != s {
      CloseOk(s.core, i);
      CloseChanges(s.core, i);
      CloseEvolves(s.core, i);
      CoreMove(s, DoSweep(s, t, i), t, None);
    }
  }

  // ----- steps under the registry lock -----

  lemma BusMove(s: State, s': State, t: nat)
    requires Inv(s) && OnlyMoves(s, s', t) && s'.core == s.core && s'.gate == s.gate && s.publications <= s'.publications
    requires BusEvolves(s.bus, s'.bus) && BusOk(s.core, s'.bus)
    requires PcOk(s.core, s'.bus, s'.publications, s'.threads[t])
    requires var p := PublicationOf(s'.threads[t]);
             p.None? || p == PublicationOf(s.threads[t]) || (p == Some(s.publications) && s.publications < s'.publications)
    requires InShutdown(s'.threads[t]) <==> InShutdown(s.threads[t])
    requires WillRecord(s'.threads[t]) ==> WillRecord(s.threads[t]) && s'.bus.outcome == s.bus.outcome
    requires s'.bus.outcome == s.bus.outcome || (WillRecord(s.threads[t]) && s'.bus.closed && AllClosed(s.core))
    requires OwesBump(s.threads[t]) ==> OwesBump(s'.threads[t]) || (s.bus.version < s'.bus.version && s'.threads[t].Notifying?)
    requires !s.threads[t].Notifying? && !s'.threads[t].Deciding? && !s'.threads[t].Parked?
    ensures Inv(s')
  {
    hide CoreOk, BusOk, PcOk, WakeOk, Evolves;
    LedgersMatch(s);
    CoreUnmoved(s.core);
    KeepPcs(s, s', t, None);
    KeepPublications(s, s', t, None);
    KeepShutdown(s, s', t);
    assert WakeOk(s', s'.threads[t]) by { NotWaiting(s', s'.threads[t]); }
    KeepWakes(s, s', t);
  }

  /** The registry without the ids in `gone`, and otherwise the same entries. */
  ghost predicate Restricted(bus: Bus, bus': Bus, gone: set<nat>) {
    && bus'.ids == bus.ids - gone
    && (forall topic | topic in bus'.topics :: SameBucketType(bus, bus', topic))
    && (forall topic, id :: Holds(bus', topic, id) <==> Holds(bus, topic, id) && id !in gone)
    && (forall topic, id | Holds(bus', topic, id) :: bus'.topics[topic].queues[id] == bus.topics[topic].queues[id])
  }

  predicate SameBucketType(bus: Bus, bus': Bus, topic: string)
    requires topic in bus'.topics
  {
    topic in bus.topics && bus'.topics[topic].queues != map[] && bus'.topics[topic].payloadType == bus.topics[topic].payloadType
  }

  lemma RestrictOk(c: Core, bus: Bus, bus': Bus, gone: set<nat>)
    requires BusOk(c, bus) && Restricted(bus, bus', gone)
    requires forall i | 0 <= i < |c.queues| && !c.queues[i].closed :: c.queues[i].id !in gone
    ensures BusOk(c, bus')
  {
  }

  /** Removing a closed queue leaves every other queue registered. */
  lemma DeregisterOk(c: Core, bus: Bus, i: nat)
    requires BusOk(c, bus) && i < |c.queues| && c.queues[i].closed
    ensures BusOk(c, Deregister(bus, c.queues[i], i))
  {
    hide EntriesOk, Deregister, Restricted;
    var q := c.queues[i];
    if IsRegistered(c, bus, i) {
      forall j | 0 <= j < |c.queues| && !c.queues[j].closed ensures c.queues[j].id != q.id {
        assert IsRegistered(c, bus, j);
      }
      DeregisterRestricts(bus, q, i);
      RestrictOk(c, bus, Deregister(bus, q, i), {q.id});
    } else {
      DeregisterStale(bus, q, i);
    }
  }

  lemma DeregisterStale(bus: Bus, q: Queue<nat>, i: nat)
    requires !(Holds(bus, q.topic, q.id) && bus.topics[q.topic].queues[q.id] == i)
    ensures Deregister(bus, q, i) == bus
  {
  }

  lemma DeregisterRestricts(bus: Bus, q: Queue<nat>, i: nat)
    requires IdsOk(bus) && Holds(bus, q.topic, q.id) && bus.topics[q.topic].queues[q.id] == i
    ensures Restricted(bus, Deregister(bus, q, i), {q.id})
  {
    hide IdsOk;
    var bus' := Deregister(bus, q, i);
    var rest := bus.topics[q.topic].queues - {q.id};
    assert forall topic | topic in bus'.topics :: SameBucketType(bus, bus', topic) by {
      BucketsFilled(bus);
    }
    forall topic, id ensures Holds(bus', topic, id) <==> Holds(bus, topic, id) && id != q.id {
      if topic == q.topic {
        assert id in rest <==> id in bus.topics[topic].queues && id != q.id;
      } else if Holds(bus, topic, id) {
        OneTopic(bus, topic, q.topic, id);
      }
    }
  }

  lemma BucketsFilled(bus: Bus)
    requires IdsOk(bus)
    ensures forall topic | topic in bus.topics :: bus.topics[topic].queues != map[]
  {
  }

  lemma OneTopic(bus: Bus, p: string, q: string, id: nat)
    requires IdsOk(bus) && Holds(bus, p, id)
    ensures Holds(bus, q, id) ==> p == q
  {
  }

  lemma UnregisterOk(s: State, t: nat)
    requires Inv(s) && t < |s.threads|
    ensures Inv(DoUnregister(s, t))
  {
    hide CoreOk, BusOk, WakesOk, PublicationsOk, ReportOk;
    var pc := s.threads[t];
    assert PcOk(s.core, s.bus, s.publications, pc);
    if pc.Closing? {
      DeregisterOk(s.core, s.bus, pc.queue);
      BusMove(s, DoUnregister(s, t), t);
    }
  }

  lemma SameEntries(c: Core, bus: Bus, bus': Bus)
    requires BusOk(c, bus) && bus'.topics == bus.topics && bus'.ids == bus.ids
    ensures BusOk(c, bus')
  {
    hide EntriesOk, OpenOk;
    assert forall topic, id :: Holds(bus', topic, id) <==> Holds(bus, topic, id);
    RestrictOk(c, bus, bus', {});
  }

  lemma AfterStable(c: Core, bus: Bus, bus': Bus, n: nat, after: After)
    requires AfterOk(c, bus, n, after) && BusEvolves(bus, bus')
    ensures AfterOk(c, bus', n, after)
  {
  }

  lemma BumpOk(s: State, t: nat)
    requires Inv(s) && t < |s.threads|
    ensures Inv(DoBump(s, t))
  {
    hide CoreOk, BusOk, WakesOk, PublicationsOk, AfterOk;
    var pc := s.threads[t];
    assert PcOk(s.core, s.bus, s.publications, pc);
    if pc.Bumping? {
      var s' := DoBump(s, t);
      SameEntries(s.core, s.bus, s'.bus);
      AfterStable(s.core, s.bus, s'.bus, s.publications, pc.after);
      BusMove(s, s', t);
    }
  }

  lemma CloseAdmissionOk(s: State, t: nat)
    requires Inv(s) && t < |s.threads|
    ensures Inv(DoCloseAdmission(s, t)) && Inv(DoRecord(s, t))
  {
    hide CoreOk, BusOk, WakesOk, PublicationsOk, ReportOk;
    var pc := s.threads[t];
    assert PcOk(s.core, s.bus, s.publications, pc);
    if pc.Entering? {
      SameEntries(s.core, s.bus, DoCloseAdmission(s, t).bus);
      BusMove(s, DoCloseAdmission(s, t), t);
    }
    if pc.Recording? {
      SameEntries(s.core, s.bus, DoRecord(s, t).bus);
      BusMove(s, DoRecord(s, t), t);
    }
  }

  lemma RotatedOk(c: Core, bus: Bus, topic: string)
    requires BusOk(c, bus)
    ensures BusOk(c, Rotated(bus, topic))
  {
    hide BusOk, PublishOrder;
    assert IdsOk(bus) by { IdsOfBus(c, bus); }
    BucketsFilled(bus);
    var bus' := Rotated(bus, topic);
    assert forall p | p in bus.topics :: p in bus'.topics && bus'.topics[p].queues == bus.topics[p].queues
                                         && bus'.topics[p].payloadType == bus.topics[p].payloadType;
    assert forall p, id :: Holds(bus', p, id) <==> Holds(bus, p, id);
    RestrictOk(c, bus, bus', {});
  }

  lemma IdsOfBus(c: Core, bus: Bus)
    requires BusOk(c, bus)
    ensures IdsOk(bus)
  {
  }

  /** The snapshot holds only queues of the published type, each id once: the basis of type safety under races. */
  lemma SnapshotOk(c: Core, bus: Bus, e: LocalEvent, topic: string)
    requires BusOk(c, bus) && |c.queues| == |c.ledgers| && !TypeConflict(bus, topic, e.payloadType)
    requires !RequiresWeight(c.budget) ==> e.weight == 0
    requires forall i, d | 0 <= i < |c.ledgers| && d in c.ledgers[i].admitted :: d.publication < e.publication
    ensures ReportOk(c, e, Snapshot(bus, topic), [])
  {
    hide IdsOk, OpenOk, PublishOrder;
    var snapshot := Snapshot(bus, topic);
    var m := Registered(bus, topic);
    var order := PublishOrder(m.Keys, if topic in bus.topics then bus.topics[topic].lastStart else None);
    forall j | 0 <= j < |snapshot| ensures Compatible(c, e, snapshot[j]) && c.queues[snapshot[j]].id == order[j] {
      assert order[j] in m;
      assert EntryFor(c, bus, topic, order[j]);
    }
  }

  lemma BeginPublishOk(s: State, t: nat, a: Step)
    requires Inv(s) && t < |s.threads| && a.BeginPublish?
    ensures Inv(DoBeginPublish(s, t, a))
  {
    hide CoreOk, BusOk, WakesOk, ReportOk, Snapshot;
    var s' := DoBeginPublish(s, t, a);
    if s' != s {
      LedgersMatch(s);
      SnapshotOk(s.core, s.bus, s'.threads[t].event, a.topic);
      RotatedOk(s.core, s.bus, a.topic);
      BusMove(s, s', t);
    }
  }

  // ----- subscribe and notify -----

  lemma RegisterOk(c: Core, bus: Bus, id: nat, topic: string, payloadType: nat, capacity: nat)
    requires BusOk(c, bus) && !TypeConflict(bus, topic, payloadType) && id !in bus.ids
    ensures BusOk(AddQueue(c, id, topic, payloadType, capacity), Register(bus, id, topic, payloadType, |c.queues|))
  {
    hide IdsOk, Register;
    var c' := AddQueue(c, id, topic, payloadType, capacity);
    var bus' := Register(bus, id, topic, payloadType, |c.queues|);
    assert forall p | Holds(bus, p, id) :: EntryFor(c, bus, p, id);
    RegisterAdds(bus, id, topic, payloadType, |c.queues|);
    RegisterIds(bus, bus', id, topic);
    forall p, j | Holds(bus', p, j) ensures EntryFor(c', bus', p, j) {
      if j != id {
        assert EntryFor(c, bus, p, j);
      }
    }
    forall i | 0 <= i < |c'.queues| && !c'.queues[i].closed ensures IsRegistered(c', bus', i) {
      if i < |c.queues| {
        assert IsRegistered(c, bus, i);
      }
    }
  }

  /** The registry with one more entry. */
  lemma RegisterAdds(bus: Bus, id: nat, topic: string, payloadType: nat, queue: nat)
    requires !TypeConflict(bus, topic, payloadType) && forall p :: !Holds(bus, p, id)
    ensures var bus' := Register(bus, id, topic, payloadType, queue);
            && bus'.ids == bus.ids + {id}
            && (forall p | p in bus'.topics :: bus'.topics[p].queues == map[] ==> p in bus.topics && bus.topics[p].queues == map[])
            && (forall p, j :: Holds(bus', p, j) <==> (p == topic && j == id) || Holds(bus, p, j))
            && (forall p, j | Holds(bus, p, j) :: bus'.topics[p].queues[j] == bus.topics[p].queues[j]
                                                  && bus'.topics[p].payloadType == bus.topics[p].payloadType)
            && bus'.topics[topic].queues[id] == queue && bus'.topics[topic].payloadType == payloadType
  {
    var bus' := Register(bus, id, topic, payloadType, queue);
    assert Holds(bus', topic, id);
    forall p, j | Holds(bus, p, j) ensures Holds(bus', p, j) && bus'.topics[p].queues[j] == bus.topics[p].queues[j] {
      assert j != id;
    }
  }

  lemma RegisterIds(bus: Bus, bus': Bus, id: nat, topic: string)
    requires IdsOk(bus) && bus'.ids == bus.ids + {id} && forall p :: !Holds(bus, p, id)
    requires forall p | p in bus'.topics :: bus'.topics[p].queues == map[] ==> p in bus.topics && bus.topics[p].queues == map[]
    requires forall p, j :: Holds(bus', p, j) <==> (p == topic && j == id) || Holds(bus, p, j)
    ensures IdsOk(bus')
  {
    hide Holds;
    forall j | j in bus'.ids ensures Listed(bus', j) {
      if j == id {
        assert Holds(bus', topic, id);
      } else {
        assert Listed(bus, j);
        var p :| Holds(bus, p, j);
        assert Holds(bus', p, j);
      }
    }
  }

  lemma SubscribeOk(s: State, t: nat, id: nat, topic: string, payloadType: nat)
    requires Inv(s) && t < |s.threads|
    ensures Inv(DoSubscribe(s, t, id, topic, payloadType))
    ensures s.bus.closed || TypeConflict(s.bus, topic, payloadType) || id in s.bus.ids ==>
              DoSubscribe(s, t, id, topic, payloadType) == s
    ensures Free(s.threads[t]) && !s.bus.closed && !TypeConflict(s.bus, topic, payloadType) && id !in s.bus.ids ==>
              var s' := DoSubscribe(s, t, id, topic, payloadType);
              && |s'.core.queues| == |s.core.queues| + 1 && s'.core.queues[..|s.core.queues|] == s.core.queues
              && IsRegistered(s'.core, s'.bus, |s.core.queues|)
  {
    hide CoreOk, BusOk, ReportOk, PcOk, WakeOk;
    var s' := DoSubscribe(s, t, id, topic, payloadType);
    if s' != s {
      LedgersMatch(s);
      AddQueueOk(s.core, id, topic, payloadType, s.capacity);
      AddEvolves(s.core, id, topic, payloadType, s.capacity);
      RegisterOk(s.core, s.bus, id, topic, payloadType, s.capacity);
      IdleOk(s');
      KeepPcs(s, s', t, None);
      AddPublications(s, s', t);
      KeepShutdown(s, s', t);
      KeepWakes(s, s', t);
    }
  }

  lemma IdleOk(s: State)
    ensures PcOk(s.core, s.bus, s.publications, Idle) && WakeOk(s, Idle)
  {
  }

  lemma AddPublications(s: State, s': State, t: nat)
    requires PublicationsOk(s) && OnlyMoves(s, s', t) && s'.threads[t] == Idle && s'.publications == s.publications
    requires |s'.core.ledgers| == |s.core.ledgers| + 1 && s'.core.ledgers[..|s.core.ledgers|] == s.core.ledgers
    requires s'.core.ledgers[|s.core.ledgers|].admitted == multiset{}
    ensures PublicationsOk(s')
  {
  }

  lemma NotifyOk(s: State, t: nat)
    requires Inv(s) && t < |s.threads|
    ensures Inv(DoNotify(s, t))
  {
    hide CoreOk, BusOk, PcOk, WakeOk, PublicationsOk, ShutdownOk, Unparked, Released, Resume;
    if s.threads[t].Notifying? {
      var s' := DoNotify(s, t);
      forall u | 0 <= u < |s'.threads|
        ensures PcOk(s'.core, s'.bus, s'.publications, s'.threads[u]) && Released(s.threads[u], s'.threads[u], u == t)
      {
        NotifyPc(s, t, u);
      }
      NotifyOwing(s, s', t);
      NotifyPublications(s, s', t);
      NotifyShutdown(s, s', t);
      forall u | 0 <= u < |s'.threads| ensures WakeOk(s', s'.threads[u]) {
        NotifyWake(s, s', u, u == t);
      }
    }
  }

  /** What a notification does to one thread. */
  predicate Released(pc: Pc, pc': Pc, notifier: bool) {
    if notifier then pc.Notifying? && pc' == Resume(pc.after)
    else if pc.Parked? then pc' == Reading(pc.wait)
    else pc' == pc
  }

  lemma NotifyPc(s: State, t: nat, u: nat)
    requires t < |s.threads| && u < |s.threads| && s.threads[t].Notifying? && PcOk(s.core, s.bus, s.publications, s.threads[u])
    ensures PcOk(s.core, s.bus, s.publications, DoNotify(s, t).threads[u])
    ensures Released(s.threads[u], DoNotify(s, t).threads[u], u == t)
  {
  }

  lemma NotifyPublications(s: State, s': State, t: nat)
    requires PublicationsOk(s) && s'.core == s.core && s'.publications == s.publications && |s'.threads| == |s.threads|
    requires forall u | 0 <= u < |s.threads| :: Released(s.threads[u], s'.threads[u], u == t)
    ensures PublicationsOk(s')
  {
    assert forall u | 0 <= u < |s.threads| :: PublicationOf(s'.threads[u]) == PublicationOf(s.threads[u])
                                              || PublicationOf(s'.threads[u]).None?;
  }

  lemma NotifyShutdown(s: State, s': State, t: nat)
    requires ShutdownOk(s) && s'.core == s.core && s'.bus == s.bus && |s'.threads| == |s.threads| && t < |s.threads|
    requires forall u | 0 <= u < |s.threads| :: Released(s.threads[u], s'.threads[u], u == t)
    requires s.threads[t].Notifying? && s'.gate == if s.threads[t].after.OpenGate? then None else s.gate
    ensures ShutdownOk(s')
  {
    forall u | 0 <= u < |s.threads|
      ensures WillRecord(s'.threads[u]) ==> WillRecord(s.threads[u])
      ensures InShutdown(s'.threads[u]) <==> InShutdown(s.threads[u]) && !(u == t && s.threads[t].after.OpenGate?)
    {
      assert Released(s.threads[u], s'.threads[u], u == t);
    }
  }

  lemma NotifyWake(s: State, s': State, u: nat, notifier: bool)
    requires u < |s.threads| && |s'.threads| == |s.threads| && s'.core == s.core && s'.bus == s.bus
    requires WakeOk(s, s.threads[u]) && (SomeOwesBump(s.threads) ==> SomeOwesBump(s'.threads))
    requires Released(s.threads[u], s'.threads[u], notifier)
    ensures WakeOk(s', s'.threads[u])
  {
  }

  lemma NotifyOwing(s: State, s': State, t: nat)
    requires |s'.threads| == |s.threads| && forall u | 0 <= u < |s.threads| :: Released(s.threads[u], s'.threads[u], u == t)
    ensures SomeOwesBump(s.threads) ==> SomeOwesBump(s'.threads)
  {
  }

  lemma TickOk(s: State)
    requires Inv(s)
    ensures Inv(s.(clock := s.clock + 1))
  {
    hide CoreOk, BusOk, PcOk, PublicationsOk, ShutdownOk, WakeOk;
    var s' := s.(clock := s.clock + 1);
    TickFacts(s, s');
    forall t | 0 <= t < |s.threads| ensures PcOk(s'.core, s'.bus, s'.publications, s'.threads[t]) && WakeOk(s', s'.threads[t]) {
      assert PcOk(s.core, s.bus, s.publications, s.threads[t]) && WakeOk(s, s.threads[t]);
    }
  }

  lemma TickFacts(s: State, s': State)
    requires s' == s.(clock := s'.clock)
    ensures PublicationsOk(s) ==> PublicationsOk(s')
    ensures ShutdownOk(s) ==> ShutdownOk(s')
    ensures forall pc :: WakeOk(s, pc) ==> WakeOk(s', pc)
  {
    hide AllClosed, Busy, SomeOwesBump, SomeOwesNotify, InShutdown, WillRecord, PublicationOf;
  }

  // ----- runs -----

  lemma StepOk(s: State, t: nat, a: Step)
    requires Inv(s)
    ensures Inv(Next(s, t, a))
  {
    hide Inv, DoSubscribe, DoBeginPublish, DoAdmitNext, DoEndPublish, DoReceive, DoSettle, DoClose, DoUnregister, DoBump,
         DoNotify, DoRead, DoCheck, DoFinishCheck, DoPark, DoTimeOut, DoWake, DoBeginShutdown, DoCheckOutcome,
         DoCloseAdmission, DoList, DoSweep, DoFinishSweep, DoRecord;
    if t < |s.threads| {
      match a {
        case Tick => TickOk(s);
        case Subscribe(id, topic, payloadType) => SubscribeOk(s, t, id, topic, payloadType);
        case BeginPublish(_, _, _, _, _, _) => BeginPublishOk(s, t, a);
        case AdmitNext => AdmitNextOk(s, t);
        case EndPublish => EndPublishOk(s, t);
        case ReceiveHead(i, k) => ReceiveStepOk(s, t, i, k);
        case SettleToken(i, h, d) => SettleStepOk(s, t, i, h, d);
        case CloseNow(i) => CloseStepOk(s, t, i);
        case Unregister => UnregisterOk(s, t);
        case Bump => BumpOk(s, t);
        case NotifyAll => NotifyOk(s, t);
        case BeginWait(topic, bounded) => if Free(s.threads[t]) { BeginWaitOk(s, t, topic, bounded); }
        case ReadQueues => ReadOk(s, t);
        case CheckQueue(i) => CheckOk(s, t, i);
        case FinishCheck => CheckOk(s, t, 0);
        case ParkOrRetry => ParkOk(s, t);
        case TimeOut => UnparkOk(s, t);
        case WakeSpuriously => UnparkOk(s, t);
        case BeginShutdown(mode) => GateOk(s, t, mode);
        case CheckOutcome => GateOk(s, t, Immediate);
        case CloseAdmission => CloseAdmissionOk(s, t);
        case ListQueues => ListOk(s, t);
        case SweepQueue(i) => SweepOk(s, t, i);
        case FinishSweep => ListOk(s, t);
        case RecordOutcome => CloseAdmissionOk(s, t);
      }
    }
  }

  lemma {:induction false} RunOk(s: State, steps: seq<(nat, Step)>)
    requires Inv(s)
    ensures Inv(Run(s, steps))
  {
    hide Inv, Next;
    if steps != [] {
      var last := steps[|steps| - 1];
      RunOk(s, steps[..|steps| - 1]);
      StepOk(Run(s, steps[..|steps| - 1]), last.0, last.1);
    }
  }
}
