/**
 * All runs of the shutdown coordinator: any number of tickets, blocking waits and futures, any calls of finish
 * and abort_start, in any interleaving of the critical sections. A wait and a future borrow their ticket, so a
 * ticket is dropped only when none of its own is in progress.
 */
module ShutdownRuns {
  import opened Prelude
  import opened ShutdownCoordinators

  datatype Ticket = Ticket(generation: nat, live: bool)

  datatype FuturePc = Fresh | Waiting | Resolved(result: Option<ShutdownResult>) | Dropped

  datatype Future = Future(ticket: nat, token: Option<nat>, waker: nat, pc: FuturePc)

  datatype WaitPc = Checking | Parked | Returned(timedOut: bool, result: Option<ShutdownResult>)

  datatype Wait = Wait(ticket: nat, bounded: bool, pc: WaitPc)

  /**
   * `completed` logs the result of every effective completion, `effective` their order, `leaders` the generation
   * of every call of begin that returned leader, `owed` the drained wakers not yet woken by registration token,
   * and `woken` how often each registration was woken.
   */
  datatype World = World(
    c: Coordinator,
    tickets: seq<Ticket>,
    futures: seq<Future>,
    waits: seq<Wait>,
    completed: map<nat, ShutdownResult>,
    effective: seq<nat>,
    leaders: seq<nat>,
    owed: Wakers,
    woken: map<nat, nat>)

  datatype Step =
    | BeginShutdown(mode: ShutdownMode)
    | CompleteShutdown(generation: nat, result: ShutdownResult)
    | WakeOne(token: nat)
    | StartFuture(ticket: nat)
    | PollFuture(future: nat, waker: nat)
    | DropFuture(future: nat)
    | StartWait(ticket: nat, bounded: bool)
    | CheckWait(wait: nat)
    | TimeOutWait(wait: nat)
    | WakeSpuriously(wait: nat)
    | DropTicket(ticket: nat)

  function Init(): (w: World) {
    World(NewCoordinator(), [], [], [], map[], [], [], map[], map[])
  }

  function Wakes(w: World, token: nat): (n: nat) {
    if token in w.woken then w.woken[token] else 0
  }

  function DoBegin(w: World, mode: ShutdownMode): (r: World) {
    var c := Begin(w.c, mode);
    w.(c := c, tickets := w.tickets + [Ticket(c.generation, true)],
       leaders := if w.c.active then w.leaders else w.leaders + [c.generation])
  }

  /** `notify_all` is called with the lock held: every parked wait will check again. */
  function Unparked(waits: seq<Wait>): (r: seq<Wait>)
    ensures |r| == |waits|
  {
    seq(|waits|, i requires 0 <= i < |waits| => if waits[i].pc.Parked? then waits[i].(pc := Checking) else waits[i])
  }

  function DoComplete(w: World, g: nat, result: ShutdownResult): (r: World) {
    if !IsActive(w.c, g) then w
    else w.(c := Completed(w.c, g, result), waits := Unparked(w.waits),
            completed := w.completed[g := result], effective := w.effective + [g],
            owed := w.owed + WakersOf(w.c, g))
  }

  function DoWake(w: World, token: nat): (r: World) {
    if token !in w.owed then w
    else w.(owed := w.owed - {token}, woken := w.woken[token := Wakes(w, token) + 1])
  }

  predicate LiveTicket(w: World, i: nat) {
    i < |w.tickets| && w.tickets[i].live
  }

  function DoStartFuture(w: World, i: nat): (r: World) {
    if !LiveTicket(w, i) then w else w.(futures := w.futures + [Future(i, None, 0, Fresh)])
  }

  predicate Borrowing(f: Future) {
    f.pc.Fresh? || f.pc.Waiting?
  }

  function DoPoll(w: World, f: nat, waker: nat): (r: World) {
    if f >= |w.futures| || !Borrowing(w.futures[f]) || w.futures[f].ticket >= |w.tickets| then w
    else
      var future := w.futures[f];
      var g := w.tickets[future.ticket].generation;
      var future' := match PollAnswer(w.c, g, future.token)
                     case Ready(result) => future.(pc := Resolved(result))
                     case Pending(k) => future.(pc := Waiting, token := Some(k), waker := waker);
      w.(c := PollResult(w.c, g, future.token, waker), futures := w.futures[f := future'])
  }

  /** Dropping the registration, after an answer or in the middle of a wait. */
  function DoDropFuture(w: World, f: nat): (r: World) {
    if f >= |w.futures| || w.futures[f].pc.Dropped? || w.futures[f].ticket >= |w.tickets| then w
    else
      var future := w.futures[f];
      w.(c := if future.token.Some? then Unregister(w.c, w.tickets[future.ticket].generation, future.token.value) else w.c,
         futures := w.futures[f := future.(pc := Dropped)])
  }

  function DoStartWait(w: World, i: nat, bounded: bool): (r: World) {
    if !LiveTicket(w, i) then w else w.(waits := w.waits + [Wait(i, bounded, Checking)])
  }

  function DoCheck(w: World, n: nat): (r: World) {
    if n >= |w.waits| || !w.waits[n].pc.Checking? || w.waits[n].ticket >= |w.tickets| then w
    else
      var g := w.tickets[w.waits[n].ticket].generation;
      w.(waits := w.waits[n := w.waits[n].(pc := if IsActive(w.c, g) then Parked else Returned(false, ResultOf(w.c, g)))])
  }

  /** The deadline is only looked at while the generation is still active. */
  function DoTimeOut(w: World, n: nat): (r: World) {
    if n >= |w.waits| || !w.waits[n].pc.Checking? || !w.waits[n].bounded || w.waits[n].ticket >= |w.tickets|
       || !IsActive(w.c, w.tickets[w.waits[n].ticket].generation) then w
    else w.(waits := w.waits[n := w.waits[n].(pc := Returned(true, None))])
  }

  function DoWakeWait(w: World, n: nat): (r: World) {
    if n >= |w.waits| || !w.waits[n].pc.Parked? then w
    else w.(waits := w.waits[n := w.waits[n].(pc := Checking)])
  }

  predicate Borrowed(w: World, i: nat) {
    || (exists f | 0 <= f < |w.futures| :: w.futures[f].ticket == i && Borrowing(w.futures[f]))
    || (exists n | 0 <= n < |w.waits| :: w.waits[n].ticket == i && !w.waits[n].pc.Returned?)
  }

  function DoDropTicket(w: World, i: nat): (r: World) {
    if !LiveTicket(w, i) || Borrowed(w, i) then w
    else w.(c := Release(w.c, w.tickets[i].generation), tickets := w.tickets[i := w.tickets[i].(live := false)])
  }

  function Next(w: World, a: Step): (r: World) {
    match a
    case BeginShutdown(mode) => DoBegin(w, mode)
    case CompleteShutdown(g, result) => DoComplete(w, g, result)
    case WakeOne(token) => DoWake(w, token)
    case StartFuture(i) => DoStartFuture(w, i)
    case PollFuture(f, waker) => DoPoll(w, f, waker)
    case DropFuture(f) => DoDropFuture(w, f)
    case StartWait(i, bounded) => DoStartWait(w, i, bounded)
    case CheckWait(n) => DoCheck(w, n)
    case TimeOutWait(n) => DoTimeOut(w, n)
    case WakeSpuriously(n) => DoWakeWait(w, n)
    case DropTicket(i) => DoDropTicket(w, i)
  }

  function Run(w: World, steps: seq<Step>): (r: World) {
    if steps == [] then w else Next(Run(w, steps[..|steps| - 1]), steps[|steps| - 1])
  }

  // ----- the invariant -----

  /** Unreleased tickets of a generation. */
  function LiveCount(tickets: seq<Ticket>, g: nat): (n: nat) {
    if tickets == [] then 0
    else LiveCount(tickets[..|tickets| - 1], g) + if tickets[|tickets| - 1] == Ticket(g, true) then 1 else 0
  }

  ghost predicate WaitersOk(w: World) {
    && (forall g | g in w.c.waiters :: w.c.waiters[g] == LiveCount(w.tickets, g) > 0)
    && (forall g :: LiveCount(w.tickets, g) > 0 ==> g in w.c.waiters)
  }

  predicate TicketsOk(w: World) {
    forall i | 0 <= i < |w.tickets| :: 1 <= w.tickets[i].generation <= w.c.generation
  }

  ghost predicate ResultsOk(w: World) {
    && (forall g :: g in w.c.results <==> g in w.c.waiters && !IsActive(w.c, g))
    && (forall g | g in w.c.results :: g in w.completed && w.c.results[g] == w.completed[g])
  }

  ghost predicate LogOk(w: World) {
    && (w.c.active ==> w.c.generation >= 1)
    && (forall g :: g in w.completed <==> 1 <= g <= w.c.generation && !IsActive(w.c, g))
    && (forall g :: g in w.effective <==> g in w.completed)
    && (forall i, j | 0 <= i < j < |w.effective| :: w.effective[i] != w.effective[j])
    && |w.leaders| == w.c.generation && (forall i | 0 <= i < |w.leaders| :: w.leaders[i] == i + 1)
  }

  /** Registrations exist only for the active generation, and were not woken or drained yet. */
  predicate WakersOk(w: World) {
    && (forall g | g in w.c.wakers :: IsActive(w.c, g) && w.c.wakers[g] != map[])
    && (forall k | k in WakersOf(w.c, w.c.generation) :: k <= w.c.nextRegistration && k !in w.owed && Wakes(w, k) == 0)
    && (forall k | k in w.owed :: k <= w.c.nextRegistration && Wakes(w, k) == 0)
    && (forall k | k in w.woken :: k <= w.c.nextRegistration && w.woken[k] == 1)
  }

  predicate ResultIs(w: World, g: nat, result: Option<ShutdownResult>) {
    g in w.completed && result == Some(w.completed[g])
  }

  /** A waiting future is registered with its latest waker, or was drained with it, or was woken. */
  predicate Signalled(w: World, g: nat, token: nat, waker: nat) {
    if IsActive(w.c, g) then token in WakersOf(w.c, g) && WakersOf(w.c, g)[token] == waker
    else (token in w.owed && w.owed[token] == waker) || Wakes(w, token) == 1
  }

  predicate FutureOk(w: World, f: Future) {
    && f.ticket < |w.tickets|
    && (f.token.Some? ==> 1 <= f.token.value <= w.c.nextRegistration)
    && (Borrowing(f) ==> w.tickets[f.ticket].live)
    && (f.pc.Fresh? ==> f.token.None?)
    && (f.pc.Waiting? ==> f.token.Some? && Signalled(w, w.tickets[f.ticket].generation, f.token.value, f.waker))
    && (f.pc.Resolved? ==> ResultIs(w, w.tickets[f.ticket].generation, f.pc.result))
  }

  predicate WaitOk(w: World, n: Wait) {
    && n.ticket < |w.tickets|
    && (!n.pc.Returned? ==> w.tickets[n.ticket].live)
    && (n.pc.Parked? ==> IsActive(w.c, w.tickets[n.ticket].generation))
    && (n.pc.Returned? && !n.pc.timedOut ==> ResultIs(w, w.tickets[n.ticket].generation, n.pc.result))
  }

  predicate FuturesOk(w: World) {
    && (forall f | 0 <= f < |w.futures| :: FutureOk(w, w.futures[f]))
    && (forall e, f | 0 <= e < f < |w.futures| && w.futures[e].token.Some? :: w.futures[e].token != w.futures[f].token)
  }

  predicate WaitsOk(w: World) {
    forall n | 0 <= n < |w.waits| :: WaitOk(w, w.waits[n])
  }

  ghost predicate Inv(w: World) {
    WaitersOk(w) && TicketsOk(w) && ResultsOk(w) && LogOk(w) && WakersOk(w) && FuturesOk(w) && WaitsOk(w)
  }

  // ----- ticket counts -----

  lemma {:induction false} CountDrop(tickets: seq<Ticket>, i: nat, g: nat)
    requires i < |tickets| && tickets[i].live
    ensures LiveCount(tickets[i := tickets[i].(live := false)], g) == LiveCount(tickets, g) - if tickets[i].generation == g then 1 else 0
  {
    var last := |tickets| - 1;
    var tickets' := tickets[i := tickets[i].(live := false)];
    if i == last {
      assert tickets'[..last] == tickets[..last];
    } else {
      CountDrop(tickets[..last], i, g);
      assert tickets'[..last] == tickets[..last][i := tickets[i].(live := false)];
    }
  }

  lemma {:induction false} CountLive(tickets: seq<Ticket>, i: nat)
    requires i < |tickets| && tickets[i].live
    ensures LiveCount(tickets, tickets[i].generation) > 0
  {
    if i < |tickets| - 1 {
      CountLive(tickets[..|tickets| - 1], i);
    }
  }

  /** The result of a generation that ended is there for every ticket still held on it. */
  lemma LiveResult(w: World, i: nat)
    requires WaitersOk(w) && ResultsOk(w) && LiveTicket(w, i) && !IsActive(w.c, w.tickets[i].generation)
    ensures var g := w.tickets[i].generation; g in w.c.results && ResultIs(w, g, Some(w.c.results[g]))
  {
    CountLive(w.tickets, i);
  }

  // ----- one lemma for each step -----

  lemma BeginOk(w: World, mode: ShutdownMode)
    requires Inv(w)
    ensures Inv(DoBegin(w, mode))
  {
    hide LiveCount, WaitersOk, TicketsOk, ResultsOk, LogOk, WakersOk, FuturesOk, WaitsOk;
    BeginWaiters(w, mode);
    BeginResults(w, mode);
    BeginLog(w, mode);
    BeginFutures(w, mode);
    BeginWakers(w, mode);
    BeginWaits(w, mode);
  }

  lemma BeginWaiters(w: World, mode: ShutdownMode)
    requires WaitersOk(w) && TicketsOk(w)
    ensures WaitersOk(DoBegin(w, mode))
  {
  }

  lemma BeginResults(w: World, mode: ShutdownMode)
    requires ResultsOk(w) && TicketsOk(w) && LogOk(w)
    ensures ResultsOk(DoBegin(w, mode)) && TicketsOk(DoBegin(w, mode))
  {
  }

  lemma BeginLog(w: World, mode: ShutdownMode)
    requires LogOk(w)
    ensures LogOk(DoBegin(w, mode))
  {
  }

  lemma BeginFutures(w: World, mode: ShutdownMode)
    requires TicketsOk(w) && WakersOk(w) && FuturesOk(w)
    ensures FuturesOk(DoBegin(w, mode))
  {
  }

  lemma BeginWakers(w: World, mode: ShutdownMode)
    requires WakersOk(w)
    ensures WakersOk(DoBegin(w, mode))
  {
  }

  lemma BeginWaits(w: World, mode: ShutdownMode)
    requires TicketsOk(w) && WaitsOk(w)
    ensures WaitsOk(DoBegin(w, mode))
  {
  }

  lemma CompleteOk(w: World, g: nat, result: ShutdownResult)
    requires Inv(w)
    ensures Inv(DoComplete(w, g, result))
  {
    hide WaitersOk, ResultsOk, LogOk, WakersOk, FuturesOk, WaitsOk, LiveCount;
    if IsActive(w.c, g) {
      CompleteResults(w, g, result);
      CompleteLog(w, g, result);
      CompleteWakers(w, g, result);
      CompleteFutures(w, g, result);
      CompleteWaits(w, g, result);
    }
  }

  lemma CompleteResults(w: World, g: nat, result: ShutdownResult)
    requires Inv(w) && IsActive(w.c, g)
    ensures WaitersOk(DoComplete(w, g, result)) && TicketsOk(DoComplete(w, g, result)) && ResultsOk(DoComplete(w, g, result))
  {
    hide LiveCount, LogOk, WakersOk, FuturesOk, WaitsOk;
  }

  lemma CompleteLog(w: World, g: nat, result: ShutdownResult)
    requires LogOk(w) && IsActive(w.c, g)
    ensures LogOk(DoComplete(w, g, result))
  {
  }

  lemma CompleteWakers(w: World, g: nat, result: ShutdownResult)
    requires WakersOk(w) && IsActive(w.c, g)
    ensures WakersOk(DoComplete(w, g, result))
  {
  }

  lemma CompleteFutures(w: World, g: nat, result: ShutdownResult)
    requires Inv(w) && IsActive(w.c, g)
    ensures FuturesOk(DoComplete(w, g, result))
  {
    hide WaitersOk, ResultsOk, WaitsOk, LiveCount;
    var w' := DoComplete(w, g, result);
    forall f | 0 <= f < |w'.futures| ensures FutureOk(w', w'.futures[f]) {
      assert FutureOk(w, w.futures[f]);
    }
  }

  lemma CompleteWaits(w: World, g: nat, result: ShutdownResult)
    requires WaitsOk(w) && LogOk(w) && IsActive(w.c, g)
    ensures WaitsOk(DoComplete(w, g, result))
  {
  }

  lemma WakeOk(w: World, token: nat)
    requires Inv(w)
    ensures Inv(DoWake(w, token))
  {
    hide WaitersOk, ResultsOk, LogOk, LiveCount;
    if token in w.owed {
      var w' := DoWake(w, token);
      assert WaitersOk(w') && ResultsOk(w') && LogOk(w') by { SameCoordinator(w, w'); }
      forall f | 0 <= f < |w'.futures| ensures FutureOk(w', w'.futures[f]) {
        assert FutureOk(w, w.futures[f]);
      }
      forall n | 0 <= n < |w'.waits| ensures WaitOk(w', w'.waits[n]) {
        assert WaitOk(w, w.waits[n]);
      }
    }
  }

  lemma SameCoordinator(w: World, w': World)
    requires w'.c == w.c && w'.tickets == w.tickets && w'.completed == w.completed
    requires w'.effective == w.effective && w'.leaders == w.leaders
    ensures WaitersOk(w) ==> WaitersOk(w')
    ensures ResultsOk(w) ==> ResultsOk(w')
    ensures LogOk(w) ==> LogOk(w')
  {
  }

  lemma StartOk(w: World, i: nat, bounded: bool)
    requires Inv(w)
    ensures Inv(DoStartFuture(w, i)) && Inv(DoStartWait(w, i, bounded))
  {
    hide WaitersOk, ResultsOk, LogOk, LiveCount, Signalled, ResultIs;
    if LiveTicket(w, i) {
      var f' := DoStartFuture(w, i);
      SameCoordinator(w, f');
      SameFacts(w, f');
      forall f | 0 <= f < |f'.futures| ensures FutureOk(f', f'.futures[f]) {
        assert f < |w.futures| ==> FutureOk(w, w.futures[f]);
      }
      forall n | 0 <= n < |w.waits| ensures WaitOk(f', w.waits[n]) {
        assert WaitOk(w, w.waits[n]);
      }
      StartWaitOk(w, i, bounded);
    }
  }

  lemma StartWaitOk(w: World, i: nat, bounded: bool)
    requires Inv(w) && LiveTicket(w, i)
    ensures Inv(DoStartWait(w, i, bounded))
  {
    hide WaitersOk, ResultsOk, LogOk, LiveCount, Signalled, ResultIs;
    var w' := DoStartWait(w, i, bounded);
    SameCoordinator(w, w');
    SameFacts(w, w');
    forall f | 0 <= f < |w'.futures| ensures FutureOk(w', w'.futures[f]) {
      assert FutureOk(w, w.futures[f]);
    }
    forall n | 0 <= n < |w'.waits| ensures WaitOk(w', w'.waits[n]) {
      assert n < |w.waits| ==> WaitOk(w, w.waits[n]);
    }
  }

  lemma SameFacts(w: World, w': World)
    requires w'.c == w.c && w'.owed == w.owed && w'.woken == w.woken && w'.completed == w.completed
    ensures forall g, k, waker | Signalled(w, g, k, waker) :: Signalled(w', g, k, waker)
    ensures forall g, r | ResultIs(w, g, r) :: ResultIs(w', g, r)
    ensures WakersOk(w) ==> WakersOk(w')
  {
  }

  lemma WaitStepOk(w: World, w': World, n: nat, pc: WaitPc)
    requires Inv(w) && n < |w.waits| && w' == w.(waits := w.waits[n := w.waits[n].(pc := pc)])
    requires WaitOk(w, w.waits[n].(pc := pc))
    ensures Inv(w')
  {
    hide WaitersOk, ResultsOk, LogOk, LiveCount, Signalled, ResultIs;
    SameCoordinator(w, w');
    SameFacts(w, w');
    forall f | 0 <= f < |w'.futures| ensures FutureOk(w', w'.futures[f]) {
      assert FutureOk(w, w.futures[f]);
    }
    forall m | 0 <= m < |w'.waits| ensures WaitOk(w', w'.waits[m]) {
      assert WaitOk(w, w.waits[m]);
    }
  }

  lemma CheckOk(w: World, n: nat)
    requires Inv(w)
    ensures Inv(DoCheck(w, n)) && Inv(DoTimeOut(w, n)) && Inv(DoWakeWait(w, n))
  {
    hide WaitersOk, ResultsOk, LogOk, WakersOk, FuturesOk, LiveCount;
    if n < |w.waits| {
      var wait := w.waits[n];
      assert WaitOk(w, wait);
      var g := w.tickets[wait.ticket].generation;
      if wait.pc.Checking? {
        if !IsActive(w.c, g) {
          LiveResult(w, wait.ticket);
        }
        WaitStepOk(w, DoCheck(w, n), n, if IsActive(w.c, g) then Parked else Returned(false, ResultOf(w.c, g)));
        if wait.bounded && IsActive(w.c, g) {
          WaitStepOk(w, DoTimeOut(w, n), n, Returned(true, None));
        }
      }
      if wait.pc.Parked? {
        WaitStepOk(w, DoWakeWait(w, n), n, Checking);
      }
    }
  }

  lemma PollOk(w: World, f: nat, waker: nat)
    requires Inv(w)
    ensures Inv(DoPoll(w, f, waker))
  {
    hide WaitersOk, ResultsOk, LogOk, WakersOk, FuturesOk, WaitsOk, LiveCount;
    if f < |w.futures| && Borrowing(w.futures[f]) && w.futures[f].ticket < |w.tickets| {
      var future := w.futures[f];
      assert FutureOk(w, future) by { FutureAt(w, f); }
      match PollAnswer(w.c, w.tickets[future.ticket].generation, future.token) {
        case Ready(_) => PollReady(w, f, waker);
        case Pending(_) =>
          PollCoordinator(w, f, waker);
          PollWakers(w, f, waker);
          PollFutures(w, f, waker);
      }
    }
  }

  lemma FutureAt(w: World, f: nat)
    requires FuturesOk(w) && f < |w.futures|
    ensures FutureOk(w, w.futures[f])
  {
  }

  lemma ReadyMeansEnded(w: World, g: nat, token: Option<nat>)
    requires ResultsOk(w) && PollAnswer(w.c, g, token).Ready?
    ensures !IsActive(w.c, g)
  {
  }

  lemma PollReady(w: World, f: nat, waker: nat)
    requires Inv(w) && f < |w.futures| && Borrowing(w.futures[f]) && w.futures[f].ticket < |w.tickets|
    requires PollAnswer(w.c, w.tickets[w.futures[f].ticket].generation, w.futures[f].token).Ready?
    ensures Inv(DoPoll(w, f, waker))
  {
    hide LiveCount, Signalled, WaitersOk, ResultsOk, LogOk, WakersOk;
    var w' := DoPoll(w, f, waker);
    assert FutureOk(w, w.futures[f]);
    ReadyMeansEnded(w, w.tickets[w.futures[f].ticket].generation, w.futures[f].token);
    LiveResult(w, w.futures[f].ticket);
    SameCoordinator(w, w');
    SameFacts(w, w');
    forall e | 0 <= e < |w'.futures| ensures FutureOk(w', w'.futures[e]) {
      assert FutureOk(w, w.futures[e]);
    }
    forall n | 0 <= n < |w'.waits| ensures WaitOk(w', w'.waits[n]) {
      assert WaitOk(w, w.waits[n]);
    }
  }

  ghost predicate Polls(w: World, f: nat) {
    && f < |w.futures| && Borrowing(w.futures[f]) && w.futures[f].ticket < |w.tickets|
    && PollAnswer(w.c, w.tickets[w.futures[f].ticket].generation, w.futures[f].token).Pending?
  }

  lemma PollCoordinator(w: World, f: nat, waker: nat)
    requires Inv(w) && Polls(w, f)
    ensures var w' := DoPoll(w, f, waker); WaitersOk(w') && TicketsOk(w') && ResultsOk(w') && LogOk(w') && WaitsOk(w')
  {
    hide LiveCount, FuturesOk, WakersOk;
    var w' := DoPoll(w, f, waker);
    forall n | 0 <= n < |w'.waits| ensures WaitOk(w', w'.waits[n]) {
      assert WaitOk(w, w.waits[n]);
    }
  }

  /** A poll registers a token that is new or already registered, so it was neither drained nor woken. */
  lemma PollWakers(w: World, f: nat, waker: nat)
    requires Inv(w) && Polls(w, f)
    ensures WakersOk(DoPoll(w, f, waker))
  {
    hide WaitersOk, ResultsOk, LogOk, WaitsOk, LiveCount;
    var w' := DoPoll(w, f, waker);
    var g := w.c.generation;
    assert FutureOk(w, w.futures[f]) && w.tickets[w.futures[f].ticket].generation == g;
    assert w'.futures[f].token.value in w'.c.wakers[g];
    forall k | k in WakersOf(w'.c, g) ensures k <= w'.c.nextRegistration && k !in w'.owed && Wakes(w', k) == 0 {
      assert k == w'.futures[f].token.value || k in WakersOf(w.c, g);
    }
  }

  lemma PollFutures(w: World, f: nat, waker: nat)
    requires Inv(w) && Polls(w, f)
    ensures FuturesOk(DoPoll(w, f, waker))
  {
    hide WaitersOk, ResultsOk, LogOk, WaitsOk, LiveCount;
    var w' := DoPoll(w, f, waker);
    assert FutureOk(w, w.futures[f]);
    forall e | 0 <= e < |w'.futures| && e != f ensures FutureOk(w', w'.futures[e]) && w'.futures[e].token != w'.futures[f].token {
      assert FutureOk(w, w.futures[e]);
    }
  }

  lemma DropFutureOk(w: World, f: nat)
    requires Inv(w)
    ensures Inv(DoDropFuture(w, f))
  {
    hide WaitersOk, ResultsOk, LogOk, LiveCount;
    if f < |w.futures| && !w.futures[f].pc.Dropped? && w.futures[f].ticket < |w.tickets| {
      var w' := DoDropFuture(w, f);
      OnlyWakers(w, w');
      assert FutureOk(w, w.futures[f]);
      DropWakers(w, f);
      forall e | 0 <= e < |w'.futures| ensures FutureOk(w', w'.futures[e]) {
        assert FutureOk(w, w.futures[e]);
        assert e != f && w.futures[f].token.Some? ==> w.futures[e].token != w.futures[f].token;
      }
      forall n | 0 <= n < |w'.waits| ensures WaitOk(w', w'.waits[n]) {
        assert WaitOk(w, w.waits[n]);
      }
    }
  }

  lemma OnlyWakers(w: World, w': World)
    requires w'.c == w.c.(wakers := w'.c.wakers) && w'.tickets == w.tickets && w'.completed == w.completed
    requires w'.effective == w.effective && w'.leaders == w.leaders
    ensures WaitersOk(w) ==> WaitersOk(w')
    ensures ResultsOk(w) ==> ResultsOk(w')
    ensures LogOk(w) ==> LogOk(w')
  {
  }

  lemma DropWakers(w: World, f: nat)
    requires WakersOk(w) && f < |w.futures| && !w.futures[f].pc.Dropped? && w.futures[f].ticket < |w.tickets|
    ensures WakersOk(DoDropFuture(w, f))
  {
  }

  /** A registered waiting future is still registered, with the same waker. */
  predicate KeepsRegistration(w: World, w': World, f: Future) {
    f.pc.Waiting? && f.token.Some? && f.ticket < |w.tickets| && IsActive(w.c, w.tickets[f.ticket].generation) ==>
      var g := w.tickets[f.ticket].generation;
      IsActive(w'.c, g) && f.token.value in WakersOf(w'.c, g) && WakersOf(w'.c, g)[f.token.value] == f.waker
  }

  lemma FutureKeepsRegistration(w: World, i: nat, f: nat)
    requires Inv(w) && f < |w.futures|
    ensures KeepsRegistration(w, DoDropTicket(w, i), w.futures[f])
  {
    hide LiveCount, WaitersOk, ResultsOk, LogOk, WakersOk, WaitsOk;
    assert FutureOk(w, w.futures[f]);
    if LiveTicket(w, i) && !Borrowed(w, i) {
      DropKeeps(w, i);
      assert FutureOk(DoDropTicket(w, i), DoDropTicket(w, i).futures[f]);
    }
  }

  lemma DropTicketOk(w: World, i: nat)
    requires Inv(w)
    ensures Inv(DoDropTicket(w, i))
    ensures forall f | 0 <= f < |w.futures| :: KeepsRegistration(w, DoDropTicket(w, i), w.futures[f])
  {
    hide LiveCount, WaitersOk, ResultsOk, LogOk, WakersOk, FuturesOk, WaitsOk, KeepsRegistration;
    forall f | 0 <= f < |w.futures| ensures KeepsRegistration(w, DoDropTicket(w, i), w.futures[f]) {
      FutureKeepsRegistration(w, i, f);
    }
    if LiveTicket(w, i) && !Borrowed(w, i) {
      var w' := DoDropTicket(w, i);
      DropCounts(w, i);
      DropResults(w, i);
      DropLog(w, i);
      DropKeeps(w, i);
    }
  }

  lemma DropCounts(w: World, i: nat)
    requires WaitersOk(w) && LiveTicket(w, i) && !Borrowed(w, i)
    ensures WaitersOk(DoDropTicket(w, i))
  {
    hide LiveCount, Borrowed;
    var w' := DoDropTicket(w, i);
    CountLive(w.tickets, i);
    forall g ensures LiveCount(w'.tickets, g) == LiveCount(w.tickets, g) - if g == w.tickets[i].generation then 1 else 0 {
      CountDrop(w.tickets, i, g);
    }
  }

  lemma DropResults(w: World, i: nat)
    requires ResultsOk(w) && LiveTicket(w, i) && !Borrowed(w, i)
    ensures ResultsOk(DoDropTicket(w, i))
  {
    hide Borrowed;
    var w' := DoDropTicket(w, i);
    ReleaseKeepsActive(w.c, w.tickets[i].generation);
    forall g ensures g in w'.c.results <==> g in w'.c.waiters && !IsActive(w'.c, g) {
      assert g in w.c.results <==> g in w.c.waiters && !IsActive(w.c, g);
    }
  }

  lemma DropLog(w: World, i: nat)
    requires TicketsOk(w) && LogOk(w) && LiveTicket(w, i) && !Borrowed(w, i)
    ensures TicketsOk(DoDropTicket(w, i)) && LogOk(DoDropTicket(w, i))
  {
    hide Borrowed, Release, IsActive;
    ReleaseKeepsActive(w.c, w.tickets[i].generation);
  }

  lemma ReleaseKeepsActive(c: Coordinator, g: nat)
    ensures var r := Release(c, g);
            r.active == c.active && r.generation == c.generation && r.nextRegistration == c.nextRegistration
            && forall h :: IsActive(r, h) == IsActive(c, h)
  {
  }

  /** A waiting future keeps its ticket alive, so the last ticket never takes a registered waker along. */
  lemma DropKeeps(w: World, i: nat)
    requires Inv(w) && LiveTicket(w, i) && !Borrowed(w, i)
    ensures var w' := DoDropTicket(w, i); WakersOk(w') && FuturesOk(w') && WaitsOk(w')
  {
    hide LiveCount, WaitersOk, ResultsOk, LogOk, FutureOk, WaitOk, Borrowed, Release;
    var w' := DoDropTicket(w, i);
    forall f | 0 <= f < |w'.futures| ensures FutureOk(w', w'.futures[f]) {
      DropFutureKept(w, i, f);
    }
    forall n | 0 <= n < |w'.waits| ensures WaitOk(w', w'.waits[n]) {
      DropWaitKept(w, i, n);
    }
    DropWakersKept(w, i);
  }

  lemma DropWakersKept(w: World, i: nat)
    requires WakersOk(w) && LiveTicket(w, i) && !Borrowed(w, i)
    ensures WakersOk(DoDropTicket(w, i))
  {
    hide Borrowed;
  }

  lemma DropFutureKept(w: World, i: nat, f: nat)
    requires Inv(w) && LiveTicket(w, i) && !Borrowed(w, i) && f < |w.futures|
    ensures FutureOk(DoDropTicket(w, i), w.futures[f])
  {
    hide LiveCount, ResultsOk, LogOk, WakersOk, WaitsOk;
    assert FutureOk(w, w.futures[f]);
    if w.futures[f].pc.Waiting? && w.tickets[w.futures[f].ticket].generation == w.tickets[i].generation {
      assert w.futures[f].ticket != i;
      TwoTickets(w.tickets, i, w.futures[f].ticket);
    }
  }

  lemma DropWaitKept(w: World, i: nat, n: nat)
    requires WaitsOk(w) && LiveTicket(w, i) && !Borrowed(w, i) && n < |w.waits|
    ensures WaitOk(DoDropTicket(w, i), w.waits[n])
  {
    assert WaitOk(w, w.waits[n]);
  }

  lemma TwoTickets(tickets: seq<Ticket>, i: nat, j: nat)
    requires i < |tickets| && j < |tickets| && i != j && tickets[i].live && tickets[j] == tickets[i]
    ensures LiveCount(tickets, tickets[i].generation) > 1
  {
    CountDrop(tickets, i, tickets[i].generation);
    CountLive(tickets[i := tickets[i].(live := false)], j);
  }

  lemma StepOk(w: World, a: Step)
    requires Inv(w)
    ensures Inv(Next(w, a))
  {
    hide Inv, DoBegin, DoComplete, DoWake, DoStartFuture, DoPoll, DoDropFuture, DoStartWait, DoCheck, DoTimeOut, DoWakeWait, DoDropTicket;
    match a {
      case BeginShutdown(mode) => BeginOk(w, mode);
      case CompleteShutdown(g, result) => CompleteOk(w, g, result);
      case WakeOne(token) => WakeOk(w, token);
      case StartFuture(i) => StartOk(w, i, false);
      case PollFuture(f, waker) => PollOk(w, f, waker);
      case DropFuture(f) => DropFutureOk(w, f);
      case StartWait(i, bounded) => StartOk(w, i, bounded);
      case CheckWait(n) => CheckOk(w, n);
      case TimeOutWait(n) => CheckOk(w, n);
      case WakeSpuriously(n) => CheckOk(w, n);
      case DropTicket(i) => DropTicketOk(w, i);
    }
  }

  lemma {:induction false} RunOk(w: World, steps: seq<Step>)
    requires Inv(w)
    ensures Inv(Run(w, steps))
  {
    hide Inv, Next;
    if steps != [] {
      RunOk(w, steps[..|steps| - 1]);
      StepOk(Run(w, steps[..|steps| - 1]), steps[|steps| - 1]);
    }
  }

  lemma InitOk(steps: seq<Step>)
    ensures Inv(Run(Init(), steps))
  {
    assert Inv(Init());
    RunOk(Init(), steps);
  }
}
