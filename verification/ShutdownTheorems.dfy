/** What holders of shutdown tickets may rely on, in every run of the coordinator. */
module ShutdownTheorems {
  import opened Prelude
  import opened ShutdownCoordinators
  import opened ShutdownRuns

  /**
   * The coordinator's maps are exactly determined by the tickets: `waiters` counts the unreleased tickets,
   * `results` covers the generations with tickets that ended, wakers exist only for the active generation.
   */
  lemma MapsCharacterized(steps: seq<Step>, g: nat)
    ensures var w := Run(Init(), steps);
            && (g in w.c.waiters <==> LiveCount(w.tickets, g) > 0)
            && (g in w.c.waiters ==> w.c.waiters[g] == LiveCount(w.tickets, g))
            && (g in w.c.results <==> g in w.c.waiters && !IsActive(w.c, g))
            && (g in w.c.wakers ==> IsActive(w.c, g))
  {
    hide Run, LogOk, FuturesOk, WaitsOk, LiveCount;
    InitOk(steps);
  }

  /** Nothing is retained once no attempt is active and every ticket has been dropped. */
  lemma NothingRetained(steps: seq<Step>)
    requires var w := Run(Init(), steps); !w.c.active && forall i | 0 <= i < |w.tickets| :: !w.tickets[i].live
    ensures var c := Run(Init(), steps).c; c.waiters == map[] && c.results == map[] && c.wakers == map[]
  {
    hide Run, LogOk, FuturesOk, WaitsOk, LiveCount;
    var w := Run(Init(), steps);
    InitOk(steps);
    forall g ensures g !in w.c.waiters && g !in w.c.results && g !in w.c.wakers {
      NoneLive(w.tickets, g);
    }
  }

  lemma {:induction false} NoneLive(tickets: seq<Ticket>, g: nat)
    requires forall i | 0 <= i < |tickets| :: !tickets[i].live
    ensures LiveCount(tickets, g) == 0
  {
    if tickets != [] {
      NoneLive(tickets[..|tickets| - 1], g);
    }
  }

  /**
   * Exactly one call of begin led each generation, and each generation was completed at most once, in the sense
   * that at most one completion took effect; a generation that is not active any more was completed.
   */
  lemma OneLeaderOneCompletion(steps: seq<Step>, g: nat)
    ensures var w := Run(Init(), steps);
            && multiset(w.leaders)[g] == (if 1 <= g <= w.c.generation then 1 else 0)
            && multiset(w.effective)[g] == (if 1 <= g <= w.c.generation && !IsActive(w.c, g) then 1 else 0)
  {
    hide Run, WaitersOk, ResultsOk, WakersOk, FuturesOk, WaitsOk;
    var w := Run(Init(), steps);
    InitOk(steps);
    DistinctCount(w.effective, g);
    DistinctCount(w.leaders, g);
    assert 1 <= g <= w.c.generation ==> w.leaders[g - 1] == g;
  }

  lemma {:induction false} DistinctCount(s: seq<nat>, g: nat)
    requires forall i, j | 0 <= i < j < |s| :: s[i] != s[j]
    ensures multiset(s)[g] == if g in s then 1 else 0
  {
    if s != [] {
      var last := |s| - 1;
      assert s == s[..last] + [s[last]];
      DistinctCount(s[..last], g);
    }
  }

  // ----- the result a ticket sees -----

  /** Completed results never change and tickets keep their generation. */
  predicate Later(w: World, w': World) {
    && |w.tickets| <= |w'.tickets| && w.c.generation <= w'.c.generation
    && (forall g | g in w.completed :: g in w'.completed && w'.completed[g] == w.completed[g])
    && (forall i | 0 <= i < |w.tickets| :: w'.tickets[i].generation == w.tickets[i].generation)
    && (forall k | k in w.owed :: (k in w'.owed && w'.owed[k] == w.owed[k]) || k in w'.woken)
    && (forall k | k in w.woken :: k in w'.woken)
  }

  lemma StepLater(w: World, a: Step)
    requires Inv(w)
    ensures Later(w, Next(w, a))
  {
    hide WaitersOk, ResultsOk, WakersOk, LogOk, FuturesOk, WaitsOk, Unparked, Release, Unregister, PollResult;
    match a {
      case CompleteShutdown(g, result) => CompleteLater(w, g, result);
      case WakeOne(token) => WakeLater(w, token);
      case PollFuture(f, waker) => PollGeneration(w, f, waker);
      case DropFuture(f) => DropGeneration(w, f);
      case DropTicket(i) => ReleaseGeneration(w.c, if i < |w.tickets| then w.tickets[i].generation else 0);
      case _ =>
    }
  }

  lemma CompleteLater(w: World, g: nat, result: ShutdownResult)
    requires LogOk(w) && WakersOk(w)
    ensures Later(w, DoComplete(w, g, result))
  {
  }

  lemma WakeLater(w: World, token: nat)
    ensures Later(w, DoWake(w, token))
  {
  }

  lemma PollGeneration(w: World, f: nat, waker: nat)
    ensures DoPoll(w, f, waker).c.generation == w.c.generation
  {
  }

  lemma DropGeneration(w: World, f: nat)
    ensures DoDropFuture(w, f).c.generation == w.c.generation
  {
  }

  lemma ReleaseGeneration(c: Coordinator, g: nat)
    ensures Release(c, g).generation == c.generation
  {
  }

  lemma {:induction false} RunLater(w: World, steps: seq<Step>)
    requires Inv(w)
    ensures Later(w, Run(w, steps))
  {
    hide Inv, Next;
    if steps != [] {
      var before := steps[..|steps| - 1];
      RunLater(w, before);
      RunOk(w, before);
      StepLater(Run(w, before), steps[|steps| - 1]);
      LaterTransitive(w, Run(w, before), Run(w, steps));
    }
  }

  lemma LaterTransitive(a: World, b: World, c: World)
    requires Later(a, b) && Later(b, c)
    ensures Later(a, c)
  {
  }

  /**
   * A ticket that is still held reads one and the same result after its generation ended, whatever retries and
   * later generations happen; in particular the answer is never missing.
   */
  lemma LiveTicketSeesItsResult(steps: seq<Step>, more: seq<Step>, i: nat)
    requires var w := Run(Init(), steps); LiveTicket(w, i) && !IsActive(w.c, w.tickets[i].generation)
    requires LiveTicket(Run(Run(Init(), steps), more), i)
    ensures var w := Run(Init(), steps); var w' := Run(w, more); var g := w.tickets[i].generation;
            && w'.tickets[i].generation == g && !IsActive(w'.c, g)
            && ResultOf(w.c, g).Some? && ResultOf(w'.c, g) == ResultOf(w.c, g)
  {
    hide Run, WakersOk, FuturesOk, WaitsOk, LiveCount;
    var w := Run(Init(), steps);
    var w' := Run(w, more);
    InitOk(steps);
    RunOk(w, more);
    RunLater(w, more);
    LiveResult(w, i);
    LiveResult(w', i);
  }

  /** `resolve` is never handed the missing result: every answered future and wait carries the published result. */
  lemma AnswersAreResults(steps: seq<Step>, k: nat)
    ensures var w := Run(Init(), steps);
            && (k < |w.futures| && w.futures[k].pc.Resolved? ==>
                  w.futures[k].ticket < |w.tickets|
                  && ResultIs(w, w.tickets[w.futures[k].ticket].generation, w.futures[k].pc.result))
            && (k < |w.waits| && w.waits[k].pc.Returned? && !w.waits[k].pc.timedOut ==>
                  w.waits[k].ticket < |w.tickets|
                  && ResultIs(w, w.tickets[w.waits[k].ticket].generation, w.waits[k].pc.result))
  {
    hide Run, WaitersOk, ResultsOk, LogOk, WakersOk, LiveCount;
    var w := Run(Init(), steps);
    InitOk(steps);
    assert k < |w.futures| ==> FutureOk(w, w.futures[k]);
    assert k < |w.waits| ==> WaitOk(w, w.waits[k]);
  }

  /** A thread asleep in wait is asleep for the active generation: no completion is ever missed. */
  lemma NoWaitMissesCompletion(steps: seq<Step>, n: nat)
    requires var w := Run(Init(), steps); n < |w.waits| && w.waits[n].pc.Parked?
    ensures var w := Run(Init(), steps);
            w.waits[n].ticket < |w.tickets| && IsActive(w.c, w.tickets[w.waits[n].ticket].generation)
  {
    hide Run, WaitersOk, ResultsOk, LogOk, WakersOk, LiveCount;
    InitOk(steps);
    assert WaitOk(Run(Init(), steps), Run(Init(), steps).waits[n]);
  }

  /**
   * A completion hands every registered waker to the completing thread exactly once: afterwards each of them is
   * owed one call or has had exactly one, and never gets another.
   */
  lemma EachWakerWokenOnce(steps: seq<Step>, g: nat, result: ShutdownResult, more: seq<Step>, k: nat)
    requires var w := Run(Init(), steps); IsActive(w.c, g) && k in WakersOf(w.c, g)
    ensures var w := Run(Init(), steps);
            var w' := Run(Next(w, CompleteShutdown(g, result)), more);
            if k in w'.owed then w'.owed[k] == WakersOf(w.c, g)[k] && Wakes(w', k) == 0 else Wakes(w', k) == 1
  {
    hide Run, Next, WaitersOk, ResultsOk, LogOk, FuturesOk, WaitsOk, LiveCount;
    var w := Run(Init(), steps);
    InitOk(steps);
    var w1 := Next(w, CompleteShutdown(g, result));
    assert w1 == DoComplete(w, g, result) by { NextComplete(w, g, result); }
    StepOk(w, CompleteShutdown(g, result));
    RunOk(w1, more);
    RunLater(w1, more);
    assert k in w1.owed && w1.owed[k] == WakersOf(w.c, g)[k];
  }

  lemma NextComplete(w: World, g: nat, result: ShutdownResult)
    ensures Next(w, CompleteShutdown(g, result)) == DoComplete(w, g, result)
  {
  }

  /** No future waits for a wake-up that will not come: it is registered, owed one, or has had it. */
  lemma NoFutureIsForgotten(steps: seq<Step>, f: nat)
    requires var w := Run(Init(), steps); f < |w.futures| && w.futures[f].pc.Waiting?
    ensures var w := Run(Init(), steps); var future := w.futures[f];
            && future.ticket < |w.tickets| && future.token.Some?
            && Signalled(w, w.tickets[future.ticket].generation, future.token.value, future.waker)
  {
    hide Run, WaitersOk, ResultsOk, LogOk, WakersOk, LiveCount, Signalled;
    InitOk(steps);
    assert FutureOk(Run(Init(), steps), Run(Init(), steps).futures[f]);
  }

  // ----- the requested mode -----

  /** From graceful only to immediate. */
  predicate Tightens(m: ShutdownMode, m': ShutdownMode) {
    m' == m || m'.Immediate?
  }

  lemma StepTightens(w: World, a: Step, g: nat)
    requires g <= w.c.generation
    ensures Tightens(ModeOf(w.c, g), ModeOf(Next(w, a).c, g)) && g <= Next(w, a).c.generation
  {
  }

  lemma {:induction false} RunTightens(w: World, steps: seq<Step>, g: nat)
    requires g <= w.c.generation
    ensures Tightens(ModeOf(w.c, g), ModeOf(Run(w, steps).c, g)) && g <= Run(w, steps).c.generation
  {
    hide Next, ModeOf;
    if steps != [] {
      RunTightens(w, steps[..|steps| - 1], g);
      StepTightens(Run(w, steps[..|steps| - 1]), steps[|steps| - 1], g);
    }
  }

  /** A run that ends in generation `g` with a graceful request. */
  function Advance(generation: nat, g: nat): (steps: seq<Step>)
    requires generation <= g
  {
    if generation == g then []
    else Advance(generation, g - 1) + [CompleteShutdown(g - 1, Provider(0)), BeginShutdown(Graceful(0))]
  }

  lemma {:induction false} AdvanceReaches(w: World, g: nat)
    requires w.c.generation < g
    ensures var w' := Run(w, Advance(w.c.generation, g)); w'.c.active && w'.c.generation == g && w'.c.mode == Graceful(0)
  {
    var before := Advance(w.c.generation, g - 1);
    var finish := CompleteShutdown(g - 1, Provider(0));
    var start := BeginShutdown(Graceful(0));
    var steps := Advance(w.c.generation, g);
    if w.c.generation < g - 1 {
      AdvanceReaches(w, g - 1);
    }
    assert steps[..|steps| - 1] == before + [finish];
    assert (before + [finish])[..|before|] == before;
    assert Run(w, steps) == Next(Next(Run(w, before), finish), start);
  }

  /**
   * For a fixed generation the answer of `mode` only moves from graceful to immediate exactly when the generation
   * has already begun; a generation that has not begun reads immediate and may still begin gracefully.
   */
  lemma ModeTightensExactly(w: World, g: nat)
    ensures (forall steps :: Tightens(ModeOf(w.c, g), ModeOf(Run(w, steps).c, g))) <==> g <= w.c.generation
  {
    if g <= w.c.generation {
      forall steps ensures Tightens(ModeOf(w.c, g), ModeOf(Run(w, steps).c, g)) {
        RunTightens(w, steps, g);
      }
    } else {
      AdvanceReaches(w, g);
      assert !Tightens(ModeOf(w.c, g), ModeOf(Run(w, Advance(w.c.generation, g)).c, g));
    }
  }

  /** Asking for generation 1 before it begins, and again after it began gracefully. */
  lemma ModeMayLoosen()
    ensures ModeOf(Init().c, 1) == Immediate && ModeOf(Run(Init(), [BeginShutdown(Graceful(5))]).c, 1) == Graceful(5)
  {
  }
}
