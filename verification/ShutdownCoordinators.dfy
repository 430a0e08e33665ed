/**
 * The coordinator of shutdown attempts: each attempt is a generation with one leader; callers hold tickets on
 * generations and read their results. The value functions are the critical sections under the state lock; the
 * class performs them in place.
 */
module ShutdownCoordinators {
  import opened Prelude

  datatype ShutdownMode = Graceful(timeout: nat) | Immediate

  /** What an attempt published: the provider's answer, or why its thread did not start. */
  datatype ShutdownResult = Provider(answer: nat) | StartFailed(error: nat)

  /** Registered wakers of one generation by registration token; a waker is an opaque number. */
  type Wakers = map<nat, nat>

  datatype Coordinator = Coordinator(
    active: bool,
    generation: nat,
    mode: ShutdownMode,
    waiters: map<nat, nat>,
    nextRegistration: nat,
    wakers: map<nat, Wakers>,
    results: map<nat, ShutdownResult>)

  function NewCoordinator(): (c: Coordinator) {
    Coordinator(false, 0, Immediate, map[], 0, map[], map[])
  }

  predicate IsActive(c: Coordinator, g: nat) {
    c.active && c.generation == g
  }

  function Joined(waiters: map<nat, nat>, g: nat): (r: map<nat, nat>) {
    waiters[g := (if g in waiters then waiters[g] else 0) + 1]
  }

  /** Joins the active attempt, possibly upgrading it to immediate, or becomes the leader of a new one. */
  function Begin(c: Coordinator, mode: ShutdownMode): (r: Coordinator) {
    if c.active then
      c.(mode := if mode.Immediate? then Immediate else c.mode, waiters := Joined(c.waiters, c.generation))
    else
      c.(active := true, generation := c.generation + 1, mode := mode, waiters := Joined(c.waiters, c.generation + 1))
  }

  function ModeOf(c: Coordinator, g: nat): (m: ShutdownMode) {
    if c.generation == g then c.mode else Immediate
  }

  function ResultOf(c: Coordinator, g: nat): (r: Option<ShutdownResult>) {
    if g in c.results then Some(c.results[g]) else None
  }

  function WakersOf(c: Coordinator, g: nat): (w: Wakers) {
    if g in c.wakers then c.wakers[g] else map[]
  }

  /** Publishes the result of the active generation; any other call changes nothing. */
  function Completed(c: Coordinator, g: nat, result: ShutdownResult): (r: Coordinator) {
    if !IsActive(c, g) then c
    else c.(results := if g in c.waiters then c.results[g := result] else c.results,
            active := false,
            wakers := c.wakers - {g})
  }

  datatype Poll = Ready(result: Option<ShutdownResult>) | Pending(token: nat)

  /** The answer of one poll; a pending one names the registration it used or created. */
  function PollAnswer(c: Coordinator, g: nat, token: Option<nat>): (p: Poll) {
    if g in c.results then Ready(Some(c.results[g]))
    else if !IsActive(c, g) then Ready(None)
    else Pending(if token.Some? then token.value else c.nextRegistration + 1)
  }

  function PollResult(c: Coordinator, g: nat, token: Option<nat>, waker: nat): (r: Coordinator) {
    match PollAnswer(c, g, token)
    case Ready(_) => c
    case Pending(k) =>
      c.(nextRegistration := if token.Some? then c.nextRegistration else k,
         wakers := c.wakers[g := WakersOf(c, g)[k := waker]])
  }

  function Unregister(c: Coordinator, g: nat, token: nat): (r: Coordinator) {
    if g !in c.wakers then c
    else
      var rest := c.wakers[g] - {token};
      c.(wakers := if rest == map[] then c.wakers - {g} else c.wakers[g := rest])
  }

  /** Drops one ticket; the last ticket of a generation takes its result and wakers along. */
  function Release(c: Coordinator, g: nat): (r: Coordinator) {
    if g !in c.waiters then c
    else if c.waiters[g] <= 1 then
      c.(waiters := c.waiters - {g}, results := c.results - {g}, wakers := c.wakers - {g})
    else c.(waiters := c.waiters[g := c.waiters[g] - 1])
  }

  class ShutdownCoordinator {
    var active: bool
    var generation: nat
    var mode: ShutdownMode
    var waiters: map<nat, nat>
    var nextRegistration: nat
    var wakers: map<nat, Wakers>
    var results: map<nat, ShutdownResult>

    ghost function View(): (c: Coordinator)
      reads this
    {
      Coordinator(active, generation, mode, waiters, nextRegistration, wakers, results)
    }

    constructor ()
      ensures View() == NewCoordinator()
    {
      active, generation, mode := false, 0, Immediate;
      waiters, nextRegistration, wakers, results := map[], 0, map[], map[];
    }

    method BeginShutdown(requested: ShutdownMode) returns (leader: bool, g: nat)
      modifies this`active, this`generation, this`mode, this`waiters
      ensures View() == Begin(old(View()), requested)
      ensures leader == !old(active) && g == generation
    {
      if active {
        g := generation;
        if requested.Immediate? {
          mode := Immediate;
        }
        waiters := Joined(waiters, g);
        return false, g;
      }
      active := true;
      generation := generation + 1;
      mode := requested;
      g := generation;
      waiters := Joined(waiters, g);
      leader := true;
    }

    method RequestedMode(g: nat) returns (m: ShutdownMode)
      ensures m == ModeOf(View(), g)
    {
      if generation == g {
        m := mode;
      } else {
        m := Immediate;
      }
    }

    /** Returns the drained wakers, which the caller wakes after releasing the lock. */
    method Finish(g: nat, result: ShutdownResult) returns (drained: Wakers)
      modifies this`results, this`active, this`wakers
      ensures View() == Completed(old(View()), g, result)
      ensures drained == if IsActive(old(View()), g) then WakersOf(old(View()), g) else map[]
    {
      drained := map[];
      if generation != g || !active {
        return;
      }
      if g in waiters {
        results := results[g := result];
      }
      active := false;
      if g in wakers {
        drained := wakers[g];
      }
      wakers := wakers - {g};
    }

    method PollTicket(g: nat, token: Option<nat>, waker: nat) returns (answer: Poll)
      modifies this`nextRegistration, this`wakers
      ensures View() == PollResult(old(View()), g, token, waker)
      ensures answer == PollAnswer(old(View()), g, token)
    {
      if g in results {
        return Ready(Some(results[g]));
      }
      if !active || generation != g {
        return Ready(None);
      }
      var registration;
      match token {
        case Some(k) => registration := k;
        case None =>
          nextRegistration := nextRegistration + 1;
          registration := nextRegistration;
      }
      var entry := if g in wakers then wakers[g] else map[];
      wakers := wakers[g := entry[registration := waker]];
      answer := Pending(registration);
    }

    method UnregisterWaker(g: nat, token: nat)
      modifies this`wakers
      ensures View() == Unregister(old(View()), g, token)
    {
      if g in wakers {
        var rest := wakers[g] - {token};
        if rest == map[] {
          wakers := wakers - {g};
        } else {
          wakers := wakers[g := rest];
        }
      }
    }

    method ReleaseTicket(g: nat)
      modifies this`waiters, this`results, this`wakers
      ensures View() == Release(old(View()), g)
    {
      if g in waiters {
        var left := if waiters[g] == 0 then 0 else waiters[g] - 1;
        if left == 0 {
          waiters := waiters - {g};
          results := results - {g};
          wakers := wakers - {g};
        } else {
          waiters := waiters[g := left];
        }
      }
    }

    /** One turn of the wait loop: an answer, or nothing while the generation is still active. */
    method CheckTicket(g: nat) returns (done: bool, result: Option<ShutdownResult>)
      ensures done == !IsActive(View(), g)
      ensures result == if done then ResultOf(View(), g) else None
    {
      done := !active || generation != g;
      result := None;
      if done && g in results {
        result := Some(results[g]);
      }
    }
  }
}
