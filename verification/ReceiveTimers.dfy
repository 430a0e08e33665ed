/** The timer an asynchronous receive keeps across its polls. */
module ReceiveTimers {
  import opened Prelude

  /**
   * `wait` is the deadline remembered by the poll function, `armed` the instant at which the timer future
   * completes. Instants are numbers up to a platform limit; adding past the limit gives no instant.
   */
  datatype TimerState = TimerState(wait: Option<nat>, armed: Option<nat>)

  function NoTimer(): (t: TimerState) {
    TimerState(None, None)
  }

  function CheckedAdd(now: nat, duration: nat, limit: nat): (r: Option<nat>) {
    if now + duration <= limit then Some(now + duration) else None
  }

  function Earlier(a: Option<nat>, b: Option<nat>): (r: Option<nat>) {
    match (a, b)
    case (Some(x), Some(y)) => Some(if x <= y then x else y)
    case (Some(_), None) => a
    case (None, _) => b
  }

  /** A poll that found nothing: replace the timer when there is none remembered or the new deadline is earlier. */
  function Arm(t: TimerState, now: nat, delay: Option<nat>, remaining: Option<nat>, limit: nat): (r: TimerState) {
    match Earlier(delay, remaining)
    case None => NoTimer()
    case Some(waitFor) =>
      var deadline := CheckedAdd(now, waitFor, limit);
      if t.wait.None? || (deadline.Some? && deadline.value < t.wait.value) then TimerState(deadline, Some(now + waitFor)) else t
  }

  /** A remembered deadline is always the one of the timer that is armed. */
  predicate TimerOk(t: TimerState, limit: nat) {
    t.wait.Some? ==> t.armed == t.wait && t.wait.value <= limit
  }

  /**
   * After a pending poll the timer fires no later than the next ready delay and the remaining timeout ask for;
   * without either there is no timer.
   */
  lemma ArmedInTime(t: TimerState, now: nat, delay: Option<nat>, remaining: Option<nat>, limit: nat)
    requires TimerOk(t, limit)
    ensures var r := Arm(t, now, delay, remaining, limit);
            && TimerOk(r, limit)
            && (delay.Some? ==> r.armed.Some? && r.armed.value <= now + delay.value)
            && (remaining.Some? ==> r.armed.Some? && r.armed.value <= now + remaining.value)
            && (delay.None? && remaining.None? ==> r.armed.None?)
  {
  }

  /** One pending poll: its single clock reading, what it found, and whether the timer future answered ready. */
  datatype PendingPoll = PendingPoll(now: nat, delay: Option<nat>, remaining: Option<nat>, fired: bool)

  /** The state after a poll, and whether the poll woke its own task. */
  function AfterPoll(t: TimerState, p: PendingPoll, limit: nat): (r: (TimerState, bool)) {
    var armed := Arm(t, p.now, p.delay, p.remaining, limit);
    if armed.armed.Some? && p.fired then (NoTimer(), true) else (armed, false)
  }

  function AfterPolls(polls: seq<PendingPoll>, limit: nat): (r: (TimerState, bool)) {
    if polls == [] then (NoTimer(), false)
    else AfterPoll(AfterPolls(polls[..|polls| - 1], limit).0, polls[|polls| - 1], limit)
  }

  lemma {:induction false} PollsOk(polls: seq<PendingPoll>, limit: nat)
    ensures TimerOk(AfterPolls(polls, limit).0, limit)
  {
    if polls != [] {
      PollsOk(polls[..|polls| - 1], limit);
    }
  }

  /** After any sequence of pending polls: in time for the last one, or its task has woken itself. */
  lemma TimerInTime(polls: seq<PendingPoll>, limit: nat)
    requires polls != []
    ensures var last := polls[|polls| - 1]; var (t, woke) := AfterPolls(polls, limit);
            || woke
            || (&& (last.delay.Some? ==> t.armed.Some? && t.armed.value <= last.now + last.delay.value)
                && (last.remaining.Some? ==> t.armed.Some? && t.armed.value <= last.now + last.remaining.value))
  {
    var before := polls[..|polls| - 1];
    var last := polls[|polls| - 1];
    PollsOk(before, limit);
    ArmedInTime(AfterPolls(before, limit).0, last.now, last.delay, last.remaining, limit);
  }

  /** The two variables of the poll function that outlive a poll. */
  class ReceiveTimer {
    var wait: Option<nat>
    var armed: Option<nat>
    const limit: nat

    ghost function View(): (t: TimerState)
      reads this
    {
      TimerState(wait, armed)
    }

    constructor (limit: nat)
      ensures View() == NoTimer() && this.limit == limit
    {
      wait, armed := None, None;
      this.limit := limit;
    }

    /** The timer part of a poll that found no ready delivery. */
    method PollPending(now: nat, delay: Option<nat>, remaining: Option<nat>, fired: bool) returns (woke: bool)
      requires TimerOk(View(), limit)
      modifies this`wait, this`armed
      ensures (View(), woke) == AfterPoll(old(View()), PendingPoll(now, delay, remaining, fired), limit)
      ensures TimerOk(View(), limit)
      ensures delay.Some? ==> woke || (armed.Some? && armed.value <= now + delay.value)
      ensures remaining.Some? ==> woke || (armed.Some? && armed.value <= now + remaining.value)
    {
      var waitFor := None;
      if delay.Some? && remaining.Some? {
        waitFor := Some(if delay.value <= remaining.value then delay.value else remaining.value);
      } else if delay.Some? {
        waitFor := delay;
      } else {
        waitFor := remaining;
      }
      if waitFor.Some? {
        var deadline := CheckedAdd(now, waitFor.value, limit);
        if wait.None? || (deadline.Some? && deadline.value < wait.value) {
          wait := deadline;
          armed := Some(now + waitFor.value);
        }
      } else {
        wait := None;
        armed := None;
      }
      woke := armed.Some? && fired;
      if woke {
        armed := None;
        wait := None;
      }
    }
  }
}
