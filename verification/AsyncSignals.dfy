/** The waker registry of the asynchronous provider. */
module AsyncSignals {
  import opened Prelude

  /** Registered wakers by registration id; ids are handed out in order. */
  datatype Signal = Signal(nextId: nat, waiters: map<nat, nat>)

  function NewSignal(): (s: Signal) {
    Signal(0, map[])
  }

  function Register(s: Signal, waker: nat): (r: Signal) {
    Signal(s.nextId + 1, s.waiters[s.nextId := waker])
  }

  /** A later poll refreshes its registration under the same id, even when it was drained meanwhile. */
  function RegisterOrUpdate(s: Signal, waiter: Option<nat>, waker: nat): (r: Signal) {
    match waiter
    case None => Register(s, waker)
    case Some(id) => s.(waiters := s.waiters[id := waker])
  }

  function WaiterId(s: Signal, waiter: Option<nat>): (id: nat) {
    if waiter.Some? then waiter.value else s.nextId
  }

  function Unregister(s: Signal, id: nat): (r: Signal) {
    s.(waiters := s.waiters - {id})
  }

  function Drained(s: Signal): (r: Signal) {
    s.(waiters := map[])
  }

  class AsyncSignal {
    var nextId: nat
    var waiters: map<nat, nat>

    ghost function View(): (s: Signal)
      reads this
    {
      Signal(nextId, waiters)
    }

    constructor ()
      ensures View() == NewSignal()
    {
      nextId, waiters := 0, map[];
    }

    method RegisterWaker(waker: nat) returns (id: nat)
      modifies this`nextId, this`waiters
      ensures View() == Register(old(View()), waker) && id == old(nextId)
    {
      id := nextId;
      nextId := nextId + 1;
      waiters := waiters[id := waker];
    }

    method UpdateWaiter(waiter: Option<nat>, waker: nat) returns (id: nat)
      modifies this`nextId, this`waiters
      ensures View() == RegisterOrUpdate(old(View()), waiter, waker) && id == WaiterId(old(View()), waiter)
      ensures id in waiters && waiters[id] == waker
    {
      match waiter {
        case Some(known) =>
          id := known;
          if !(id in waiters && waiters[id] == waker) {
            waiters := waiters[id := waker];
          } else {
            assert waiters[id := waker] == waiters;
          }
        case None =>
          id := RegisterWaker(waker);
      }
    }

    method DropWaiter(id: nat)
      modifies this`waiters
      ensures View() == Unregister(old(View()), id)
    {
      waiters := waiters - {id};
    }

    /** Empties the registry; the caller wakes the drained wakers with the registry unlocked. */
    method DrainAll() returns (wakers: seq<nat>)
      modifies this`waiters
      ensures View() == Drained(old(View()))
      ensures forall id | id in old(waiters) :: old(waiters)[id] in wakers
      ensures |wakers| == |old(waiters)| && forall w | w in wakers :: w in old(waiters).Values
    {
      wakers := [];
      var left := waiters;
      waiters := map[];
      while left != map[]
        invariant forall id | id in left :: id in old(waiters) && left[id] == old(waiters)[id]
        invariant forall id | id in old(waiters) && id !in left :: old(waiters)[id] in wakers
        invariant |wakers| + |left| == |old(waiters)| && forall w | w in wakers :: w in old(waiters).Values
        decreases |left|
      {
        var id :| id in left;
        wakers := wakers + [left[id]];
        left := left - {id};
      }
    }
  }
}
