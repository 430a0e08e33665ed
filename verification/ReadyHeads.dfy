/** Which lane heads of a queue are ready at an instant, and how long until the next one is. */
module ReadyHeads {
  import opened Prelude
  import opened Queues

  predicate HeadReady(q: Queue<nat>, k: Key, now: nat) {
    k in q.lanes && q.lanes[k] != [] && Eligible(q.lanes[k][0], now)
  }

  predicate HasReady(q: Queue<nat>, now: nat) {
    exists k | k in q.lanes :: HeadReady(q, k, now)
  }

  function HeadDelay(q: Queue<nat>, k: Key, now: nat): (d: nat) {
    if k in q.lanes && q.lanes[k] != [] && q.lanes[k][0].notBefore.Some? && q.lanes[k][0].notBefore.value >= now
    then q.lanes[k][0].notBefore.value - now else 0
  }

  ghost predicate LeastDelay(q: Queue<nat>, now: nat, k: Key) {
    k in q.lanes && forall j | j in q.lanes :: HeadDelay(q, k, now) <= HeadDelay(q, j, now)
  }

  /** `next_ready_delay`. */
  ghost function NextDelay(q: Queue<nat>, now: nat): (d: Option<nat>) {
    if exists k :: LeastDelay(q, now, k) then (var k :| LeastDelay(q, now, k); Some(HeadDelay(q, k, now))) else None
  }

  lemma {:induction false} LeastIn(q: Queue<nat>, now: nat, keys: set<Key>) returns (k: Key)
    requires keys != {}
    ensures k in keys && forall j | j in keys :: HeadDelay(q, k, now) <= HeadDelay(q, j, now)
    decreases |keys|
  {
    hide HeadDelay;
    var first :| first in keys;
    var rest := keys - {first};
    k := first;
    if rest != {} {
      var least := LeastIn(q, now, rest);
      k := if HeadDelay(q, first, now) <= HeadDelay(q, least, now) then first else least;
    }
    forall j | j in keys ensures HeadDelay(q, k, now) <= HeadDelay(q, j, now) {
      assert j == first || j in rest;
    }
  }

  /** The next delay is the least over all lanes; with no lane there is none. */
  lemma NextDelayIs(q: Queue<nat>, now: nat)
    ensures NextDelay(q, now).None? <==> q.lanes == map[]
    ensures NextDelay(q, now).Some? ==> forall k | k in q.lanes :: NextDelay(q, now).value <= HeadDelay(q, k, now)
  {
    hide HeadDelay;
    if q.lanes != map[] {
      var first :| first in q.lanes;
      assert first in q.lanes.Keys;
      var k := LeastIn(q, now, q.lanes.Keys);
      assert LeastDelay(q, now, k);
    }
  }
}
