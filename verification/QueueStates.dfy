/**
 * The queue object of `local_queue_state.rs`: FIFO lanes, a round-robin list of ready lane heads and a
 * lazily pruned heap of delayed lane heads. The scheduling structures are an index over the lanes; the
 * theorem is that the index never loses a lane, although lane versions restart when a lane is re-created.
 */
module QueueStates {
  import opened Prelude
  import opened Bags
  import opened Decimal
  import opened Queues

  datatype Lane = Lane(events: seq<LocalEvent>, version: nat, delayedVersion: Option<nat>)

  /** Heap entry for a lane head that is not yet eligible, ordered by deadline and then sequence. */
  datatype DelayedHead = DelayedHead(deadline: nat, sequence: nat, key: Key, version: nat)

  predicate NotAfter(a: DelayedHead, b: DelayedHead) {
    a.deadline < b.deadline || (a.deadline == b.deadline && a.sequence <= b.sequence)
  }

  function Contents(lanes: map<Key, Lane>): (m: LaneMap) {
    map k | k in lanes :: lanes[k].events
  }

  /** The lanes, the two scheduling structures over them, and the latest clock reading. */
  datatype Index = Index(
    lanes: map<Key, Lane>,
    ready: seq<(Key, nat)>,
    heap: set<DelayedHead>,
    now: nat)

  predicate IsLive(h: DelayedHead, lanes: map<Key, Lane>) {
    h.key in lanes && lanes[h.key].version == h.version && lanes[h.key].delayedVersion == Some(h.version)
  }

  function DelayedKeys(lanes: map<Key, Lane>): (s: set<Key>) {
    set k | k in lanes && lanes[k].delayedVersion.Some?
  }

  function StaleHeads(heap: set<DelayedHead>, lanes: map<Key, Lane>): (s: set<DelayedHead>) {
    set h | h in heap && !IsLive(h, lanes)
  }

  /** Both heap counters are exact, so neither decrement of the source can underflow. */
  predicate Counted(ix: Index, live: nat, stale: nat) {
    live == |DelayedKeys(ix.lanes)| && stale == |StaleHeads(ix.heap, ix.lanes)|
  }

  predicate LanesOk(lanes: map<Key, Lane>) {
    forall k | k in lanes ::
      && lanes[k].events != []
      && (lanes[k].delayedVersion.Some? ==> lanes[k].delayedVersion.value == lanes[k].version)
  }

  /** Entries of one lane appear in version order and never outrun the lane; a removed lane has none. */
  predicate ReadyOk(lanes: map<Key, Lane>, ready: seq<(Key, nat)>) {
    && (forall i | 0 <= i < |ready| :: ready[i].0 in lanes && ready[i].1 <= lanes[ready[i].0].version)
    && (forall i, j | 0 <= i < j < |ready| && ready[i].0 == ready[j].0 :: ready[i].1 < ready[j].1)
  }

  predicate HasDeadline(events: seq<LocalEvent>, deadline: nat) {
    exists i | 0 <= i < |events| :: events[i].notBefore == Some(deadline)
  }

  /**
   * Every heap entry, stale ones included, carries the deadline of an event still in its lane. This is
   * what makes restarting versions safe: a lane disappears only together with its last event, and by then
   * the entries with that event's deadline have left the heap.
   */
  predicate HeapOk(lanes: map<Key, Lane>, heap: set<DelayedHead>) {
    && (forall h | h in heap :: h.key in lanes && h.version <= lanes[h.key].version
                                && HasDeadline(lanes[h.key].events, h.deadline))
    && (forall g, h | g in heap && h in heap && g.key == h.key && g.version == h.version :: g == h)
  }

  predicate HeapEntry(ix: Index, k: Key, h: DelayedHead)
    requires k in ix.lanes
  {
    h in ix.heap && h.key == k && h.version == ix.lanes[k].version
  }

  /** Lane `k` is represented exactly where its head belongs. */
  ghost predicate Scheduled(ix: Index, k: Key)
    requires k in ix.lanes && ix.lanes[k].events != []
  {
    var lane := ix.lanes[k];
    if lane.delayedVersion.Some? then
      && (k, lane.version) !in ix.ready
      && exists h :: HeapEntry(ix, k, h) && lane.events[0].notBefore == Some(h.deadline)
    else
      && (k, lane.version) in ix.ready
      && Eligible(lane.events[0], ix.now)
  }

  /** Lane `k` had its head changed: its current version may still be in the heap, with any deadline. */
  ghost predicate Unscheduled(ix: Index, k: Key)
    requires k in ix.lanes
  {
    ix.lanes[k].delayedVersion.Some? ==> exists h :: HeapEntry(ix, k, h)
  }

  ghost predicate ShapeOk(ix: Index) {
    LanesOk(ix.lanes) && ReadyOk(ix.lanes, ix.ready) && HeapOk(ix.lanes, ix.heap)
  }

  ghost predicate LaneOk(ix: Index, hole: Option<Key>, k: Key)
    requires k in ix.lanes && ix.lanes[k].events != []
  {
    if hole == Some(k) then Unscheduled(ix, k) else Scheduled(ix, k)
  }

  ghost predicate IndexOk(ix: Index, hole: Option<Key>) {
    ShapeOk(ix) && forall k | k in ix.lanes :: LaneOk(ix, hole, k)
  }

  /** Removing an entry that no lane vouches for. */
  lemma DropStale(ix: Index, h: DelayedHead, hole: Option<Key>)
    requires IndexOk(ix, hole) && h in ix.heap && !IsLive(h, ix.lanes)
    ensures IndexOk(ix.(heap := ix.heap - {h}), hole)
    ensures StaleHeads(ix.heap - {h}, ix.lanes) == StaleHeads(ix.heap, ix.lanes) - {h}
  {
    var r := ix.(heap := ix.heap - {h});
    forall k | k in r.lanes ensures LaneOk(r, hole, k) {
      KeepLane(ix, r, hole, k);
    }
  }

  /** A lane keeps its place when its own lane value, list entry and heap entry survive. */
  lemma KeepLane(ix: Index, r: Index, hole: Option<Key>, k: Key)
    requires k in ix.lanes && k in r.lanes && ix.lanes[k] == r.lanes[k] && ix.lanes[k].events != []
    requires LaneOk(ix, hole, k) && ix.now <= r.now
    requires forall h | HeapEntry(ix, k, h) && ix.lanes[k].delayedVersion.Some? :: h in r.heap
    requires hole != Some(k) ==> ((k, ix.lanes[k].version) in ix.ready <==> (k, ix.lanes[k].version) in r.ready)
    ensures LaneOk(r, hole, k)
  {
    if ix.lanes[k].delayedVersion.Some? {
      var h :| HeapEntry(ix, k, h) && (hole == Some(k) || ix.lanes[k].events[0].notBefore == Some(h.deadline));
      assert HeapEntry(r, k, h);
    }
  }

  /** A later clock reading keeps every ready head eligible. */
  lemma AdvanceClock(ix: Index, now: nat, hole: Option<Key>)
    requires IndexOk(ix, hole) && ix.now <= now
    ensures IndexOk(ix.(now := now), hole)
  {
    forall k | k in ix.lanes ensures LaneOk(ix.(now := now), hole, k) {
      KeepLane(ix, ix.(now := now), hole, k);
    }
  }

  /** The index after a due, live heap entry moves to the ready list. */
  function Promoted(ix: Index, h: DelayedHead): (r: Index)
    requires h.key in ix.lanes
  {
    ix.(lanes := ix.lanes[h.key := ix.lanes[h.key].(delayedVersion := None)],
        ready := ix.ready + [(h.key, h.version)],
        heap := ix.heap - {h})
  }

  lemma PromoteCounts(ix: Index, h: DelayedHead)
    requires ShapeOk(ix) && h in ix.heap && IsLive(h, ix.lanes)
    ensures var r := Promoted(ix, h);
            && Contents(r.lanes) == Contents(ix.lanes)
            && DelayedKeys(r.lanes) == DelayedKeys(ix.lanes) - {h.key}
            && StaleHeads(r.heap, r.lanes) == StaleHeads(ix.heap, ix.lanes)
  {
  }

  lemma PromoteShape(ix: Index, h: DelayedHead)
    requires IndexOk(ix, None) && h in ix.heap && IsLive(h, ix.lanes)
    ensures ShapeOk(Promoted(ix, h))
  {
    assert LaneOk(ix, None, h.key);
  }

  lemma PromoteLive(ix: Index, h: DelayedHead)
    requires IndexOk(ix, None) && h in ix.heap && IsLive(h, ix.lanes) && h.deadline <= ix.now
    ensures IndexOk(Promoted(ix, h), None)
  {
    PromoteShape(ix, h);
    var r := Promoted(ix, h);
    assert HeapEntry(ix, h.key, h) && LaneOk(ix, None, h.key);
    assert r.ready[|ix.ready|] == (h.key, h.version);
    forall k | k in r.lanes ensures LaneOk(r, None, k) {
      if k != h.key {
        KeepLane(ix, r, None, k);
      }
    }
  }

  /** Skipping a ready entry whose lane has moved on. */
  lemma SkipReady(ix: Index)
    requires IndexOk(ix, None) && ix.ready != []
    requires ix.ready[0].1 != ix.lanes[ix.ready[0].0].version
    ensures IndexOk(ix.(ready := ix.ready[1..]), None)
  {
    var r := ix.(ready := ix.ready[1..]);
    forall k | k in r.lanes ensures LaneOk(r, None, k) {
      TailMember(ix.ready, (k, ix.lanes[k].version));
      KeepLane(ix, r, None, k);
    }
  }

  lemma SameLane(a: map<Key, Lane>, b: map<Key, Lane>, k: Key)
    requires Contents(a) == Contents(b) && k in a
    ensures k in b && b[k].events == a[k].events
  {
    assert k in Contents(a);
  }

  lemma FrontKnown(ix: Index)
    requires IndexOk(ix, None) && ix.ready != []
    ensures ix.ready[0].0 in ix.lanes
  {
  }

  lemma TailMember<T>(s: seq<T>, x: T)
    requires s != [] && s[0] != x
    ensures x in s <==> x in s[1..]
  {
  }

  /** The index after the head of the front ready lane is taken. */
  function Taken(ix: Index): (r: Index)
    requires ix.ready != [] && ix.ready[0].0 in ix.lanes && ix.lanes[ix.ready[0].0].events != []
  {
    var k := ix.ready[0].0;
    var rest := ix.lanes[k].events[1..];
    ix.(ready := ix.ready[1..],
        lanes := if rest == [] then ix.lanes - {k} else ix.lanes[k := ix.lanes[k].(events := rest)])
  }

  /**
   * Once every remaining heap entry lies in the future, taking an eligible head leaves no entry that
   * refers to it: neither the ready list nor the heap mentions a lane that disappears.
   */
  lemma TakeHead(ix: Index)
    requires IndexOk(ix, None) && ix.ready != [] && ix.ready[0].1 == ix.lanes[ix.ready[0].0].version
    requires forall h | h in ix.heap :: h.deadline > ix.now
    ensures ix.lanes[ix.ready[0].0].delayedVersion.None? && Eligible(ix.lanes[ix.ready[0].0].events[0], ix.now)
    ensures var r := Taken(ix); IndexOk(r, if ix.ready[0].0 in r.lanes then Some(ix.ready[0].0) else None)
  {
    TakeReady(ix);
    TakeHeap(ix);
    var k := ix.ready[0].0;
    var r := Taken(ix);
    var hole := if k in r.lanes then Some(k) else None;
    assert LaneOk(ix, None, k);
    forall j | j in r.lanes ensures LaneOk(r, hole, j) {
      if j != k {
        TailMember(ix.ready, (j, ix.lanes[j].version));
        KeepLane(ix, r, hole, j);
      }
    }
  }

  lemma TakeReady(ix: Index)
    requires ShapeOk(ix) && ix.ready != [] && ix.ready[0].1 == ix.lanes[ix.ready[0].0].version
    ensures ReadyOk(Taken(ix).lanes, ix.ready[1..]) && LanesOk(Taken(ix).lanes)
  {
  }

  lemma TakeHeap(ix: Index)
    requires IndexOk(ix, None) && ix.ready != [] && ix.ready[0].1 == ix.lanes[ix.ready[0].0].version
    requires forall h | h in ix.heap :: h.deadline > ix.now
    ensures HeapOk(Taken(ix).lanes, ix.heap)
  {
    var k := ix.ready[0].0;
    var r := Taken(ix);
    assert LaneOk(ix, None, k);
    forall h | h in r.heap ensures h.key in r.lanes && HasDeadline(r.lanes[h.key].events, h.deadline) {
      if h.key == k {
        var i :| 0 <= i < |ix.lanes[k].events| && ix.lanes[k].events[i].notBefore == Some(h.deadline);
        assert ix.lanes[k].events[1..][i - 1].notBefore == Some(h.deadline);
      }
    }
  }

  lemma TakeCounts(ix: Index)
    requires ShapeOk(ix) && ix.ready != [] && ix.lanes[ix.ready[0].0].delayedVersion.None?
    ensures var r := Taken(ix);
            && Contents(r.lanes) == PopHead(Contents(ix.lanes), ix.ready[0].0)
            && DelayedKeys(r.lanes) == DelayedKeys(ix.lanes)
            && StaleHeads(r.heap, r.lanes) == StaleHeads(ix.heap, ix.lanes)
  {
  }

  /** The lane moves to a version that no entry mentions yet. */
  function Invalidated(ix: Index, k: Key): (r: Index)
    requires k in ix.lanes
  {
    ix.(lanes := ix.lanes[k := ix.lanes[k].(version := ix.lanes[k].version + 1, delayedVersion := None)])
  }

  ghost predicate FreshVersion(ix: Index, k: Key)
    requires k in ix.lanes
  {
    && (forall i | 0 <= i < |ix.ready| && ix.ready[i].0 == k :: ix.ready[i].1 < ix.lanes[k].version)
    && (forall h | h in ix.heap && h.key == k :: h.version < ix.lanes[k].version)
  }

  lemma Invalidate(ix: Index, k: Key)
    requires k in ix.lanes && IndexOk(ix, Some(k))
    ensures IndexOk(Invalidated(ix, k), Some(k)) && FreshVersion(Invalidated(ix, k), k)
  {
    var r := Invalidated(ix, k);
    forall j | j in r.lanes ensures LaneOk(r, Some(k), j) {
      if j != k {
        KeepLane(ix, r, Some(k), j);
      }
    }
  }

  lemma InvalidateKeys(ix: Index, k: Key)
    requires k in ix.lanes
    ensures var r := Invalidated(ix, k);
            Contents(r.lanes) == Contents(ix.lanes) && DelayedKeys(r.lanes) == DelayedKeys(ix.lanes) - {k}
  {
  }

  lemma InvalidateStale(ix: Index, k: Key, h: DelayedHead)
    requires k in ix.lanes && ShapeOk(ix) && HeapEntry(ix, k, h) && ix.lanes[k].delayedVersion.Some?
    ensures StaleHeads(ix.heap, Invalidated(ix, k).lanes) == StaleHeads(ix.heap, ix.lanes) + {h}
    ensures h !in StaleHeads(ix.heap, ix.lanes)
  {
  }

  lemma InvalidateIdle(ix: Index, k: Key)
    requires k in ix.lanes && ShapeOk(ix) && ix.lanes[k].delayedVersion.None?
    ensures StaleHeads(ix.heap, Invalidated(ix, k).lanes) == StaleHeads(ix.heap, ix.lanes)
  {
  }

  lemma InvalidateCounts(ix: Index, k: Key, live: nat, stale: nat)
    requires k in ix.lanes && IndexOk(ix, Some(k)) && Counted(ix, live, stale)
    ensures ix.lanes[k].delayedVersion.Some? ==> live > 0 && Counted(Invalidated(ix, k), live - 1, stale + 1)
    ensures ix.lanes[k].delayedVersion.None? ==> Counted(Invalidated(ix, k), live, stale)
  {
    InvalidateKeys(ix, k);
    assert LaneOk(ix, Some(k), k);
    if ix.lanes[k].delayedVersion.Some? {
      var h :| HeapEntry(ix, k, h);
      InvalidateStale(ix, k, h);
      assert k in DelayedKeys(ix.lanes);
    } else {
      InvalidateIdle(ix, k);
      assert k !in DelayedKeys(ix.lanes);
    }
  }

  lemma PushReady(ix: Index, k: Key)
    requires k in ix.lanes && IndexOk(ix, Some(k)) && FreshVersion(ix, k)
    requires ix.lanes[k].delayedVersion.None? && Eligible(ix.lanes[k].events[0], ix.now)
    ensures IndexOk(ix.(ready := ix.ready + [(k, ix.lanes[k].version)]), None)
  {
  }

  function Delayed(ix: Index, h: DelayedHead): (r: Index)
    requires h.key in ix.lanes
  {
    ix.(lanes := ix.lanes[h.key := ix.lanes[h.key].(delayedVersion := Some(h.version))], heap := ix.heap + {h})
  }

  lemma PushShape(ix: Index, h: DelayedHead)
    requires h.key in ix.lanes && ShapeOk(ix) && FreshVersion(ix, h.key) && h.version == ix.lanes[h.key].version
    requires ix.lanes[h.key].events[0].notBefore == Some(h.deadline)
    ensures ShapeOk(Delayed(ix, h))
  {
    assert HasDeadline(ix.lanes[h.key].events, h.deadline);
  }

  lemma PushDelayed(ix: Index, h: DelayedHead)
    requires h.key in ix.lanes && IndexOk(ix, Some(h.key)) && FreshVersion(ix, h.key)
    requires ix.lanes[h.key].delayedVersion.None? && h.version == ix.lanes[h.key].version
    requires ix.lanes[h.key].events[0].notBefore == Some(h.deadline)
    ensures IndexOk(Delayed(ix, h), None)
  {
    var r := Delayed(ix, h);
    PushShape(ix, h);
    hide ShapeOk;
    assert HeapEntry(r, h.key, h);
    forall j | j in r.lanes ensures LaneOk(r, None, j) {
      if j != h.key {
        assert LaneOk(ix, Some(h.key), j) && LaneOk(ix, None, j);
        KeepLane(ix, r, None, j);
      }
    }
  }

  lemma DelayedCounts(ix: Index, h: DelayedHead, live: nat, stale: nat)
    requires h.key in ix.lanes && ShapeOk(ix) && FreshVersion(ix, h.key) && Counted(ix, live, stale)
    requires ix.lanes[h.key].delayedVersion.None? && h.version == ix.lanes[h.key].version
    ensures Contents(Delayed(ix, h).lanes) == Contents(ix.lanes)
    ensures Counted(Delayed(ix, h), live + 1, stale)
  {
    var r := Delayed(ix, h);
    assert h.key !in DelayedKeys(ix.lanes);
    assert DelayedKeys(r.lanes) == DelayedKeys(ix.lanes) + {h.key};
    assert StaleHeads(r.heap, r.lanes) == StaleHeads(ix.heap, ix.lanes);
  }

  /** `heap` holds exactly one entry per delayed lane of `keys`, for its current head. */
  ghost predicate Rebuilds(lanes: map<Key, Lane>, heap: set<DelayedHead>, keys: set<Key>) {
    && (forall h | h in heap :: h.key in keys && ForHead(lanes, h))
    && (forall k | k in keys && k in DelayedKeys(lanes) :: exists h :: h in heap && h.key == k)
    && (forall g, h | g in heap && h in heap && g.key == h.key :: g == h)
  }

  /** `h` describes the current head of a delayed lane. */
  predicate ForHead(lanes: map<Key, Lane>, h: DelayedHead) {
    && h.key in lanes && lanes[h.key].delayedVersion.Some?
    && h.version == lanes[h.key].version && lanes[h.key].events != []
    && lanes[h.key].events[0].notBefore == Some(h.deadline)
  }

  lemma Compacted(ix: Index, heap: set<DelayedHead>)
    requires IndexOk(ix, None) && Rebuilds(ix.lanes, heap, ix.lanes.Keys)
    ensures IndexOk(ix.(heap := heap), None) && StaleHeads(heap, ix.lanes) == {}
  {
  }

  lemma CompactedCounts(ix: Index, heap: set<DelayedHead>)
    requires StaleHeads(heap, ix.lanes) == {}
    ensures Counted(ix.(heap := heap), |DelayedKeys(ix.lanes)|, 0)
  {
  }

  /** A delayed lane has a well-defined heap entry. */
  predicate HeadKnown(lanes: map<Key, Lane>, k: Key)
    requires k in lanes
  {
    lanes[k].delayedVersion.Some? ==>
      && lanes[k].events != [] && lanes[k].events[0].notBefore.Some?
      && lanes[k].delayedVersion.value == lanes[k].version
  }

  lemma HeadsKnown(ix: Index)
    requires IndexOk(ix, None)
    ensures forall k | k in ix.lanes :: HeadKnown(ix.lanes, k)
  {
  }

  /** The least heap entry; `BinaryHeap::peek`. */
  method Peek(heap: set<DelayedHead>) returns (least: DelayedHead)
    requires heap != {}
    ensures least in heap && forall h | h in heap :: NotAfter(least, h)
  {
    least :| least in heap;
    var rest := heap - {least};
    while rest != {}
      invariant rest <= heap && least in heap
      invariant forall h | h in heap - rest :: NotAfter(least, h)
    {
      var h :| h in rest;
      if !NotAfter(least, h) {
        forall g | g in heap - rest ensures NotAfter(h, g) {
          assert NotAfter(least, g);
        }
        least := h;
      }
      rest := rest - {h};
    }
  }

  lemma RebuildOne(lanes: map<Key, Lane>, heap: set<DelayedHead>, done: set<Key>, head: DelayedHead)
    requires Rebuilds(lanes, heap, done) && head.key !in done && ForHead(lanes, head)
    ensures Rebuilds(lanes, heap + {head}, done + {head.key})
  {
  }

  /** One fresh heap entry per delayed lane; the loop of the compaction. */
  method RebuildHeap(lanes: map<Key, Lane>, sequence: nat)
    returns (heap: set<DelayedHead>, liveCount: nat, sequence': nat)
    requires forall k | k in lanes :: HeadKnown(lanes, k)
    ensures Rebuilds(lanes, heap, lanes.Keys) && liveCount == |DelayedKeys(lanes)|
  {
    heap, liveCount, sequence' := {}, 0, sequence;
    var keys := lanes.Keys;
    ghost var done: set<Key> := {};
    ghost var delayed: set<Key> := {};
    while keys != {}
      invariant keys <= lanes.Keys && forall k :: k in done <==> k in lanes && k !in keys
      invariant forall k :: k in delayed <==> k in done && lanes[k].delayedVersion.Some?
      invariant liveCount == |delayed|
      invariant Rebuilds(lanes, heap, done)
    {
      var key :| key in keys;
      keys := keys - {key};
      if lanes[key].delayedVersion.Some? {
        assert HeadKnown(lanes, key);
        sequence' := sequence' + 1;
        var head := DelayedHead(lanes[key].events[0].notBefore.value, sequence', key, lanes[key].delayedVersion.value);
        RebuildOne(lanes, heap, done, head);
        heap := heap + {head};
        liveCount := liveCount + 1;
        delayed := delayed + {key};
      }
      done := done + {key};
    }
    assert delayed == DelayedKeys(lanes) && done == lanes.Keys;
  }

  /** The index after an event joins the tail of its lane, creating the lane if needed. */
  function Appended(ix: Index, e: LocalEvent): (r: Index) {
    var lane := if e.key in ix.lanes then ix.lanes[e.key] else Lane([], 0, None);
    ix.(lanes := ix.lanes[e.key := lane.(events := lane.events + [e])])
  }

  /** The index after an event is put back at the head of its lane. */
  function Prepended(ix: Index, e: LocalEvent): (r: Index) {
    var lane := if e.key in ix.lanes then ix.lanes[e.key] else Lane([], 0, None);
    ix.(lanes := ix.lanes[e.key := lane.(events := [e] + lane.events)])
  }

  lemma AppendContents(ix: Index, e: LocalEvent)
    ensures Contents(Appended(ix, e).lanes) == PushBack(Contents(ix.lanes), e)
    ensures Contents(Prepended(ix, e).lanes) == PushFront(Contents(ix.lanes), e)
  {
  }

  lemma AppendCounts(ix: Index, e: LocalEvent)
    requires ShapeOk(ix)
    ensures forall r | r in {Appended(ix, e), Prepended(ix, e)} ::
              && DelayedKeys(r.lanes) == DelayedKeys(ix.lanes)
              && StaleHeads(ix.heap, r.lanes) == StaleHeads(ix.heap, ix.lanes)
  {
  }

  lemma GrowDeadline(old_: seq<LocalEvent>, new_: seq<LocalEvent>, shift: nat, deadline: nat)
    requires HasDeadline(old_, deadline) && |old_| + shift <= |new_|
    requires forall i | 0 <= i < |old_| :: new_[i + shift] == old_[i]
    ensures HasDeadline(new_, deadline)
  {
  }

  /** A lane that gains an event, at either end, keeps every heap entry's deadline in its lane. */
  lemma GrowHeap(lanes: map<Key, Lane>, grown: map<Key, Lane>, heap: set<DelayedHead>, k: Key, shift: nat)
    requires HeapOk(lanes, heap) && lanes.Keys <= grown.Keys
    requires forall j | j in lanes :: grown[j].version == lanes[j].version && (j != k ==> grown[j].events == lanes[j].events)
    requires k in lanes ==> |lanes[k].events| + shift <= |grown[k].events|
    requires k in lanes ==> forall i | 0 <= i < |lanes[k].events| :: grown[k].events[i + shift] == lanes[k].events[i]
    ensures HeapOk(grown, heap)
  {
    hide HasDeadline;
    forall h | h in heap ensures HasDeadline(grown[h.key].events, h.deadline) {
      if h.key == k {
        GrowDeadline(lanes[k].events, grown[k].events, shift, h.deadline);
      }
    }
  }

  lemma AppendShape(ix: Index, e: LocalEvent)
    requires ShapeOk(ix)
    ensures ShapeOk(Appended(ix, e))
  {
    hide HeapOk;
    GrowHeap(ix.lanes, Appended(ix, e).lanes, ix.heap, e.key, 0);
  }

  lemma PrependShape(ix: Index, e: LocalEvent)
    requires ShapeOk(ix)
    ensures ShapeOk(Prepended(ix, e))
  {
    hide HeapOk;
    GrowHeap(ix.lanes, Prepended(ix, e).lanes, ix.heap, e.key, 1);
  }

  lemma Append(ix: Index, e: LocalEvent)
    requires IndexOk(ix, None)
    ensures IndexOk(Appended(ix, e), if e.key in ix.lanes then None else Some(e.key))
  {
    AppendShape(ix, e);
    var r := Appended(ix, e);
    var hole := if e.key in ix.lanes then None else Some(e.key);
    forall k | k in r.lanes ensures LaneOk(r, hole, k) {
      if k in ix.lanes {
        assert LaneOk(ix, None, k);
        if k != e.key {
          KeepLane(ix, r, hole, k);
        } else if ix.lanes[k].delayedVersion.Some? {
          var h :| HeapEntry(ix, k, h) && ix.lanes[k].events[0].notBefore == Some(h.deadline);
          assert HeapEntry(r, k, h);
        }
      }
    }
  }

  lemma Prepend(ix: Index, e: LocalEvent)
    requires IndexOk(ix, None)
    ensures IndexOk(Prepended(ix, e), Some(e.key))
  {
    PrependShape(ix, e);
    var r := Prepended(ix, e);
    forall k | k in r.lanes ensures LaneOk(r, Some(e.key), k) {
      if k in ix.lanes {
        assert LaneOk(ix, None, k);
        if k != e.key {
          KeepLane(ix, r, Some(e.key), k);
        } else if ix.lanes[k].delayedVersion.Some? {
          var h :| HeapEntry(ix, k, h);
          assert HeapEntry(r, k, h);
        }
      }
    }
  }

  /** With an empty ready list and only future entries in the heap, no lane head is eligible. */
  lemma NothingReady(ix: Index)
    requires IndexOk(ix, None) && ix.ready == [] && forall h | h in ix.heap :: h.deadline > ix.now
    ensures forall k | k in ix.lanes :: !Eligible(ix.lanes[k].events[0], ix.now)
  {
  }

  /** Time until the event becomes eligible, saturating at zero. */
  function Until(e: LocalEvent, now: nat): (d: nat) {
    if Eligible(e, now) then 0 else e.notBefore.value - now
  }

  /** `d` is the least delay among all lane heads; no lanes, no delay. */
  ghost predicate IsNextDelay(m: LaneMap, now: nat, d: Option<nat>)
    requires LaneMapOk(m)
  {
    if m == map[] then d.None?
    else
      && d.Some?
      && (exists k | k in m :: Until(m[k][0], now) == d.value)
      && (forall k | k in m :: d.value <= Until(m[k][0], now))
  }

  /** When no head is ready, the least heap entry, once live, gives the least delay. */
  lemma LeastEntry(ix: Index, least: DelayedHead, now: nat)
    requires IndexOk(ix, None) && LaneMapOk(Contents(ix.lanes)) && ix.now <= now
    requires least in ix.heap && IsLive(least, ix.lanes) && forall h | h in ix.heap :: NotAfter(least, h)
    requires forall k | k in ix.lanes :: !Eligible(ix.lanes[k].events[0], ix.now)
    ensures IsNextDelay(Contents(ix.lanes), now, Some(if least.deadline <= now then 0 else least.deadline - now))
  {
    var m := Contents(ix.lanes);
    assert LaneOk(ix, None, least.key);
    var g :| HeapEntry(ix, least.key, g) && ix.lanes[least.key].events[0].notBefore == Some(g.deadline);
    assert Until(m[least.key][0], now) == if least.deadline <= now then 0 else least.deadline - now;
    forall k | k in m ensures (if least.deadline <= now then 0 else least.deadline - now) <= Until(m[k][0], now) {
      assert LaneOk(ix, None, k);
    }
  }

  ghost predicate LiveTop(ix: Index, top: Option<DelayedHead>) {
    if top.None? then ix.heap == {}
    else top.value in ix.heap && IsLive(top.value, ix.lanes) && forall h | h in ix.heap :: NotAfter(top.value, h)
  }

  lemma NothingDue(ix: Index, top: Option<DelayedHead>, now: nat)
    requires LiveTop(ix, top) && (top.Some? ==> top.value.deadline > now)
    ensures forall h | h in ix.heap :: h.deadline > now
  {
  }

  function DelayAt(top: Option<DelayedHead>, now: nat): (r: Option<nat>) {
    if top.None? then None else Some(if top.value.deadline <= now then 0 else top.value.deadline - now)
  }

  /** The answer read off the top of a heap whose top is live. */
  lemma DelayOfTop(ix: Index, now: nat, top: Option<DelayedHead>)
    requires IndexOk(ix, None) && LaneMapOk(Contents(ix.lanes)) && ix.now <= now && LiveTop(ix, top)
    ensures (forall k | k in ix.lanes :: !Eligible(ix.lanes[k].events[0], ix.now))
            ==> IsNextDelay(Contents(ix.lanes), now, DelayAt(top, now))
  {
    if top.None? {
      forall k | k in ix.lanes ensures Eligible(ix.lanes[k].events[0], ix.now) {
        assert LaneOk(ix, None, k);
      }
    } else if forall k | k in ix.lanes :: !Eligible(ix.lanes[k].events[0], ix.now) {
      LeastEntry(ix, top.value, now);
    }
  }

  lemma SubsetSize<T>(a: set<T>, b: set<T>)
    requires a <= b
    ensures |a| <= |b|
  {
    assert b == a + (b - a);
  }

  /** All events of all lanes, lane by lane. */
  method DrainLanes(lanes: map<Key, Lane>) returns (events: seq<LocalEvent>)
    ensures multiset(events) == Bag(Contents(lanes))
  {
    var rest := lanes;
    events := [];
    while rest != map[]
      invariant multiset(events) + Bag(Contents(rest)) == Bag(Contents(lanes))
      decreases rest
    {
      var key :| key in rest;
      BagSplit(Contents(rest), key);
      assert Contents(rest) - {key} == Contents(rest - {key});
      events := events + rest[key].events;
      rest := rest - {key};
    }
  }

  method DrainFlights<H>(flights: map<string, Flight<H>>) returns (events: seq<LocalEvent>)
    ensures multiset(events) == Bag(FlightEvents(flights))
  {
    var rest := flights;
    events := [];
    while rest != map[]
      invariant multiset(events) + Bag(FlightEvents(rest)) == Bag(FlightEvents(flights))
      decreases rest
    {
      var token :| token in rest;
      RemoveFlight(rest, token);
      events := events + [rest[token].event];
      rest := rest - {token};
    }
  }

  lemma EmptyIndex(ix: Index)
    requires ix.lanes == map[] && ix.ready == [] && ix.heap == {}
    ensures IndexOk(ix, None) && Counted(ix, 0, 0) && LaneMapOk(Contents(ix.lanes)) && Bag(Contents(ix.lanes)) == multiset{}
  {
  }

  /** Taking a head out and putting it back restores the lanes. */
  lemma PopThenPush(m: LaneMap, k: Key)
    requires LaneMapOk(m) && k in m
    ensures PushFront(PopHead(m, k), m[k][0]) == m
  {
    assert m[k] == [m[k][0]] + m[k][1..];
  }

  datatype Popped = Message(event: LocalEvent, settlement: Settlement) | NotReady | Exhausted

  /** Shared settlement state stored by both the in-flight entry and the opaque token. */
  class Settlement {
    const tokenId: string
    var disposition: Option<Disposition>

    constructor (tokenId: string)
      ensures this.tokenId == tokenId && disposition == None
    {
      this.tokenId := tokenId;
      disposition := None;
    }
  }

  class LocalQueueState {
    var lanes: map<Key, Lane>
    var pendingCount: nat
    var readyLanes: seq<(Key, nat)>
    var delayedLanes: set<DelayedHead>
    var nextDelaySequence: nat
    var delayedLiveCount: nat
    var delayedStaleCount: nat
    var inFlight: map<string, Flight<Settlement>>
    var closed: bool
    var nextDeliveryToken: nat
    ghost var clock: nat

    ghost function Ix(): (ix: Index)
      reads `lanes, `readyLanes, `delayedLanes, `clock
    {
      Index(lanes, readyLanes, delayedLanes, clock)
    }

    ghost predicate CountsOk()
      reads `lanes, `readyLanes, `delayedLanes, `clock, `delayedLiveCount, `delayedStaleCount
    {
      Counted(Ix(), delayedLiveCount, delayedStaleCount)
    }

    ghost predicate Valid()
      reads `lanes, `readyLanes, `delayedLanes, `clock, `delayedLiveCount, `delayedStaleCount, `pendingCount
    {
      && IndexOk(Ix(), None) && CountsOk()
      && LaneMapOk(Contents(lanes)) && pendingCount == |Bag(Contents(lanes))|
    }

    constructor ()
      ensures Valid() && lanes == map[] && inFlight == map[] && !closed && nextDeliveryToken == 0 && clock == 0
    {
      lanes, pendingCount, readyLanes, delayedLanes := map[], 0, [], {};
      nextDelaySequence, delayedLiveCount, delayedStaleCount := 0, 0, 0;
      inFlight, closed, nextDeliveryToken, clock := map[], false, 0, 0;
    }

    /** Rebuilds the heap when stale entries outnumber live heads and the fixed slack. */
    method CompactDelayedHeapIfNeeded()
      requires IndexOk(Ix(), None) && CountsOk()
      modifies `delayedLanes, `delayedLiveCount, `delayedStaleCount, `nextDelaySequence
      ensures IndexOk(Ix(), None) && CountsOk()
      ensures delayedStaleCount <= if delayedLiveCount > 8 then delayedLiveCount else 8
    {
      hide IndexOk, Counted, Rebuilds;
      if delayedStaleCount <= if delayedLiveCount > 8 then delayedLiveCount else 8 {
        return;
      }
      ghost var before := Ix();
      HeadsKnown(before);
      var rebuilt, liveCount, sequence := RebuildHeap(lanes, nextDelaySequence);
      Compacted(before, rebuilt);
      CompactedCounts(before, rebuilt);
      nextDelaySequence := sequence;
      delayedLanes := rebuilt;
      delayedLiveCount := liveCount;
      delayedStaleCount := 0;
      assert Ix() == before.(heap := rebuilt);
    }

    /** Advances the version of lane `key`, turning its delayed entry, if any, stale. */
    method InvalidateLane(key: Key)
      requires key in lanes && IndexOk(Ix(), Some(key)) && CountsOk()
      modifies `lanes, `delayedLiveCount, `delayedStaleCount
      ensures Ix() == Invalidated(old(Ix()), key)
      ensures IndexOk(Ix(), Some(key)) && FreshVersion(Ix(), key) && CountsOk() && Contents(lanes) == old(Contents(lanes))
    {
      hide ShapeOk, LaneOk, Counted, FreshVersion;
      ghost var before := Ix();
      var lane := lanes[key];
      lanes := lanes[key := lane.(version := lane.version + 1, delayedVersion := None)];
      assert Ix() == Invalidated(before, key);
      Invalidate(before, key);
      InvalidateKeys(before, key);
      InvalidateCounts(before, key, delayedLiveCount, delayedStaleCount);
      if lane.delayedVersion.Some? {
        delayedLiveCount := delayedLiveCount - 1;
        delayedStaleCount := delayedStaleCount + 1;
      }
    }

    /** Stores a heap entry for the current, delayed head of lane `key`. */
    method StoreDelayedHead(key: Key, deadline: nat)
      requires key in lanes && IndexOk(Ix(), Some(key)) && FreshVersion(Ix(), key) && CountsOk()
      requires lanes[key].delayedVersion.None? && lanes[key].events[0].notBefore == Some(deadline)
      modifies `lanes, `delayedLanes, `delayedLiveCount, `nextDelaySequence
      ensures IndexOk(Ix(), None) && CountsOk() && Contents(lanes) == old(Contents(lanes))
    {
      hide ShapeOk, LaneOk, Counted;
      nextDelaySequence := nextDelaySequence + 1;
      var head := DelayedHead(deadline, nextDelaySequence, key, lanes[key].version);
      ghost var before := Ix();
      PushDelayed(before, head);
      DelayedCounts(before, head, delayedLiveCount, delayedStaleCount);
      delayedLanes := delayedLanes + {head};
      lanes := lanes[key := lanes[key].(delayedVersion := Some(head.version))];
      delayedLiveCount := delayedLiveCount + 1;
      assert Ix() == Delayed(before, head);
    }

    /** Registers the changed head of lane `key` under a new version, as ready or delayed. */
    method ScheduleLaneHeadAt(key: Key, now: nat)
      requires key in lanes && clock <= now
      requires IndexOk(Ix(), Some(key)) && CountsOk()
      modifies `lanes, `readyLanes, `delayedLanes, `delayedLiveCount, `delayedStaleCount, `nextDelaySequence, `clock
      ensures IndexOk(Ix(), None) && CountsOk() && Contents(lanes) == old(Contents(lanes)) && clock == now
    {
      AdvanceClock(Ix(), now, Some(key));
      clock := now;
      InvalidateLane(key);
      var deadline := lanes[key].events[0].notBefore;
      if deadline.None? || deadline.value <= now {
        PushReady(Ix(), key);
        readyLanes := readyLanes + [(key, lanes[key].version)];
      } else {
        StoreDelayedHead(key, deadline.value);
      }
      CompactDelayedHeapIfNeeded();
    }

    /** Adds an event behind its lane. */
    method EnqueueBackAt(event: LocalEvent, now: nat)
      requires Valid() && clock <= now
      modifies `lanes, `pendingCount, `readyLanes, `delayedLanes, `delayedLiveCount, `delayedStaleCount, `nextDelaySequence, `clock
      ensures Valid() && Contents(lanes) == PushBack(old(Contents(lanes)), event) && clock == now
    {
      hide IndexOk, Counted, Bag, PushBack, LaneMapOk;
      PushBag(Contents(lanes), event);
      PushKeepsKeys(Contents(lanes), event);
      var wasEmpty := event.key !in lanes;
      AppendEvent(event);
      pendingCount := pendingCount + 1;
      if wasEmpty {
        ScheduleLaneHeadAt(event.key, now);
      } else {
        Tick(now);
      }
    }

    /** Records a clock reading. */
    ghost method Tick(now: nat)
      requires IndexOk(Ix(), None) && CountsOk() && clock <= now
      modifies `clock
      ensures IndexOk(Ix(), None) && CountsOk() && clock == now
    {
      AdvanceClock(Ix(), now, None);
      clock := now;
    }

    method AppendEvent(event: LocalEvent)
      requires IndexOk(Ix(), None) && CountsOk()
      modifies `lanes
      ensures IndexOk(Ix(), if event.key in old(lanes) then None else Some(event.key)) && CountsOk()
      ensures Contents(lanes) == PushBack(old(Contents(lanes)), event) && event.key in lanes
    {
      ghost var before := Ix();
      AppendContents(before, event);
      AppendCounts(before, event);
      Append(before, event);
      var lane := if event.key in lanes then lanes[event.key] else Lane([], 0, None);
      lanes := lanes[event.key := lane.(events := lane.events + [event])];
      assert Ix() == Appended(before, event);
    }

    method PrependEvent(event: LocalEvent)
      requires IndexOk(Ix(), None) && CountsOk()
      modifies `lanes
      ensures IndexOk(Ix(), Some(event.key)) && CountsOk()
      ensures Contents(lanes) == PushFront(old(Contents(lanes)), event) && event.key in lanes
    {
      ghost var before := Ix();
      AppendContents(before, event);
      AppendCounts(before, event);
      Prepend(before, event);
      var lane := if event.key in lanes then lanes[event.key] else Lane([], 0, None);
      lanes := lanes[event.key := lane.(events := [event] + lane.events)];
      assert Ix() == Prepended(before, event);
    }

    /** Restores an event at the head of its lane, ahead of its same-key successors. */
    method EnqueueFrontAt(event: LocalEvent, now: nat)
      requires Valid() && clock <= now
      modifies `lanes, `pendingCount, `readyLanes, `delayedLanes, `delayedLiveCount, `delayedStaleCount, `nextDelaySequence, `clock
      ensures Valid() && Contents(lanes) == PushFront(old(Contents(lanes)), event) && clock == now
    {
      PushBag(Contents(lanes), event);
      PushKeepsKeys(Contents(lanes), event);
      PrependEvent(event);
      pendingCount := pendingCount + 1;
      ScheduleLaneHeadAt(event.key, now);
    }

    /** Drops one stale heap entry. */
    method DropOne(head: DelayedHead)
      requires IndexOk(Ix(), None) && CountsOk() && head in delayedLanes && !IsLive(head, lanes)
      modifies `delayedLanes, `delayedStaleCount
      ensures IndexOk(Ix(), None) && CountsOk() && delayedLanes == old(delayedLanes) - {head}
    {
      ghost var before := Ix();
      DropStale(before, head, None);
      assert head in StaleHeads(delayedLanes, lanes);
      delayedLanes := delayedLanes - {head};
      delayedStaleCount := delayedStaleCount - 1;
      assert Ix() == before.(heap := before.heap - {head});
    }

    /** The top of the heap, if any, is live. */
    ghost predicate TopIsLive(top: Option<DelayedHead>)
      reads `lanes, `readyLanes, `delayedLanes, `clock
    {
      LiveTop(Ix(), top)
    }

    /** Removes stale entries from the top of the heap until the top is live; returns the new top. */
    method DiscardStaleDelayedHeads() returns (top: Option<DelayedHead>)
      requires IndexOk(Ix(), None) && CountsOk()
      modifies `delayedLanes, `delayedStaleCount
      ensures IndexOk(Ix(), None) && CountsOk() && delayedLanes <= old(delayedLanes) && TopIsLive(top)
    {
      while delayedLanes != {}
        invariant IndexOk(Ix(), None) && CountsOk() && delayedLanes <= old(delayedLanes)
        decreases |delayedLanes|
      {
        var head := Peek(delayedLanes);
        if IsLive(head, lanes) {
          return Some(head);
        }
        DropOne(head);
      }
      top := None;
    }

    /** Moves every due delayed head to the ready list. */
    method PromoteDueHeads(now: nat)
      requires IndexOk(Ix(), None) && CountsOk() && clock <= now
      modifies `lanes, `readyLanes, `delayedLanes, `delayedLiveCount, `delayedStaleCount, `clock
      ensures IndexOk(Ix(), None) && CountsOk() && Contents(lanes) == old(Contents(lanes)) && clock == now
      ensures forall h | h in delayedLanes :: h.deadline > now
    {
      hide IndexOk, Counted, IsLive;
      Tick(now);
      var top := DiscardStaleDelayedHeads();
      while top.Some? && top.value.deadline <= now
        invariant IndexOk(Ix(), None) && CountsOk() && TopIsLive(top)
        invariant Contents(lanes) == old(Contents(lanes)) && clock == now
        decreases |delayedLanes|
      {
        top := PromoteTop(top.value);
      }
      NothingDue(Ix(), top, now);
    }

    /** Takes the due, live top off the heap and prunes the next one. */
    method PromoteTop(head: DelayedHead) returns (top: Option<DelayedHead>)
      requires IndexOk(Ix(), None) && CountsOk() && head in delayedLanes && IsLive(head, lanes) && head.deadline <= clock
      modifies `lanes, `readyLanes, `delayedLanes, `delayedLiveCount, `delayedStaleCount
      ensures IndexOk(Ix(), None) && CountsOk() && TopIsLive(top) && Contents(lanes) == old(Contents(lanes))
      ensures |delayedLanes| < |old(delayedLanes)|
    {
      PromoteOne(head);
      top := DiscardStaleDelayedHeads();
      SubsetSize(delayedLanes, old(delayedLanes) - {head});
    }

    /** Promotes one due live head. */
    method PromoteOne(head: DelayedHead)
      requires IndexOk(Ix(), None) && CountsOk() && head in delayedLanes && IsLive(head, lanes) && head.deadline <= clock
      modifies `lanes, `readyLanes, `delayedLanes, `delayedLiveCount
      ensures IndexOk(Ix(), None) && CountsOk() && Contents(lanes) == old(Contents(lanes))
      ensures delayedLanes == old(delayedLanes) - {head}
    {
      ghost var before := Ix();
      PromoteLive(before, head);
      PromoteCounts(before, head);
      assert head.key in DelayedKeys(lanes);
      delayedLanes := delayedLanes - {head};
      lanes := lanes[head.key := lanes[head.key].(delayedVersion := None)];
      delayedLiveCount := delayedLiveCount - 1;
      readyLanes := readyLanes + [(head.key, head.version)];
      assert Ix() == Promoted(before, head);
    }

    /** Removes the head of the front ready lane, whose entry is current; the lane may need rescheduling. */
    method RemoveFront() returns (event: LocalEvent)
      requires IndexOk(Ix(), None) && CountsOk() && LaneMapOk(Contents(lanes)) && readyLanes != []
      requires readyLanes[0].1 == lanes[readyLanes[0].0].version
      requires forall h | h in delayedLanes :: h.deadline > clock
      modifies `lanes, `readyLanes
      ensures event.key in old(lanes) && event == old(lanes)[event.key].events[0] && Eligible(event, clock)
      ensures IndexOk(Ix(), if event.key in lanes then Some(event.key) else None) && CountsOk()
      ensures Contents(lanes) == PopHead(old(Contents(lanes)), event.key)
    {
      ghost var before := Ix();
      var key := readyLanes[0].0;
      TakeHead(before);
      TakeCounts(before);
      PopKeepsKeys(Contents(lanes), key);
      event := lanes[key].events[0];
      assert event == Contents(lanes)[key][0];
      var rest := lanes[key].events[1..];
      readyLanes := readyLanes[1..];
      lanes := if rest == [] then lanes - {key} else lanes[key := lanes[key].(events := rest)];
      assert Ix() == Taken(before);
    }

    /** Takes the head of the front ready lane and reschedules its successor. */
    method TakeFront(now: nat) returns (event: LocalEvent)
      requires Valid() && clock == now && readyLanes != []
      requires readyLanes[0].1 == lanes[readyLanes[0].0].version
      requires forall h | h in delayedLanes :: h.deadline > now
      modifies `lanes, `pendingCount, `readyLanes, `delayedLanes, `delayedLiveCount, `delayedStaleCount, `nextDelaySequence, `clock
      ensures Valid() && clock == now && Eligible(event, now)
      ensures event.key in old(lanes) && event == old(lanes)[event.key].events[0]
      ensures Contents(lanes) == PopHead(old(Contents(lanes)), event.key)
    {
      hide IndexOk, Counted, Bag, PopHead;
      ghost var m := Contents(lanes);
      event := RemoveFront();
      PopBag(m, event.key);
      PopKeepsKeys(m, event.key);
      pendingCount := pendingCount - 1;
      if event.key in lanes {
        ScheduleLaneHeadAt(event.key, now);
      }
    }

    /** Drops a stale entry from the front of the ready list. */
    method DropFront()
      requires IndexOk(Ix(), None) && CountsOk() && readyLanes != [] && lanes[readyLanes[0].0].version != readyLanes[0].1
      modifies `readyLanes
      ensures IndexOk(Ix(), None) && CountsOk() && readyLanes == old(readyLanes)[1..]
    {
      ghost var before := Ix();
      SkipReady(before);
      readyLanes := readyLanes[1..];
      assert Ix() == before.(ready := before.ready[1..]);
    }

    /**
     * Pops one ready lane head. The answer is complete: `None` means that no lane has an eligible head,
     * so no event is ever stranded by stale or missing scheduling entries.
     */
    method PopReady(now: nat) returns (r: Option<LocalEvent>)
      requires Valid() && clock <= now
      modifies `lanes, `pendingCount, `readyLanes, `delayedLanes, `delayedLiveCount, `delayedStaleCount, `nextDelaySequence, `clock
      ensures Valid() && clock == now
      ensures r.None? ==> Contents(lanes) == old(Contents(lanes))
                          && forall k | k in lanes :: !Eligible(lanes[k].events[0], now)
      ensures r.Some? ==> r.value.key in old(lanes) && r.value == old(lanes)[r.value.key].events[0]
                          && Eligible(r.value, now) && Contents(lanes) == PopHead(old(Contents(lanes)), r.value.key)
    {
      hide IndexOk, Counted, Bag, LaneMapOk, PopHead;
      PromoteDueHeads(now);
      while readyLanes != []
        invariant Valid() && clock == now && Contents(lanes) == old(Contents(lanes))
        invariant forall h | h in delayedLanes :: h.deadline > now
        decreases |readyLanes|
      {
        FrontKnown(Ix());
        if lanes[readyLanes[0].0].version != readyLanes[0].1 {
          DropFront();
          continue;
        }
        ghost var before := lanes;
        var event := TakeFront(now);
        SameLane(before, old(lanes), event.key);
        return Some(event);
      }
      NothingReady(Ix());
      r := None;
    }

    /** Right after an unsuccessful `PopReady`, the exact delay until some head becomes eligible. */
    method NextReadyDelay(now: nat) returns (r: Option<nat>)
      requires Valid() && clock <= now
      modifies `delayedLanes, `delayedStaleCount
      ensures Valid()
      ensures (forall k | k in lanes :: !Eligible(lanes[k].events[0], clock)) ==> IsNextDelay(Contents(lanes), now, r)
    {
      hide IndexOk, Counted, IsLive, LaneMapOk, Bag;
      var top := DiscardStaleDelayedHeads();
      r := DelayAt(top, now);
      DelayOfTop(Ix(), now, top);
    }

    /** Empties the queue: everything pending and in flight is handed to the caller, once. */
    method ClearPending() returns (discarded: seq<LocalEvent>)
      requires Valid()
      modifies `lanes, `pendingCount, `readyLanes, `delayedLanes, `delayedLiveCount, `delayedStaleCount, `inFlight
      ensures Valid() && lanes == map[] && inFlight == map[]
      ensures multiset(discarded) == old(Bag(Contents(lanes)) + Bag(FlightEvents(inFlight)))
    {
      var pending := DrainLanes(lanes);
      var received := DrainFlights(inFlight);
      discarded := pending + received;
      lanes, inFlight := map[], map[];
      readyLanes, delayedLanes, pendingCount := [], {}, 0;
      delayedLiveCount, delayedStaleCount := 0, 0;
      EmptyIndex(Ix());
    }

    /** Registers a popped event as in flight under the next token. */
    method PutInFlight(event: LocalEvent) returns (settlement: Settlement)
      requires Valid() && nextDeliveryToken < U64_MAX
      modifies `inFlight, `nextDeliveryToken
      ensures Valid()
      ensures fresh(settlement) && settlement.disposition == None
      ensures nextDeliveryToken == old(nextDeliveryToken) + 1
      ensures settlement.tokenId == TokenId(event.eventId, nextDeliveryToken)
      ensures inFlight == old(inFlight)[settlement.tokenId := Flight(event, settlement)]
    {
      var token := TokenId(event.eventId, nextDeliveryToken + 1);
      settlement := new Settlement(token);
      nextDeliveryToken, inFlight := nextDeliveryToken + 1, inFlight[token := Flight(event, settlement)];
    }

    /**
     * Moves one ready event into flight and issues its token. With an exhausted token sequence the event
     * goes back to the head of its lane and nothing has changed.
     */
    method PopMessage(now: nat) returns (r: Popped)
      requires Valid() && clock <= now
      modifies `lanes, `pendingCount, `readyLanes, `delayedLanes, `delayedLiveCount, `delayedStaleCount, `nextDelaySequence, `clock, `inFlight, `nextDeliveryToken
      ensures Valid() && clock == now
      ensures !r.Message? ==> Contents(lanes) == old(Contents(lanes)) && inFlight == old(inFlight)
                              && nextDeliveryToken == old(nextDeliveryToken)
      ensures r.NotReady? ==> forall k | k in lanes :: !Eligible(lanes[k].events[0], now)
      ensures r.Exhausted? ==> nextDeliveryToken >= U64_MAX
      ensures r.Message? ==>
                && r.event.key in old(lanes) && r.event == old(lanes)[r.event.key].events[0] && Eligible(r.event, now)
                && Contents(lanes) == PopHead(old(Contents(lanes)), r.event.key)
                && old(nextDeliveryToken) < U64_MAX && nextDeliveryToken == old(nextDeliveryToken) + 1
                && fresh(r.settlement) && r.settlement.disposition == None
                && r.settlement.tokenId == TokenId(r.event.eventId, nextDeliveryToken)
                && inFlight == old(inFlight)[r.settlement.tokenId := Flight(r.event, r.settlement)]
    {
      hide IndexOk, Counted, Bag, PopHead, PushFront, TokenId;
      ghost var m := Contents(lanes);
      var popped := PopReady(now);
      if popped.None? {
        return NotReady;
      }
      var event := popped.value;
      if nextDeliveryToken < U64_MAX {
        var settlement := PutInFlight(event);
        return Message(event, settlement);
      }
      PopThenPush(m, event.key);
      assert event == m[event.key][0];
      EnqueueFrontAt(event, now);
      r := Exhausted;
    }

    method TakeFromFlight(tokenId: string) returns (event: LocalEvent)
      requires Valid() && tokenId in inFlight
      modifies `inFlight
      ensures Valid() && event == old(inFlight)[tokenId].event && inFlight == old(inFlight) - {tokenId}
    {
      event := inFlight[tokenId].event;
      inFlight := inFlight - {tokenId};
    }

    /** Puts an in-flight event back at the head of its lane. */
    method RetryInFlight(tokenId: string, now: nat)
      requires Valid() && tokenId in inFlight && clock <= now
      modifies `lanes, `pendingCount, `readyLanes, `delayedLanes, `delayedLiveCount, `delayedStaleCount, `nextDelaySequence, `clock, `inFlight
      ensures Valid() && clock == now
      ensures Contents(lanes) == PushFront(old(Contents(lanes)), old(inFlight)[tokenId].event)
      ensures inFlight == old(inFlight) - {tokenId}
    {
      var event := TakeFromFlight(tokenId);
      EnqueueFrontAt(event, now);
    }

    /** Closes the queue for good; nothing is left to receive or settle. */
    method CloseAndClear() returns (discarded: seq<LocalEvent>)
      requires Valid()
      modifies `lanes, `pendingCount, `readyLanes, `delayedLanes, `delayedLiveCount, `delayedStaleCount, `inFlight, `closed
      ensures Valid() && closed && Contents(lanes) == map[] && lanes == map[] && inFlight == map[]
      ensures multiset(discarded) == old(Bag(Contents(lanes)) + Bag(FlightEvents(inFlight)))
    {
      discarded := ClearPending();
      closed := true;
    }
  }
}
