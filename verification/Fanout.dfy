/** What a publisher in the middle of its fan-out knows, whatever the other threads do meanwhile. */
module Fanout {
  import opened Prelude
  import opened Bags
  import opened Decimal
  import opened OutstandingBudgets
  import opened Queues
  import opened Deliveries

  /** One reported destination: accepted when `rejection` is absent. */
  datatype Admission = Admission(id: nat, rejection: Option<RejectionKind>)

  /** Facts no step can undo: queues keep their identity, closing is final, admissions only accumulate. */
  predicate SameQueue(p: Queue<nat>, q: Queue<nat>) {
    && q.id == p.id && q.topic == p.topic && q.declaredType == p.declaredType && q.capacity == p.capacity
    && (p.closed ==> q.closed)
  }

  /** Copies only gain a fate; the only copy admitted, if any, is `e`. */
  predicate LedgerGrows(l: Ledger, m: Ledger, e: Option<LocalEvent>) {
    && l.accepted <= m.accepted && l.rejected <= m.rejected && l.discarded <= m.discarded
    && (m.admitted == l.admitted || (e.Some? && m.admitted == l.admitted + multiset{e.value}))
  }

  /** A token keeps its key, and its first disposition for ever. */
  predicate TokenKeeps(t: Token, u: Token) {
    u.subscriptionId == t.subscriptionId && u.tokenId == t.tokenId && (t.disposition.Some? ==> u.disposition == t.disposition)
  }

  predicate TokensKeep(c: Core, c': Core) {
    |c.tokens| <= |c'.tokens| && forall h | 0 <= h < |c.tokens| :: TokenKeeps(c.tokens[h], c'.tokens[h])
  }

  /** `c'` follows from `c`; the only copy admitted in between, if any, is `e`. */
  predicate Evolves(c: Core, c': Core, e: Option<LocalEvent>) {
    && |c.queues| == |c.ledgers| && |c'.queues| == |c'.ledgers| && |c.queues| <= |c'.queues|
    && RequiresWeight(c.budget) == RequiresWeight(c'.budget)
    && (forall i | 0 <= i < |c.queues| :: SameQueue(c.queues[i], c'.queues[i]))
    && (forall i | 0 <= i < |c.queues| :: LedgerGrows(c.ledgers[i], c'.ledgers[i], e))
    && (forall i | |c.queues| <= i < |c'.queues| :: c'.ledgers[i].admitted == multiset{})
    && TokensKeep(c, c')
  }

  lemma CoreUnmoved(c: Core)
    requires |c.queues| == |c.ledgers|
    ensures Evolves(c, c, None)
  {
  }

  lemma AdmitEvolves(c: Core, i: nat, e: LocalEvent)
    requires i < |c.queues| == |c.ledgers|
    ensures Evolves(c, Admit(c, i, e), Some(e))
  {
    hide Size, Outstanding, Weight;
  }

  lemma ReceiveEvolves(c: Core, i: nat, k: Key)
    requires i < |c.queues| == |c.ledgers| && k in c.queues[i].lanes && c.queues[i].lanes[k] != []
    ensures Evolves(c, Receive(c, i, k), None)
  {
  }

  lemma SettleEvolves(c: Core, i: nat, h: nat, d: Disposition)
    requires i < |c.queues| == |c.ledgers| && h < |c.tokens|
    ensures Evolves(c, Settle(c, i, h, d), None)
  {
    hide LedgerGrows, LedgerSettled, PushFront;
    var c' := Settle(c, i, h, d);
    forall j | 0 <= j < |c.queues| ensures LedgerGrows(c.ledgers[j], c'.ledgers[j], None) {
      SameGrows(c.ledgers[j]);
      if SettleVerdict(c.queues[i], h, c.tokens[h], d) == Applies {
        SettledGrows(c.ledgers[j], c.queues[i].inFlight[c.tokens[h].tokenId].event, d);
      }
    }
  }

  lemma SameGrows(l: Ledger)
    ensures LedgerGrows(l, l, None)
  {
  }

  lemma SettledGrows(l: Ledger, e: LocalEvent, d: Disposition)
    ensures LedgerGrows(l, LedgerSettled(l, e, d), None)
  {
  }

  lemma CloseEvolves(c: Core, i: nat)
    requires i < |c.queues| == |c.ledgers|
    ensures Evolves(c, Close(c, i), None)
  {
    hide Size, Outstanding, Weight;
  }

  lemma AddEvolves(c: Core, id: nat, topic: string, declaredType: nat, capacity: nat)
    requires |c.queues| == |c.ledgers|
    ensures Evolves(c, AddQueue(c, id, topic, declaredType, capacity), None)
  {
  }

  // ----- which queue a step touches -----

  lemma AdmitChanges(c: Core, i: nat, e: LocalEvent)
    requires i < |c.queues| == |c.ledgers|
    ensures var c' := Admit(c, i, e);
            && |c'.queues| == |c.queues| && c'.queues == c.queues[i := c'.queues[i]]
            && c'.queues[i].closed == c.queues[i].closed
            && (AdmissionRefusal(c.queues[i], c.budget, e).Some? ==> c'.queues[i] == c.queues[i])
            && (Busy(c, i) ==> Busy(c', i))
  {
    hide AdmissionRefusal;
    assert PushBack(c.queues[i].lanes, e)[e.key] != [];
  }

  lemma ReceiveChanges(c: Core, i: nat, k: Key)
    requires i < |c.queues| && k in c.queues[i].lanes && c.queues[i].lanes[k] != []
    ensures var c' := Receive(c, i, k);
            && |c'.queues| == |c.queues| && c'.queues == c.queues[i := c'.queues[i]] && Busy(c', i)
  {
    var q := c.queues[i];
    var q' := PopMessage(q, k, |c.tokens|);
    if q.nextToken < U64_MAX {
      assert TokenId(q.lanes[k][0].eventId, q.nextToken + 1) in q'.inFlight;
    }
  }

  lemma SettleChanges(c: Core, i: nat, h: nat, d: Disposition)
    requires i < |c.queues| == |c.ledgers| && h < |c.tokens|
    ensures var c' := Settle(c, i, h, d); |c'.queues| == |c.queues| && c'.queues == c.queues[i := c'.queues[i]]
  {
  }

  lemma CloseChanges(c: Core, i: nat)
    requires i < |c.queues| == |c.ledgers|
    ensures var c' := Close(c, i);
            |c'.queues| == |c.queues| && c'.queues == c.queues[i := c'.queues[i]] && c'.queues[i].closed
  {
  }

  /** `c'` follows from `c` in any number of steps. */
  predicate Follows(c: Core, c': Core) {
    && |c.queues| == |c.ledgers| && |c'.queues| == |c'.ledgers| && |c.queues| <= |c'.queues|
    && (forall i | 0 <= i < |c.queues| :: SameQueue(c.queues[i], c'.queues[i]))
    && (forall i | 0 <= i < |c.queues| :: LedgerFollows(c.ledgers[i], c'.ledgers[i]))
    && TokensKeep(c, c')
  }

  predicate LedgerFollows(l: Ledger, m: Ledger) {
    l.admitted <= m.admitted && l.accepted <= m.accepted && l.rejected <= m.rejected && l.discarded <= m.discarded
  }

  lemma EvolvesFollows(c: Core, c': Core, e: Option<LocalEvent>)
    requires Evolves(c, c', e)
    ensures Follows(c, c')
  {
  }

  lemma FollowsTransitive(a: Core, b: Core, c: Core)
    requires Follows(a, b) && Follows(b, c)
    ensures Follows(a, c)
  {
  }

  // ----- the report of one publication -----

  ghost predicate Unseen(c: Core, i: nat, publication: nat)
    requires i < |c.ledgers|
  {
    forall d | d in c.ledgers[i].admitted :: d.publication != publication
  }

  /** The report entry for queue `i` tells the truth about the one copy of `e` it may have admitted. */
  predicate EntryOk(c: Core, e: LocalEvent, i: nat, a: Admission)
    requires i < |c.queues| == |c.ledgers|
  {
    a.id == c.queues[i].id && (a.rejection.None? <==> e in c.ledgers[i].admitted)
  }

  /** Queue `i` may receive `e`: it exists and declared the type of `e`. */
  predicate Compatible(c: Core, e: LocalEvent, i: nat) {
    i < |c.queues| && c.queues[i].declaredType == e.payloadType
  }

  predicate DistinctIds(c: Core, snapshot: seq<nat>)
    requires forall j | 0 <= j < |snapshot| :: snapshot[j] < |c.queues|
  {
    forall j, k | 0 <= j < k < |snapshot| :: c.queues[snapshot[j]].id != c.queues[snapshot[k]].id
  }

  ghost predicate ReportOk(c: Core, e: LocalEvent, snapshot: seq<nat>, done: seq<Admission>) {
    && |c.queues| == |c.ledgers| && |done| <= |snapshot|
    && (!RequiresWeight(c.budget) ==> e.weight == 0)
    && (forall j | 0 <= j < |snapshot| :: Compatible(c, e, snapshot[j]))
    && DistinctIds(c, snapshot)
    && (forall j | 0 <= j < |done| :: EntryOk(c, e, snapshot[j], done[j]))
    && Elsewhere(c, e, snapshot[..|done|])
  }

  /** No queue outside `visited` holds or ever held a copy of the publication. */
  ghost predicate Elsewhere(c: Core, e: LocalEvent, visited: seq<nat>) {
    forall i | 0 <= i < |c.ledgers| && i !in visited :: Unseen(c, i, e.publication)
  }

  /** Steps of other threads do not disturb the report. */
  lemma ReportStable(c: Core, c': Core, other: Option<LocalEvent>, e: LocalEvent, snapshot: seq<nat>, done: seq<Admission>)
    requires Evolves(c, c', other) && ReportOk(c, e, snapshot, done)
    requires other.Some? ==> other.value.publication != e.publication
    ensures ReportOk(c', e, snapshot, done)
  {
  }

  /** Visiting the next queue extends the report truthfully. */
  lemma ReportExtends(c: Core, e: LocalEvent, snapshot: seq<nat>, done: seq<Admission>)
    requires ReportOk(c, e, snapshot, done) && |done| < |snapshot|
    ensures var i := snapshot[|done|];
            i < |c.queues| &&
            ReportOk(Admit(c, i, e), e, snapshot, done + [Admission(c.queues[i].id, AdmissionRefusal(c.queues[i], c.budget, e))])
  {
    hide Size, Outstanding, Weight, AdmissionRefusal, AdmitBudget, TokensKeep, Unseen, DistinctIds;
    assert Compatible(c, e, snapshot[|done|]);
    var i := snapshot[|done|];
    var c' := Admit(c, i, e);
    var a := Admission(c.queues[i].id, AdmissionRefusal(c.queues[i], c.budget, e));
    AdmitEvolves(c, i, e);
    forall j | 0 <= j < |snapshot| ensures Compatible(c', e, snapshot[j]) && SameQueue(c.queues[snapshot[j]], c'.queues[snapshot[j]]) {
      assert Compatible(c, e, snapshot[j]);
    }
    assert DistinctIds(c', snapshot) by { SameIds(c, c', snapshot); }
    NotVisited(c, e, snapshot, done);
    forall j | 0 <= j < |done| + 1 ensures EntryOk(c', e, snapshot[j], (done + [a])[j]) {
      assert j < |done| ==> EntryOk(c, e, snapshot[j], done[j]) && snapshot[j] != i;
    }
    assert snapshot[..|done| + 1] == snapshot[..|done|] + [i];
    forall k | 0 <= k < |c'.ledgers| && k !in snapshot[..|done| + 1] ensures Unseen(c', k, e.publication) {
      assert Unseen(c, k, e.publication) && c'.ledgers[k] == c.ledgers[k];
      SameAdmitted(c, c', k, e.publication);
    }
  }

  lemma SameAdmitted(c: Core, c': Core, k: nat, publication: nat)
    requires k < |c.ledgers| && k < |c'.ledgers| && c'.ledgers[k] == c.ledgers[k] && Unseen(c, k, publication)
    ensures Unseen(c', k, publication)
  {
  }

  lemma SameIds(c: Core, c': Core, snapshot: seq<nat>)
    requires forall j | 0 <= j < |snapshot| :: snapshot[j] < |c.queues| && snapshot[j] < |c'.queues|
    requires forall j | 0 <= j < |snapshot| :: SameQueue(c.queues[snapshot[j]], c'.queues[snapshot[j]])
    requires DistinctIds(c, snapshot)
    ensures DistinctIds(c', snapshot)
  {
  }

  /** The next queue of the snapshot was not visited before, so it has no copy yet. */
  lemma NotVisited(c: Core, e: LocalEvent, snapshot: seq<nat>, done: seq<Admission>)
    requires ReportOk(c, e, snapshot, done) && |done| < |snapshot|
    ensures snapshot[|done|] < |c.ledgers| && snapshot[|done|] !in snapshot[..|done|]
    ensures forall j | 0 <= j < |done| :: snapshot[j] != snapshot[|done|]
    ensures Unseen(c, snapshot[|done|], e.publication) && e !in c.ledgers[snapshot[|done|]].admitted
  {
  }

  lemma NextVisit(c: Core, e: LocalEvent, snapshot: seq<nat>, done: seq<Admission>)
    requires ReportOk(c, e, snapshot, done) && |done| < |snapshot|
    ensures var i := snapshot[|done|];
            && i < |c.queues| == |c.ledgers| && e.payloadType == c.queues[i].declaredType
            && (!RequiresWeight(c.budget) ==> e.weight == 0)
            && forall d | d in c.ledgers[i].admitted :: d.publication != e.publication
  {
    assert Compatible(c, e, snapshot[|done|]);
    NotVisited(c, e, snapshot, done);
  }

  // ----- the final sort -----

  predicate SortedById(s: seq<Admission>) {
    forall i, j | 0 <= i < j < |s| :: s[i].id < s[j].id
  }

  function InsertById(s: seq<Admission>, a: Admission): (r: seq<Admission>) {
    if s == [] || a.id < s[0].id then [a] + s else [s[0]] + InsertById(s[1..], a)
  }

  /** `sort_unstable_by_key(subscription_id)`. */
  function SortById(s: seq<Admission>): (r: seq<Admission>) {
    if s == [] then [] else InsertById(SortById(s[1..]), s[0])
  }

  lemma {:induction false} InsertIs(s: seq<Admission>, a: Admission)
    requires SortedById(s) && forall i | 0 <= i < |s| :: s[i].id != a.id
    ensures SortedById(InsertById(s, a)) && multiset(InsertById(s, a)) == multiset(s) + multiset{a}
  {
    InsertMultiset(s, a);
    if s != [] && a.id > s[0].id {
      InsertIs(s[1..], a);
      MemberOf(InsertById(s[1..], a), s[1..], a);
    }
  }

  lemma {:induction false} InsertMultiset(s: seq<Admission>, a: Admission)
    ensures multiset(InsertById(s, a)) == multiset(s) + multiset{a}
  {
    if s != [] && a.id >= s[0].id {
      assert s == [s[0]] + s[1..];
      InsertMultiset(s[1..], a);
    }
  }

  lemma MemberOf(t: seq<Admission>, s: seq<Admission>, a: Admission)
    requires multiset(t) == multiset(s) + multiset{a}
    ensures forall i | 0 <= i < |t| :: t[i] == a || t[i] in s
  {
    forall i | 0 <= i < |t| ensures t[i] == a || t[i] in s {
      assert t[i] in multiset(t);
    }
  }

  lemma {:induction false} SortIs(s: seq<Admission>)
    requires forall i, j | 0 <= i < j < |s| :: s[i].id != s[j].id
    ensures SortedById(SortById(s)) && multiset(SortById(s)) == multiset(s)
  {
    if s != [] {
      assert s == [s[0]] + s[1..];
      SortIs(s[1..]);
      var t := SortById(s[1..]);
      forall i | 0 <= i < |t| ensures t[i].id != s[0].id {
        assert t[i] in multiset(t);
        assert t[i] in s[1..];
      }
      InsertIs(t, s[0]);
    }
  }

  /** With distinct ids the sorted report is unique: neither rotation nor an unstable sort shows. */
  lemma {:induction false} SortUnique(a: seq<Admission>, b: seq<Admission>)
    requires SortedById(a) && SortedById(b) && multiset(a) == multiset(b)
    ensures a == b
  {
    if a == [] || b == [] {
      assert |a| == |multiset(a)| && |b| == |multiset(b)|;
    } else {
      HeadUnique(a, b);
      Tail(a);
      Tail(b);
      SortUnique(a[1..], b[1..]);
    }
  }

  lemma Tail(a: seq<Admission>)
    requires a != []
    ensures a == [a[0]] + a[1..] && multiset(a[1..]) == multiset(a) - multiset{a[0]}
  {
  }

  lemma HeadUnique(a: seq<Admission>, b: seq<Admission>)
    requires SortedById(a) && SortedById(b) && multiset(a) == multiset(b) && a != [] && b != []
    ensures a[0] == b[0]
  {
    assert a[0] in multiset(b) && b[0] in multiset(a);
    var i :| 0 <= i < |b| && b[i] == a[0];
    var j :| 0 <= j < |a| && a[j] == b[0];
  }
}
