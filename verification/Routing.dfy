/** Publish order: the live queues of a topic in identifier order, rotated past the previous start. */
module Routing {
  import opened Prelude

  predicate IsLeast(m: nat, s: set<nat>) {
    m in s && forall x | x in s :: m <= x
  }

  lemma {:induction false} FindLeast(s: set<nat>) returns (m: nat)
    requires s != {}
    ensures IsLeast(m, s)
    decreases s
  {
    var y :| y in s;
    m := y;
    if s - {y} != {} {
      var n := FindLeast(s - {y});
      m := if n < y then n else y;
    }
    forall x | x in s ensures m <= x {
      assert x == y || x in s - {y};
    }
  }

  lemma LeastExists(s: set<nat>)
    requires s != {}
    ensures exists m :: IsLeast(m, s)
  {
    var m := FindLeast(s);
  }

  ghost function Least(s: set<nat>): (m: nat)
    requires s != {}
    ensures IsLeast(m, s)
  {
    LeastExists(s);
    var m :| IsLeast(m, s);
    m
  }

  /** The elements of `s` in increasing order; a `BTreeMap` walk over its keys. */
  ghost function Increasing(s: set<nat>): (r: seq<nat>)
    decreases s
  {
    if s == {} then [] else [Least(s)] + Increasing(s - {Least(s)})
  }

  lemma {:induction false} IncreasingElements(s: set<nat>)
    ensures |Increasing(s)| == |s|
    ensures forall x :: x in Increasing(s) <==> x in s
    decreases s
  {
    if s != {} {
      var m := Least(s);
      IncreasingElements(s - {m});
      assert s == {m} + (s - {m});
    }
  }

  lemma {:induction false} IncreasingOrder(s: set<nat>)
    ensures forall i, j | 0 <= i < j < |Increasing(s)| :: Increasing(s)[i] < Increasing(s)[j]
    decreases s
  {
    if s != {} {
      var m, t := Least(s), Increasing(s - {Least(s)});
      IncreasingOrder(s - {m});
      IncreasingElements(s - {m});
      forall j | 0 <= j < |t| ensures m < t[j] {
        assert t[j] in t;
      }
    }
  }

  /** Position of the first identifier above `last`, or zero. */
  function StartAfter(ids: seq<nat>, last: Option<nat>): (start: nat)
    ensures start < |ids| || start == 0
  {
    if last.None? then 0 else FirstAbove(ids, last.value, 0)
  }

  function FirstAbove(ids: seq<nat>, last: nat, from: nat): (start: nat)
    requires from <= |ids|
    ensures start < |ids| || start == 0
    decreases |ids| - from
  {
    if from == |ids| then 0 else if ids[from] > last then from else FirstAbove(ids, last, from + 1)
  }

  function RotateLeft(ids: seq<nat>, start: nat): (r: seq<nat>)
    requires start <= |ids|
    ensures |r| == |ids|
  {
    ids[start..] + ids[..start]
  }

  predicate Distinct(s: seq<nat>) {
    forall i, j | 0 <= i < j < |s| :: s[i] != s[j]
  }

  /** The identifiers one publish visits, in visiting order. */
  ghost function PublishOrder(ids: set<nat>, last: Option<nat>): (r: seq<nat>)
    ensures Distinct(r) && |r| == |ids| && forall x :: x in r <==> x in ids
  {
    var sorted := Increasing(ids);
    IncreasingElements(ids);
    IncreasingOrder(ids);
    var r := RotateLeft(sorted, StartAfter(sorted, last));
    RotationPermutes(sorted, StartAfter(sorted, last));
    r
  }

  lemma RotationPermutes(ids: seq<nat>, start: nat)
    requires start <= |ids| && forall i, j | 0 <= i < j < |ids| :: ids[i] < ids[j]
    ensures Distinct(RotateLeft(ids, start))
    ensures forall x :: x in RotateLeft(ids, start) <==> x in ids
  {
  }

  /** The start of the next publish over the same subscribers is the cyclic successor of this start. */
  lemma NextStart(ids: set<nat>, last: Option<nat>)
    requires ids != {}
    ensures var first := PublishOrder(ids, last)[0];
            var sorted := Increasing(ids);
            var i := StartAfter(sorted, last);
            && i < |sorted| && first == sorted[i]
            && PublishOrder(ids, Some(first))[0] == sorted[if i + 1 < |sorted| then i + 1 else 0]
  {
    var sorted := Increasing(ids);
    var i := StartAfter(sorted, last);
    IncreasingElements(ids);
    IncreasingOrder(ids);
    assert RotateLeft(sorted, i)[0] == sorted[i];
    SuccessorStart(sorted, i, 0);
  }

  lemma {:induction false} SuccessorStart(ids: seq<nat>, i: nat, from: nat)
    requires i < |ids| && from <= i + 1 && forall j, k | 0 <= j < k < |ids| :: ids[j] < ids[k]
    ensures FirstAbove(ids, ids[i], from) == if i + 1 < |ids| then i + 1 else 0
    decreases |ids| - from
  {
    if from <= i {
      SuccessorStart(ids, i, from + 1);
    }
  }

  /** The start recorded after `k` publishes to an unchanged set of subscribers. */
  ghost function LastAfter(ids: set<nat>, last: Option<nat>, k: nat): (r: Option<nat>)
    requires ids != {}
  {
    if k == 0 then last else Some(PublishOrder(ids, LastAfter(ids, last, k - 1))[0])
  }

  function NextTurn(i: nat, n: nat): (r: nat) {
    if i + 1 < n then i + 1 else 0
  }

  /** The position after `k` turns around a circle of `n`. */
  function Turn(i: nat, k: nat, n: nat): (r: nat) {
    if k == 0 then i else NextTurn(Turn(i, k - 1, n), n)
  }

  /** One round visits every position once and returns to where it began. */
  lemma {:induction false} TurnInRound(i: nat, k: nat, n: nat)
    requires i < n && k <= n
    ensures Turn(i, k, n) == if i + k < n then i + k else i + k - n
  {
    if k > 0 {
      TurnInRound(i, k - 1, n);
    }
  }

  /** Publishes take turns: successive starts walk the sorted subscribers cyclically. */
  lemma {:induction false} StartsTakeTurns(ids: set<nat>, last: Option<nat>, k: nat)
    requires ids != {}
    ensures var sorted := Increasing(ids); var i := Turn(StartAfter(sorted, last), k, |sorted|);
            i < |sorted| && PublishOrder(ids, LastAfter(ids, last, k))[0] == sorted[i]
  {
    hide PublishOrder, StartAfter;
    var sorted := Increasing(ids);
    if k == 0 {
      NextStart(ids, last);
    } else {
      StartsTakeTurns(ids, last, k - 1);
      StartOf(ids, LastAfter(ids, last, k - 1));
    }
  }

  /** Wherever a publish starts, the next one starts one turn further. */
  lemma StartOf(ids: set<nat>, last: Option<nat>)
    requires ids != {}
    ensures var sorted := Increasing(ids);
            forall j | 0 <= j < |sorted| && PublishOrder(ids, last)[0] == sorted[j] ::
              && NextTurn(j, |sorted|) < |sorted|
              && PublishOrder(ids, Some(sorted[j]))[0] == sorted[NextTurn(j, |sorted|)]
  {
    hide PublishOrder, Increasing;
    IncreasingOrder(ids);
    NextStart(ids, last);
  }
}
