/** The multiset of all elements held by a map of sequences, and weights of multisets of deliveries. */
module Bags {
  import opened Prelude

  /** Every element of every sequence of `m`, with multiplicity. */
  ghost function Bag<K, T>(m: map<K, seq<T>>): multiset<T>
  {
    if m == map[] then multiset{}
    else
      var k :| k in m;
      multiset(m[k]) + Bag(m - {k})
  }

  lemma {:induction false} BagSplit<K, T>(m: map<K, seq<T>>, k: K)
    requires k in m
    ensures Bag(m) == multiset(m[k]) + Bag(m - {k})
    decreases m
  {
    var j :| j in m && Bag(m) == multiset(m[j]) + Bag(m - {j});
    if j != k {
      BagSplit(m - {j}, k);
      assert m - {j} - {k} == m - {k} - {j};
      BagSplit(m - {k}, j);
    }
  }

  lemma BagInsert<K, T>(m: map<K, seq<T>>, k: K, s: seq<T>)
    requires k !in m
    ensures Bag(m[k := s]) == Bag(m) + multiset(s)
  {
    BagSplit(m[k := s], k);
    assert m[k := s] - {k} == m;
  }

  lemma BagUpdate<K, T>(m: map<K, seq<T>>, k: K, s: seq<T>)
    requires k in m
    ensures Bag(m) == Bag(m - {k}) + multiset(m[k])
    ensures Bag(m[k := s]) == Bag(m - {k}) + multiset(s)
  {
    BagSplit(m, k);
    BagSplit(m[k := s], k);
    assert m[k := s] - {k} == m - {k};
  }

  /** The cardinality of a bag of singletons is the size of the map. */
  lemma {:induction false} BagOfSingletons<K, T>(m: map<K, seq<T>>)
    requires forall k | k in m :: |m[k]| == 1
    ensures |Bag(m)| == |m|
    decreases m
  {
    if m != map[] {
      var k :| k in m && Bag(m) == multiset(m[k]) + Bag(m - {k});
      BagOfSingletons(m - {k});
      assert m.Keys == (m - {k}).Keys + {k};
    }
  }

  /** Sum of the declared weights of a multiset of deliveries. */
  ghost function Weight(b: multiset<LocalEvent>): nat
  {
    if b == multiset{} then 0
    else
      var e :| e in b;
      e.weight + Weight(b - multiset{e})
  }

  lemma RemoveBoth(b: multiset<LocalEvent>, d: LocalEvent, e: LocalEvent)
    requires d in b && e in b && d != e
    ensures e in b - multiset{d} && d in b - multiset{e} && b - multiset{d} - multiset{e} == b - multiset{e} - multiset{d}
    ensures |b - multiset{d}| < |b| && |b - multiset{e}| < |b|
  {
  }

  lemma {:induction false} WeightSplit(b: multiset<LocalEvent>, e: LocalEvent)
    requires e in b
    ensures Weight(b) == e.weight + Weight(b - multiset{e})
    decreases |b|
  {
    var d :| d in b && Weight(b) == d.weight + Weight(b - multiset{d});
    if d != e {
      hide Weight;
      RemoveBoth(b, d, e);
      WeightSplit(b - multiset{d}, e);
      WeightSplit(b - multiset{e}, d);
    }
  }

  lemma {:induction false} WeightUnion(a: multiset<LocalEvent>, b: multiset<LocalEvent>)
    ensures Weight(a + b) == Weight(a) + Weight(b)
    decreases |b|
  {
    if b == multiset{} {
      assert a + b == a;
    } else {
      var e :| e in b;
      WeightUnion(a, b - multiset{e});
      WeightSplit(b, e);
      WeightSplit(a + b, e);
      assert a + b - multiset{e} == a + (b - multiset{e});
    }
  }

  lemma WeightOne(e: LocalEvent)
    ensures Weight(multiset{e}) == e.weight
  {
  }
}
