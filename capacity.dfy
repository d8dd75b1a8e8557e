/** The capacity multiset comparator of app/actions/get-dispatches.ts: how many units of each
    capacity a batch holds, and whether two batches hold the same counts. Units of one capacity
    are interchangeable: the comparison matches counts, never serial numbers. */
module Capacity {
  import opened Model

  /** The key a unit is counted under: its capacity, or "unknown" when the capacity is
      missing or empty (both are falsy for `||`). */
  function CapacityKey(t: Transformer): (c: string)
    ensures c == "unknown" <==> !Truthy(t.capacity) || t.capacity.value == "unknown"
  {
    if Truthy(t.capacity) then t.capacity.value else "unknown"
  }

  /** The capacity key of every unit, in order. */
  function Capacities(ts: seq<Transformer>): (cs: seq<string>)
    ensures |cs| == |ts|
    ensures forall i :: 0 <= i < |ts| ==> cs[i] == CapacityKey(ts[i])
  {
    seq(|ts|, i requires 0 <= i < |ts| => CapacityKey(ts[i]))
  }

  /** The reference meaning of a capacity map: the multiset of the units' capacity keys,
      written as a map from key to multiplicity. */
  function CapacityCounts(ts: seq<Transformer>): map<string, nat>
  {
    Multiplicities(multiset(Capacities(ts)))
  }

  /** A multiset of keys written as a map from key to multiplicity. */
  function Multiplicities(ms: multiset<string>): map<string, nat>
  {
    map c | c in ms :: ms[c]
  }

  /** One more occurrence of `c` bumps exactly the entry of `c`. */
  lemma MultiplicitiesAdd(ms: multiset<string>, c: string)
    ensures var m := Multiplicities(ms);
      Multiplicities(ms + multiset{c}) == m[c := (if c in m then m[c] else 0) + 1]
  {
    var m := Multiplicities(ms);
    var m' := Multiplicities(ms + multiset{c});
    var bumped := m[c := (if c in m then m[c] else 0) + 1];
    assert m'.Keys == bumped.Keys;
  }

  /** The sum of a count map's values. */
  ghost function SumOfCounts(m: map<string, nat>): nat
    decreases |m|
  {
    if m == map[] then 0
    else
      var k :| k in m;
      m[k] + SumOfCounts(m - {k})
  }

  /** `SumOfCounts` does not depend on which key it takes first. */
  lemma {:induction false} SumOfCountsRemove(m: map<string, nat>, k: string)
    requires k in m
    ensures SumOfCounts(m) == m[k] + SumOfCounts(m - {k})
    decreases |m|
  {
    var j :| j in m && SumOfCounts(m) == m[j] + SumOfCounts(m - {j});
    if j != k {
      assert (m - {j}) - {k} == (m - {k}) - {j};
      SumOfCountsRemove(m - {j}, k);
      SumOfCountsRemove(m - {k}, j);
    }
  }

  /** Counting one more occurrence of `c` raises the sum by one. */
  lemma SumOfCountsBump(m: map<string, nat>, c: string)
    ensures SumOfCounts(m[c := (if c in m then m[c] else 0) + 1]) == SumOfCounts(m) + 1
  {
    var m' := m[c := (if c in m then m[c] else 0) + 1];
    SumOfCountsRemove(m', c);
    if c in m {
      SumOfCountsRemove(m, c);
      assert m' - {c} == m - {c};
    } else {
      assert m' - {c} == m;
    }
  }

  /** Appending a unit bumps exactly its own key. */
  lemma CapacityCountsSnoc(ts: seq<Transformer>, t: Transformer)
    ensures var m := CapacityCounts(ts); var c := CapacityKey(t);
      CapacityCounts(ts + [t]) == m[c := (if c in m then m[c] else 0) + 1]
  {
    assert Capacities(ts + [t]) == Capacities(ts) + [CapacityKey(t)];
    MultiplicitiesAdd(multiset(Capacities(ts)), CapacityKey(t));
  }

  /** createCapacityMap counts every unit exactly once: the counts add up to the number of units. */
  lemma {:induction false} CapacityCountsTotal(ts: seq<Transformer>)
    ensures SumOfCounts(CapacityCounts(ts)) == |ts|
  {
    if ts == [] {
      assert CapacityCounts(ts) == map[];
    } else {
      var init := ts[..|ts| - 1];
      assert ts == init + [ts[|ts| - 1]];
      CapacityCountsTotal(init);
      CapacityCountsSnoc(init, ts[|ts| - 1]);
      SumOfCountsBump(CapacityCounts(init), CapacityKey(ts[|ts| - 1]));
    }
  }

  /** createCapacityMap: one pass over the units, incrementing the entry of each unit's key. */
  method CreateCapacityMap(ts: seq<Transformer>) returns (m: map<string, nat>)
    ensures m == CapacityCounts(ts)
    ensures forall c :: c in m <==> exists t :: t in ts && CapacityKey(t) == c
    ensures forall c :: c in m ==> m[c] == |Seqs.Filter(ts, (t: Transformer) => CapacityKey(t) == c)|
  {
    m := map[];
    for i := 0 to |ts|
      invariant m == CapacityCounts(ts[..i])
    {
      var cap := CapacityKey(ts[i]);
      CountsPrefixStep(ts, i);
      m := m[cap := (if cap in m then m[cap] else 0) + 1];
    }
    assert ts[..|ts|] == ts;
    CapacityCountsMeaning(ts);
  }

  /** One more unit of the prefix bumps the entry of its key. */
  lemma CountsPrefixStep(ts: seq<Transformer>, i: nat)
    requires i < |ts|
    ensures var m := CapacityCounts(ts[..i]); var c := CapacityKey(ts[i]);
      CapacityCounts(ts[..i + 1]) == m[c := (if c in m then m[c] else 0) + 1]
  {
    assert ts[..i + 1] == ts[..i] + [ts[i]];
    CapacityCountsSnoc(ts[..i], ts[i]);
  }

  /** The keys of a capacity map are exactly the keys of the units, and each key maps to the
      number of units carrying it. */
  lemma CapacityCountsMeaning(ts: seq<Transformer>)
    ensures forall c :: c in CapacityCounts(ts) <==> exists t :: t in ts && CapacityKey(t) == c
    ensures forall c :: c in CapacityCounts(ts) ==>
      CapacityCounts(ts)[c] == |Seqs.Filter(ts, (t: Transformer) => CapacityKey(t) == c)|
  {
    var m := CapacityCounts(ts);
    forall c | c in m
      ensures m[c] == |Seqs.Filter(ts, (t: Transformer) => CapacityKey(t) == c)|
    {
      CountMatches(ts, c);
    }
    forall c | c in m
      ensures exists t :: t in ts && CapacityKey(t) == c
    {
      var i :| 0 <= i < |Capacities(ts)| && Capacities(ts)[i] == c;
      assert ts[i] in ts;
    }
    forall c | exists t :: t in ts && CapacityKey(t) == c
      ensures c in m
    {
      var t :| t in ts && CapacityKey(t) == c;
      var i :| 0 <= i < |ts| && ts[i] == t;
      assert Capacities(ts)[i] == c;
    }
  }

  /** The multiplicity of `c` among the capacity keys is the number of units with key `c`. */
  lemma {:induction false} CountMatches(ts: seq<Transformer>, c: string)
    ensures multiset(Capacities(ts))[c] == |Seqs.Filter(ts, (t: Transformer) => CapacityKey(t) == c)|
  {
    if ts != [] {
      CountMatches(ts[1..], c);
      assert Capacities(ts) == [CapacityKey(ts[0])] + Capacities(ts[1..]);
    }
  }

  /** isCapacityMapEqual: equal key counts, then every key of the first map carries the same
      count in the second (a key the second map lacks reads as `undefined`, never equal). */
  method IsCapacityMapEqual(m1: map<string, nat>, m2: map<string, nat>) returns (eq: bool)
    ensures eq <==> (m1.Keys == m2.Keys && forall k :: k in m1 ==> m1[k] == m2[k])
  {
    if |m1.Keys| != |m2.Keys| {
      return false;
    }
    var keys := m1.Keys;
    while keys != {}
      invariant keys <= m1.Keys
      invariant forall k :: k in m1.Keys - keys ==> k in m2 && m1[k] == m2[k]
      decreases keys
    {
      var key :| key in keys;
      if key !in m2 || m1[key] != m2[key] {
        return false;
      }
      keys := keys - {key};
    }
    assert m1.Keys <= m2.Keys;
    assert |m2.Keys - m1.Keys| == |m2.Keys| - |m1.Keys|;
    return true;
  }

  /** The comparator's verdict on two batches of units. */
  predicate SameCapacities(a: seq<Transformer>, b: seq<Transformer>)
  {
    CapacityCounts(a) == CapacityCounts(b)
  }

  /** Two batches compare equal exactly when they hold the same multiset of capacity keys:
      the comparator ignores order and serial numbers. */
  lemma SameCapacitiesIffSameMultiset(a: seq<Transformer>, b: seq<Transformer>)
    ensures SameCapacities(a, b) <==> multiset(Capacities(a)) == multiset(Capacities(b))
  {
    var ma, mb := multiset(Capacities(a)), multiset(Capacities(b));
    if SameCapacities(a, b) {
      forall c ensures ma[c] == mb[c] {
        assert (c in ma) == (c in CapacityCounts(a));
        assert (c in mb) == (c in CapacityCounts(b));
      }
    }
  }

  /** The comparator is reflexive (also on empty batches) and symmetric. */
  lemma SameCapacitiesReflexiveSymmetric(a: seq<Transformer>, b: seq<Transformer>)
    ensures SameCapacities(a, a)
    ensures SameCapacities([], [])
    ensures SameCapacities(a, b) <==> SameCapacities(b, a)
  {
  }

  /** Reordering a batch never changes its capacity map. */
  lemma {:induction false} CapacitiesOfPermutation(a: seq<Transformer>, b: seq<Transformer>)
    requires multiset(a) == multiset(b)
    ensures SameCapacities(a, b)
  {
    MultisetOfCapacities(a);
    MultisetOfCapacities(b);
    SameCapacitiesIffSameMultiset(a, b);
  }

  /** The capacity-key multiset is determined by the multiset of units. */
  lemma {:induction false} MultisetOfCapacities(ts: seq<Transformer>)
    ensures forall c :: multiset(Capacities(ts))[c] == CountKey(multiset(ts), c)
  {
    forall c ensures multiset(Capacities(ts))[c] == CountKey(multiset(ts), c) {
      CountKeyOfSeq(ts, c);
    }
  }

  /** The number of units in a multiset whose key is `c`. */
  ghost function CountKey(ms: multiset<Transformer>, c: string): nat
    decreases |ms|
  {
    if ms == multiset{} then 0
    else
      var t :| t in ms;
      (if CapacityKey(t) == c then 1 else 0) + CountKey(ms - multiset{t}, c)
  }

  lemma {:induction false} CountKeyRemove(ms: multiset<Transformer>, t: Transformer, c: string)
    requires t in ms
    ensures CountKey(ms, c) == (if CapacityKey(t) == c then 1 else 0) + CountKey(ms - multiset{t}, c)
    decreases |ms|
  {
    var u :| u in ms && CountKey(ms, c) == (if CapacityKey(u) == c then 1 else 0) + CountKey(ms - multiset{u}, c);
    if u != t {
      assert (ms - multiset{u}) - multiset{t} == (ms - multiset{t}) - multiset{u};
      CountKeyRemove(ms - multiset{u}, t, c);
      CountKeyRemove(ms - multiset{t}, u, c);
    }
  }

  lemma {:induction false} CountKeyOfSeq(ts: seq<Transformer>, c: string)
    ensures multiset(Capacities(ts))[c] == CountKey(multiset(ts), c)
  {
    if ts != [] {
      CountKeyOfSeq(ts[1..], c);
      CapacitiesCons(ts, c);
      MultisetTail(ts);
      CountKeyRemove(multiset(ts), ts[0], c);
    }
  }

  /** The first unit contributes its own key to the capacity-key multiset. */
  lemma CapacitiesCons(ts: seq<Transformer>, c: string)
    requires ts != []
    ensures multiset(Capacities(ts))[c] == (if CapacityKey(ts[0]) == c then 1 else 0) + multiset(Capacities(ts[1..]))[c]
  {
    assert Capacities(ts) == [CapacityKey(ts[0])] + Capacities(ts[1..]);
  }

  lemma MultisetTail(ts: seq<Transformer>)
    requires ts != []
    ensures multiset(ts) - multiset{ts[0]} == multiset(ts[1..])
  {
    assert ts == [ts[0]] + ts[1..];
  }

  /** Batches of different sizes never compare equal; in particular returning more units than
      were received keeps a batch open. */
  lemma DifferentSizesDiffer(a: seq<Transformer>, b: seq<Transformer>)
    requires |a| != |b|
    ensures !SameCapacities(a, b)
  {
    CapacityCountsTotal(a);
    CapacityCountsTotal(b);
  }
}
