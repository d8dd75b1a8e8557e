/** Grouping a list by a key into a JavaScript `Map`, the way the report code does it: a key is
    added the first time an element carries it (so the map's keys, and `Array.from(map.values())`,
    follow first appearance), and each element is pushed onto its key's group, in list order. */
module Grouping {
  import opened Seqs

  /** The distinct keys of `s`, in order of first appearance. */
  function Keys<T(!new), K(==,!new)>(s: seq<T>, key: T -> K): (ks: seq<K>)
    ensures forall i, j :: 0 <= i < j < |ks| ==> ks[i] != ks[j]
    ensures forall k :: k in ks ==> exists x :: x in s && key(x) == k
    decreases |s|
  {
    if s == [] then []
    else
      var init := s[..|s| - 1];
      var x := s[|s| - 1];
      assert s == init + [x];
      var ks := Keys(init, key);
      if key(x) in ks then ks else ks + [key(x)]
  }

  /** Every element's key is among the keys. */
  lemma {:induction false} KeyListed<T(!new), K(!new)>(s: seq<T>, key: T -> K, x: T)
    requires x in s
    ensures key(x) in Keys(s, key)
    decreases |s|
  {
    var init := s[..|s| - 1];
    assert s == init + [s[|s| - 1]];
    if x != s[|s| - 1] {
      KeyListed(init, key, x);
    }
  }

  /** A key is added at the end the first time an element carries it. */
  lemma KeysSnoc<T(!new), K(!new)>(s: seq<T>, x: T, key: T -> K)
    ensures Keys(s + [x], key) == if key(x) in Keys(s, key) then Keys(s, key) else Keys(s, key) + [key(x)]
  {
    assert (s + [x])[..|s|] == s;
  }

  function KeyIs<T, K(==,!new)>(key: T -> K, k: K): T -> bool
  {
    (x: T) => key(x) == k
  }

  /** The group of key `k`: the elements carrying it, in list order. */
  function Members<T(!new), K(==,!new)>(s: seq<T>, key: T -> K, k: K): (g: seq<T>)
    ensures forall x :: x in g <==> x in s && key(x) == k
  {
    Filter(s, KeyIs(key, k))
  }

  /** Pushing `x` onto its key's group. */
  lemma MembersSnoc<T(!new), K(!new)>(s: seq<T>, x: T, key: T -> K, k: K)
    ensures Members(s + [x], key, k) == Members(s, key, k) + (if key(x) == k then [x] else [])
  {
    FilterAppend(s, [x], KeyIs(key, k));
    assert Filter([x], KeyIs(key, k)) == (if key(x) == k then [x] else []) by {
      assert [x][1..] == [];
    }
  }

  /** A key that occurs has a non-empty group; its first element is the one that created it. */
  lemma MembersOfKey<T(!new), K(!new)>(s: seq<T>, key: T -> K, k: K)
    requires k in Keys(s, key)
    ensures |Members(s, key, k)| > 0
  {
    var x :| x in s && key(x) == k;
    assert x in Members(s, key, k);
  }

  /** The element that opened the group of `k`. */
  function First<T(!new), K(==,!new)>(s: seq<T>, key: T -> K, k: K): (x: T)
    requires k in Keys(s, key)
    ensures x in s && key(x) == k
  {
    MembersOfKey(s, key, k);
    var g := Members(s, key, k);
    assert g[0] in g;
    g[0]
  }

  /** Later elements do not change which element opened a group. */
  lemma FirstSnoc<T(!new), K(!new)>(s: seq<T>, x: T, key: T -> K, k: K)
    requires k in Keys(s, key)
    ensures k in Keys(s + [x], key)
    ensures First(s + [x], key, k) == First(s, key, k)
  {
    KeysSnoc(s, x, key);
    MembersSnoc(s, x, key, k);
    MembersOfKey(s, key, k);
  }

  /** A group opened by the last element holds that element alone. */
  lemma NewKeySnoc<T(!new), K(!new)>(s: seq<T>, x: T, key: T -> K)
    requires key(x) !in Keys(s, key)
    ensures key(x) in Keys(s + [x], key)
    ensures Members(s + [x], key, key(x)) == [x]
    ensures First(s + [x], key, key(x)) == x
  {
    KeysSnoc(s, x, key);
    MembersSnoc(s, x, key, key(x));
    forall y | y in s ensures !KeyIs(key, key(x))(y) {
      KeyListed(s, key, y);
    }
    FilterNone(s, KeyIs(key, key(x)));
  }

  /** One step of the induction below: the pair `i`, `j` of groups after `x` is pushed. */
  lemma FirstsStep<T(!new), K(!new)>(init: seq<T>, x: T, key: T -> K, f: T -> int, i: nat, j: nat)
    requires SortedBy(init + [x], f)
    requires forall a, b :: 0 <= a < b < |Keys(init, key)| ==>
      f(First(init, key, Keys(init, key)[a])) <= f(First(init, key, Keys(init, key)[b]))
    requires i < j < |Keys(init + [x], key)|
    ensures f(First(init + [x], key, Keys(init + [x], key)[i])) <= f(First(init + [x], key, Keys(init + [x], key)[j]))
  {
    var s := init + [x];
    var ks := Keys(init, key);
    var ks2 := Keys(s, key);
    KeysSnoc(init, x, key);
    assert ks2[i] == ks[i] && ks[i] in ks;
    FirstSnoc(init, x, key, ks[i]);
    if j < |ks| {
      assert ks2[j] == ks[j] && ks[j] in ks;
      FirstSnoc(init, x, key, ks[j]);
    } else {
      NewKeySnoc(init, x, key);
      var y := First(init, key, ks[i]);
      var p :| 0 <= p < |init| && init[p] == y;
      assert s[p] == y && s[|s| - 1] == x;
    }
  }

  /** When the list is in ascending order of `f`, so are the elements that opened the groups,
      taken in key order: groups come out in the order of their earliest element. */
  lemma {:induction false} FirstsSorted<T(!new), K(!new)>(s: seq<T>, key: T -> K, f: T -> int)
    requires SortedBy(s, f)
    ensures forall i, j :: 0 <= i < j < |Keys(s, key)| ==>
      f(First(s, key, Keys(s, key)[i])) <= f(First(s, key, Keys(s, key)[j]))
  {
    if s != [] {
      var init, x := s[..|s| - 1], s[|s| - 1];
      assert s == init + [x];
      assert SortedBy(init, f) by {
        forall i, j | 0 <= i < j < |init| ensures f(init[i]) <= f(init[j]) {
          assert init[i] == s[i] && init[j] == s[j];
        }
      }
      FirstsSorted(init, key, f);
      forall i, j | 0 <= i < j < |Keys(s, key)|
        ensures f(First(s, key, Keys(s, key)[i])) <= f(First(s, key, Keys(s, key)[j]))
      {
        FirstsStep(init, x, key, f, i, j);
      }
    }
  }

  /** The number of elements in the groups of the keys `ks`. */
  function GroupSizes<T(!new), K(==,!new)>(s: seq<T>, key: T -> K, ks: seq<K>): nat
  {
    if ks == [] then 0 else |Members(s, key, ks[0])| + GroupSizes(s, key, ks[1..])
  }

  lemma {:induction false} GroupSizesAppend<T(!new), K(!new)>(s: seq<T>, key: T -> K, a: seq<K>, b: seq<K>)
    ensures GroupSizes(s, key, a + b) == GroupSizes(s, key, a) + GroupSizes(s, key, b)
  {
    if a != [] {
      assert (a + b)[1..] == a[1..] + b;
      GroupSizesAppend(s, key, a[1..], b);
    } else {
      assert a + b == b;
    }
  }

  /** Adding `x` grows the group of its own key by one and leaves the others. */
  lemma {:induction false} GroupSizesSnoc<T(!new), K(!new)>(s: seq<T>, x: T, key: T -> K, ks: seq<K>)
    requires forall i, j :: 0 <= i < j < |ks| ==> ks[i] != ks[j]
    ensures GroupSizes(s + [x], key, ks) == GroupSizes(s, key, ks) + (if key(x) in ks then 1 else 0)
  {
    if ks != [] {
      MembersSnoc(s, x, key, ks[0]);
      assert forall i, j :: 0 <= i < j < |ks[1..]| ==> ks[1..][i] != ks[1..][j] by {
        forall i, j | 0 <= i < j < |ks[1..]| ensures ks[1..][i] != ks[1..][j] {
          assert ks[1..][i] == ks[i + 1] && ks[1..][j] == ks[j + 1];
        }
      }
      GroupSizesSnoc(s, x, key, ks[1..]);
      assert key(x) in ks <==> key(x) == ks[0] || key(x) in ks[1..];
      if key(x) == ks[0] {
        assert key(x) !in ks[1..] by {
          forall j | 0 <= j < |ks[1..]| ensures ks[1..][j] != ks[0] {
            assert ks[1..][j] == ks[j + 1];
          }
        }
      }
    }
  }

  /** The groups partition the list: their sizes add up to its length. */
  lemma {:induction false} GroupsPartition<T(!new), K(!new)>(s: seq<T>, key: T -> K)
    ensures GroupSizes(s, key, Keys(s, key)) == |s|
  {
    if s != [] {
      var init, x := s[..|s| - 1], s[|s| - 1];
      assert s == init + [x];
      GroupsPartition(init, key);
      var ks := Keys(init, key);
      KeysSnoc(init, x, key);
      GroupSizesSnoc(init, x, key, ks);
      if key(x) !in ks {
        GroupSizesAppend(s, key, ks, [key(x)]);
        NewKeySnoc(init, x, key);
      }
    }
  }
}
