/** Character-level string operations the actions rely on: substring search (JavaScript's
    `includes`), the database's `contains` match, and upper-casing of team codes. Only the ASCII
    letters have case here. */
module Text {

  function AsciiLower(c: char): (d: char)
    ensures 'A' <= c <= 'Z' ==> d as int == c as int + 32
    ensures !('A' <= c <= 'Z') ==> d == c
  {
    if 'A' <= c <= 'Z' then (c as int + 32) as char else c
  }

  function AsciiUpper(c: char): (d: char)
    ensures 'a' <= c <= 'z' ==> d as int == c as int - 32
    ensures !('a' <= c <= 'z') ==> d == c
  {
    if 'a' <= c <= 'z' then (c as int - 32) as char else c
  }

  /** `s.toUpperCase()`, on ASCII letters. */
  function Upper(s: string): (r: string)
    ensures |r| == |s|
    ensures forall i :: 0 <= i < |s| ==> r[i] == AsciiUpper(s[i])
  {
    seq(|s|, i requires 0 <= i < |s| => AsciiUpper(s[i]))
  }

  /** The upper-cased string has no lower-case ASCII letter, and upper-casing it again changes
      nothing. */
  lemma UpperIsUpper(s: string)
    ensures forall i :: 0 <= i < |s| ==> !('a' <= Upper(s)[i] <= 'z')
    ensures Upper(Upper(s)) == Upper(s)
  {
  }

  /** `q` occurs in `s` at position `i`. */
  predicate OccursAt(q: string, s: string, i: int)
  {
    0 <= i && i + |q| <= |s| && s[i..i + |q|] == q
  }

  /** `s.includes(q)`. */
  predicate Includes(s: string, q: string)
  {
    exists i :: 0 <= i <= |s| - |q| && OccursAt(q, s, i)
  }

  /** Two strings equal up to the case of ASCII letters. */
  predicate SameFolded(a: string, b: string)
  {
    |a| == |b| && forall i :: 0 <= i < |a| ==> AsciiLower(a[i]) == AsciiLower(b[i])
  }

  /** `q` occurs in `s` at position `i`, ignoring the case of ASCII letters. */
  predicate FoldedAt(q: string, s: string, i: int)
  {
    0 <= i && i + |q| <= |s| && SameFolded(s[i..i + |q|], q)
  }

  /** The `contains` filter as the database evaluates it (`LIKE '%q%'`): `q` occurs in `s`,
      ignoring the case of ASCII letters. */
  predicate ContainsFolded(s: string, q: string)
  {
    exists i :: 0 <= i <= |s| - |q| && FoldedAt(q, s, i)
  }

  /** An exact occurrence is also a case-blind one. */
  lemma IncludesContainsFolded(s: string, q: string)
    requires Includes(s, q)
    ensures ContainsFolded(s, q)
  {
    var i :| 0 <= i <= |s| - |q| && OccursAt(q, s, i);
    assert FoldedAt(q, s, i);
  }

  /** A match needs a subject at least as long as the query. */
  lemma ContainsFoldedLength(s: string, q: string)
    requires ContainsFolded(s, q)
    ensures |q| <= |s|
  {
  }

  /** A string includes itself and the empty string. */
  lemma IncludesSelfAndEmpty(s: string)
    ensures Includes(s, s) && Includes(s, "")
  {
    assert OccursAt(s, s, 0);
    assert OccursAt("", s, 0);
  }

  /** The order `orderBy: { field: "asc" }` puts strings in: lexicographic on characters, a
      prefix first. */
  predicate LexLe(a: string, b: string)
  {
    a == [] || (b != [] && (a[0] < b[0] || (a[0] == b[0] && LexLe(a[1..], b[1..]))))
  }

  lemma {:induction false} LexLeTotal(a: string, b: string)
    ensures LexLe(a, b) || LexLe(b, a)
  {
    if a != [] && b != [] && a[0] == b[0] {
      LexLeTotal(a[1..], b[1..]);
    }
  }

  lemma {:induction false} LexLeTrans(a: string, b: string, c: string)
    requires LexLe(a, b) && LexLe(b, c)
    ensures LexLe(a, c)
  {
    if a != [] && b != [] && c != [] && a[0] == b[0] == c[0] {
      LexLeTrans(a[1..], b[1..], c[1..]);
    }
  }

  predicate SortedByText<T>(s: seq<T>, key: T -> string)
  {
    forall i, j :: 0 <= i < j < |s| ==> LexLe(key(s[i]), key(s[j]))
  }

  /** Places `x` before the first element whose key does not sort before its own. */
  function InsertByText<T(!new)>(x: T, s: seq<T>, key: T -> string): (r: seq<T>)
    requires SortedByText(s, key)
    ensures SortedByText(r, key)
    ensures multiset(r) == multiset(s) + multiset{x}
  {
    if s == [] then [x]
    else if LexLe(key(x), key(s[0])) then
      forall j | 0 <= j < |s| ensures LexLe(key(x), key(s[j])) {
        if j > 0 {
          LexLeTrans(key(x), key(s[0]), key(s[j]));
        }
      }
      [x] + s
    else
      LexLeTotal(key(x), key(s[0]));
      var tail := s[1..];
      assert SortedByText(tail, key) by {
        forall i, j | 0 <= i < j < |tail| ensures LexLe(key(tail[i]), key(tail[j])) {
          assert tail[i] == s[i + 1] && tail[j] == s[j + 1];
        }
      }
      var rest := InsertByText(x, tail, key);
      assert s == [s[0]] + tail;
      forall i | 0 <= i < |rest| ensures LexLe(key(s[0]), key(rest[i])) {
        assert rest[i] in multiset(rest);
        if rest[i] != x {
          assert rest[i] in multiset(tail);
          var j :| 0 <= j < |tail| && tail[j] == rest[i];
          assert s[j + 1] == rest[i];
        }
      }
      [s[0]] + rest
  }

  /** A stable insertion sort, ascending by the string `key`. */
  function SortByText<T(!new)>(s: seq<T>, key: T -> string): (r: seq<T>)
    ensures SortedByText(r, key)
    ensures multiset(r) == multiset(s)
    ensures |r| == |s| && forall x :: x in r <==> x in s
  {
    if s == [] then []
    else
      assert s == [s[0]] + s[1..];
      var r := InsertByText(s[0], SortByText(s[1..], key), key);
      assert forall x :: x in r <==> x in multiset(r);
      assert forall x :: x in s <==> x in multiset(s);
      assert |r| == |multiset(r)|;
      r
  }
}
