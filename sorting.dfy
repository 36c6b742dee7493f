/** `Array.prototype.sort`, which is stable: an insertion sort by a comparison
    `le(a, b)` ("a may come before b"), the order of strings by character
    codes that stands for the default sort's UTF-16 code-unit order, and the
    proofs that the result is ordered, a permutation of the input and
    stable. */
module Sorting {

  ghost predicate TotalPreorder<T(!new)>(le: (T, T) -> bool) {
    && (forall a, b :: le(a, b) || le(b, a))
    && (forall a, b, c :: le(a, b) && le(b, c) ==> le(a, c))
  }

  predicate SortedBy<T>(s: seq<T>, le: (T, T) -> bool) {
    forall i, j :: 0 <= i < j < |s| ==> le(s[i], s[j])
  }

  /** Puts `x` before the first element it may precede. */
  function InsertBy<T>(x: T, s: seq<T>, le: (T, T) -> bool): (r: seq<T>)
    ensures multiset(r) == multiset(s) + multiset{x}
  {
    if s == [] then [x]
    else if le(x, s[0]) then [x] + s
    else
      assert s == [s[0]] + s[1..];
      [s[0]] + InsertBy(x, s[1..], le)
  }

  function SortBy<T>(s: seq<T>, le: (T, T) -> bool): (r: seq<T>)
    ensures multiset(r) == multiset(s)
  {
    if s == [] then []
    else
      assert s == [s[0]] + s[1..];
      InsertBy(s[0], SortBy(s[1..], le), le)
  }

  lemma {:induction false} InsertSorted<T(!new)>(x: T, s: seq<T>, le: (T, T) -> bool)
    requires TotalPreorder(le)
    requires SortedBy(s, le)
    ensures SortedBy(InsertBy(x, s, le), le)
  {
    if s != [] && !le(x, s[0]) {
      var t := InsertBy(x, s[1..], le);
      InsertSorted(x, s[1..], le);
      assert le(s[0], x);
      forall k | 0 <= k < |t| ensures le(s[0], t[k]) {
        assert t[k] in multiset(t);
        if t[k] != x {
          assert t[k] in multiset(s[1..]);
          var j :| 0 <= j < |s[1..]| && s[1..][j] == t[k];
          assert s[j + 1] == t[k];
        }
      }
    }
  }

  lemma {:induction false} SortSorted<T(!new)>(s: seq<T>, le: (T, T) -> bool)
    requires TotalPreorder(le)
    ensures SortedBy(SortBy(s, le), le)
  {
    if s != [] {
      SortSorted(s[1..], le);
      InsertSorted(s[0], SortBy(s[1..], le), le);
    }
  }

  /** The elements of `s` that `le` ranks level with `a`, in their order in `s`. */
  function Level<T>(s: seq<T>, le: (T, T) -> bool, a: T): (r: seq<T>)
    ensures |r| <= |s|
  {
    if s == [] then []
    else (if le(s[0], a) && le(a, s[0]) then [s[0]] else []) + Level(s[1..], le, a)
  }

  lemma LevelCons<T>(y: T, u: seq<T>, le: (T, T) -> bool, a: T)
    ensures Level([y] + u, le, a) == (if le(y, a) && le(a, y) then [y] else []) + Level(u, le, a)
  {
    assert ([y] + u)[0] == y && ([y] + u)[1..] == u;
  }

  lemma LevelSwap<T>(h: seq<T>, m: seq<T>, l: seq<T>)
    requires h == [] || m == []
    ensures h + (m + l) == m + (h + l)
  {
  }

  /** Insertion passes over no element level with `x`; all it needs of `le` is
      transitivity through `a`. */
  lemma {:induction false} InsertLevel<T>(x: T, s: seq<T>, le: (T, T) -> bool, a: T)
    requires forall z :: le(x, a) && le(a, z) ==> le(x, z)
    ensures Level(InsertBy(x, s, le), le, a)
      == (if le(x, a) && le(a, x) then [x] else []) + Level(s, le, a)
  {
    if s == [] || le(x, s[0]) {
      assert InsertBy(x, s, le) == [x] + s;
      LevelCons(x, s, le, a);
    } else {
      var y, t := s[0], s[1..];
      var u := InsertBy(x, t, le);
      var hy := if le(y, a) && le(a, y) then [y] else [];
      var mx := if le(x, a) && le(a, x) then [x] else [];
      InsertLevel(x, t, le, a);
      assert InsertBy(x, s, le) == [y] + u;
      assert s == [y] + t;
      LevelCons(y, u, le, a);
      LevelCons(y, t, le, a);
      assert hy == [] || mx == [] by {
        if le(x, a) {
          assert !le(a, y);
        }
      }
      LevelSwap(hy, mx, Level(t, le, a));
    }
  }

  /** The sort is stable: the elements ranked level with any `a` keep their
      order. */
  lemma {:induction false} SortStable<T(!new)>(s: seq<T>, le: (T, T) -> bool, a: T)
    requires TotalPreorder(le)
    ensures Level(SortBy(s, le), le, a) == Level(s, le, a)
  {
    if s != [] {
      SortStable(s[1..], le, a);
      assert forall z :: le(s[0], a) && le(a, z) ==> le(s[0], z);
      InsertLevel(s[0], SortBy(s[1..], le), le, a);
    }
  }

  /** The order of two strings by their character codes, a proper prefix first. */
  predicate StrLe(a: string, b: string) {
    a == [] || (b != [] && (a[0] < b[0] || (a[0] == b[0] && StrLe(a[1..], b[1..]))))
  }

  lemma StrLeTotal(a: string, b: string)
    ensures StrLe(a, b) || StrLe(b, a)
  {
  }

  lemma StrLeTransitive(a: string, b: string, c: string)
    requires StrLe(a, b) && StrLe(b, c)
    ensures StrLe(a, c)
  {
  }

  lemma StrLeIsTotalPreorder()
    ensures TotalPreorder(StrLe)
  {
    forall a, b ensures StrLe(a, b) || StrLe(b, a) {
      StrLeTotal(a, b);
    }
    forall a, b, c | StrLe(a, b) && StrLe(b, c) ensures StrLe(a, c) {
      StrLeTransitive(a, b, c);
    }
  }

  /** The default `sort()` of an array of strings. */
  function SortStrings(s: seq<string>): seq<string> {
    SortBy(s, StrLe)
  }

  lemma SortStringsCorrect(s: seq<string>)
    ensures SortedBy(SortStrings(s), StrLe)
    ensures multiset(SortStrings(s)) == multiset(s)
  {
    StrLeIsTotalPreorder();
    SortSorted(s, StrLe);
  }
}
