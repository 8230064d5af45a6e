/** Sorting by a total order, and why the result does not depend on how it is reached. */
module Ordering {

  /** `le` compares any two values, consistently. */
  ghost predicate Comparison<T(!new)>(le: (T, T) -> bool) {
    && (forall a, b :: le(a, b) || le(b, a))
    && (forall a, b, c :: le(a, b) && le(b, c) ==> le(a, c))
  }

  /** No two different elements of `s` rank the same. */
  ghost predicate Decides<T>(le: (T, T) -> bool, s: multiset<T>) {
    forall a, b :: a in s && b in s && le(a, b) && le(b, a) ==> a == b
  }

  ghost predicate Sorted<T>(s: seq<T>, le: (T, T) -> bool) {
    forall i, j :: 0 <= i < j < |s| ==> le(s[i], s[j])
  }

  function Insert<T>(x: T, s: seq<T>, le: (T, T) -> bool): seq<T> {
    if s == [] || le(x, s[0]) then [x] + s else [s[0]] + Insert(x, s[1..], le)
  }

  function Sort<T>(s: seq<T>, le: (T, T) -> bool): seq<T> {
    if s == [] then [] else Insert(s[0], Sort(s[1..], le), le)
  }

  lemma {:induction false} InsertKeeps<T>(x: T, s: seq<T>, le: (T, T) -> bool)
    ensures multiset(Insert(x, s, le)) == multiset(s) + multiset{x}
    decreases |s|
  {
    if s != [] && !le(x, s[0]) {
      InsertKeeps(x, s[1..], le);
      assert s == [s[0]] + s[1..];
    }
  }

  /** Sorting keeps the elements. */
  lemma {:induction false} SortKeeps<T>(s: seq<T>, le: (T, T) -> bool)
    ensures multiset(Sort(s, le)) == multiset(s) && |Sort(s, le)| == |s|
    decreases |s|
  {
    if s != [] {
      SortKeeps(s[1..], le);
      InsertKeeps(s[0], Sort(s[1..], le), le);
      assert s == [s[0]] + s[1..];
    }
    SameSize(Sort(s, le), s);
  }

  lemma {:induction false} InsertKeepsSorted<T(!new)>(x: T, s: seq<T>, le: (T, T) -> bool)
    requires Comparison(le) && Sorted(s, le)
    ensures Sorted(Insert(x, s, le), le)
    decreases |s|
  {
    var r := Insert(x, s, le);
    if s != [] && !le(x, s[0]) {
      InsertKeepsSorted(x, s[1..], le);
      var rest := Insert(x, s[1..], le);
      InsertKeeps(x, s[1..], le);
      forall j | 0 <= j < |rest| ensures le(s[0], rest[j]) {
        assert rest[j] in multiset(rest);
        assert rest[j] == x || rest[j] in s[1..];
      }
      assert r == [s[0]] + rest;
    }
  }

  lemma {:induction false} SortSorts<T(!new)>(s: seq<T>, le: (T, T) -> bool)
    requires Comparison(le)
    ensures Sorted(Sort(s, le), le)
    decreases |s|
  {
    if s != [] {
      SortSorts(s[1..], le);
      InsertKeepsSorted(s[0], Sort(s[1..], le), le);
    }
  }

  /** A sorted arrangement of the same elements is the only one, whatever the algorithm. */
  lemma {:induction false} SortedIsUnique<T(!new)>(a: seq<T>, b: seq<T>, le: (T, T) -> bool)
    requires Comparison(le) && Decides(le, multiset(a))
    requires multiset(a) == multiset(b) && Sorted(a, le) && Sorted(b, le)
    ensures a == b
    decreases |a|
  {
    SameSize(a, b);
    if a != [] {
      assert Sorted(a[1..], le) && Sorted(b[1..], le) by { TailSorted(a, le); TailSorted(b, le); }
      assert a[0] == b[0] by { SameHead(a, b, le); }
      SameTail(a, b);
      assert Decides(le, multiset(a[1..])) by { FewerDecide(le, multiset(a), multiset(a[1..])); }
      SortedIsUnique(a[1..], b[1..], le);
      HeadAndTail(a, b);
    }
  }

  lemma SameSize<T>(a: seq<T>, b: seq<T>)
    requires multiset(a) == multiset(b)
    ensures |a| == |b|
  {
    assert |a| == |multiset(a)| == |multiset(b)| == |b|;
  }

  lemma HeadAndTail<T>(a: seq<T>, b: seq<T>)
    requires a != [] && b != [] && a[0] == b[0] && a[1..] == b[1..]
    ensures a == b
  {
    assert a == [a[0]] + a[1..] && b == [b[0]] + b[1..];
  }

  lemma TailSorted<T>(s: seq<T>, le: (T, T) -> bool)
    requires s != [] && Sorted(s, le)
    ensures Sorted(s[1..], le)
  {
  }

  lemma SameHead<T(!new)>(a: seq<T>, b: seq<T>, le: (T, T) -> bool)
    requires Comparison(le) && Decides(le, multiset(a)) && a != [] && b != []
    requires multiset(a) == multiset(b) && Sorted(a, le) && Sorted(b, le)
    ensures a[0] == b[0]
  {
    assert a[0] in multiset(b) && b[0] in multiset(a);
    HeadIsLeast(a, b[0], le);
    HeadIsLeast(b, a[0], le);
  }

  lemma SameTail<T>(a: seq<T>, b: seq<T>)
    requires a != [] && b != [] && a[0] == b[0] && multiset(a) == multiset(b)
    ensures multiset(a[1..]) == multiset(b[1..]) && multiset(a[1..]) <= multiset(a)
  {
    assert a == [a[0]] + a[1..] && b == [b[0]] + b[1..];
    assert multiset(a[1..]) == multiset(a) - multiset{a[0]};
    assert multiset(b[1..]) == multiset(b) - multiset{b[0]};
  }

  lemma FewerDecide<T>(le: (T, T) -> bool, all: multiset<T>, some: multiset<T>)
    requires Decides(le, all) && some <= all
    ensures Decides(le, some)
  {
    forall x, y | x in some && y in some && le(x, y) && le(y, x) ensures x == y {
      assert x in all && y in all;
    }
  }

  lemma HeadIsLeast<T(!new)>(s: seq<T>, x: T, le: (T, T) -> bool)
    requires Comparison(le) && Sorted(s, le) && x in multiset(s)
    ensures le(s[0], x)
  {
    var i :| 0 <= i < |s| && s[i] == x;
  }

  // ---------------------------------------------------------------- the first few

  function Top<T>(s: seq<T>, le: (T, T) -> bool, n: nat): seq<T> {
    var sorted := Sort(s, le);
    if n < |sorted| then sorted[..n] else sorted
  }

  /** `r` is a best selection of at most `n` elements of `all`, in order. */
  ghost predicate IsTop<T>(r: seq<T>, all: multiset<T>, le: (T, T) -> bool, n: nat) {
    && Sorted(r, le) && multiset(r) <= all
    && |r| == (if n < |all| then n else |all|)
    && forall x, y :: x in r && y in all - multiset(r) ==> le(x, y)
  }

  lemma CutIsTop<T(!new)>(sorted: seq<T>, le: (T, T) -> bool, n: nat)
    requires Sorted(sorted, le)
    ensures IsTop(if n < |sorted| then sorted[..n] else sorted, multiset(sorted), le, n)
  {
    if n < |sorted| {
      var r, rest := sorted[..n], sorted[n..];
      assert sorted == r + rest;
      assert multiset(sorted) == multiset(r) + multiset(rest);
      assert |multiset(sorted)| == |sorted|;
      forall x, y | x in r && y in multiset(sorted) - multiset(r) ensures le(x, y) {
        assert y in multiset(rest);
        var i :| 0 <= i < |r| && r[i] == x;
        var j :| 0 <= j < |rest| && rest[j] == y;
        assert sorted[i] == x && sorted[n + j] == y;
      }
    } else {
      assert |multiset(sorted)| == |sorted|;
    }
  }

  /** When no two elements rank the same, the best selection is unique, whatever the sorting algorithm. */
  lemma TopIsUnique<T(!new)>(r: seq<T>, s: seq<T>, le: (T, T) -> bool, n: nat)
    requires Comparison(le) && Decides(le, multiset(s)) && IsTop(r, multiset(s), le, n)
    ensures r == Top(s, le, n)
  {
    var rest := Completion(r, multiset(s), le, n);
    SortSorts(s, le);
    SortKeeps(s, le);
    SortedIsUnique(r + rest, Sort(s, le), le);
    SameSize(r + rest, s);
    assert |multiset(s)| == |s|;
    assert (r + rest)[..|r|] == r;
  }

  /** What a best selection leaves out, sorted, completes it to a sorted arrangement of everything. */
  lemma Completion<T(!new)>(r: seq<T>, all: multiset<T>, le: (T, T) -> bool, n: nat) returns (rest: seq<T>)
    requires Comparison(le) && IsTop(r, all, le, n)
    ensures multiset(r + rest) == all && Sorted(r + rest, le)
  {
    var left := SomeSeq(all - multiset(r));
    rest := Sort(left, le);
    SortSorts(left, le);
    SortKeeps(left, le);
    ConcatSorted(r, rest, le);
  }

  lemma ConcatSorted<T>(a: seq<T>, b: seq<T>, le: (T, T) -> bool)
    requires Sorted(a, le) && Sorted(b, le) && forall x, y :: x in a && y in multiset(b) ==> le(x, y)
    ensures Sorted(a + b, le)
  {
  }

  ghost function SomeSeq<T>(m: multiset<T>): (s: seq<T>)
    ensures multiset(s) == m
    decreases |m|
  {
    if m == multiset{} then [] else var x :| x in m; [x] + SomeSeq(m - multiset{x})
  }

  /** Cutting a best selection further leaves a best selection. */
  lemma CutOfTop<T(!new)>(top: seq<T>, all: multiset<T>, le: (T, T) -> bool, n: nat, m: nat)
    requires IsTop(top, all, le, n) && m <= n
    ensures IsTop(if m < |top| then top[..m] else top, all, le, m)
  {
    if m < |top| {
      var r, rest := top[..m], top[m..];
      assert multiset(top) == multiset(r) + multiset(rest) by { assert top == r + rest; }
      forall x, y | x in r && y in all - multiset(r) ensures le(x, y) {
        if y in multiset(rest) {
          EarlierIsLess(top, le, m, x, y);
        } else {
          assert x in top;
        }
      }
    }
  }

  lemma EarlierIsLess<T>(s: seq<T>, le: (T, T) -> bool, m: nat, x: T, y: T)
    requires Sorted(s, le) && m <= |s| && x in s[..m] && y in s[m..]
    ensures le(x, y)
  {
    var i :| 0 <= i < m && s[..m][i] == x;
    var j :| 0 <= j < |s| - m && s[m..][j] == y;
    assert le(s[i], s[m + j]);
  }

  // ---------------------------------------------------------------- texts

  /** The order of texts: the first character that differs decides, and a prefix comes first. */
  predicate TextLe(a: string, b: string) {
    a == "" || (b != "" && (a[0] < b[0] || (a[0] == b[0] && TextLe(a[1..], b[1..]))))
  }

  lemma {:induction false} TextTotal(a: string, b: string)
    ensures TextLe(a, b) || TextLe(b, a)
    ensures TextLe(a, b) && TextLe(b, a) ==> a == b
    decreases |a|
  {
    if a != "" && b != "" && a[0] == b[0] {
      TextTotal(a[1..], b[1..]);
      assert a == [a[0]] + a[1..] && b == [b[0]] + b[1..];
    }
  }

  lemma {:induction false} TextTransitive(a: string, b: string, c: string)
    requires TextLe(a, b) && TextLe(b, c)
    ensures TextLe(a, c)
    decreases |a|
  {
    if a != "" && a[0] == b[0] == c[0] {
      TextTransitive(a[1..], b[1..], c[1..]);
    }
  }

  lemma TextComparison()
    ensures Comparison(TextLe)
    ensures forall s :: Decides(TextLe, s)
  {
    forall a, b ensures TextLe(a, b) || TextLe(b, a) {
      TextTotal(a, b);
    }
    forall a, b | TextLe(a, b) && TextLe(b, a) ensures a == b {
      TextTotal(a, b);
    }
    forall a, b, c | TextLe(a, b) && TextLe(b, c) ensures TextLe(a, c) {
      TextTransitive(a, b, c);
    }
  }

  // ---------------------------------------------------------------- sorted lists without repetition

  /** Drops every element that equals the one before it. */
  function Compact<T(==)>(s: seq<T>): seq<T> {
    if |s| <= 1 then s
    else if s[|s| - 1] == s[|s| - 2] then Compact(s[..|s| - 1])
    else Compact(s[..|s| - 1]) + [s[|s| - 1]]
  }

  ghost predicate Ascending(s: seq<string>) {
    forall i, j :: 0 <= i < j < |s| ==> TextLe(s[i], s[j]) && s[i] != s[j]
  }

  lemma {:induction false} CompactAscends(s: seq<string>)
    requires Sorted(s, TextLe)
    ensures Ascending(Compact(s))
    ensures forall x :: x in Compact(s) <==> x in s
    ensures s != [] ==> Compact(s) != [] && Compact(s)[|Compact(s)| - 1] == s[|s| - 1]
    decreases |s|
  {
    if |s| > 1 {
      var front, x := s[..|s| - 1], s[|s| - 1];
      assert Sorted(front, TextLe);
      CompactAscends(front);
      assert s == front + [x];
      if x != s[|s| - 2] {
        var r := Compact(front);
        forall i | 0 <= i < |r| ensures TextLe(r[i], x) && r[i] != x {
          assert r[i] in front;
          LastIsFresh(s, r[i]);
        }
      }
    }
  }

  lemma LastIsFresh(s: seq<string>, y: string)
    requires Sorted(s, TextLe) && |s| > 1 && s[|s| - 1] != s[|s| - 2]
    requires y in s[..|s| - 1]
    ensures TextLe(y, s[|s| - 1]) && y != s[|s| - 1]
  {
    var k :| 0 <= k < |s| - 1 && s[k] == y;
    TextTotal(s[k], s[k]);
    TextTotal(s[|s| - 2], s[|s| - 1]);
  }

  /** The elements of a list, in ascending order and once each. */
  function Listing(s: seq<string>): seq<string> {
    Compact(Sort(s, TextLe))
  }

  lemma ListingMeans(s: seq<string>)
    ensures Ascending(Listing(s))
    ensures forall x :: x in Listing(s) <==> x in s
  {
    TextComparison();
    var sorted := Sort(s, TextLe);
    SortSorts(s, TextLe);
    SortKeeps(s, TextLe);
    CompactAscends(sorted);
    forall x ensures x in sorted <==> x in s {
      assert x in multiset(sorted) <==> x in multiset(s);
    }
  }

  lemma HeadIsIn(s: seq<string>)
    ensures s == [] || s[0] in s
  {
  }

  /** The ascending list of a set is unique, so equal sets have equal listings. */
  lemma {:induction false} AscendingIsUnique(a: seq<string>, b: seq<string>)
    requires Ascending(a) && Ascending(b) && forall x :: x in a <==> x in b
    ensures a == b
    decreases |a|
  {
    HeadIsIn(a);
    HeadIsIn(b);
    if a != [] {
      assert a[0] in b && b[0] in a;
      TextTotal(a[0], b[0]);
      assert a[0] == b[0];
      forall x ensures x in a[1..] <==> x in b[1..] {
        if x in a[1..] { assert x in a && x != a[0] && x in b; }
        if x in b[1..] { assert x in b && x != b[0] && x in a; }
      }
      AscendingIsUnique(a[1..], b[1..]);
      HeadAndTail(a, b);
    }
  }
}
