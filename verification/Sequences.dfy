/** Counting, summing and cutting sequences: the vocabulary the models share. */
module Sequences {

  datatype Option<+T> = None | Some(value: T)

  /** How many elements satisfy `p`. */
  function Count<T>(s: seq<T>, p: T -> bool): (n: nat)
    ensures n <= |s|
  {
    if s == [] then 0 else Count(s[..|s| - 1], p) + (if p(s[|s| - 1]) then 1 else 0)
  }

  lemma {:induction false} CountUpdate<T>(s: seq<T>, i: nat, v: T, p: T -> bool)
    requires i < |s|
    ensures Count(s[i := v], p) == Count(s, p) - (if p(s[i]) then 1 else 0) + (if p(v) then 1 else 0)
  {
    var n := |s| - 1;
    if i == n {
      assert s[i := v][..n] == s[..n];
    } else {
      assert s[i := v][..n] == s[..n][i := v];
      CountUpdate(s[..n], i, v, p);
    }
  }

  lemma CountAppend<T>(s: seq<T>, v: T, p: T -> bool)
    ensures Count(s + [v], p) == Count(s, p) + (if p(v) then 1 else 0)
  {
    assert (s + [v])[..|s|] == s;
  }

  lemma {:induction false} CountConcat<T>(a: seq<T>, b: seq<T>, p: T -> bool)
    ensures Count(a + b, p) == Count(a, p) + Count(b, p)
    decreases |b|
  {
    if b == [] {
      assert a + b == a;
    } else {
      assert (a + b)[..|a + b| - 1] == a + b[..|b| - 1];
      CountConcat(a, b[..|b| - 1], p);
    }
  }

  lemma CountOne<T>(x: T, p: T -> bool)
    ensures Count([x], p) == if p(x) then 1 else 0
  {
    CountAppend([], x, p);
    assert [] + [x] == [x];
  }

  /** A positive count is witnessed by an index. */
  lemma {:induction false} CountWitness<T>(s: seq<T>, p: T -> bool) returns (i: nat)
    requires Count(s, p) > 0
    ensures i < |s| && p(s[i])
  {
    if p(s[|s| - 1]) {
      i := |s| - 1;
    } else {
      i := CountWitness(s[..|s| - 1], p);
    }
  }

  /** An element that satisfies `p` is counted, and two different ones are both counted. */
  lemma {:induction false} CountHas<T>(s: seq<T>, p: T -> bool, i: nat)
    requires i < |s| && p(s[i])
    ensures Count(s, p) >= 1
    ensures forall j :: 0 <= j < |s| && j != i && p(s[j]) ==> Count(s, p) >= 2
  {
    var n := |s| - 1;
    if i < n {
      CountHas(s[..n], p, i);
      forall j | 0 <= j < |s| && j != i && p(s[j]) ensures Count(s, p) >= 2 {
        if j < n { assert s[..n][j] == s[j]; }
      }
    } else {
      forall j | 0 <= j < |s| && j != i && p(s[j]) ensures Count(s, p) >= 2 {
        CountHas(s[..n], p, j);
      }
    }
  }

  /** Nothing satisfies `p` when the count is zero. */
  lemma CountZero<T>(s: seq<T>, p: T -> bool)
    requires Count(s, p) == 0
    ensures forall i :: 0 <= i < |s| ==> !p(s[i])
  {
    forall i | 0 <= i < |s| ensures !p(s[i]) {
      if p(s[i]) { CountHas(s, p, i); }
    }
  }

  function Sum<T>(s: seq<T>, f: T -> nat): (n: nat)
  {
    if s == [] then 0 else Sum(s[..|s| - 1], f) + f(s[|s| - 1])
  }

  lemma {:induction false} SumUpdate<T>(s: seq<T>, i: nat, v: T, f: T -> nat)
    requires i < |s|
    ensures Sum(s[i := v], f) == Sum(s, f) - f(s[i]) + f(v)
  {
    var n := |s| - 1;
    if i == n {
      assert s[i := v][..n] == s[..n];
    } else {
      assert s[i := v][..n] == s[..n][i := v];
      SumUpdate(s[..n], i, v, f);
    }
  }

  /** The last `n` elements, or all of them when there are fewer; none when `n` is not positive. */
  function LastN<T>(s: seq<T>, n: int): seq<T> {
    if n <= 0 then [] else if |s| <= n then s else s[|s| - n..]
  }

  /** Trimming before an append loses nothing that the trim after it would have kept. */
  lemma LastNAppend<T>(s: seq<T>, n: int, v: T)
    ensures LastN(LastN(s, n) + [v], n) == LastN(s + [v], n)
  {
    if n > 0 && |s| > n {
      assert LastN(s, n) + [v] == (s + [v])[|s| - n..];
    }
  }

  /** The first `n` elements, or all of them when there are fewer; none when `n` is not positive. */
  function FirstN<T>(s: seq<T>, n: int): (r: seq<T>)
    ensures r <= s && |r| == if n < 0 then 0 else if n < |s| then n else |s|
  {
    if n < 0 then [] else if n < |s| then s[..n] else s
  }

  function Min(a: int, b: int): int {
    if a < b then a else b
  }
}
