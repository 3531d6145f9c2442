/** Sums of a weight function over a finite set and over a sequence. */
module Sums {

  ghost function SumOver<K>(s: set<K>, f: K -> nat): nat
  {
    if s == {} then 0 else
      var k :| k in s;
      f(k) + SumOver(s - {k}, f)
  }

  lemma {:induction false} SumRemove<K>(s: set<K>, f: K -> nat, k: K)
    requires k in s
    ensures SumOver(s, f) == f(k) + SumOver(s - {k}, f)
    decreases s
  {
    var j :| j in s && SumOver(s, f) == f(j) + SumOver(s - {j}, f);
    if j != k {
      SumRemove(s - {j}, f, k);
      SumRemove(s - {k}, f, j);
      assert s - {j} - {k} == s - {k} - {j};
    }
  }

  lemma {:induction false} SumAdd<K>(s: set<K>, f: K -> nat, k: K)
    requires k !in s
    ensures SumOver(s + {k}, f) == SumOver(s, f) + f(k)
  {
    SumRemove(s + {k}, f, k);
    assert s + {k} - {k} == s;
  }

  lemma {:induction false} SumSame<K>(s: set<K>, f: K -> nat, g: K -> nat)
    requires forall k :: k in s ==> f(k) == g(k)
    ensures SumOver(s, f) == SumOver(s, g)
    decreases s
  {
    if s != {} {
      var k :| k in s;
      SumRemove(s, f, k);
      SumRemove(s, g, k);
      SumSame(s - {k}, f, g);
    }
  }

  lemma {:induction false} SumUnion<K>(s: set<K>, t: set<K>, f: K -> nat)
    requires s !! t
    ensures SumOver(s + t, f) == SumOver(s, f) + SumOver(t, f)
    decreases t
  {
    if t == {} {
      assert s + t == s;
    } else {
      var k :| k in t;
      SumRemove(t, f, k);
      SumRemove(s + t, f, k);
      assert s + t - {k} == s + (t - {k});
      SumUnion(s, t - {k}, f);
    }
  }

  /** Summing a constant over the members that qualify counts them. */
  lemma {:induction false} SumConstant<K>(s: set<K>, f: K -> nat, c: nat)
    requires forall k :: k in s ==> f(k) == c
    ensures SumOver(s, f) == c * |s|
    decreases s
  {
    if s != {} {
      var k :| k in s;
      SumRemove(s, f, k);
      SumConstant(s - {k}, f, c);
      assert |s| == |s - {k}| + 1;
      assert c * |s| == c * |s - {k}| + c;
    }
  }

  function SumSeq<T>(xs: seq<T>, f: T -> nat): nat
  {
    if |xs| == 0 then 0 else SumSeq(xs[..|xs| - 1], f) + f(xs[|xs| - 1])
  }

  /** Taking out any one element lowers the sum by that element's weight. */
  lemma {:induction false} SumSeqRemove<T>(xs: seq<T>, i: nat, f: T -> nat)
    requires i < |xs|
    ensures SumSeq(xs, f) == SumSeq(xs[..i] + xs[i + 1..], f) + f(xs[i])
    decreases |xs|
  {
    var n := |xs| - 1;
    if i < n {
      var front := xs[..n];
      SumSeqRemove(front, i, f);
      assert xs[..i] + xs[i + 1..] == front[..i] + front[i + 1..] + [xs[n]];
    } else {
      assert xs[..i] + xs[i + 1..] == xs[..n];
    }
  }

  /** The sum depends on the elements, not on their order. */
  lemma {:induction false} SumSeqPermutation<T>(xs: seq<T>, ys: seq<T>, f: T -> nat)
    requires multiset(xs) == multiset(ys)
    ensures SumSeq(xs, f) == SumSeq(ys, f)
    decreases |xs|
  {
    assert |xs| == |multiset(xs)| == |multiset(ys)| == |ys|;
    if |xs| > 0 {
      var n := |xs| - 1;
      var x := xs[n];
      assert x in multiset(xs);
      assert x in ys;
      var i :| 0 <= i < |ys| && ys[i] == x;
      var rest := ys[..i] + ys[i + 1..];
      SumSeqRemove(ys, i, f);
      assert xs == xs[..n] + [x];
      assert ys == ys[..i] + [x] + ys[i + 1..];
      assert multiset(xs[..n]) == multiset(xs) - multiset{x};
      assert multiset(rest) == multiset(ys) - multiset{x};
      SumSeqPermutation(xs[..n], rest, f);
    }
  }

  lemma {:induction false} SumSeqUpdate<T>(xs: seq<T>, i: nat, x: T, f: T -> nat)
    requires i < |xs|
    ensures SumSeq(xs[i := x], f) + f(xs[i]) == SumSeq(xs, f) + f(x)
  {
    SumSeqRemove(xs, i, f);
    SumSeqRemove(xs[i := x], i, f);
    assert xs[i := x][..i] + xs[i := x][i + 1..] == xs[..i] + xs[i + 1..];
  }

  lemma {:induction false} SumSeqBounded<T>(xs: seq<T>, f: T -> nat, g: T -> nat)
    requires forall i :: 0 <= i < |xs| ==> f(xs[i]) <= g(xs[i])
    ensures SumSeq(xs, f) <= SumSeq(xs, g)
    decreases |xs|
  {
    if |xs| > 0 {
      SumSeqBounded(xs[..|xs| - 1], f, g);
    }
  }
}
