/** Sequence helpers shared by the worker and bridge models. */
module Sequences {

  datatype Option<+T> = None | Some(value: T)

  /** Applies `f` to every element, keeping the order. */
  function Map<X, Y>(f: X -> Y, xs: seq<X>): (ys: seq<Y>)
    ensures |ys| == |xs|
    ensures forall i :: 0 <= i < |xs| ==> ys[i] == f(xs[i])
  {
    seq(|xs|, i requires 0 <= i < |xs| => f(xs[i]))
  }

  lemma ConcatAssoc<T>(a: seq<T>, b: seq<T>, c: seq<T>)
    ensures (a + b) + c == a + (b + c)
  {
  }

  function Identity<T>(x: T): T { x }

  lemma MapIdentity<T>(xs: seq<T>)
    ensures Map(Identity<T>, xs) == xs
  {
  }

  /** Mapping distributes over a leading element. */
  lemma MapCons<X, Y>(f: X -> Y, x: X, xs: seq<X>)
    ensures Map(f, [x] + xs) == [f(x)] + Map(f, xs)
  {
    var l := Map(f, [x] + xs);
    var r := [f(x)] + Map(f, xs);
    assert |l| == |r|;
    forall i | 0 <= i < |l| ensures l[i] == r[i] {
      if i > 0 { assert ([x] + xs)[i] == xs[i - 1]; }
    }
  }

  /** The values of the successful entries, in order. */
  function Somes<T>(xs: seq<Option<T>>): seq<T>
  {
    if xs == [] then [] else (if xs[0].Some? then [xs[0].value] else []) + Somes(xs[1..])
  }

  /** The number of `true` entries. */
  function CountTrue(bs: seq<bool>): nat
  {
    if bs == [] then 0 else (if bs[0] then 1 else 0) + CountTrue(bs[1..])
  }

  function Min(a: nat, b: nat): nat
  {
    if a <= b then a else b
  }

  /** The elements `xs[i]` whose partner `keep[i]` is true, pairing up to the shorter sequence. */
  function Kept<T>(xs: seq<T>, keep: seq<bool>): seq<T>
  {
    if xs == [] || keep == [] then []
    else (if keep[0] then [xs[0]] else []) + Kept(xs[1..], keep[1..])
  }

  /** `xs` can be obtained from `ys` by deleting elements (order is kept). */
  predicate IsSubsequence<T(==)>(xs: seq<T>, ys: seq<T>)
    decreases |ys|
  {
    if ys == [] then xs == []
    else (xs != [] && xs[0] == ys[0] && IsSubsequence(xs[1..], ys[1..])) || IsSubsequence(xs, ys[1..])
  }

  lemma {:induction false} KeptIsSubsequence<T>(xs: seq<T>, keep: seq<bool>)
    ensures IsSubsequence(Kept(xs, keep), xs)
  {
    if xs == [] {
    } else if keep == [] {
      EmptyIsSubsequence(xs);
    } else {
      KeptIsSubsequence(xs[1..], keep[1..]);
      if keep[0] {
        assert Kept(xs, keep) == [xs[0]] + Kept(xs[1..], keep[1..]);
        assert Kept(xs, keep)[1..] == Kept(xs[1..], keep[1..]);
      } else {
        assert Kept(xs, keep) == Kept(xs[1..], keep[1..]);
      }
    }
  }

  lemma {:induction false} EmptyIsSubsequence<T>(ys: seq<T>)
    ensures IsSubsequence([], ys)
  {
    if ys != [] {
      EmptyIsSubsequence(ys[1..]);
    }
  }

  /** Kept never yields more than one element per entry. */
  lemma {:induction false} KeptLength<T>(xs: seq<T>, keep: seq<bool>)
    ensures |Kept(xs, keep)| == CountTrue(keep[..Min(|xs|, |keep|)])
  {
    if xs == [] || keep == [] {
    } else {
      KeptLength(xs[1..], keep[1..]);
      var n := Min(|xs|, |keep|);
      assert keep[..n][0] == keep[0];
      assert keep[..n][1..] == keep[1..][..Min(|xs[1..]|, |keep[1..]|)];
    }
  }

  /** A sequence with a `true` entry counts at least one. */
  lemma {:induction false} CountTruePositive(bs: seq<bool>)
    requires true in bs
    ensures CountTrue(bs) > 0
  {
    if !bs[0] {
      var i :| 0 <= i < |bs| && bs[i];
      assert bs[1..][i - 1] == bs[i];
      CountTruePositive(bs[1..]);
    }
  }

  /** The number of successes counted in a prefix grows by the head entry. */
  lemma CountTrueCons(bs: seq<bool>, j: nat)
    requires 0 < j <= |bs|
    ensures CountTrue(bs[..j]) == (if bs[0] then 1 else 0) + CountTrue(bs[1..][..j - 1])
  {
    assert bs[..j][0] == bs[0];
    assert bs[..j][1..] == bs[1..][..j - 1];
  }
}
