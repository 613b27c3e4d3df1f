/**
 * The conversion loop every adapter runs over a decoded payload:
 * `out := make([]T, 0, len(in)); for _, x := range in { out = append(out, f(x)) }`,
 * and its filtering form, which appends only the elements a test accepts.
 */
module Sequences {
  import Dedup

  function Map<A, B>(xs: seq<A>, f: A -> B): (ys: seq<B>)
    ensures |ys| == |xs| && forall i :: 0 <= i < |xs| ==> ys[i] == f(xs[i])
  {
    seq(|xs|, i requires 0 <= i < |xs| => f(xs[i]))
  }

  method MapAll<A, B>(xs: seq<A>, f: A -> B) returns (ys: seq<B>)
    ensures ys == Map(xs, f)
  {
    ys := [];
    for i := 0 to |xs|
      invariant |ys| == i && forall k :: 0 <= k < i ==> ys[k] == f(xs[k])
    {
      ys := ys + [f(xs[i])];
    }
  }

  /** The elements `p` accepts, in their order. */
  function Filter<A>(xs: seq<A>, p: A -> bool): seq<A>
  {
    if |xs| == 0 then []
    else Filter(xs[..|xs| - 1], p) + (if p(xs[|xs| - 1]) then [xs[|xs| - 1]] else [])
  }

  /** Filtering keeps exactly the accepted elements, in order, and never lengthens the input. */
  lemma {:induction false} FilterKeeps<A>(xs: seq<A>, p: A -> bool)
    ensures |Filter(xs, p)| <= |xs|
    ensures forall y :: y in Filter(xs, p) <==> y in xs && p(y)
    ensures Dedup.IsSubseq(Filter(xs, p), xs)
    decreases |xs|
  {
    if |xs| != 0 {
      var init, last := xs[..|xs| - 1], xs[|xs| - 1];
      FilterKeeps(init, p);
      assert xs == init + [last];
      var f := Filter(init, p);
      if p(last) {
        assert (f + [last])[..|f + [last]| - 1] == f;
      } else {
        assert Filter(xs, p) == f + [] == f;
        Dedup.SubseqExtend(f, init, last);
      }
    }
  }

  /** One more element of `xs` is appended to the filtered prefix when accepted. */
  lemma FilterStep<A>(xs: seq<A>, p: A -> bool, i: int)
    requires 0 <= i < |xs|
    ensures Filter(xs[..i + 1], p) == Filter(xs[..i], p) + (if p(xs[i]) then [xs[i]] else [])
  {
    assert xs[..i + 1][..i] == xs[..i];
  }

  /** Filtering what a test accepts throughout changes nothing. */
  lemma {:induction false} FilterAll<A>(xs: seq<A>, p: A -> bool)
    requires forall i :: 0 <= i < |xs| ==> p(xs[i])
    ensures Filter(xs, p) == xs
    decreases |xs|
  {
    if |xs| != 0 {
      FilterAll(xs[..|xs| - 1], p);
    }
  }

  /**
   * Appending after a concatenation, and splitting off the last element,
   * proved once for any element type so that callers over strings do not
   * pay for element-wise equality.
   */
  lemma AppendAssoc<T>(a: seq<T>, b: seq<T>, c: seq<T>)
    ensures (a + b) + c == a + (b + c)
  {
  }

  lemma SplitLast<T>(xs: seq<T>)
    requires |xs| > 0
    ensures xs == xs[..|xs| - 1] + [xs[|xs| - 1]]
  {
  }

  lemma TakeNext<T>(xs: seq<T>, i: int)
    requires 0 <= i < |xs|
    ensures xs[..i + 1] == xs[..i] + [xs[i]]
  {
  }

  lemma TakeAll<T>(xs: seq<T>)
    ensures xs[..|xs|] == xs
  {
  }

  /** One more converted element extends the converted prefix. */
  lemma MapExtend<A, B>(xs: seq<A>, f: A -> B, ys: seq<B>, x: A, y: B)
    requires ys == Map(xs, f) && y == f(x)
    ensures ys + [y] == Map(xs + [x], f)
  {
  }

  /** One more element of a filtering conversion: converted and appended when accepted, dropped otherwise. */
  lemma FilterMapExtend<A, B>(xs: seq<A>, p: A -> bool, f: A -> B, ys: seq<B>, x: A)
    requires ys == Map(Filter(xs, p), f)
    ensures p(x) ==> ys + [f(x)] == Map(Filter(xs + [x], p), f)
    ensures !p(x) ==> ys == Map(Filter(xs + [x], p), f)
  {
    assert (xs + [x])[..|xs|] == xs;
    if p(x) {
      assert Filter(xs + [x], p) == Filter(xs, p) + [x];
    } else {
      assert Filter(xs + [x], p) == Filter(xs, p) + [];
    }
  }

  lemma TakeStep<T>(xs: seq<T>, i: int)
    requires 0 <= i < |xs|
    ensures xs[..i + 1][..i] == xs[..i] && xs[..i + 1][i] == xs[i]
  {
  }

  /** Two sequences of the same length combined element by element. */
  function MapWith<A, B, C>(xs: seq<A>, ys: seq<B>, f: (A, B) -> C): (zs: seq<C>)
    requires |ys| == |xs|
    ensures |zs| == |xs|
    decreases |xs|
  {
    if |xs| == 0 then [] else MapWith(xs[..|xs| - 1], ys[..|xs| - 1], f) + [f(xs[|xs| - 1], ys[|xs| - 1])]
  }

  lemma {:induction false} MapWithMeans<A, B, C>(xs: seq<A>, ys: seq<B>, f: (A, B) -> C)
    requires |ys| == |xs|
    ensures forall k :: 0 <= k < |xs| ==> MapWith(xs, ys, f)[k] == f(xs[k], ys[k])
    decreases |xs|
  {
    if |xs| != 0 {
      var n := |xs| - 1;
      MapWithMeans(xs[..n], ys[..n], f);
    }
  }

  lemma MapWithExtend<A, B, C>(xs: seq<A>, ys: seq<B>, f: (A, B) -> C, x: A, y: B)
    requires |ys| == |xs|
    ensures MapWith(xs + [x], ys + [y], f) == MapWith(xs, ys, f) + [f(x, y)]
  {
    assert (xs + [x])[..|xs|] == xs;
    assert (ys + [y])[..|ys|] == ys;
  }

  /**
   * The loop that appends a batch per element and stops once enough are
   * collected: the batches concatenated in order, and the first `n` of them.
   */
  function FlatMap<A, B>(xs: seq<A>, f: A -> seq<B>): seq<B>
    decreases |xs|
  {
    if |xs| == 0 then [] else FlatMap(xs[..|xs| - 1], f) + f(xs[|xs| - 1])
  }

  lemma FlatMapExtend<A, B>(xs: seq<A>, f: A -> seq<B>, x: A)
    ensures FlatMap(xs + [x], f) == FlatMap(xs, f) + f(x)
  {
    assert (xs + [x])[..|xs|] == xs;
  }

  /** One more element of `xs` adds its batch to the batches of the prefix before it. */
  lemma FlatMapStep<A, B>(xs: seq<A>, f: A -> seq<B>, i: int)
    requires 0 <= i < |xs|
    ensures FlatMap(xs[..i + 1], f) == FlatMap(xs[..i], f) + f(xs[i])
  {
    assert xs[..i + 1] == xs[..i] + [xs[i]];
    FlatMapExtend(xs[..i], f, xs[i]);
  }

  /** The batches of a prefix of the elements are a prefix of all the batches. */
  lemma {:induction false} FlatMapPrefix<A, B>(xs: seq<A>, f: A -> seq<B>, i: int)
    requires 0 <= i <= |xs|
    ensures FlatMap(xs[..i], f) <= FlatMap(xs, f)
    decreases |xs|
  {
    if i == |xs| {
      assert xs[..i] == xs;
    } else {
      var n := |xs| - 1;
      FlatMapPrefix(xs[..n], f, i);
      assert xs[..n][..i] == xs[..i];
    }
  }

  /** The first `n` elements, or all of them when there are fewer. */
  function Take<T>(xs: seq<T>, n: int): (ys: seq<T>)
    ensures |ys| == if n <= 0 then 0 else if n < |xs| then n else |xs|
    ensures ys <= xs
  {
    if n <= 0 then [] else if n < |xs| then xs[..n] else xs
  }

  /** Once a prefix of the batches holds `n` elements, the rest cannot change the first `n`. */
  lemma TakeOfPrefix<A, B>(xs: seq<A>, f: A -> seq<B>, i: int, n: int)
    requires 0 <= i <= |xs| && 0 <= n <= |FlatMap(xs[..i], f)|
    ensures Take(FlatMap(xs, f), n) == FlatMap(xs[..i], f)[..n]
  {
    FlatMapPrefix(xs, f, i);
  }

  predicate Distinct<T(==)>(xs: seq<T>)
  {
    forall i, j :: 0 <= i < j < |xs| ==> xs[i] != xs[j]
  }

  /** The elements of a set in the order a `range` over a map's keys happens to visit them. */
  method Enumerate<T(==)>(s: set<T>) returns (xs: seq<T>)
    ensures |xs| == |s| && Distinct(xs)
    ensures forall x :: x in xs <==> x in s
  {
    var left := s;
    xs := [];
    while left != {}
      invariant left <= s && Distinct(xs)
      invariant forall x :: x in xs <==> x in s && x !in left
      invariant |xs| + |left| == |s|
      decreases |left|
    {
      var x :| x in left;
      xs := xs + [x];
      left := left - {x};
    }
  }
}
