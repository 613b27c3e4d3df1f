/**
 * `sort.Slice` with a strict "less" that is a lexicographic order on a pair
 * of integers. The library sort is not stable, so all it promises is a
 * sorted permutation; the model produces one by insertion.
 */
module Sorting {

  /** A sort key: compared on `major` first, then on `minor`. */
  datatype Rank = Rank(major: int, minor: int)

  predicate Less(a: Rank, b: Rank)
  {
    a.major < b.major || (a.major == b.major && a.minor < b.minor)
  }

  predicate NotAfter(a: Rank, b: Rank) { !Less(b, a) }

  /** No element is "less" than one before it. */
  predicate SortedBy<T>(s: seq<T>, rank: T -> Rank)
  {
    forall i, j :: 0 <= i < j < |s| ==> NotAfter(rank(s[i]), rank(s[j]))
  }

  /** Insert `x` before the first element it is less than. */
  method Insert<T>(s: seq<T>, x: T, rank: T -> Rank) returns (r: seq<T>)
    requires SortedBy(s, rank)
    ensures SortedBy(r, rank)
    ensures multiset(r) == multiset(s) + multiset{x}
  {
    var j := 0;
    while j < |s| && !Less(rank(x), rank(s[j]))
      invariant 0 <= j <= |s|
      invariant forall k :: 0 <= k < j ==> NotAfter(rank(s[k]), rank(x))
    {
      j := j + 1;
    }
    r := s[..j] + [x] + s[j..];
    InsertAt(s, x, rank, j);
  }

  /** A rank before one that is not after a third is itself not after the third. */
  lemma LessThenNotAfter(a: Rank, b: Rank, c: Rank)
    requires Less(a, b) && NotAfter(b, c)
    ensures NotAfter(a, c)
  {
  }

  /** Putting `x` at a position between the elements not after it and those it is less than keeps the order. */
  lemma InsertAt<T>(s: seq<T>, x: T, rank: T -> Rank, j: int)
    requires SortedBy(s, rank) && 0 <= j <= |s|
    requires forall k :: 0 <= k < j ==> NotAfter(rank(s[k]), rank(x))
    requires j < |s| ==> Less(rank(x), rank(s[j]))
    ensures SortedBy(s[..j] + [x] + s[j..], rank)
    ensures multiset(s[..j] + [x] + s[j..]) == multiset(s) + multiset{x}
  {
    var r := s[..j] + [x] + s[j..];
    InsertAtMultiset(s, x, j);
    forall a, b | 0 <= a < b < |r| ensures NotAfter(rank(r[a]), rank(r[b])) {
      InsertAtPair(s, x, rank, j, a, b);
    }
  }

  /** Inserting adds exactly `x` to what is there. */
  lemma InsertAtMultiset<T>(s: seq<T>, x: T, j: int)
    requires 0 <= j <= |s|
    ensures multiset(s[..j] + [x] + s[j..]) == multiset(s) + multiset{x}
  {
    assert s == s[..j] + s[j..];
  }

  /** The order of one pair of positions after the insertion. */
  lemma InsertAtPair<T>(s: seq<T>, x: T, rank: T -> Rank, j: int, a: int, b: int)
    requires SortedBy(s, rank) && 0 <= j <= |s|
    requires forall k :: 0 <= k < j ==> NotAfter(rank(s[k]), rank(x))
    requires j < |s| ==> Less(rank(x), rank(s[j]))
    requires 0 <= a < b < |s| + 1
    ensures var r := s[..j] + [x] + s[j..]; NotAfter(rank(r[a]), rank(r[b]))
  {
    var r := s[..j] + [x] + s[j..];
    if a == j {
      assert r[a] == x && r[b] == s[b - 1];
      LessThenNotAfter(rank(x), rank(s[j]), rank(s[b - 1]));
    } else if b == j {
      assert r[a] == s[a] && r[b] == x;
    } else {
      var a', b' := if a < j then a else a - 1, if b < j then b else b - 1;
      assert r[a] == s[a'] && r[b] == s[b'];
    }
  }

  /** `sort.Slice(s, less)` where `less(i, j)` is `Less(rank(s[i]), rank(s[j]))`. */
  method SortByRank<T>(s: seq<T>, rank: T -> Rank) returns (r: seq<T>)
    ensures SortedBy(r, rank)
    ensures multiset(r) == multiset(s)
  {
    r := [];
    for i := 0 to |s|
      invariant SortedBy(r, rank)
      invariant multiset(r) == multiset(s[..i])
    {
      r := Insert(r, s[i], rank);
      assert s[..i + 1] == s[..i] + [s[i]];
    }
    assert s[..|s|] == s;
  }

  /** Cutting a sorted list keeps, in order, elements that rank no later than any element cut off. */
  lemma TakeSorted<T>(s: seq<T>, rank: T -> Rank, m: int)
    requires SortedBy(s, rank) && 0 <= m <= |s|
    ensures SortedBy(s[..m], rank)
    ensures forall x, y :: x in s[..m] && y in s[m..] ==> NotAfter(rank(x), rank(y))
  {
    forall x, y | x in s[..m] && y in s[m..] ensures NotAfter(rank(x), rank(y)) {
      var i :| 0 <= i < m && s[i] == x;
      var t := s[m..];
      var j :| 0 <= j < |t| && t[j] == y;
      assert s[m + j] == y;
    }
  }
}
