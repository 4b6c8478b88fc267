/**
 * Ranking of scored entries, whatever the score: the sort by descending score
 * that the similarity search applies before keeping its first k entries.
 */
module Ranking {

  /** Scores never increase along the sequence. */
  ghost predicate SortedDesc<T>(xs: seq<(T, real)>) {
    forall i, j :: 0 <= i < j < |xs| ==> xs[j].1 <= xs[i].1
  }

  /** No entry occurs twice. */
  ghost predicate Distinct<T>(xs: seq<T>) {
    forall i, j :: 0 <= i < j < |xs| ==> xs[i] != xs[j]
  }

  /** Places `x` before the first entry that does not outscore it. */
  function Insert<T>(x: (T, real), ys: seq<(T, real)>): (r: seq<(T, real)>)
    requires SortedDesc(ys)
    ensures SortedDesc(r)
    ensures multiset(r) == multiset(ys) + multiset{x}
  {
    if ys == [] || ys[0].1 <= x.1 then
      [x] + ys
    else
      assert ys == [ys[0]] + ys[1..];
      var rest := Insert(x, ys[1..]);
      HeadDominates(ys[0], x, ys[1..], rest);
      [ys[0]] + rest
  }

  /** An entry that outscores `x` and every entry of `ys` may head any permutation of them. */
  lemma HeadDominates<T>(h: (T, real), x: (T, real), ys: seq<(T, real)>, rest: seq<(T, real)>)
    requires SortedDesc([h] + ys) && x.1 < h.1
    requires SortedDesc(rest) && multiset(rest) == multiset(ys) + multiset{x}
    ensures SortedDesc([h] + rest)
  {
    forall k | 0 <= k < |rest|
      ensures rest[k].1 <= h.1
    {
      assert rest[k] in multiset(rest);
      if rest[k] != x {
        assert rest[k] in multiset(ys);
        var j :| 0 <= j < |ys| && ys[j] == rest[k];
        assert ([h] + ys)[0] == h && ([h] + ys)[j + 1] == ys[j];
      }
    }
    var s := [h] + rest;
    forall i, j | 0 <= i < j < |s|
      ensures s[j].1 <= s[i].1
    {
      if i > 0 {
        assert s[i] == rest[i - 1] && s[j] == rest[j - 1];
      } else {
        assert s[j] == rest[j - 1];
      }
    }
  }

  /** A sort by descending score; the order of entries with the same score is not specified. */
  function SortDesc<T>(xs: seq<(T, real)>): (r: seq<(T, real)>)
    ensures SortedDesc(r)
    ensures multiset(r) == multiset(xs)
  {
    if xs == [] then
      []
    else
      assert xs == [xs[0]] + xs[1..];
      Insert(xs[0], SortDesc(xs[1..]))
  }

  /** Every entry past the first `n` of a ranking scores no more than each of the first `n`. */
  lemma RankedPrefixDominates<T>(r: seq<(T, real)>, n: nat, x: (T, real))
    requires SortedDesc(r) && n <= |r|
    requires x in r && x !in r[..n]
    ensures forall i :: 0 <= i < n ==> x.1 <= r[i].1
  {
    var j :| 0 <= j < |r| && r[j] == x;
  }

  /** A permutation has the same length and the same members. */
  lemma PermutationMembers<T>(xs: seq<T>, ys: seq<T>)
    requires multiset(xs) == multiset(ys)
    ensures |xs| == |ys|
    ensures forall i :: 0 <= i < |ys| ==> ys[i] in xs
    ensures forall i :: 0 <= i < |xs| ==> xs[i] in ys
  {
    assert |xs| == |multiset(xs)| == |multiset(ys)| == |ys|;
    forall i | 0 <= i < |ys|
      ensures ys[i] in xs
    {
      assert ys[i] in multiset(ys);
    }
    forall i | 0 <= i < |xs|
      ensures xs[i] in ys
    {
      assert xs[i] in multiset(xs);
    }
  }

  /** In a sequence without repetitions every entry is counted at most once. */
  lemma {:induction false} DistinctCounts<T>(xs: seq<T>, v: T)
    requires Distinct(xs)
    ensures multiset(xs)[v] <= 1
  {
    if xs != [] {
      assert xs == [xs[0]] + xs[1..];
      DistinctCounts(xs[1..], v);
      if xs[0] == v {
        assert v !in xs[1..];
      }
    }
  }

  /** A permutation of a sequence without repetitions has none either. */
  lemma PermutationDistinct<T>(xs: seq<T>, ys: seq<T>)
    requires multiset(xs) == multiset(ys)
    requires Distinct(xs)
    ensures Distinct(ys)
  {
    forall i, j | 0 <= i < j < |ys|
      ensures ys[i] != ys[j]
    {
      if ys[i] == ys[j] {
        var v := ys[i];
        assert ys == ys[..j] + [ys[j]] + ys[j + 1..];
        assert v in ys[..j];
        assert multiset(ys)[v] >= 2;
        DistinctCounts(xs, v);
      }
    }
  }
}
