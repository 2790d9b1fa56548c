/** Reorderings of a list by an index permutation: what std::shuffle leaves
    behind, whatever the random engine chose. */
module Permutations {

  /** 0, 1, ..., n - 1: std::iota, or the loop `a[i] = i`. */
  function Range(n: nat): seq<nat>
  {
    seq(n, i => i)
  }

  /** p lists 0 .. n - 1, each exactly once, in some order. */
  predicate IsPermutation(p: seq<nat>, n: nat)
  {
    multiset(p) == multiset(Range(n))
  }

  /** Every entry of p names a position of s. */
  predicate Indexes<T>(p: seq<nat>, s: seq<T>)
  {
    forall k :: 0 <= k < |p| ==> p[k] < |s|
  }

  /** The elements of s in the order p lists them. */
  function Permute<T>(s: seq<T>, p: seq<nat>): seq<T>
    requires Indexes(p, s)
  {
    seq(|p|, k requires 0 <= k < |p| => s[p[k]])
  }

  /** A permutation of 0 .. n - 1 has n entries, each below n. */
  lemma PermutationBounds(p: seq<nat>, n: nat)
    requires IsPermutation(p, n)
    ensures |p| == n && forall k :: 0 <= k < |p| ==> p[k] < n
  {
    assert |multiset(p)| == |multiset(Range(n))|;
    forall k | 0 <= k < |p|
      ensures p[k] < n
    {
      assert p[k] in multiset(p);
      assert p[k] in multiset(Range(n));
    }
  }

  /** The identity permutation reorders nothing. */
  lemma PermuteRange<T>(s: seq<T>)
    ensures Indexes(Range(|s|), s) && Permute(s, Range(|s|)) == s
  {
  }

  lemma PermuteAppend<T>(s: seq<T>, a: seq<nat>, b: seq<nat>)
    requires Indexes(a, s) && Indexes(b, s)
    ensures Indexes(a + b, s) && Permute(s, a + b) == Permute(s, a) + Permute(s, b)
  {
  }

  /** Taking entry j out of a list takes one copy of it out of the multiset. */
  lemma RemoveAt<T>(q: seq<T>, j: nat)
    requires j < |q|
    ensures multiset(q) == multiset{q[j]} + multiset(q[..j] + q[j + 1..])
  {
    assert q == q[..j] + [q[j]] + q[j + 1..];
  }

  /** Entry j of the index list contributes s[q[j]] to the reordered multiset. */
  lemma PermuteRemoveAt<T>(s: seq<T>, q: seq<nat>, j: nat)
    requires Indexes(q, s) && j < |q|
    ensures Indexes(q[..j] + q[j + 1..], s)
    ensures multiset(Permute(s, q)) == multiset{s[q[j]]} + multiset(Permute(s, q[..j] + q[j + 1..]))
  {
    var q1, q2 := q[..j], q[j + 1..];
    assert q == q1 + [q[j]] + q2;
    PermuteAppend(s, q1, [q[j]]);
    PermuteAppend(s, q1 + [q[j]], q2);
    PermuteAppend(s, q1, q2);
  }

  /** Two lists with the same multiset still agree once a shared entry is taken
      out of each. */
  lemma RemoveShared(p: seq<nat>, q: seq<nat>, j: nat)
    requires multiset(p) == multiset(q) && 0 < |p| && j < |q| && q[j] == p[0]
    ensures multiset(p[1..]) == multiset(q[..j] + q[j + 1..])
  {
    RemoveAt(p, 0);
    RemoveAt(q, j);
    assert p[..0] + p[1..] == p[1..];
    var x := p[0];
    assert multiset(p[1..]) == multiset(p) - multiset{x};
    assert multiset(q[..j] + q[j + 1..]) == multiset(q) - multiset{x};
  }

  /** Reordering by two index lists with the same entries gives the same multiset. */
  lemma {:induction false} PermuteSameMultiset<T>(s: seq<T>, p: seq<nat>, q: seq<nat>)
    requires Indexes(p, s) && Indexes(q, s) && multiset(p) == multiset(q)
    ensures multiset(Permute(s, p)) == multiset(Permute(s, q))
    decreases |p|
  {
    assert |p| == |multiset(p)| == |multiset(q)| == |q|;
    if |p| > 0 {
      assert p[0] in multiset(q);
      var j :| 0 <= j < |q| && q[j] == p[0];
      RemoveShared(p, q, j);
      PermuteRemoveAt(s, p, 0);
      assert p[..0] + p[1..] == p[1..];
      PermuteRemoveAt(s, q, j);
      PermuteSameMultiset(s, p[1..], q[..j] + q[j + 1..]);
    }
  }

  /** std::shuffle keeps the elements and only changes their order. */
  lemma PermuteMultiset<T>(s: seq<T>, p: seq<nat>)
    requires IsPermutation(p, |s|)
    ensures Indexes(p, s) && |Permute(s, p)| == |s|
    ensures multiset(Permute(s, p)) == multiset(s)
  {
    PermutationBounds(p, |s|);
    PermuteRange(s);
    PermuteSameMultiset(s, p, Range(|s|));
  }

  /** Shuffling the identity 0 .. n - 1 by p yields p itself, a permutation. */
  lemma ShuffledRange(p: seq<nat>, n: nat)
    requires IsPermutation(p, n)
    ensures Indexes(p, Range(n)) && Permute(Range(n), p) == p
  {
    PermutationBounds(p, n);
  }
}
