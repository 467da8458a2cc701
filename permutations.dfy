/** Index sequences: the range 0..n-1, its shuffles, and picking elements by position.
    A shuffle of the range is what numpy produces for `np.random.shuffle(np.arange(n))`
    and, for a prefix of it, what `DataFrame.sample(n)` draws (sampling without
    replacement takes a prefix of a random permutation of the positions). */
module Permutations {

  /** The sequence 0, 1, ..., n-1 (`np.arange(n)`). */
  function Arange(n: nat): (r: seq<nat>)
    ensures |r| == n
    ensures forall i :: 0 <= i < n ==> r[i] == i
  {
    if n == 0 then [] else Arange(n - 1) + [n - 1]
  }

  /** `p` is a rearrangement of 0..n-1. */
  ghost predicate IsShuffleOfRange(p: seq<nat>, n: nat) {
    multiset(p) == multiset(Arange(n))
  }

  /** No element occurs twice. */
  ghost predicate Distinct<T>(s: seq<T>) {
    forall i, j :: 0 <= i < j < |s| ==> s[i] != s[j]
  }

  /** Every position is a valid index into a sequence of length n. */
  ghost predicate AllBelow(pos: seq<nat>, n: nat) {
    forall k :: 0 <= k < |pos| ==> pos[k] < n
  }

  /** The elements of `s` at the positions `pos`, in that order (`s.iloc[pos]`). */
  function Gather<T>(s: seq<T>, pos: seq<nat>): (r: seq<T>)
    requires AllBelow(pos, |s|)
    ensures |r| == |pos|
  {
    seq(|pos|, k requires 0 <= k < |pos| => s[pos[k]])
  }

  /** Each value below n occurs exactly once in 0..n-1, and nothing else occurs. */
  lemma {:induction false} ArangeCount(n: nat, x: nat)
    ensures multiset(Arange(n))[x] == if x < n then 1 else 0
  {
    if n > 0 {
      var last: nat := n - 1;
      ArangeCount(last, x);
      assert Arange(n) == Arange(last) + [last];
      assert multiset(Arange(n)) == multiset(Arange(last)) + multiset{last};
    }
  }

  /** A sequence in which some value occurs twice has that value with multiplicity at least two. */
  lemma RepeatedCount<T>(s: seq<T>, i: nat, j: nat)
    requires i < j < |s| && s[i] == s[j]
    ensures multiset(s)[s[i]] >= 2
  {
    assert s == s[..i] + [s[i]] + s[i + 1..j] + [s[j]] + s[j + 1..];
  }

  /** A shuffle of 0..n-1 has length n and holds only indices below n. */
  lemma ShuffleBounds(p: seq<nat>, n: nat)
    requires IsShuffleOfRange(p, n)
    ensures |p| == n && AllBelow(p, n)
  {
    assert |p| == |multiset(p)| == |multiset(Arange(n))| == n;
    forall k | 0 <= k < |p| ensures p[k] < n {
      assert p[k] in multiset(p);
      ArangeCount(n, p[k]);
    }
  }

  /** A shuffle of 0..n-1 holds each index at most once. */
  lemma ShuffleDistinct(p: seq<nat>, n: nat)
    requires IsShuffleOfRange(p, n)
    ensures Distinct(p)
  {
    forall i, j | 0 <= i < j < |p| ensures p[i] != p[j] {
      if p[i] == p[j] {
        RepeatedCount(p, i, j);
        ArangeCount(n, p[i]);
        assert false;
      }
    }
  }

  /** Gathering along a concatenation of positions concatenates the gathered parts. */
  lemma GatherConcat<T>(s: seq<T>, a: seq<nat>, b: seq<nat>)
    requires AllBelow(a, |s|) && AllBelow(b, |s|)
    ensures AllBelow(a + b, |s|) && Gather(s, a + b) == Gather(s, a) + Gather(s, b)
  {
  }

  /** Positions below m see the same elements in `s` and in its first m elements. */
  lemma GatherFromPrefix<T>(s: seq<T>, m: nat, pos: seq<nat>)
    requires m <= |s| && AllBelow(pos, m)
    ensures Gather(s[..m], pos) == Gather(s, pos)
  {
  }

  /** Removing the largest index m from a shuffle of 0..m leaves a shuffle of 0..m-1. */
  lemma RemoveLargest(p: seq<nat>, m: nat) returns (j: nat, rest: seq<nat>)
    requires IsShuffleOfRange(p, m + 1)
    ensures j < |p| && p[j] == m
    ensures rest == p[..j] + p[j + 1..] && IsShuffleOfRange(rest, m)
  {
    assert m in multiset(Arange(m + 1)) by { ArangeCount(m + 1, m); }
    assert m in p;
    j :| 0 <= j < |p| && p[j] == m;
    rest := p[..j] + p[j + 1..];
    assert p == p[..j] + [m] + p[j + 1..];
    assert multiset(rest) == multiset(p) - multiset{m};
    assert Arange(m + 1) == Arange(m) + [m];
    assert multiset(Arange(m)) == multiset(Arange(m + 1)) - multiset{m};
  }

  /** The inductive step of GatherShuffle: if the positions other than that of the
      last element rearrange the first |s|-1 elements, all of `p` rearranges `s`. */
  lemma GatherAroundLast<T>(s: seq<T>, p: seq<nat>, j: nat, rest: seq<nat>)
    requires |s| > 0 && j < |p| && p[j] == |s| - 1 && rest == p[..j] + p[j + 1..]
    requires AllBelow(rest, |s| - 1)
    requires multiset(Gather(s[..|s| - 1], rest)) == multiset(s[..|s| - 1])
    ensures AllBelow(p, |s|) && multiset(Gather(s, p)) == multiset(s)
  {
    var last: nat := |s| - 1;
    var before, after := p[..j], p[j + 1..];
    assert p == before + [last] + after;
    assert before == rest[..j] && after == rest[j..];
    GatherFromPrefix(s, last, rest);
    GatherConcat(s, before, after);
    GatherConcat(s, before + [last], after);
    GatherConcat(s, before, [last]);
    assert s == s[..last] + [s[last]];
  }

  /** Gathering a sequence along a shuffle of all its positions rearranges it: the
      result holds exactly the same elements with the same multiplicities. */
  lemma {:induction false} GatherShuffle<T>(s: seq<T>, p: seq<nat>)
    requires IsShuffleOfRange(p, |s|)
    ensures AllBelow(p, |s|) && multiset(Gather(s, p)) == multiset(s)
  {
    ShuffleBounds(p, |s|);
    if |s| > 0 {
      var last: nat := |s| - 1;
      var j, rest := RemoveLargest(p, last);
      ShuffleBounds(rest, last);
      GatherShuffle(s[..last], rest);
      GatherAroundLast(s, p, j, rest);
    }
  }

  /** Gathering along a prefix of a shuffle draws without replacement: every element
      is taken at most as often as it occurs. */
  lemma GatherPrefixOfShuffle<T>(s: seq<T>, p: seq<nat>, k: nat)
    requires IsShuffleOfRange(p, |s|) && k <= |p|
    ensures AllBelow(p[..k], |s|)
    ensures multiset(Gather(s, p[..k])) <= multiset(s)
  {
    GatherShuffle(s, p);
    var whole := Gather(s, p);
    assert Gather(s, p[..k]) == whole[..k];
    assert whole == whole[..k] + whole[k..];
  }

  /** Distinct positions into a sequence of distinct elements pick distinct elements. */
  lemma GatherDistinct<T>(s: seq<T>, pos: seq<nat>)
    requires AllBelow(pos, |s|) && Distinct(pos)
    ensures Distinct(s) ==> Distinct(Gather(s, pos))
  {
  }
}
