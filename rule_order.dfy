/**
 * The one genome operator the driver applies: reversing the order of the
 * any-phase rules. The driver copies the list and reverses the copy in place,
 * so that the order read from the default file survives unchanged.
 */
module RuleOrder {

  /** The reference definition: the last element first, then the rest reversed. */
  function Reversed<T>(s: seq<T>): (r: seq<T>)
    ensures |r| == |s|
    decreases |s|
  {
    if s == [] then [] else [s[|s| - 1]] + Reversed(s[..|s| - 1])
  }

  /** Position `k` of the reversal holds the element mirrored around the middle. */
  lemma {:induction false} ReversedAt<T>(s: seq<T>, k: nat)
    requires k < |s|
    ensures Reversed(s)[k] == s[|s| - 1 - k]
    decreases |s|
  {
    if k > 0 {
      ReversedAt(s[..|s| - 1], k - 1);
    }
  }

  /** Reversing twice gives the original order back. */
  lemma ReversedInvolutive<T>(s: seq<T>)
    ensures Reversed(Reversed(s)) == s
  {
    forall k | 0 <= k < |s|
      ensures Reversed(Reversed(s))[k] == s[k]
    {
      ReversedAt(Reversed(s), k);
      ReversedAt(s, |s| - 1 - k);
    }
  }

  /** The reversal is a permutation: every rule keeps its number of occurrences. */
  lemma {:induction false} ReversedPermutation<T>(s: seq<T>)
    ensures multiset(Reversed(s)) == multiset(s)
    decreases |s|
  {
    if s != [] {
      var init := s[..|s| - 1];
      assert s == init + [s[|s| - 1]];
      ReversedPermutation(init);
    }
  }

  /** Python's `list.reverse()`: reverses `a` in place by swapping from both ends. */
  method ReverseInPlace<T>(a: array<T>)
    modifies a
    ensures a[..] == Reversed(old(a[..]))
  {
    var lo, hi := 0, a.Length - 1;
    while lo < hi
      invariant 0 <= lo <= hi + 1 <= a.Length
      invariant lo + hi == a.Length - 1
      invariant forall k :: 0 <= k < lo ==> a[k] == old(a[a.Length - 1 - k]) && a[a.Length - 1 - k] == old(a[k])
      invariant forall k :: lo <= k <= hi ==> a[k] == old(a[k])
    {
      a[lo], a[hi] := a[hi], a[lo];
      lo, hi := lo + 1, hi - 1;
    }
    ghost var before := old(a[..]);
    forall k | 0 <= k < a.Length
      ensures a[..][k] == Reversed(before)[k]
    {
      ReversedAt(before, k);
    }
  }

  /**
   * `orderOfAnyPhaseRules.copy()` followed by `.reverse()` on the copy: the
   * result is a new array holding the mirrored order, a permutation of the
   * source, and the source itself is left as it was.
   */
  method ReverseCopy<T>(src: array<T>) returns (dst: array<T>)
    ensures fresh(dst)
    ensures dst[..] == Reversed(src[..])
    ensures forall k :: 0 <= k < src.Length ==> dst[k] == src[src.Length - 1 - k]
    ensures multiset(dst[..]) == multiset(src[..])
    ensures src[..] == old(src[..])
  {
    dst := new T[src.Length](k requires 0 <= k < src.Length reads src => src[k]);
    assert dst[..] == src[..];
    ReverseInPlace(dst);
    forall k | 0 <= k < src.Length
      ensures dst[k] == src[src.Length - 1 - k]
    {
      ReversedAt(src[..], k);
    }
    ReversedPermutation(src[..]);
  }
}
