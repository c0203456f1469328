/** The pieces of Python's semantics that the coordinator relies on:
    the keys of a dict, slicing with `s[start:end]` and the built-in `min`. */
module PyBuiltins {

  /** The keys of a Python dict, listed in insertion order, are pairwise distinct. */
  predicate Distinct<T(==)>(s: seq<T>) {
    forall i, j :: 0 <= i < j < |s| ==> s[i] != s[j]
  }

  /** Python's normalisation of one slice bound against a length `n`:
      a negative bound counts from the end, then the bound is clamped to [0, n]. */
  function SliceBound(i: int, n: nat): (b: nat)
    ensures b <= n
    ensures 0 <= i ==> b == if i <= n then i else n
    ensures i < 0 ==> b == if -i <= n then n + i else 0
  {
    if i < 0 then (if i + n < 0 then 0 else i + n)
    else if i > n then n else i
  }

  /** `s[start:end]` with step 1: the samples from the normalised start bound
      up to (excluding) the normalised end bound; empty when they cross. */
  function Slice<T>(s: seq<T>, start: int, end: int): (r: seq<T>)
    ensures |r| <= |s|
    ensures SliceBound(start, |s|) + |r| <= |s|
    ensures forall k :: 0 <= k < |r| ==> r[k] == s[SliceBound(start, |s|) + k]
    ensures |r| == 0 <==> SliceBound(end, |s|) <= SliceBound(start, |s|)
    ensures SliceBound(start, |s|) < SliceBound(end, |s|) ==>
              |r| == SliceBound(end, |s|) - SliceBound(start, |s|)
  {
    var lo, hi := SliceBound(start, |s|), SliceBound(end, |s|);
    if lo < hi then s[lo..hi] else []
  }

  /** Within range, a Python slice is Dafny's subsequence. */
  lemma SliceInRange<T>(s: seq<T>, start: int, end: int)
    requires 0 <= start <= end <= |s|
    ensures Slice(s, start, end) == s[start..end]
  {
  }

  /** A negative bound means the same as that bound plus the length. */
  lemma SliceNegativeBounds<T>(s: seq<T>, start: int, end: int)
    requires -|s| <= start < 0 && -|s| <= end < 0
    ensures Slice(s, start, end) == Slice(s, start + |s|, end + |s|)
  {
  }

  /** Slicing first normalises its bounds: a slice taken at the normalised
      bounds is the same slice. */
  lemma SliceNormalised<T>(s: seq<T>, start: int, end: int)
    ensures Slice(s, start, end) == Slice(s, SliceBound(start, |s|), SliceBound(end, |s|))
  {
  }

  /** The default end bound `-1` excludes exactly the last sample: appending
      that sample (when the slice reaches it) gives the slice up to the end. */
  lemma SliceDefaultEndDropsLast<T>(s: seq<T>, start: int)
    requires |s| > 0
    ensures var whole := Slice(s, start, |s|);
            Slice(s, start, -1)
              + (if SliceBound(start, |s|) < |s| then [s[|s| - 1]] else [])
            == whole
  {
  }

  /** On the buffer [1, 2, 3, 4, 5], `[0:-1]` is [1, 2, 3, 4] and `[2:-1]` is [3, 4]. */
  lemma SliceDefaultEndExamples()
    ensures Slice([1, 2, 3, 4, 5], 0, -1) == [1, 2, 3, 4]
    ensures Slice([1, 2, 3, 4, 5], 2, -1) == [3, 4]
  {
  }

  /** Two adjacent slices concatenate to the slice that spans both. */
  lemma SliceConcat<T>(s: seq<T>, a: int, m: int, b: int)
    requires SliceBound(a, |s|) <= SliceBound(m, |s|) <= SliceBound(b, |s|)
    ensures Slice(s, a, m) + Slice(s, m, b) == Slice(s, a, b)
  {
  }

  /** `min` over a non-empty list of integers: the first least element. */
  function Min(s: seq<int>): (m: int)
    requires |s| > 0
    ensures forall i :: 0 <= i < |s| ==> m <= s[i]
    ensures exists i :: 0 <= i < |s| && m == s[i]
  {
    if |s| == 1 then s[0]
    else
      var rest := Min(s[1..]);
      if s[0] <= rest then s[0] else rest
  }
}
