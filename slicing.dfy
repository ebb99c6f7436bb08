/**
 * Python's string builtins that the extractor relies on: slicing with
 * `s[start:stop]` (step 1, possibly negative or out-of-range bounds) and
 * `s.find(sub)`.
 */
module PySlicing {
  import opened Wrappers

  /** How Python normalises one slice bound against a sequence of length `n`:
      a negative bound counts from the end, and the result is clamped to `[0, n]`. */
  function ClampBound(b: int, n: nat): (k: nat)
    ensures k <= n
  {
    if b < 0 then (if b + n < 0 then 0 else b + n)
    else if b > n then n
    else b
  }

  /** `s[start:stop]`; an omitted bound is `None`. A slice never fails. */
  function Slice<T>(s: seq<T>, start: Option<int>, stop: Option<int>): (r: seq<T>)
    ensures |r| <= |s|
  {
    var lo := if start.Some? then ClampBound(start.value, |s|) else 0;
    var hi := if stop.Some? then ClampBound(stop.value, |s|) else |s|;
    if lo <= hi then s[lo..hi] else []
  }

  /** `s[:k]`: a non-negative bound keeps the first `k` elements (at most all of
      them), a negative one drops the last `-k` (at most all of them). */
  lemma SliceTo<T>(s: seq<T>, k: int)
    ensures Slice(s, None, Some(k)) ==
      if k >= 0 then s[..if k <= |s| then k else |s|]
      else s[..if |s| + k >= 0 then |s| + k else 0]
  {
  }

  /** `s[k:]`: a non-negative bound drops the first `k` elements, a negative one
      keeps the last `-k`. */
  lemma SliceFrom<T>(s: seq<T>, k: int)
    ensures Slice(s, Some(k), None) ==
      if k >= 0 then s[if k <= |s| then k else |s|..]
      else s[if |s| + k >= 0 then |s| + k else 0..]
  {
  }

  /** `sub` occurs in `s` starting at index `i`. */
  predicate OccursAt(s: string, sub: string, i: nat)
  {
    i + |sub| <= |s| && s[i..i + |sub|] == sub
  }

  /** `sub` occurs nowhere in `s`. */
  predicate Absent(s: string, sub: string)
  {
    forall i: nat :: i <= |s| ==> !OccursAt(s, sub, i)
  }

  /** `s.find(sub)`: the index of the first occurrence of `sub`, or -1. */
  function Find(s: string, sub: string): (r: int)
    ensures -1 <= r <= |s|
    ensures r == -1 <==> Absent(s, sub)
    ensures r >= 0 ==> OccursAt(s, sub, r) && forall i: nat :: i < r ==> !OccursAt(s, sub, i)
    decreases |s|
  {
    if |s| < |sub| then -1
    else if s[..|sub|] == sub then assert OccursAt(s, sub, 0); 0
    else
      var k := Find(s[1..], sub);
      OccursAfterFirst(s, sub);
      assert !OccursAt(s, sub, 0);
      if k < 0 then -1 else assert OccursAt(s, sub, k + 1); k + 1
  }

  /** An occurrence in `s` at `i >= 1` is an occurrence in `s[1..]` at `i - 1`, and conversely. */
  lemma OccursAfterFirst(s: string, sub: string)
    requires |s| > 0
    ensures forall i: nat :: 1 <= i ==> (OccursAt(s, sub, i) <==> OccursAt(s[1..], sub, i - 1))
  {
    forall i: nat | 1 <= i
      ensures OccursAt(s, sub, i) <==> OccursAt(s[1..], sub, i - 1)
    {
      if i + |sub| <= |s| {
        assert s[1..][i - 1..i - 1 + |sub|] == s[i..i + |sub|];
      }
    }
  }
}
