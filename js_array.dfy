/**
 * The part of JavaScript's Array.prototype.slice that the components use:
 * relative (possibly negative) start and end positions, clamped to the array.
 */
module JsArray {

  function Min(a: int, b: int): int { if a <= b then a else b }

  function Max(a: int, b: int): int { if a >= b then a else b }

  /** How slice turns a relative position into an absolute one: negative counts back from the end. */
  function RelativeIndex(rel: int, len: nat): (k: nat)
    ensures k <= len
  {
    if rel < 0 then (if len + rel < 0 then 0 else len + rel)
    else if rel < len then rel else len
  }

  /** `s.slice(start, end)`: the elements from the resolved start up to the resolved end, empty if they cross. */
  function Slice<T>(s: seq<T>, start: int, end: int): (r: seq<T>)
    ensures |r| == Max(RelativeIndex(end, |s|) - RelativeIndex(start, |s|), 0)
    ensures forall i :: 0 <= i < |r| ==> r[i] == s[RelativeIndex(start, |s|) + i]
  {
    var from, to := RelativeIndex(start, |s|), RelativeIndex(end, |s|);
    if from < to then s[from..to] else []
  }

  /** `s.slice(start)`: the end position defaults to the length. */
  function SliceFrom<T>(s: seq<T>, start: int): seq<T>
  {
    Slice(s, start, |s|)
  }

  /** `s.slice(-k)` with k > 0 is the last min(k, |s|) elements (`slice(-0)` would be the whole array). */
  lemma SliceLast<T>(s: seq<T>, k: int)
    requires k > 0
    ensures SliceFrom(s, -k) == s[|s| - Min(k, |s|)..]
  {
  }

  /** `s.slice(0, k)` is the first min(k, |s|) elements. */
  lemma SliceFirst<T>(s: seq<T>, k: int)
    requires k >= 0
    ensures Slice(s, 0, k) == s[..Min(k, |s|)]
  {
  }

  /** `s.slice(-a, -b)` with 0 < b <= a: the window that ends b elements before the end, clamped at the front. */
  lemma SliceBetweenFromEnd<T>(s: seq<T>, a: int, b: int)
    requires 0 < b <= a
    ensures Slice(s, -a, -b) == s[Max(|s| - a, 0)..Max(|s| - b, 0)]
  {
  }
}
