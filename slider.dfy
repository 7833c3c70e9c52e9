/**
 * The values a slider control reports through `onValueChange`. Both sliders
 * of the forms are configured with `step={1}`, so a slider with bounds
 * `min`..`max` reports `min`, `min + 1`, ... up to `max`.
 */
module Slider {

  /** The values of a slider with bounds `lo`..`hi` and step 1, in increasing order. */
  function Values(lo: int, hi: int): (r: seq<int>)
    ensures |r| == if lo <= hi then hi - lo + 1 else 0
    ensures forall i :: 0 <= i < |r| ==> r[i] == lo + i
    decreases hi - lo
  {
    if lo > hi then [] else [lo] + Values(lo + 1, hi)
  }

  /** A value is offered exactly when it lies within the bounds. */
  lemma OfferedIff(lo: int, hi: int, v: int)
    ensures v in Values(lo, hi) <==> lo <= v <= hi
  {
    if lo <= v <= hi {
      assert Values(lo, hi)[v - lo] == v;
    }
  }
}
