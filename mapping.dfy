/**
 * The range helper `mapRange` (synth.js:266-270): clamp a value into the input
 * range, then map it linearly onto the output range. Numbers are modelled as
 * exact reals.
 */
module Mapping {

  /** `r` lies between `a` and `b`, whichever order they come in. */
  predicate Between(r: real, a: real, b: real) {
    if a <= b then a <= r <= b else b <= r <= a
  }

  /** `Math.max(lo, Math.min(value, hi))`. */
  function Clamp(value: real, lo: real, hi: real): real {
    var m := if value < hi then value else hi;
    if lo > m then lo else m
  }

  /**
   * mapRange exactly as written: the only demand on callers is a non-empty
   * input interval (the division by `inMax - inMin`).
   */
  function MapRange(value: real, inMin: real, inMax: real, outMin: real, outMax: real): (r: real)
    requires inMin != inMax
    ensures inMin < inMax && value <= inMin ==> r == outMin
    ensures inMin < inMax && value >= inMax ==> r == outMax
    ensures inMin < inMax ==> Between(r, outMin, outMax)
    ensures inMin > inMax ==> r == outMin
  {
    var x, w, d := Clamp(value, inMin, inMax) - inMin, inMax - inMin, outMax - outMin;
    assert inMin > inMax || (inMin < inMax && value <= inMin) ==> x == 0.0;
    assert inMin < inMax && value >= inMax ==> x == w;
    assert inMin < inMax ==> 0.0 <= x <= w;
    ScaledFraction(x, w, d);
    Scale(x, w, d) + outMin
  }

  /** `x * d / w`: the offset `x` into an input range of width `w`, carried onto an output range of width `d`. */
  function Scale(x: real, w: real, d: real): real
    requires w != 0.0
  {
    (x * d) / w
  }

  /** Helper: the scaled offset is 0 at x = 0, d at x = w, and between the two in between. */
  lemma ScaledFraction(x: real, w: real, d: real)
    requires w != 0.0
    ensures x == 0.0 ==> Scale(x, w, d) == 0.0
    ensures x == w ==> Scale(x, w, d) == d
    ensures 0.0 <= x <= w ==> Between(Scale(x, w, d), 0.0, d)
  {
    if x == w {
      assert x * d == w * d;
    }
    if 0.0 <= x <= w {
      var t := x / w;
      assert 0.0 <= t <= 1.0;
      assert (x * d) / w == t * d;
      if d >= 0.0 {
        assert t * d <= 1.0 * d;
      } else {
        assert t * d >= 1.0 * d;
      }
    }
  }

  /** mapRange is monotone in its input when both ranges are ascending. */
  lemma MapRangeMonotone(v1: real, v2: real, inMin: real, inMax: real, outMin: real, outMax: real)
    requires inMin < inMax && outMin <= outMax && v1 <= v2
    ensures MapRange(v1, inMin, inMax, outMin, outMax) <= MapRange(v2, inMin, inMax, outMin, outMax)
  {
    ClampMonotone(v1, v2, inMin, inMax);
    ScaleMonotone(Clamp(v1, inMin, inMax) - inMin, Clamp(v2, inMin, inMax) - inMin, inMax - inMin, outMax - outMin);
  }

  lemma ClampMonotone(v1: real, v2: real, lo: real, hi: real)
    requires v1 <= v2
    ensures Clamp(v1, lo, hi) <= Clamp(v2, lo, hi)
  {
  }

  /** Helper: the scaled offset grows with `x` when `d` is non-negative and `w` positive. */
  lemma ScaleMonotone(x1: real, x2: real, w: real, d: real)
    requires x1 <= x2 && w > 0.0 && d >= 0.0
    ensures Scale(x1, w, d) <= Scale(x2, w, d)
  {
    assert x2 * d - x1 * d == (x2 - x1) * d;
    assert x1 * d <= x2 * d;
  }

  /** The MIDI 0..127 data range mapped onto [0, top], as the velocity and CC7/CC71 paths do. */
  lemma MidiScaleWithin(value: int, top: real)
    requires top >= 0.0
    ensures 0.0 <= MapRange(value as real, 0.0, 127.0, 0.0, top) <= top
    ensures value <= 0 ==> MapRange(value as real, 0.0, 127.0, 0.0, top) == 0.0
    ensures value >= 127 ==> MapRange(value as real, 0.0, 127.0, 0.0, top) == top
  {
  }
}
