/** Scroll input: wheel and touch deltas accumulated into a target progress
    that is clamped to [0, 1] (script.js, handleScroll and its two callers). */
module Scroll {

  /** Progress gained per unit of wheel `deltaY`. */
  const WheelSensitivity: real := 0.0008

  /** A touch drag's pixel delta is multiplied by this before it is scrolled. */
  const TouchGain: real := 2.0

  function Min(a: real, b: real): real { if a <= b then a else b }

  function Max(a: real, b: real): real { if a >= b then a else b }

  /** `Math.max(0, Math.min(1, x))`: the identity on [0, 1], and the bound
      that was crossed outside it. */
  function Clamp01(x: real): (r: real)
    ensures 0.0 <= r <= 1.0
    ensures 0.0 <= x <= 1.0 ==> r == x
    ensures x < 0.0 ==> r == 0.0
    ensures x > 1.0 ==> r == 1.0
  {
    Max(0.0, Min(1.0, x))
  }

  /** The target progress after `handleScroll(deltaY)`. */
  function NextTarget(target: real, deltaY: real): (r: real)
    ensures 0.0 <= r <= 1.0
    ensures var raw := target + deltaY * WheelSensitivity;
      (0.0 <= raw <= 1.0 ==> r == raw) && (raw < 0.0 ==> r == 0.0) && (raw > 1.0 ==> r == 1.0)
    ensures 0.0 <= target <= 1.0 && deltaY == 0.0 ==> r == target
    ensures 0.0 <= target <= 1.0 && deltaY >= 0.0 ==> target <= r
    ensures 0.0 <= target <= 1.0 && deltaY <= 0.0 ==> r <= target
  {
    Clamp01(target + deltaY * WheelSensitivity)
  }

  /** The delta a touchmove passes to handleScroll: moving the finger up
      (to a smaller clientY) scrolls forward, moving it down scrolls back. */
  function TouchDelta(touchStartY: real, clientY: real): (d: real)
    ensures d > 0.0 <==> clientY < touchStartY
    ensures d < 0.0 <==> clientY > touchStartY
    ensures d == 0.0 <==> clientY == touchStartY
  {
    (touchStartY - clientY) * TouchGain
  }

  /** The deltas of a drag that started at `start` and then reported the
      positions `ys`; each touchmove measures from the previous position. */
  function TouchDeltas(start: real, ys: seq<real>): (ds: seq<real>)
    ensures |ds| == |ys|
    ensures |ys| > 0 ==> ds[0] == TouchDelta(start, ys[0])
    ensures forall i :: 0 < i < |ys| ==> ds[i] == TouchDelta(ys[i - 1], ys[i])
    decreases |ys|
  {
    if ys == [] then []
    else
      [TouchDelta(start, ys[0])] + TouchDeltas(ys[0], ys[1..])
  }

  function Sum(ds: seq<real>): real
  {
    if ds == [] then 0.0 else ds[0] + Sum(ds[1..])
  }

  function Last(ys: seq<real>): real
    requires |ys| > 0
  {
    ys[|ys| - 1]
  }

  predicate AllNonNegative(ds: seq<real>)
  {
    forall i :: 0 <= i < |ds| ==> ds[i] >= 0.0
  }

  predicate AllNonPositive(ds: seq<real>)
  {
    forall i :: 0 <= i < |ds| ==> ds[i] <= 0.0
  }

  /** The target after handleScroll is called with each of `ds` in turn. */
  function TargetAfter(target: real, ds: seq<real>): (r: real)
    ensures 0.0 <= target <= 1.0 || |ds| > 0 ==> 0.0 <= r <= 1.0
    ensures 0.0 <= target <= 1.0 && AllNonNegative(ds) ==> target <= r
    ensures 0.0 <= target <= 1.0 && AllNonPositive(ds) ==> r <= target
    decreases |ds|
  {
    if ds == [] then target else TargetAfter(NextTarget(target, ds[0]), ds[1..])
  }

  /** No call in the sequence reaches a bound of the clamp. */
  predicate Unclamped(target: real, ds: seq<real>)
    decreases |ds|
  {
    ds == [] ||
    (0.0 <= target + ds[0] * WheelSensitivity <= 1.0 &&
     Unclamped(target + ds[0] * WheelSensitivity, ds[1..]))
  }

  /** While the clamp does not bite, scrolling is additive: the target moves
      by the sum of the deltas times the sensitivity. */
  lemma {:induction false} UnclampedScrollAdds(target: real, ds: seq<real>)
    requires Unclamped(target, ds)
    ensures TargetAfter(target, ds) == target + Sum(ds) * WheelSensitivity
    decreases |ds|
  {
    if ds != [] {
      UnclampedScrollAdds(target + ds[0] * WheelSensitivity, ds[1..]);
    }
  }

  /** Scrolling only forward from an in-range target saturates at 1: the
      result is exactly min(1, target + sum * sensitivity). */
  lemma {:induction false} ForwardScrollSaturates(target: real, ds: seq<real>)
    requires 0.0 <= target <= 1.0 && AllNonNegative(ds)
    ensures Sum(ds) >= 0.0
    ensures TargetAfter(target, ds) == Min(1.0, target + Sum(ds) * WheelSensitivity)
    decreases |ds|
  {
    if ds != [] {
      assert AllNonNegative(ds[1..]) by {
        forall i | 0 <= i < |ds[1..]| ensures ds[1..][i] >= 0.0 { assert ds[1..][i] == ds[i + 1]; }
      }
      ForwardScrollSaturates(NextTarget(target, ds[0]), ds[1..]);
    }
  }

  /** Scrolling only backward from an in-range target saturates at 0. */
  lemma {:induction false} BackwardScrollSaturates(target: real, ds: seq<real>)
    requires 0.0 <= target <= 1.0 && AllNonPositive(ds)
    ensures Sum(ds) <= 0.0
    ensures TargetAfter(target, ds) == Max(0.0, target + Sum(ds) * WheelSensitivity)
    decreases |ds|
  {
    if ds != [] {
      assert AllNonPositive(ds[1..]) by {
        forall i | 0 <= i < |ds[1..]| ensures ds[1..][i] <= 0.0 { assert ds[1..][i] == ds[i + 1]; }
      }
      BackwardScrollSaturates(NextTarget(target, ds[0]), ds[1..]);
    }
  }

  /** The touch deltas of one drag telescope: together they equal the gain
      times the distance from the start to the last reported position. */
  lemma {:induction false} TouchDeltasTelescope(start: real, ys: seq<real>)
    requires |ys| > 0
    ensures Sum(TouchDeltas(start, ys)) == (start - Last(ys)) * TouchGain
    decreases |ys|
  {
    if |ys| > 1 {
      TouchDeltasTelescope(ys[0], ys[1..]);
      assert Last(ys[1..]) == Last(ys);
    }
  }

  /** A drag that never reaches a bound moves the target by
      (start - end) * 2 * 0.0008, however the finger moved in between. */
  lemma TouchDragMovesTarget(target: real, start: real, ys: seq<real>)
    requires |ys| > 0
    requires Unclamped(target, TouchDeltas(start, ys))
    ensures TargetAfter(target, TouchDeltas(start, ys))
            == target + (start - Last(ys)) * TouchGain * WheelSensitivity
  {
    UnclampedScrollAdds(target, TouchDeltas(start, ys));
    TouchDeltasTelescope(start, ys);
  }
}
