/** The per-frame smoothing of script.js's animate: the current progress
    moves a fixed fraction of the way toward the target on every frame. */
module Smoothing {

  /** Fraction of the remaining gap closed on each frame. */
  const SmoothingFactor: real := 0.05

  /** Fraction of the gap left after one frame. */
  const Retention: real := 1.0 - SmoothingFactor

  /** One frame's step, `current += (target - current) * 0.05`: the new value
      lies between the old value and the target (it never overshoots), the
      gap shrinks by exactly the retention factor, and the target is the one
      fixed point. */
  function Ease(current: real, target: real): (r: real)
    ensures current <= target ==> current <= r <= target
    ensures target <= current ==> target <= r <= current
    ensures target - r == (target - current) * Retention
    ensures r == current <==> current == target
    ensures 0.0 <= current <= 1.0 && 0.0 <= target <= 1.0 ==> 0.0 <= r <= 1.0
  {
    current + (target - current) * SmoothingFactor
  }

  /** Retention^n, the fraction of the gap left after n frames. */
  function Retained(n: nat): (r: real)
    ensures 0.0 < r <= 1.0
    ensures n > 0 ==> r < 1.0
  {
    if n == 0 then 1.0 else Retained(n - 1) * Retention
  }

  /** The current progress after n frames with a fixed target. */
  function CurrentAfter(current: real, target: real, n: nat): (r: real)
    ensures target - r == (target - current) * Retained(n)
    ensures current <= target ==> current <= r <= target
    ensures target <= current ==> target <= r <= current
  {
    if n == 0 then current
    else
      var prev := CurrentAfter(current, target, n - 1);
      assert target - Ease(prev, target) == (target - current) * Retained(n - 1) * Retention;
      Ease(prev, target)
  }

  /** The current progress when frame i runs with target ts[i]: the target
      may move between frames (scroll input arrives between them). */
  function Follow(current: real, ts: seq<real>): real
    decreases |ts|
  {
    if ts == [] then current else Follow(Ease(current, ts[0]), ts[1..])
  }

  predicate NonDecreasing(ts: seq<real>)
  {
    forall i, j :: 0 <= i <= j < |ts| ==> ts[i] <= ts[j]
  }

  predicate NonIncreasing(ts: seq<real>)
  {
    forall i, j :: 0 <= i <= j < |ts| ==> ts[i] >= ts[j]
  }

  /** One more frame at the end of a trace is one more easing step. */
  lemma {:induction false} FollowSnoc(current: real, ts: seq<real>, t: real)
    ensures Follow(current, ts + [t]) == Ease(Follow(current, ts), t)
    decreases |ts|
  {
    if ts != [] {
      assert (ts + [t])[1..] == ts[1..] + [t];
      FollowSnoc(Ease(current, ts[0]), ts[1..], t);
    }
  }

  /** Retention^n <= 19 / (19 + n) (a Bernoulli-style bound). */
  lemma {:induction false} RetainedBound(n: nat)
    ensures Retained(n) * (19.0 + n as real) <= 19.0
  {
    if n > 0 {
      RetainedBound(n - 1);
      var p := Retained(n - 1);
      calc {
        Retained(n) * (19.0 + n as real);
        p * (Retention * (19.0 + n as real));
      <= { assert Retention * (19.0 + n as real) <= 19.0 + (n - 1) as real; }
        p * (19.0 + (n - 1) as real);
      }
    }
  }

  /** The eased progress converges on a fixed target: after n frames the gap
      is at most 19 / (19 + n) of the original one. */
  lemma {:induction false} EasingConverges(current: real, target: real, n: nat)
    ensures var gap := target - CurrentAfter(current, target, n);
      Abs(gap) * (19.0 + n as real) <= Abs(target - current) * 19.0
  {
    RetainedBound(n);
    GapBound(target - current, Retained(n), 19.0 + n as real,
             target - CurrentAfter(current, target, n));
  }

  function Abs(x: real): real { if x >= 0.0 then x else -x }

  /** |g| * k <= |d| * 19 when g = d * r and r * k <= 19. */
  lemma GapBound(d: real, r: real, k: real, g: real)
    requires g == d * r && r > 0.0 && r * k <= 19.0
    ensures Abs(g) * k <= Abs(d) * 19.0
  {
  }

  /** A target that only moves forward never gets overtaken: if the current
      progress starts at or below the first target, it ends at or above its
      start and at or below the latest target. */
  lemma {:induction false} FollowNeverOvershoots(current: real, ts: seq<real>)
    requires |ts| > 0 && NonDecreasing(ts) && current <= ts[0]
    ensures current <= Follow(current, ts) <= ts[|ts| - 1]
    decreases |ts|
  {
    var next := Ease(current, ts[0]);
    if |ts| > 1 {
      assert NonDecreasing(ts[1..]) by {
        forall i, j | 0 <= i <= j < |ts[1..]| ensures ts[1..][i] <= ts[1..][j] {
          assert ts[1..][i] == ts[i + 1] && ts[1..][j] == ts[j + 1];
        }
      }
      assert next <= ts[1];
      FollowNeverOvershoots(next, ts[1..]);
    }
  }

  /** The mirror for a target that only moves backward: the current progress
      ends at or below its start and at or above the latest target. */
  lemma {:induction false} FollowNeverUndershoots(current: real, ts: seq<real>)
    requires |ts| > 0 && NonIncreasing(ts) && current >= ts[0]
    ensures ts[|ts| - 1] <= Follow(current, ts) <= current
    decreases |ts|
  {
    var next := Ease(current, ts[0]);
    if |ts| > 1 {
      assert NonIncreasing(ts[1..]) by {
        forall i, j | 0 <= i <= j < |ts[1..]| ensures ts[1..][i] >= ts[1..][j] {
          assert ts[1..][i] == ts[i + 1] && ts[1..][j] == ts[j + 1];
        }
      }
      assert next >= ts[1];
      FollowNeverUndershoots(next, ts[1..]);
    }
  }

  /** Frame by frame under a forward-moving target: every frame raises the
      current progress or keeps it, and never past that frame's target. */
  lemma FollowRisesEachFrame(current: real, ts: seq<real>)
    requires |ts| > 0 && NonDecreasing(ts) && current <= ts[0]
    ensures forall k :: 0 <= k < |ts| ==>
      Follow(current, ts[..k]) <= Follow(current, ts[..k + 1]) <= ts[k]
  {
    forall k | 0 <= k < |ts|
      ensures Follow(current, ts[..k]) <= Follow(current, ts[..k + 1]) <= ts[k]
    {
      assert ts[..k + 1] == ts[..k] + [ts[k]];
      FollowSnoc(current, ts[..k], ts[k]);
      if k > 0 {
        assert NonDecreasing(ts[..k]);
        FollowNeverOvershoots(current, ts[..k]);
      }
    }
  }

  /** Frame by frame under a backward-moving target: every frame lowers the
      current progress or keeps it, and never below that frame's target. */
  lemma FollowFallsEachFrame(current: real, ts: seq<real>)
    requires |ts| > 0 && NonIncreasing(ts) && current >= ts[0]
    ensures forall k :: 0 <= k < |ts| ==>
      ts[k] <= Follow(current, ts[..k + 1]) <= Follow(current, ts[..k])
  {
    forall k | 0 <= k < |ts|
      ensures ts[k] <= Follow(current, ts[..k + 1]) <= Follow(current, ts[..k])
    {
      assert ts[..k + 1] == ts[..k] + [ts[k]];
      FollowSnoc(current, ts[..k], ts[k]);
      if k > 0 {
        assert NonIncreasing(ts[..k]);
        FollowNeverUndershoots(current, ts[..k]);
      }
    }
  }
}
