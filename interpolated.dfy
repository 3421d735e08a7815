/** `InterpolatedScalar` and `InterpolatedPosition`: values that chase a target, covering a
    time-dependent fraction of the remaining distance per update, never more than all of it. The
    fraction `(8/9)^(delta_seconds·1000)` is passed in as `factor`. */
module Interpolated {
  function Abs(x: real): real { if x < 0.0 then -x else x }

  function RealMin(a: real, b: real): real { if a <= b then a else b }

  /** `f32::signum`, with a zero difference counted as positive. */
  function Signum(x: real): real { if x < 0.0 then -1.0 else 1.0 }

  /** The step `update_with` takes: the factor times the difference, clamped to the difference's
      magnitude, in the difference's direction. */
  function Step(diff: real, factor: real): real
  {
    RealMin(Abs(diff * factor), Abs(diff)) * Signum(diff)
  }

  /** Whatever the factor, a step goes the difference's way and never past it. */
  lemma StepNeverOvershoots(diff: real, factor: real)
    ensures Abs(Step(diff, factor)) <= Abs(diff)
    ensures diff >= 0.0 ==> 0.0 <= Step(diff, factor) <= diff
    ensures diff <= 0.0 ==> diff <= Step(diff, factor) <= 0.0
  {
    if diff * factor < 0.0 {
      assert Abs(diff * factor) == -(diff * factor);
    }
  }

  /** For a factor in [0, 1] the step is exactly that fraction of the difference. */
  lemma StepIsFraction(diff: real, factor: real)
    requires 0.0 <= factor <= 1.0
    ensures Step(diff, factor) == factor * diff
  {
    if diff >= 0.0 {
      assert diff * factor <= diff;
    } else {
      assert diff * factor >= diff;
    }
  }

  /** The wrapped angle difference of `update_radial_degrees`: the other way round the circle
      whenever the plain difference exceeds half a turn. */
  function RadialDiff(target: real, current: real): real
  {
    var diff := target - current;
    if diff > 180.0 then diff - 360.0 else if diff < -180.0 then 360.0 + diff else diff
  }

  /** Between angles in [0, 360) the wrapped difference is at most half a turn either way and
      reaches the same angle modulo a full turn. */
  lemma RadialDiffShortest(target: real, current: real)
    requires 0.0 <= target < 360.0 && 0.0 <= current < 360.0
    ensures -180.0 <= RadialDiff(target, current) <= 180.0
    ensures var d := RadialDiff(target, current);
      d == target - current || d == target - current - 360.0 || d == target - current + 360.0
  {
  }

  /** `a % 360.0` on `f32`: the remainder of division truncated toward zero, with `a`'s sign. */
  function Rem360(a: real): real
  {
    if a >= 0.0 then a - 360.0 * (a / 360.0).Floor as real
    else a + 360.0 * (-a / 360.0).Floor as real
  }

  /** The new angle: `(7200 + current + diff) % 360`. */
  function RadialResult(current: real, diff: real): real
  {
    Rem360(7200.0 + current + diff)
  }

  /** Unless the angle sinks 20 full turns below zero, the result is an angle in [0, 360) that
      equals `current + diff` modulo a full turn. */
  lemma RadialResultWraps(current: real, diff: real)
    requires current + diff > -7200.0
    ensures 0.0 <= RadialResult(current, diff) < 360.0
    ensures var turns := (RadialResult(current, diff) - (current + diff)) / 360.0; turns == turns.Floor as real
  {
    var a := 7200.0 + current + diff;
    var q := (a / 360.0).Floor;
    assert q as real <= a / 360.0 < q as real + 1.0;
    var r := RadialResult(current, diff);
    assert r == a - 360.0 * q as real;
    var k := (20 - q) as real;
    assert r - (current + diff) == 360.0 * k;
    assert (r - (current + diff)) / 360.0 == k;
    assert k.Floor == 20 - q;
  }

  /** A `Rem360` of a negative sum keeps its sign, so the range needs the bound. */
  lemma RadialResultBelowRange()
    ensures RadialResult(0.0, -7290.0) == -90.0
  {
    assert (90.0 / 360.0).Floor == 0;
  }

  class InterpolatedScalar {
    var current: real
    var target: real

    /** `From<f32>`: at rest at the value. */
    constructor From(value: real)
      ensures current == value && target == value
    {
      current := value;
      target := value;
    }

    /** `update_with`: moves `current` by one clamped step of the difference `withDiff` measures,
        combining them with `withResult`; the target stays. */
    method UpdateWith(factor: real, withDiff: (real, real) -> real, withResult: (real, real) -> real)
      modifies this
      ensures target == old(target)
      ensures current == withResult(old(current), Step(withDiff(old(target), old(current)), factor))
    {
      var diff := withDiff(target, current);
      current := withResult(current, Step(diff, factor));
    }

    /** `update`: one step along the line toward the target. */
    method Update(factor: real)
      modifies this
      ensures target == old(target)
      ensures current == old(current) + Step(old(target) - old(current), factor)
    {
      UpdateWith(factor, (t, c) => t - c, (c, d) => c + d);
    }

    /** `update_radial_degrees`: one step the short way round the circle toward the target angle. */
    method UpdateRadialDegrees(factor: real)
      modifies this
      ensures target == old(target)
      ensures current == RadialResult(old(current), Step(RadialDiff(old(target), old(current)), factor))
    {
      UpdateWith(factor, RadialDiff, RadialResult);
    }

    method Set(value: real)
      modifies this
      ensures current == value && target == value
    {
      current := value;
      target := value;
    }

    method SetTarget(value: real)
      modifies this
      ensures target == value && current == old(current)
    {
      target := value;
    }

    /** `current`: the value reached so far, not the target. */
    function Current(): (c: real)
      reads this
      ensures c == current
    {
      current
    }
  }

  /** The position after one linear update. */
  function LinearNext(current: real, target: real, factor: real): real
  {
    current + Step(target - current, factor)
  }

  /** A linear update lands between the old position and the target, and stays put at the target. */
  lemma LinearNextBetween(current: real, target: real, factor: real)
    ensures current <= target ==> current <= LinearNext(current, target, factor) <= target
    ensures target <= current ==> target <= LinearNext(current, target, factor) <= current
    ensures current == target ==> LinearNext(current, target, factor) == current
  {
    StepNeverOvershoots(target - current, factor);
  }

  /** For a factor in [0, 1] the update is linear interpolation by that factor. */
  lemma LinearNextInterpolates(current: real, target: real, factor: real)
    requires 0.0 <= factor <= 1.0
    ensures LinearNext(current, target, factor) == current + factor * (target - current)
  {
    StepIsFraction(target - current, factor);
  }

  /** Two independently interpolated axes. */
  class InterpolatedPosition {
    const x: InterpolatedScalar
    const y: InterpolatedScalar

    /** Each axis is owned by the position alone. */
    ghost predicate Valid()
      reads this
    {
      x != y
    }

    constructor (x0: real, y0: real)
      ensures Valid() && fresh(x) && fresh(y)
      ensures x.current == x0 && x.target == x0 && y.current == y0 && y.target == y0
    {
      x := new InterpolatedScalar.From(x0);
      y := new InterpolatedScalar.From(y0);
    }

    method Update(factor: real)
      requires Valid()
      modifies x, y
      ensures x.current == old(x.current) + Step(old(x.target) - old(x.current), factor)
      ensures y.current == old(y.current) + Step(old(y.target) - old(y.current), factor)
      ensures x.target == old(x.target) && y.target == old(y.target)
    {
      x.Update(factor);
      y.Update(factor);
    }

    method Set(x1: real, y1: real)
      requires Valid()
      modifies x, y
      ensures x.current == x1 && x.target == x1 && y.current == y1 && y.target == y1
    {
      x.Set(x1);
      y.Set(y1);
    }

    method SetTarget(x1: real, y1: real)
      requires Valid()
      modifies x, y
      ensures x.target == x1 && y.target == y1
      ensures x.current == old(x.current) && y.current == old(y.current)
    {
      x.SetTarget(x1);
      y.SetTarget(y1);
    }

    function Current(): (p: (real, real))
      reads this, x, y
      ensures p.0 == x.current && p.1 == y.current
    {
      (x.Current(), y.Current())
    }
  }
}
