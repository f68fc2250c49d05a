/** `Blank`, `Animation` and `TimedAnimation` of src/animation.

    A `Blank` keeps a constant value; an `Animation` maps its percent
    through an easing function onto `x0 .. x0 + dx`.  Both keep a percent
    that the setter clamps into [0, 1].  `Blank` and `Animation` are one
    class here, told apart by their `Curve`; `TimedAnimation` holds its
    animation part as a component. */
module Animations {
  import opened Numerics

  /** What `value` reads: a Blank's constant, or an Animation's start,
      extent and easing function. */
  datatype Curve = Constant(value: real) | Eased(x0: real, dx: real, func: real -> real)

  /** The `value` getter for a given percent. */
  function CurveValue(c: Curve, p: real): real
  {
    match c
    case Constant(v) => v
    case Eased(x0, dx, f) => x0 + f(p) * dx
  }

  /** A Blank's value ignores the percent. */
  lemma ConstantIgnoresPercent(v: real, p: real, q: real)
    ensures CurveValue(Constant(v), p) == CurveValue(Constant(v), q) == v
  {
  }

  /** With the identity easing, the value runs from `x0` at percent 0 to
      `x0 + dx` at percent 1, linearly. */
  lemma LinearEndpoints(x0: real, dx: real, p: real)
    ensures CurveValue(Eased(x0, dx, q => q), 0.0) == x0
    ensures CurveValue(Eased(x0, dx, q => q), 1.0) == x0 + dx
    ensures CurveValue(Eased(x0, dx, q => q), p) == x0 + p * dx
  {
  }

  class Animation {
    const curve: Curve
    var percent: real

    ghost predicate Valid()
      reads this
    {
      0.0 <= percent <= 1.0
    }

    /** `new Blank(value = 0)`: the percent starts at 0. */
    constructor Blank(value: real := 0.0)
      ensures curve == Constant(value) && percent == 0.0 && Valid()
    {
      curve := Constant(value);
      percent := 0.0;
    }

    /** `new Animation({x0 = 0, dx = 1, percent = 0, func = p => p})`: the
        percent goes through the clamping setter. */
    constructor (x0: real := 0.0, dx: real := 1.0, percent: real := 0.0, func: real -> real := p => p)
      ensures curve == Eased(x0, dx, func) && this.percent == Clamp(percent, 0.0, 1.0) && Valid()
    {
      curve := Eased(x0, dx, func);
      new;
      SetPercent(percent);
    }

    /** The `percent` setter clamps into [0, 1]; setting the stored percent
        again changes nothing. */
    method SetPercent(v: real)
      modifies this
      ensures percent == Clamp(v, 0.0, 1.0) && Valid()
      ensures old(Valid()) && v == old(percent) ==> percent == old(percent)
    {
      percent := Clamp(v, 0.0, 1.0);
    }

    /** The `value` getter. */
    function Value(): real
      reads this
    {
      CurveValue(curve, percent)
    }
  }

  /** `clamp((time - t0) / dur, 0, 1)` as JavaScript computes it: a zero
      duration gives an infinite quotient, which clamps to 0 or 1, except at
      `time == t0`, where the quotient is NaN and so is the clamp. */
  function ClampedProgress(time: real, t0: real, dur: real): Num
  {
    if dur != 0.0 then Fin(Clamp((time - t0) / dur, 0.0, 1.0))
    else if time > t0 then Fin(1.0)
    else if time < t0 then Fin(0.0)
    else NaN
  }

  /** The progress is a percent; with a positive duration it is 0 up to the
      start and 1 from the end on, and NaN needs a zero duration at the
      start instant. */
  lemma ProgressBounds(time: real, t0: real, dur: real)
    ensures ClampedProgress(time, t0, dur).Fin? ==> 0.0 <= ClampedProgress(time, t0, dur).v <= 1.0
    ensures ClampedProgress(time, t0, dur).NaN? <==> dur == 0.0 && time == t0
    ensures dur > 0.0 && time <= t0 ==> ClampedProgress(time, t0, dur) == Fin(0.0)
    ensures dur > 0.0 && time >= t0 + dur ==> ClampedProgress(time, t0, dur) == Fin(1.0)
  {
    if dur > 0.0 {
      var q := (time - t0) / dur;
      assert q * dur == time - t0;
      if time <= t0 {
        FactorSign(q, dur);
      }
      if time >= t0 + dur {
        assert (1.0 - q) * dur == dur - q * dur;
        FactorSign(1.0 - q, dur);
      }
    }
  }

  class TimedAnimation {
    /** The `Animation` part. */
    const animation: Animation
    var t0: real
    var dur: real

    /** `new TimedAnimation({x0 = 0, dx = 1, func, t0 = 0, dur = 1})`: no
        percent is passed on, so it starts at 0. */
    constructor (x0: real := 0.0, dx: real := 1.0, func: real -> real := t => t, t0: real := 0.0, dur: real := 1.0)
      ensures fresh(animation) && animation.Valid()
      ensures animation.curve == Eased(x0, dx, func) && animation.percent == 0.0
      ensures this.t0 == t0 && this.dur == dur
    {
      animation := new Animation(x0, dx, 0.0, func);
      this.t0 := t0;
      this.dur := dur;
    }

    /** `update(time)`: sets the percent to the clamped progress and returns
        the value read right afterwards.  When the progress is NaN the
        source stores NaN; the model keeps the percent and returns NaN. */
    method Update(time: real) returns (r: Num)
      modifies animation
      ensures ClampedProgress(time, t0, dur).Fin? ==>
        animation.percent == ClampedProgress(time, t0, dur).v && r == Fin(animation.Value())
      ensures ClampedProgress(time, t0, dur).NaN? ==> r == NaN && animation.percent == old(animation.percent)
    {
      var progress := ClampedProgress(time, t0, dur);
      if progress.Fin? {
        animation.SetPercent(progress.v);
        ProgressBounds(time, t0, dur);
        r := Fin(animation.Value());
      } else {
        r := NaN;
      }
    }
  }
}
