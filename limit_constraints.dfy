/** The limit constraints of src/physics: LimitLocationConstraint,
    LimitRotationConstraint, LimitScaleConstraint and
    LimitDistanceConstraint.

    Each measures the owner's local or global transform against a range
    and writes a correction into the owner's global transform, scaled by an
    `influence` (the distance limit has none).  The influence setter clamps
    into [0, 1]; the constructors store the given value as it is. */
module LimitConstraints {
  import opened Numerics
  import opened Vectors
  import opened Transforms
  import opened Physics

  /** A range is consistent when it is not empty. */
  predicate Consistent(lo: Bound, hi: Bound)
  {
    lo.Bounded? && hi.Bounded? ==> lo.v <= hi.v
  }

  /** The per-axis correction of LimitLocationConstraint for a reference
      coordinate `p`: up to the minimum when below it, down to the maximum
      when above it, and 0 inside the range or when both limits are violated
      at once (a minimum above the maximum with `p` between them). */
  function AxisCorrection(lo: Bound, hi: Bound, p: real): real
  {
    if Exceeds(lo, p) then
      if FallsShort(hi, p) then 0.0 else lo.v - p
    else if FallsShort(hi, p) then hi.v - p
    else 0.0
  }

  /** For a consistent range the correction moves `p` exactly onto the
      clamped value. */
  lemma CorrectionClamps(lo: Bound, hi: Bound, p: real)
    requires Consistent(lo, hi)
    ensures p + AxisCorrection(lo, hi, p) == ClampBounds(p, lo, hi)
  {
  }

  /** With the minimum above the maximum and `p` between them, the location
      limit does nothing, while `clamp` would give the maximum. */
  lemma CrossedLimitsCorrectNothing(lo: real, hi: real, p: real)
    requires hi < p < lo
    ensures AxisCorrection(Bounded(lo), Bounded(hi), p) == 0.0
    ensures ClampBounds(p, Bounded(lo), Bounded(hi)) == hi
  {
  }

  /** `current + correction * influence`: a correction applied in part. */
  function Nudged(current: real, correction: real, influence: real): (r: real)
    ensures influence == 0.0 ==> r == current
    ensures influence == 1.0 ==> r == current + correction
    ensures correction == 0.0 ==> r == current
  {
    current + correction * influence
  }

  /** For an influence in [0, 1] a nudge stays between the start and the
      full correction. */
  lemma NudgedBetween(current: real, correction: real, influence: real)
    requires 0.0 <= influence <= 1.0
    ensures correction >= 0.0 ==> current <= Nudged(current, correction, influence) <= current + correction
    ensures correction <= 0.0 ==> current + correction <= Nudged(current, correction, influence) <= current
  {
    var part := correction * influence;
    PartOf(correction, influence);
    assert Nudged(current, correction, influence) == current + part;
  }

  /** A fraction `k` in [0, 1] of `d` lies between 0 and `d`. */
  lemma PartOf(d: real, k: real)
    requires 0.0 <= k <= 1.0
    ensures d >= 0.0 ==> 0.0 <= d * k <= d
    ensures d <= 0.0 ==> d <= d * k <= 0.0
  {
    assert d - d * k == d * (1.0 - k);
    if d >= 0.0 {
      assert d * (1.0 - k) >= 0.0;
    } else {
      assert (-d) * k >= 0.0;
      assert (-d) * (1.0 - k) >= 0.0;
    }
  }

  /** `value + (clamp(value, lo, hi) - value) * influence`: the blend that
      LimitRotationConstraint and LimitScaleConstraint write. */
  function Limited(value: real, lo: Bound, hi: Bound, influence: real): (r: real)
    ensures influence == 1.0 ==> r == ClampBounds(value, lo, hi)
    ensures influence == 0.0 ==> r == value
    ensures lo.Unbounded? && hi.Unbounded? ==> r == value
  {
    Nudged(value, ClampBounds(value, lo, hi) - value, influence)
  }

  /** For an influence in [0, 1] the blended value lies between the value
      and its clamp. */
  lemma LimitedBetween(value: real, lo: Bound, hi: Bound, influence: real)
    requires 0.0 <= influence <= 1.0
    ensures var c := ClampBounds(value, lo, hi);
      (value <= c ==> value <= Limited(value, lo, hi, influence) <= c) &&
      (c <= value ==> c <= Limited(value, lo, hi, influence) <= value)
  {
    NudgedBetween(value, ClampBounds(value, lo, hi) - value, influence);
  }

  /** A location range: one bound per axis. */
  datatype BoundVec = BoundVec(x: Bound, y: Bound)

  /** The global translation `g` after LimitLocationConstraint's solve,
      with the correction measured at the reference translation `p`: no
      influence or no limits leave it, and a full influence with `p` at `g`
      clamps it into a consistent range. */
  function LocationCorrected(g: Vec2, p: Vec2, min: BoundVec, max: BoundVec, influence: real): (r: Vec2)
    ensures influence == 0.0 ==> r == g
    ensures min == BoundVec(Unbounded, Unbounded) && max == BoundVec(Unbounded, Unbounded) ==> r == g
    ensures influence == 1.0 && p == g && Consistent(min.x, max.x) && Consistent(min.y, max.y) ==>
      r == Vec2(ClampBounds(g.x, min.x, max.x), ClampBounds(g.y, min.y, max.y))
  {
    var r := Vec2(Nudged(g.x, AxisCorrection(min.x, max.x, p.x), influence),
                  Nudged(g.y, AxisCorrection(min.y, max.y, p.y), influence));
    assert Consistent(min.x, max.x) && Consistent(min.y, max.y) ==>
      p.x + AxisCorrection(min.x, max.x, p.x) == ClampBounds(p.x, min.x, max.x) &&
      p.y + AxisCorrection(min.y, max.y, p.y) == ClampBounds(p.y, min.y, max.y) by {
      if Consistent(min.x, max.x) && Consistent(min.y, max.y) {
        CorrectionClamps(min.x, max.x, p.x);
        CorrectionClamps(min.y, max.y, p.y);
      }
    }
    r
  }

  class LimitLocationConstraint {
    const owner: PhysicsModel
    var ownerRelativity: Relativity
    var influence: real
    var min: BoundVec
    var max: BoundVec

    /** The options default to global relativity, influence 1 and no
        limits; the influence is stored without clamping. */
    constructor(owner: PhysicsModel, ownerRelativity: Relativity := Global, influence: real := 1.0,
                minX: Bound := Unbounded, minY: Bound := Unbounded,
                maxX: Bound := Unbounded, maxY: Bound := Unbounded)
      ensures this.owner == owner && this.ownerRelativity == ownerRelativity
      ensures this.influence == influence
      ensures this.min == BoundVec(minX, minY) && this.max == BoundVec(maxX, maxY)
    {
      this.owner := owner;
      this.ownerRelativity := ownerRelativity;
      this.influence := influence;
      this.min := BoundVec(minX, minY);
      this.max := BoundVec(maxX, maxY);
    }

    /** The `influence` setter clamps into [0, 1]. */
    method SetInfluence(v: real)
      modifies this
      ensures influence == Clamp(v, 0.0, 1.0) && 0.0 <= influence <= 1.0
      ensures ownerRelativity == old(ownerRelativity) && min == old(min) && max == old(max)
    {
      influence := Clamp(v, 0.0, 1.0);
    }

    /** `solve()`: the correction is measured on the reference transform
        and added, times the influence, to the global translation. */
    method Solve()
      requires owner.Valid()
      modifies owner.global, owner.global.matrix.data
      ensures owner.global.Fields() == old(owner.global.Fields()).(translate := LocationCorrected(
        old(owner.global.translate), old(Reference(owner, ownerRelativity).translate), min, max, influence))
      ensures owner.global.Composed()
      ensures influence == 1.0 && ownerRelativity == Global && Consistent(min.x, max.x) && Consistent(min.y, max.y) ==>
        owner.global.translate == Vec2(ClampBounds(old(owner.global.translate.x), min.x, max.x),
                                       ClampBounds(old(owner.global.translate.y), min.y, max.y))
    {
      var og := owner.global;
      var o := Reference(owner, ownerRelativity).T();
      var t := Vec2(AxisCorrection(min.x, max.x, o.x), AxisCorrection(min.y, max.y, o.y));
      var x := og.translate.x + t.x * influence;
      var y := og.translate.y + t.y * influence;
      assert Vec2(x, y) == LocationCorrected(og.translate, o, min, max, influence);
      og.Translate(x, y);
    }
  }

  class LimitRotationConstraint {
    const owner: PhysicsModel
    var ownerRelativity: Relativity
    var influence: real
    var min: Bound
    var max: Bound

    /** The options default to global relativity, influence 1 and no
        limits; the influence is stored without clamping. */
    constructor(owner: PhysicsModel, ownerRelativity: Relativity := Global, influence: real := 1.0,
                min: Bound := Unbounded, max: Bound := Unbounded)
      ensures this.owner == owner && this.ownerRelativity == ownerRelativity
      ensures this.influence == influence && this.min == min && this.max == max
    {
      this.owner := owner;
      this.ownerRelativity := ownerRelativity;
      this.influence := influence;
      this.min := min;
      this.max := max;
    }

    /** The `influence` setter clamps into [0, 1]. */
    method SetInfluence(v: real)
      modifies this
      ensures influence == Clamp(v, 0.0, 1.0) && 0.0 <= influence <= 1.0
      ensures ownerRelativity == old(ownerRelativity) && min == old(min) && max == old(max)
    {
      influence := Clamp(v, 0.0, 1.0);
    }

    /** `solve()`: the global angle becomes the reference angle moved toward
        its clamp by the influence. */
    method Solve(M: MathFns)
      requires owner.Valid()
      modifies owner.global, owner.global.matrix.data
      ensures var angle := Limited(old(Reference(owner, ownerRelativity).angle), min, max, influence);
        owner.global.Rd() == angle &&
        owner.global.Fields() == old(owner.global.Fields()).(angle := angle, direct := FromDegree(M, angle))
      ensures owner.global.Composed()
      ensures influence == 1.0 ==> owner.global.Rd() == ClampBounds(old(Reference(owner, ownerRelativity).Rd()), min, max)
      ensures (influence == 0.0 || (min.Unbounded? && max.Unbounded?)) && ownerRelativity == Global ==>
        owner.global.Rd() == old(owner.global.Rd())
    {
      var o := Reference(owner, ownerRelativity);
      var dr := ClampBounds(o.Rd(), min, max) - o.Rd();
      ghost var angle := Limited(o.Rd(), min, max, influence);
      assert o.Rd() + dr * influence == angle;
      owner.global.RotateTo(M, o.Rd() + dr * influence);
      assert owner.global.Rd() == angle;
    }
  }

  class LimitScaleConstraint {
    const owner: PhysicsModel
    var ownerRelativity: Relativity
    var influence: real
    var minX: Bound
    var minY: Bound
    var maxX: Bound
    var maxY: Bound

    /** The options default to global relativity, influence 1 and no
        limits; the influence is stored without clamping. */
    constructor(owner: PhysicsModel, ownerRelativity: Relativity := Global, influence: real := 1.0,
                minX: Bound := Unbounded, minY: Bound := Unbounded,
                maxX: Bound := Unbounded, maxY: Bound := Unbounded)
      ensures this.owner == owner && this.ownerRelativity == ownerRelativity && this.influence == influence
      ensures this.minX == minX && this.minY == minY && this.maxX == maxX && this.maxY == maxY
    {
      this.owner := owner;
      this.ownerRelativity := ownerRelativity;
      this.influence := influence;
      this.minX, this.minY, this.maxX, this.maxY := minX, minY, maxX, maxY;
    }

    /** The `influence` setter clamps into [0, 1]. */
    method SetInfluence(v: real)
      modifies this
      ensures influence == Clamp(v, 0.0, 1.0) && 0.0 <= influence <= 1.0
      ensures ownerRelativity == old(ownerRelativity)
      ensures minX == old(minX) && minY == old(minY) && maxX == old(maxX) && maxY == old(maxY)
    {
      influence := Clamp(v, 0.0, 1.0);
    }

    /** `solve()`: each global scale component becomes the reference
        component moved toward its clamp by the influence. */
    method Solve()
      requires owner.Valid()
      modifies owner.global, owner.global.matrix.data
      ensures var s := old(Reference(owner, ownerRelativity).scale);
        owner.global.Fields() == old(owner.global.Fields()).(scale := Vec2(
          Limited(s.x, minX, maxX, influence), Limited(s.y, minY, maxY, influence)))
      ensures owner.global.Composed()
      ensures influence == 1.0 ==> owner.global.S() == Vec2(
        ClampBounds(old(Reference(owner, ownerRelativity).scale.x), minX, maxX),
        ClampBounds(old(Reference(owner, ownerRelativity).scale.y), minY, maxY))
      ensures influence == 0.0 ==> owner.global.S() == old(Reference(owner, ownerRelativity).S())
    {
      var o := Reference(owner, ownerRelativity);
      var dsx := ClampBounds(o.S().x, minX, maxX) - o.S().x;
      var dsy := ClampBounds(o.S().y, minY, maxY) - o.S().y;
      var sx := o.S().x + dsx * influence;
      var sy := o.S().y + dsy * influence;
      assert sx == Limited(o.S().x, minX, maxX, influence);
      assert sy == Limited(o.S().y, minY, maxY, influence);
      owner.global.Scale(sx, sy);
    }
  }

  /** The `clampRegion` option; any other string is kept as `Other` and
      never acts. */
  datatype Region = Inside | Outside | Surface | Other(name: string)

  /** Whether LimitDistanceConstraint acts, given `diff = dist - distance`. */
  predicate Acts(region: Region, diff: real)
  {
    (region.Inside? && diff > 0.0) || (region.Outside? && diff < 0.0) || (region.Surface? && diff != 0.0)
  }

  /** Each region acts exactly when the distance is on its wrong side. */
  lemma ActsWhenOutOfRegion(region: Region, dist: real, distance: real)
    ensures region.Inside? ==> (Acts(region, dist - distance) <==> dist > distance)
    ensures region.Outside? ==> (Acts(region, dist - distance) <==> dist < distance)
    ensures region.Surface? ==> (Acts(region, dist - distance) <==> dist != distance)
    ensures region.Other? ==> !Acts(region, dist - distance)
  {
  }

  /** The new global translation when the constraint acts: `current` moved
      along the owner-to-target direction by `diff`, that is
      `dir * (diff / dist) + current`. */
  function Pulled(M: MathFns, o: Vec2, t: Vec2, distance: real, current: Vec2): Vec2
    requires t.Dif(o).Size(M) != 0.0
  {
    var dir := t.Dif(o);
    var dist := dir.Size(M);
    dir.Scale((dist - distance) / dist).Plus(current)
  }

  /** Pulling the owner's own position leaves it exactly `distance` away
      from the target. */
  lemma PulledReachesDistance(M: MathFns, o: Vec2, t: Vec2, distance: real)
    requires SizeLaw(M) && distance >= 0.0 && t.Dif(o).Size(M) != 0.0
    ensures t.Dif(Pulled(M, o, t, distance, o)).Size(M) == distance
  {
    var dir := t.Dif(o);
    var dist := dir.Size(M);
    var k := (dist - distance) / dist;
    var rest := distance / dist;
    assert dist > 0.0;
    assert 1.0 - k == rest by {
      assert (dist - distance) / dist == dist / dist - distance / dist;
      assert dist / dist == 1.0;
    }
    assert t.Dif(Pulled(M, o, t, distance, o)) == dir.Scale(rest) by {
      assert t.x - (dir.x * k + o.x) == dir.x * (1.0 - k);
      assert t.y - (dir.y * k + o.y) == dir.y * (1.0 - k);
    }
    assert dir.Scale(rest).Size(M) == rest * dist;
    assert rest * dist == distance;
  }

  class LimitDistanceConstraint {
    const owner: PhysicsModel
    const target: PhysicsModel
    var distance: real
    var clampRegion: Region
    var ownerRelativity: Relativity
    var targetRelativity: Relativity

    /** The options default to distance 0, 'inside' and global relativity on
        both sides. */
    constructor(owner: PhysicsModel, target: PhysicsModel, distance: real := 0.0, clampRegion: Region := Inside,
                ownerRelativity: Relativity := Global, targetRelativity: Relativity := Global)
      ensures this.owner == owner && this.target == target
      ensures this.distance == distance && this.clampRegion == clampRegion
      ensures this.ownerRelativity == ownerRelativity && this.targetRelativity == targetRelativity
    {
      this.owner := owner;
      this.target := target;
      this.distance := distance;
      this.clampRegion := clampRegion;
      this.ownerRelativity := ownerRelativity;
      this.targetRelativity := targetRelativity;
    }

    /** `solve()`: when the region acts, the global translation moves by
        `dir * (diff / dist)`.  `degenerate` reports the case the source
        turns into NaN coordinates (owner and target at the same point in an
        acting region); the model then leaves the transform as it was. */
    method Solve(M: MathFns) returns (degenerate: bool)
      requires owner.Valid()
      modifies owner.global, owner.global.matrix.data
      ensures var o := old(Reference(owner, ownerRelativity).translate);
              var t := old(Reference(target, targetRelativity).translate);
              var dist := t.Dif(o).Size(M);
        (degenerate <==> Acts(clampRegion, dist - distance) && dist == 0.0) &&
        (Acts(clampRegion, dist - distance) && dist != 0.0 ==>
           owner.global.Fields() == old(owner.global.Fields()).(translate := Pulled(M, o, t, distance, old(owner.global.translate))) &&
           owner.global.Composed()) &&
        (!Acts(clampRegion, dist - distance) || dist == 0.0 ==>
           owner.global.Fields() == old(owner.global.Fields()) && owner.global.Cells() == old(owner.global.Cells()))
      ensures var t := old(Reference(target, targetRelativity).translate);
        ownerRelativity == Global && SizeLaw(M) && distance >= 0.0 && !degenerate &&
        Acts(clampRegion, t.Dif(old(owner.global.translate)).Size(M) - distance) ==>
          t.Dif(owner.global.translate).Size(M) == distance
    {
      var og := owner.global;
      var o := Reference(owner, ownerRelativity).T();
      var t := Reference(target, targetRelativity).T();
      var dir := t.Dif(o);
      var dist := dir.Size(M);
      var diff := dist - distance;
      degenerate := false;
      if Acts(clampRegion, diff) {
        if dist == 0.0 {
          degenerate := true;
        } else {
          var p := dir.Scale(diff / dist).Plus(og.translate);
          if ownerRelativity == Global && SizeLaw(M) && distance >= 0.0 {
            PulledReachesDistance(M, o, t, distance);
          }
          og.Translate(p.x, p.y);
        }
      }
    }
  }
}
