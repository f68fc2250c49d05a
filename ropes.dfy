/** `Rope` of src/physics/Rope.ts: an inextensible tether.  When the
    bodies' global positions are further apart than `length`, the excess is
    split between them by mass, applied to their local positions, and fed
    back into their accelerations scaled by `bounce`. */
module Ropes {
  import opened Numerics
  import opened Vectors
  import opened Transforms
  import opened Physics

  /** The shares `(r1, r2)` of the owner and the target: inverse-mass
      weights for two finite masses, everything to the finite body when the
      other is immovable, nothing when both are. */
  function Shares(owner: Mass, target: Mass): (real, real)
  {
    match (owner, target)
    case (Finite(mo), Finite(mt)) => (mt / (mo + mt), mo / (mo + mt))
    case (Finite(_), Infinite) => (1.0, 0.0)
    case (Infinite, Finite(_)) => (0.0, 1.0)
    case (Infinite, Infinite) => (0.0, 0.0)
  }

  /** Unless both bodies are immovable the shares are fractions that add up
      to 1; the heavier body takes the smaller share. */
  lemma SharesPartition(owner: Mass, target: Mass)
    ensures var (r1, r2) := Shares(owner, target);
      0.0 <= r1 <= 1.0 && 0.0 <= r2 <= 1.0 &&
      (owner.Finite? || target.Finite? ==> r1 + r2 == 1.0) &&
      (owner.Infinite? && target.Infinite? ==> r1 == 0.0 && r2 == 0.0) &&
      (owner.Finite? && target.Finite? && owner.kg >= target.kg ==> r1 <= r2)
  {
    if owner.Finite? && target.Finite? {
      var mo: real, mt: real := owner.kg, target.kg;
      var sum := mo + mt;
      assert mt / sum + mo / sum == (mt + mo) / sum;
      Fraction(mt, sum);
      Fraction(mo, sum);
      if mo >= mt {
        assert mo / sum - mt / sum == (mo - mt) / sum;
        Fraction(mo - mt, sum);
      }
    }
  }

  /** `a / b` lies in [0, 1] when `0 <= a <= b`. */
  lemma Fraction(a: real, b: real)
    requires 0.0 <= a <= b && b > 0.0
    ensures 0.0 <= a / b <= 1.0
  {
    var q := a / b;
    assert q * b == a;
    if q < 0.0 {
      ProductPositive(-q, b);
    }
    if q > 1.0 {
      ProductPositive(q - 1.0, b);
    }
  }


  /** `mv = dir * ((diff - length) / diff)`: the part of the separation
      beyond `length`. */
  function Excess(M: MathFns, dir: Vec2, length: real): Vec2
    requires dir.Size(M) != 0.0
  {
    var diff := dir.Size(M);
    dir.Scale((diff - length) / diff)
  }

  /** The displacements `(m1, m2) = (mv * r1, mv * -r2)` of owner and
      target. */
  function Moves(M: MathFns, dir: Vec2, length: real, owner: Mass, target: Mass): (Vec2, Vec2)
    requires dir.Size(M) != 0.0
  {
    var mv := Excess(M, dir, length);
    var (r1, r2) := Shares(owner, target);
    (mv.Scale(r1), mv.Scale(-r2))
  }

  /** With at least one finite mass the two displacements together close
      exactly the excess, so the bodies end `length` apart. */
  lemma MovesRestoreLength(M: MathFns, o: Vec2, t: Vec2, length: real, owner: Mass, target: Mass)
    requires SizeLaw(M) && length >= 0.0 && t.Dif(o).Size(M) > length
    requires owner.Finite? || target.Finite?
    ensures var (m1, m2) := Moves(M, t.Dif(o), length, owner, target);
      m1.Dif(m2) == Excess(M, t.Dif(o), length) &&
      t.Plus(m2).Dif(o.Plus(m1)).Size(M) == length
  {
    var dir := t.Dif(o);
    var diff := dir.Size(M);
    var mv := Excess(M, dir, length);
    var (r1, r2) := Shares(owner, target);
    SharesPartition(owner, target);
    var (m1, m2) := Moves(M, dir, length, owner, target);
    SharesClose(mv, r1, r2);
    var k := (diff - length) / diff;
    var rest := length / diff;
    RestOfExcess(length, diff);
    assert t.Plus(m2).Dif(o.Plus(m1)) == dir.Dif(m1.Dif(m2));
    ScaleComplement(dir, k);
    assert t.Plus(m2).Dif(o.Plus(m1)) == dir.Scale(rest);
    assert dir.Scale(rest).Size(M) == rest * diff;
  }

  /** Shares that sum to 1 split a displacement into two parts whose
      difference is the whole. */
  lemma SharesClose(mv: Vec2, r1: real, r2: real)
    requires r1 + r2 == 1.0
    ensures mv.Scale(r1).Dif(mv.Scale(-r2)) == mv
  {
    assert mv.x * r1 - mv.x * (-r2) == mv.x * (r1 + r2);
    assert mv.y * r1 - mv.y * (-r2) == mv.y * (r1 + r2);
  }

  /** Taking the fraction `k` of a vector away leaves the fraction `1 - k`. */
  lemma ScaleComplement(v: Vec2, k: real)
    ensures v.Dif(v.Scale(k)) == v.Scale(1.0 - k)
  {
    assert v.x - v.x * k == v.x * (1.0 - k);
    assert v.y - v.y * k == v.y * (1.0 - k);
  }

  /** The share of the separation that remains once the excess is taken
      away. */
  lemma RestOfExcess(length: real, diff: real)
    requires diff > 0.0
    ensures 1.0 - (diff - length) / diff == length / diff
    ensures length / diff * diff == length
  {
    assert (diff - length) / diff == diff / diff - length / diff;
    assert diff / diff == 1.0;
  }

  /** When both bodies are immovable neither moves. */
  lemma ImmovableBodiesStay(M: MathFns, dir: Vec2, length: real)
    requires dir.Size(M) != 0.0
    ensures Moves(M, dir, length, Infinite, Infinite) == (Zero, Zero)
  {
  }

  class Rope {
    const owner: PhysicsModel
    const target: PhysicsModel
    var length: real
    var bounce: real

    /** Both options are required. */
    constructor(owner: PhysicsModel, target: PhysicsModel, length: real, bounce: real)
      ensures this.owner == owner && this.target == target && this.length == length && this.bounce == bounce
    {
      this.owner := owner;
      this.target := target;
      this.length := length;
      this.bounce := bounce;
    }

    /** `solve()` for two distinct bodies: within `length` nothing changes;
        beyond it each body's local translation moves by its displacement
        and its acceleration gains the displacement times `bounce`.
        `degenerate` reports the case the source turns into NaN (coincident
        bodies with a negative length); the model then changes nothing. */
    method Solve(M: MathFns) returns (degenerate: bool)
      requires owner.Valid() && target.Valid() && Separate(owner, target)
      modifies owner, owner.local, owner.local.matrix.data, target, target.local, target.local.matrix.data
      ensures owner.Valid() && target.Valid()
      ensures var dir := old(target.global.translate).Dif(old(owner.global.translate));
        (degenerate <==> dir.Size(M) > length && dir.Size(M) == 0.0) &&
        (dir.Size(M) > length && dir.Size(M) != 0.0 ==>
          var (m1, m2) := Moves(M, dir, length, old(owner.mass), old(target.mass));
          owner.local.Fields() == old(owner.local.Fields()).(translate := old(owner.local.translate).Plus(m1)) &&
          target.local.Fields() == old(target.local.Fields()).(translate := old(target.local.translate).Plus(m2)) &&
          owner.local.Composed() && target.local.Composed() &&
          owner.acceleration == old(owner.acceleration).Plus(m1.Scale(bounce)) &&
          target.acceleration == old(target.acceleration).Plus(m2.Scale(bounce))) &&
        (dir.Size(M) <= length || dir.Size(M) == 0.0 ==>
          owner.local.Fields() == old(owner.local.Fields()) && target.local.Fields() == old(target.local.Fields()) &&
          owner.local.Cells() == old(owner.local.Cells()) && target.local.Cells() == old(target.local.Cells()) &&
          owner.acceleration == old(owner.acceleration) && target.acceleration == old(target.acceleration))
      ensures owner.velocity == old(owner.velocity) && owner.force == old(owner.force) && owner.mass == old(owner.mass)
      ensures target.velocity == old(target.velocity) && target.force == old(target.force) && target.mass == old(target.mass)
    {
      var dir := target.global.T().Dif(owner.global.T());
      var diff := dir.Size(M);
      degenerate := false;
      if diff > length {
        if diff == 0.0 {
          degenerate := true;
        } else {
          var (m1, m2) := Moves(M, dir, length, owner.mass, target.mass);
          owner.Move(m1);
          target.Move(m2);
          owner.ApplyAcceleration(m1.Scale(bounce));
          target.ApplyAcceleration(m2.Scale(bounce));
        }
      }
    }
  }
}
