/** `Spring` of src/physics/Spring.ts: a Hookean spring between the global
    positions of two bodies, pushing equal and opposite forces into their
    force accumulators. */
module Springs {
  import opened Numerics
  import opened Vectors
  import opened Physics

  /** `f / (dl || Infinity)` with `f = ks * (dl - L0)`: a zero length
      divides by Infinity and gives 0. */
  function SpringFactor(M: MathFns, diff: Vec2, L0: real, ks: real): real
  {
    var dl := diff.Size(M);
    if dl == 0.0 then 0.0 else ks * (dl - L0) / dl
  }

  /** `F_ba`: the force on the target, along `diff = owner - target`. */
  function SpringForce(M: MathFns, diff: Vec2, L0: real, ks: real): Vec2
  {
    diff.Scale(SpringFactor(M, diff, L0, ks))
  }

  /** The owner's force `-F` and the target's `F` sum to zero. */
  lemma ForcesCancel(M: MathFns, diff: Vec2, L0: real, ks: real)
    ensures SpringForce(M, diff, L0, ks).Neg().Plus(SpringForce(M, diff, L0, ks)) == Zero
  {
  }

  /** At rest length, and for coincident bodies, there is no force. */
  lemma NoForceAtRestOrCoincident(M: MathFns, diff: Vec2, L0: real, ks: real)
    requires diff.Size(M) == L0 || diff.Size(M) == 0.0
    ensures SpringForce(M, diff, L0, ks) == Zero
  {
    var dl := diff.Size(M);
    if dl != 0.0 {
      assert ks * (dl - L0) == 0.0;
    }
  }

  /** Hooke's law: away from coincidence the force has magnitude
      `|ks (dl - L0)|`. */
  lemma HookeMagnitude(M: MathFns, diff: Vec2, L0: real, ks: real)
    requires SizeLaw(M) && diff.Size(M) != 0.0
    ensures var f := ks * (diff.Size(M) - L0);
      SpringForce(M, diff, L0, ks).Size(M) == (if f < 0.0 then -f else f)
  {
    var dl := diff.Size(M);
    var f := ks * (dl - L0);
    var k := f / dl;
    assert dl > 0.0;
    var size := SpringForce(M, diff, L0, ks).Size(M);
    assert SpringForce(M, diff, L0, ks) == diff.Scale(k);
    assert size == (if k < 0.0 then -k else k) * dl;
    assert k * dl == f;
    if k < 0.0 {
      assert (-k) * dl == -f;
      ProductPositive(-k, dl);
      assert size == -f && f < 0.0;
    } else if k > 0.0 {
      ProductPositive(k, dl);
      assert size == f && f > 0.0;
    } else {
      assert size == 0.0 && f == 0.0;
    }
  }

  /** A stretched spring with positive stiffness pulls the owner toward the
      target: the owner's force has a positive component along
      `target - owner`. */
  lemma StretchedPullsTogether(M: MathFns, diff: Vec2, L0: real, ks: real)
    requires HypotLaw(M) && ks > 0.0 && L0 >= 0.0 && diff.Size(M) > L0
    ensures SpringForce(M, diff, L0, ks).Neg().Dot(diff.Neg()) > 0.0
  {
    var dl := diff.Size(M);
    var f := ks * (dl - L0);
    var k := SpringFactor(M, diff, L0, ks);
    assert dl > 0.0;
    assert diff != Zero;
    ProductPositive(ks, dl - L0);
    assert k == f / dl;
    QuotientPositive(f, dl);
    var sq := diff.x * diff.x + diff.y * diff.y;
    assert SpringForce(M, diff, L0, ks).Neg().Dot(diff.Neg()) == (diff.x * k) * diff.x + (diff.y * k) * diff.y;
    assert (diff.x * k) * diff.x + (diff.y * k) * diff.y == k * sq;
    SumOfSquaresPositive(diff);
    ProductPositive(k, sq);
  }


  /** A nonzero vector has a positive squared length. */
  lemma SumOfSquaresPositive(v: Vec2)
    requires v != Zero
    ensures v.x * v.x + v.y * v.y > 0.0
  {
    SquareNonNegative(v.x);
    SquareNonNegative(v.y);
    if v.x != 0.0 {
      SquarePositive(v.x);
    } else {
      SquarePositive(v.y);
    }
  }

  lemma SquarePositive(c: real)
    requires c != 0.0
    ensures c * c > 0.0
  {
    if c < 0.0 {
      ProductPositive(-c, -c);
      assert c * c == (-c) * (-c);
    } else {
      ProductPositive(c, c);
    }
  }

  class Spring {
    const owner: PhysicsModel
    const target: PhysicsModel
    var L0: real
    var ks: real

    /** Both options are required. */
    constructor(owner: PhysicsModel, target: PhysicsModel, L0: real, ks: real)
      ensures this.owner == owner && this.target == target && this.L0 == L0 && this.ks == ks
    {
      this.owner := owner;
      this.target := target;
      this.L0 := L0;
      this.ks := ks;
    }

    /** `solve()`: the owner receives `-F` and the target `F`; nothing but
        the two force accumulators changes. */
    method Solve(M: MathFns)
      modifies owner, target
      ensures var F := SpringForce(M, old(owner.global.translate).Dif(old(target.global.translate)), L0, ks);
        (owner != target ==> owner.force == old(owner.force).Plus(F.Neg()) && target.force == old(target.force).Plus(F)) &&
        (owner == target ==> owner.force == old(owner.force))
      ensures owner.velocity == old(owner.velocity) && owner.acceleration == old(owner.acceleration)
      ensures target.velocity == old(target.velocity) && target.acceleration == old(target.acceleration)
      ensures owner.mass == old(owner.mass) && target.mass == old(target.mass)
    {
      var diff := owner.global.T().Dif(target.global.T());
      var F_ba := diff.Scale(SpringFactor(M, diff, L0, ks));
      var F_ab := F_ba.Neg();
      ghost var start := owner.force;
      owner.ApplyForce(F_ab);
      target.ApplyForce(F_ba);
      if owner == target {
        assert owner.force == start.Plus(F_ab).Plus(F_ba);
      }
    }
  }
}
