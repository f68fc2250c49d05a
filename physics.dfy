/** `PhysicsModel` of src/physics/PhysicsModel.ts: a body with a mass,
    velocity, acceleration and force accumulator, a *local* transform that
    integration moves, and a *global* transform that each tick copies the
    local fields into (and that constraints then adjust).

    One tick (`updateLocation(dt)`) is semi-implicit Euler integration,
    stated by the function `Step`; the tick clears the force and acceleration
    accumulators. */
module Physics {
  import opened Numerics
  import opened Vectors
  import opened Matrices
  import opened Transforms

  const Zero := Vec2(0.0, 0.0)

  /** The kinematic state a tick reads and writes. */
  datatype Motion = Motion(position: Vec2, velocity: Vec2, acceleration: Vec2, force: Vec2)

  /** One `updateLocation(dt)`: a' = a + F/m, v' = v + a' dt, p' = p + v' dt;
      then both accumulators are cleared. */
  function Step(m: Mass, s: Motion, dt: real): Motion
  {
    var a := s.acceleration.Plus(s.force.Scale(InverseMass(m)));
    var v := s.velocity.Plus(a.Scale(dt));
    Motion(s.position.Plus(v.Scale(dt)), v, Zero, Zero)
  }

  /** The position update uses the new velocity: p' = p + v dt + a' dt². */
  lemma StepIsSemiImplicit(m: Mass, s: Motion, dt: real)
    ensures var a := s.acceleration.Plus(s.force.Scale(InverseMass(m)));
      Step(m, s, dt).position == s.position.Plus(s.velocity.Scale(dt)).Plus(a.Scale(dt * dt))
  {
    var a := s.acceleration.Plus(s.force.Scale(InverseMass(m)));
    assert (s.velocity.x + a.x * dt) * dt == s.velocity.x * dt + a.x * (dt * dt);
    assert (s.velocity.y + a.y * dt) * dt == s.velocity.y * dt + a.y * (dt * dt);
  }

  /** A tick of length 0 leaves position and velocity as they were and only
      clears the accumulators. */
  lemma StepZeroTime(m: Mass, s: Motion)
    ensures Step(m, s, 0.0) == Motion(s.position, s.velocity, Zero, Zero)
  {
  }

  /** An infinite mass ignores the pending force, while the applied
      acceleration and the velocity still integrate. */
  lemma StepInfiniteMass(s: Motion, f: Vec2, dt: real)
    ensures Step(Infinite, s, dt) == Step(Infinite, s.(force := f), dt)
    ensures Step(Infinite, s, dt).velocity == s.velocity.Plus(s.acceleration.Scale(dt))
  {
  }

  /** A unit mass at rest under the force (0, -10) for one second ends with
      velocity (0, -10) at position (0, -10). */
  lemma StepExample()
    ensures Step(Finite(1.0), Motion(Zero, Zero, Zero, Vec2(0.0, -10.0)), 1.0)
         == Motion(Vec2(0.0, -10.0), Vec2(0.0, -10.0), Zero, Zero)
  {
  }

  class PhysicsModel {
    /** `#origin`, copied from the constructor argument. */
    const origin: Vec2
    const local: Transform
    const global: Transform
    var velocity: Vec2
    var acceleration: Vec2
    var force: Vec2
    var mass: Mass

    ghost predicate Valid()
    {
      local.Valid() && global.Valid() && local != global && local.matrix.data != global.matrix.data
    }

    /** Everything a tick may change. */
    ghost function Repr(): set<object>
    {
      {this, local, local.matrix.data, global, global.matrix.data}
    }

    function State(): Motion
      reads this, local
    {
      Motion(local.translate, velocity, acceleration, force)
    }

    /** `new PhysicsModel({...})` with the source's defaults: the local
        transform is built from the options, the global one is its copy, and
        `updateLocation(0)` runs once — which also clears the initial
        acceleration. */
    constructor(M: MathFns, location: Vec2 := Zero, rotation: real := 0.0, scale: Vec2 := Vec2(1.0, 1.0),
                skew: real := 0.0, mass: Mass := Finite(1.0), velocity: Vec2 := Zero,
                acceleration: Vec2 := Zero, origin: Vec2 := Zero)
      ensures Valid() && fresh(Repr() - {this})
      ensures this.origin == origin && this.mass == mass && this.velocity == velocity
      ensures this.force == Zero && this.acceleration == Zero
      ensures local.Fields() == Decomposition(location, rotation, FromDegree(M, rotation), M.tan(skew), scale)
      ensures global.Fields() == local.Fields()
      ensures local.Composed() && global.Composed()
    {
      this.origin := origin;
      this.mass := mass;
      this.velocity := velocity;
      this.acceleration := acceleration;
      this.force := Zero;
      var l := new Transform.FromOptions(M, location, rotation, skew, scale);
      var g := l.Copy(M);
      local := l;
      global := g;
      new;
      UpdateLocation(0.0);
    }

    /** `applyForce(f)`: adds to the force accumulator. */
    method ApplyForce(f: Vec2)
      modifies this
      ensures force == old(force).Plus(f)
      ensures velocity == old(velocity) && acceleration == old(acceleration) && mass == old(mass)
    {
      force := force.Plus(f);
    }

    /** `applyAcceleration(a)`: adds to the acceleration accumulator. */
    method ApplyAcceleration(a: Vec2)
      modifies this
      ensures acceleration == old(acceleration).Plus(a)
      ensures velocity == old(velocity) && force == old(force) && mass == old(mass)
    {
      acceleration := acceleration.Plus(a);
    }

    /** `applyVelocity(v)`: adds to the velocity. */
    method ApplyVelocity(v: Vec2)
      modifies this
      ensures velocity == old(velocity).Plus(v)
      ensures acceleration == old(acceleration) && force == old(force) && mass == old(mass)
    {
      velocity := velocity.Plus(v);
    }

    /** `move(d)`: the local translation becomes the old one plus `d`, the
        other local fields are kept, and the local cells are recomposed. */
    method Move(d: Vec2)
      requires Valid()
      modifies local, local.matrix.data
      ensures Valid()
      ensures local.Fields() == old(local.Fields()).(translate := old(local.translate).Plus(d))
      ensures local.Composed()
    {
      var t := local.T().Plus(d);
      local.Translate(t.x, t.y);
    }

    /** `updateLocation(dt)`: one `Step` on the local transform, then the
        global transform takes the local fields. */
    method UpdateLocation(dt: real)
      requires Valid()
      modifies Repr()
      ensures Valid() && mass == old(mass)
      ensures State() == Step(mass, old(State()), dt)
      ensures local.Fields() == old(local.Fields()).(translate := State().position)
      ensures global.Fields() == local.Fields()
      ensures local.Composed() && global.Composed()
    {
      ApplyAcceleration(force.Scale(InverseMass(mass)));
      ApplyVelocity(acceleration.Scale(dt));
      Move(velocity.Scale(dt));
      acceleration := Zero;
      force := Zero;
      global.CopyFields(local);
    }
  }

  /** The `ownerRelativity` / `targetRelativity` option of the constraints:
      any value other than 'local' selects the global transform. */
  datatype Relativity = Local | Global

  /** The transform a constraint reads for `m` under `rel`. */
  function Reference(m: PhysicsModel, rel: Relativity): (t: Transform)
    ensures t == m.local || t == m.global
  {
    if rel.Local? then m.local else m.global
  }

  /** Two bodies share no object: neither themselves, nor their transforms,
      nor the transforms' buffers. */
  ghost predicate Separate(a: PhysicsModel, b: PhysicsModel)
  {
    a.Repr() !! b.Repr()
  }
}
