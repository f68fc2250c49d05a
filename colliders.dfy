/** The colliders of src/colliders.ts: the convexity check of the `Polygon`
    constructor, the box pre-test `shadeIntersect`, the vertex choice of
    `Regular.support`, and the iterative triangle search of `intersect`.

    A collider is described by its position and its shade, the corners
    [min, max] of its bounding box relative to its global position.  The
    support functions are parameters: `Circle.support` and the vertex
    generation of `Regular` go through `Math.cos`/`Math.sin`. */
module Colliders {
  import opened Numerics
  import opened Vectors

  datatype ColliderError = TooFewVertices | NotConvex | TypeError

  /** `center = vec2(500)`: the origin of global positions. */
  const Center: Vec2 := Vec2(500.0, 500.0)

  /** What `shadeIntersect` and `intersect` read of a collider. */
  datatype Collider = Collider(position: Vec2, shadeMin: Vec2, shadeMax: Vec2)
  {
    /** `globalPosition`: `center.sum(position)`. */
    function GlobalPosition(): Vec2 { Center.Plus(position) }
  }

  // ---------------------------------------------------------------------
  // The convexity check of the Polygon constructor

  /** The index before i, wrapping to the last vertex. */
  function Prev(n: int, i: int): int { if i == 0 then n - 1 else i - 1 }

  /** The index after i, wrapping to the first vertex. */
  function Next(n: int, i: int): int { if i == n - 1 then 0 else i + 1 }

  /** `clockwise`: `(v1 − v0).right · (v2 − v0) > 0`. */
  predicate Clockwise(verts: seq<Vec2>)
    requires |verts| >= 3
  {
    verts[1].Dif(verts[0]).Right().Dot(verts[2].Dif(verts[0])) > 0.0
  }

  /** The test at vertex i: the normal of b→c on the inner side has a
      positive product with b→a. */
  predicate CornerPasses(verts: seq<Vec2>, i: int, clockwise: bool)
    requires 0 <= i < |verts|
  {
    var a := verts[Prev(|verts|, i)];
    var b := verts[i];
    var c := verts[Next(|verts|, i)];
    var ba := a.Dif(b);
    var bc := c.Dif(b);
    (if clockwise then bc.Right() else bc.Left()).Dot(ba) > 0.0
  }

  /** What the constructor decides before it stores the vertices. */
  function Validate(verts: seq<Vec2>, chk: bool): Outcome<ColliderError>
  {
    if |verts| < 3 then Fail(TooFewVertices)
    else if chk && exists i :: 0 <= i < |verts| && !CornerPasses(verts, i, Clockwise(verts)) then Fail(NotConvex)
    else Pass
  }

  /** The checking part of `new Polygon({verts, chk = true})`: the loop over
      the vertices, which throws at the first failing corner. */
  method CheckPolygon(verts: seq<Vec2>, chk: bool) returns (r: Outcome<ColliderError>)
    ensures r == Validate(verts, chk)
  {
    if |verts| < 3 {
      return Fail(TooFewVertices);
    }
    var clockwise := Clockwise(verts);
    var i := 0;
    while i < |verts|
      invariant 0 <= i <= |verts|
      invariant chk ==> forall k :: 0 <= k < i ==> CornerPasses(verts, k, clockwise)
    {
      var a := verts[if i == 0 then |verts| - 1 else i - 1];
      var b := verts[i];
      var c := verts[if i == |verts| - 1 then 0 else i + 1];
      var bNeg := b.Neg();
      var ba := a.Plus(bNeg);
      var bc := c.Plus(bNeg);
      var normal := if clockwise then bc.Right() else bc.Left();
      assert normal.Dot(ba) > 0.0 <==> CornerPasses(verts, i, clockwise);
      if chk && normal.Dot(ba) <= 0.0 {
        return Fail(NotConvex);
      }
      i := i + 1;
    }
    return Pass;
  }

  /** The turn at vertex i: the cross product of b→a and b→c. */
  function Turn(verts: seq<Vec2>, i: int): real
    requires 0 <= i < |verts|
  {
    var b := verts[i];
    verts[Prev(|verts|, i)].Dif(b).Cross(verts[Next(|verts|, i)].Dif(b))
  }

  /** Every corner turns strictly the same way: no two neighbouring edges
      are collinear, and the outline never changes its sense of turning. */
  ghost predicate TurnsOneWay(verts: seq<Vec2>)
  {
    (forall i :: 0 <= i < |verts| ==> Turn(verts, i) > 0.0) ||
    (forall i :: 0 <= i < |verts| ==> Turn(verts, i) < 0.0)
  }

  /** The right normal gives the turn, the left normal its opposite. */
  lemma CornerIsTurn(verts: seq<Vec2>, i: int, clockwise: bool)
    requires 0 <= i < |verts|
    ensures CornerPasses(verts, i, clockwise) <==>
      (if clockwise then Turn(verts, i) > 0.0 else Turn(verts, i) < 0.0)
  {
  }

  /** The orientation taken from the first three vertices is the sign of
      the turn at vertex 1. */
  lemma ClockwiseIsTurnAtOne(verts: seq<Vec2>)
    requires |verts| >= 3
    ensures Clockwise(verts) <==> Turn(verts, 1) > 0.0
  {
    var p := verts[1].Dif(verts[0]);
    var q := verts[2].Dif(verts[0]);
    assert verts[1].Dif(verts[0]).Right().Dot(verts[2].Dif(verts[0])) == q.Cross(p);
    assert Turn(verts, 1) == verts[0].Dif(verts[1]).Cross(verts[2].Dif(verts[1]));
    assert verts[0].Dif(verts[1]).Cross(verts[2].Dif(verts[1])) == q.Cross(p) by {
      var u := verts[0].Dif(verts[1]);
      var w := verts[2].Dif(verts[1]);
      assert u == p.Neg() && w == q.Dif(p);
      assert p.Neg().Cross(q.Dif(p)) == -(p.x * q.y - p.y * q.x) + (p.x * p.y - p.y * p.x);
    }
  }

  /** With the check on, a polygon of three or more vertices is accepted
      exactly when every corner turns strictly the same way.  Collinear
      neighbours are therefore refused.  Self-intersecting outlines that
      turn one way, such as a pentagram, are accepted. */
  lemma AcceptsExactlyOneWayTurning(verts: seq<Vec2>)
    requires |verts| >= 3
    ensures Validate(verts, true) == Pass <==> TurnsOneWay(verts)
  {
    var cw := Clockwise(verts);
    ClockwiseIsTurnAtOne(verts);
    if Validate(verts, true) == Pass {
      forall i | 0 <= i < |verts|
        ensures if cw then Turn(verts, i) > 0.0 else Turn(verts, i) < 0.0
      {
        CornerIsTurn(verts, i, cw);
      }
    } else {
      var i :| 0 <= i < |verts| && !CornerPasses(verts, i, cw);
      CornerIsTurn(verts, i, cw);
      CornerIsTurn(verts, 1, cw);
    }
    if TurnsOneWay(verts) {
      forall i | 0 <= i < |verts|
        ensures CornerPasses(verts, i, cw)
      {
        CornerIsTurn(verts, i, cw);
      }
    }
  }

  /** With the check off, only the vertex count is checked. */
  lemma UncheckedOnlyCounts(verts: seq<Vec2>)
    ensures Validate(verts, false) == Pass <==> |verts| >= 3
  {
  }

  // ---------------------------------------------------------------------
  // The bounding-box test

  /** `shadeIntersect(s)`: true when the boxes overlap strictly on both
      axes.  The source then returns `undefined`, written `false` here. */
  function ShadeIntersect(a: Collider, b: Collider): (r: bool)
  {
    var aMin := a.GlobalPosition().Plus(a.shadeMin);
    var aMax := a.GlobalPosition().Plus(a.shadeMax);
    var bMin := b.GlobalPosition().Plus(b.shadeMin);
    var bMax := b.GlobalPosition().Plus(b.shadeMax);
    aMin.x < bMax.x && bMin.x < aMax.x && aMin.y < bMax.y && bMin.y < aMax.y
  }

  /** The test is symmetric, ignores the common origin `center`, and
      reduces to strict overlap of the boxes placed at the positions. */
  lemma ShadeIntersectSymmetric(a: Collider, b: Collider)
    ensures ShadeIntersect(a, b) == ShadeIntersect(b, a)
    ensures ShadeIntersect(a, b) <==>
      a.position.x + a.shadeMin.x < b.position.x + b.shadeMax.x &&
      b.position.x + b.shadeMin.x < a.position.x + a.shadeMax.x &&
      a.position.y + a.shadeMin.y < b.position.y + b.shadeMax.y &&
      b.position.y + b.shadeMin.y < a.position.y + a.shadeMax.y
  {
  }

  /** Moving both colliders by the same offset changes nothing; a box of
      positive extent overlaps itself, and two boxes without extent, such
      as the shade `[vec2(0), vec2(0)]` of a plain `Collider`, never
      overlap. */
  lemma ShadeIntersectFacts(a: Collider, b: Collider, d: Vec2)
    ensures ShadeIntersect(a.(position := a.position.Plus(d)), b.(position := b.position.Plus(d))) ==
      ShadeIntersect(a, b)
    ensures a.shadeMin.x < a.shadeMax.x && a.shadeMin.y < a.shadeMax.y ==> ShadeIntersect(a, a)
    ensures a.shadeMin == a.shadeMax && b.shadeMin == b.shadeMax ==> !ShadeIntersect(a, b)
  {
  }

  // ---------------------------------------------------------------------
  // Regular.support

  /** `if (i < 0) i += n; if (i >= n) i -= n`. */
  function Wrap(i: int, n: int): (r: int)
    requires n > 0
    ensures 0 <= r < n <==> -n <= i < 2 * n
    ensures r == i || r == i + n || r == i - n
  {
    var j := if i < 0 then i + n else i;
    if j >= n then j - n else j
  }

  /** `Regular.support(direction)`: the vertex whose angular sector holds
      the direction, offset by the position; an index outside the vertex
      list reads `undefined` and throws. */
  function RegularSupport(M: MathFns, verts: seq<Vec2>, n: int, position: Vec2, direction: Vec2):
    (r: Result<Vec2, ColliderError>)
    requires n >= 3 && M.pi > 0.0
    ensures r.Ok? <==> 0 <= Wrap(Round(RegularSector(M, n, direction)), n) < |verts|
  {
    var i := Wrap(Round(RegularSector(M, n, direction)), n);
    if 0 <= i < |verts| then Ok(verts[i].Plus(position)) else Err(TypeError)
  }

  /** `rot / ang` with `ang = 2π / n` and `rot` the direction's angle less
      the angle of vertex 0. */
  function RegularSector(M: MathFns, n: int, direction: Vec2): real
    requires n >= 3 && M.pi > 0.0
  {
    var ang := M.pi * 2.0 / n as real;
    var stRot := if n % 2 != 0 then M.pi * 0.5 else M.pi * 0.5 - ang / 2.0;
    (direction.Rotation(M) - stRot) / ang
  }

  /** A quotient by a positive step of an angle no larger than a full turn
      in size is at most n steps in size. */
  lemma SectorBounded(rot: real, pi: real, n: int)
    requires n >= 3 && pi > 0.0
    requires -(2.0 * pi) <= rot <= 2.0 * pi
    ensures -(n as real) <= rot / (pi * 2.0 / n as real) <= n as real
  {
    var ang := pi * 2.0 / n as real;
    var q := rot / ang;
    assert ang > 0.0;
    assert n as real * ang == 2.0 * pi;
    assert (q - n as real) * ang == rot - 2.0 * pi;
    FactorSign(q - n as real, ang);
    assert (-(n as real) - q) * ang == -(2.0 * pi) - rot;
    FactorSign(-(n as real) - q, ang);
  }

  /** With `Math.atan2` inside [−π, π] and at least as many vertices as the
      count says, `support` always finds a vertex: the rounded sector lies
      in [−n, n], where the wrap brings it into [0, n). */
  lemma RegularSupportDefined(M: MathFns, verts: seq<Vec2>, n: int, position: Vec2, direction: Vec2)
    requires n >= 3 && M.pi > 0.0 && |verts| >= n
    requires -M.pi <= direction.Rotation(M) <= M.pi
    ensures RegularSupport(M, verts, n, position, direction).Ok?
  {
    var ang := M.pi * 2.0 / n as real;
    assert ang / 2.0 <= M.pi * 0.5 by {
      assert ang * n as real == M.pi * 2.0;
      ProductPositive(M.pi, n as real - 2.0);
      assert (ang - M.pi) * n as real == -(M.pi * (n as real - 2.0));
      FactorSign(ang - M.pi, n as real);
    }
    var stRot := if n % 2 != 0 then M.pi * 0.5 else M.pi * 0.5 - ang / 2.0;
    SectorBounded(direction.Rotation(M) - stRot, M.pi, n);
  }

  // ---------------------------------------------------------------------
  // intersect

  /** `furthestInDir(s1, s2, rot)`: both supports are offset by `s1`'s
      position, which cancels; the supports include their own positions. */
  function Furthest(S1: Vec2 -> Vec2, S2: Vec2 -> Vec2, origin: Vec2, rot: Vec2): (r: Vec2)
    ensures r == S1(rot).Dif(S2(rot.Neg()))
  {
    var v1 := S1(rot).Plus(origin);
    var v2 := S2(rot.Neg()).Plus(origin);
    v1.Plus(v2.Neg())
  }

  /** `Math.abs`. */
  function Magnitude(c: real): real { if c < 0.0 then -c else c }

  /** The outcome of `check`: its verdict and how many calls it took. */
  datatype Run = Run(hit: bool, calls: nat)

  /** `check(iter)` on the closure state p1, p2, p3, dir: each round
      replaces one corner of the triangle by the support point in the new
      direction, until the triangle holds the origin, a round finds the
      origin beyond reach or too close to an edge, or the budget runs out. */
  function Check(S1: Vec2 -> Vec2, S2: Vec2 -> Vec2, origin: Vec2, p1: Vec2, p2: Vec2, p3: Vec2, dir: Vec2, iter: int):
    (r: Run)
    decreases iter
  {
    if iter <= 0 then Run(false, 1)
    else if p3.Dot(dir) < 0.0 then Run(false, 1)
    else
      var p3Neg := p3.Neg();
      var p32 := p2.Dif(p3);
      var p31 := p1.Dif(p3);
      var bc := p32.TriProd(p31);
      var c := p3Neg.Dot(bc);
      if Magnitude(c) < 0.001 then Run(false, 1)
      else if c > 0.0 then
        var next := Check(S1, S2, origin, p3, p2, Furthest(S1, S2, origin, bc), bc, iter - 1);
        Run(next.hit, next.calls + 1)
      else
        var ac := p31.TriProd(p32);
        var c2 := p3Neg.Dot(ac);
        if Magnitude(c2) < 0.001 then Run(false, 1)
        else if c2 > 0.0 then
          var next := Check(S1, S2, origin, p1, p3, Furthest(S1, S2, origin, ac), ac, iter - 1);
          Run(next.hit, next.calls + 1)
        else Run(true, 1)
  }

  /** `check(iter)` makes at most iter + 1 calls, and when it uses them all
      the last call had no budget left and the answer is false. */
  lemma {:induction false} CheckBudget(S1: Vec2 -> Vec2, S2: Vec2 -> Vec2, origin: Vec2, p1: Vec2, p2: Vec2, p3: Vec2,
                                       dir: Vec2, iter: int)
    requires iter >= 0
    ensures 1 <= Check(S1, S2, origin, p1, p2, p3, dir, iter).calls <= iter + 1
    ensures Check(S1, S2, origin, p1, p2, p3, dir, iter).calls == iter + 1 ==> !Check(S1, S2, origin, p1, p2, p3, dir, iter).hit
    decreases iter
  {
    if iter > 0 && p3.Dot(dir) >= 0.0 {
      var p3Neg := p3.Neg();
      var p32 := p2.Dif(p3);
      var p31 := p1.Dif(p3);
      var bc := p32.TriProd(p31);
      var ac := p31.TriProd(p32);
      CheckBudget(S1, S2, origin, p3, p2, Furthest(S1, S2, origin, bc), bc, iter - 1);
      CheckBudget(S1, S2, origin, p1, p3, Furthest(S1, S2, origin, ac), ac, iter - 1);
    }
  }

  /** A true verdict comes from a round in which the origin lies strictly
      inside both edges from p3: the triangle's last round saw the origin
      on the inner side of p3→p2 and of p3→p1. */
  lemma {:induction false} HitNeedsBudget(S1: Vec2 -> Vec2, S2: Vec2 -> Vec2, origin: Vec2, p1: Vec2, p2: Vec2, p3: Vec2,
                                          dir: Vec2, iter: int)
    requires Check(S1, S2, origin, p1, p2, p3, dir, iter).hit
    ensures iter >= 1 && Check(S1, S2, origin, p1, p2, p3, dir, iter).calls <= iter
    decreases iter
  {
    CheckBudget(S1, S2, origin, p1, p2, p3, dir, iter);
  }

  /** `intersect(s)` as written, for colliders at `aPos` and `bPos`: the box
      test on its first line is an expression statement whose value is
      dropped, so the answer comes from the triangle search alone, with a
      budget of 30 rounds. */
  function IntersectAt(S1: Vec2 -> Vec2, S2: Vec2 -> Vec2, aPos: Vec2, bPos: Vec2): bool
  {
    var dir0 := bPos.Plus(aPos.Neg());
    var p1 := Furthest(S1, S2, aPos, dir0);
    var dir1 := p1.Neg();
    var p2 := Furthest(S1, S2, aPos, dir1);
    if p2.Dot(dir1) < 0.0 then false
    else
      var p12 := p2.Plus(dir1);
      var dir2 := p12.TriProd(p1);
      var p3 := Furthest(S1, S2, aPos, dir2);
      Check(S1, S2, aPos, p1, p2, p3, dir2, 30).hit
  }

  /** `a.intersect(b)`: only the positions and the supports are read, so
      boxes that do not overlap do not stop the search. */
  function Intersect(S1: Vec2 -> Vec2, S2: Vec2 -> Vec2, a: Collider, b: Collider): (r: bool)
    ensures r == IntersectAt(S1, S2, a.position, b.position)
  {
    IntersectAt(S1, S2, a.position, b.position)
  }

  /** The shades never decide the answer: colliders at the same positions
      get the same answer whatever their boxes. */
  lemma IntersectIgnoresShades(S1: Vec2 -> Vec2, S2: Vec2 -> Vec2, a: Collider, b: Collider, a': Collider, b': Collider)
    requires a.position == a'.position && b.position == b'.position
    ensures Intersect(S1, S2, a, b) == Intersect(S1, S2, a', b')
  {
  }

  /** A true answer needs a second support point that is not behind the
      origin and a search that ended within its 30 rounds. */
  lemma IntersectBudget(S1: Vec2 -> Vec2, S2: Vec2 -> Vec2, aPos: Vec2, bPos: Vec2)
    requires IntersectAt(S1, S2, aPos, bPos)
    ensures var p1 := Furthest(S1, S2, aPos, bPos.Dif(aPos));
      var p2 := Furthest(S1, S2, aPos, p1.Neg());
      p2.Dot(p1.Neg()) >= 0.0 &&
      Check(S1, S2, aPos, p1, p2, Furthest(S1, S2, aPos, p2.Dif(p1).TriProd(p1)), p2.Dif(p1).TriProd(p1), 30).calls <= 30
  {
    var dir0 := bPos.Plus(aPos.Neg());
    assert dir0 == bPos.Dif(aPos);
    var p1 := Furthest(S1, S2, aPos, dir0);
    var p2 := Furthest(S1, S2, aPos, p1.Neg());
    assert p2.Plus(p1.Neg()) == p2.Dif(p1);
    var dir2 := p2.Dif(p1).TriProd(p1);
    HitNeedsBudget(S1, S2, aPos, p1, p2, Furthest(S1, S2, aPos, dir2), dir2, 30);
  }
}
