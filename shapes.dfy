/** The shapes of src/shapes: `Polygon` and its two specialisations
    `Rectangle` and `RegularPolygon`.

    A shape is set once by its constructor and never changed, so it is a
    value here.  `Polygon` refuses fewer than three vertices; the other two
    compute their vertices and hand them to it. */
module Shapes {
  import opened Numerics
  import opened Vectors

  /** `Shape` with the vertex list of `Polygon`. */
  datatype Polygon = Polygon(location: Vec2, rotation: real, scale: Vec2, vertices: seq<Vec2>)

  datatype ShapeError = TooFewVertices

  /** `new Polygon({location = vec2(0), rotation = 0, scale = vec2(1), vertices})`. */
  function NewPolygon(vertices: seq<Vec2>, location: Vec2 := Vec2(0.0, 0.0), rotation: real := 0.0,
                      scale: Vec2 := Vec2(1.0, 1.0)): (r: Result<Polygon, ShapeError>)
    ensures r.Err? <==> |vertices| < 3
    ensures r.Err? ==> r.error == TooFewVertices
    ensures r.Ok? ==>
      r.value.vertices == vertices && r.value.location == location &&
      r.value.rotation == rotation && r.value.scale == scale
  {
    if |vertices| < 3 then Err(TooFewVertices)
    else Ok(Polygon(location, rotation, scale, vertices))
  }

  /** The four corners passed on by `Rectangle`. */
  function Corners(width: real, height: real): (r: seq<Vec2>)
    ensures |r| == 4
  {
    [Vec2(width * 0.5, height * 0.5), Vec2(width * -0.5, height * 0.5),
     Vec2(width * 0.5, height * -0.5), Vec2(width * -0.5, height * -0.5)]
  }

  /** `new Rectangle({location, rotation, scale, width, height})`: never
      refused, the arguments forwarded, the corners stored in order. */
  function NewRectangle(width: real, height: real, location: Vec2 := Vec2(0.0, 0.0), rotation: real := 0.0,
                        scale: Vec2 := Vec2(1.0, 1.0)): (r: Polygon)
    ensures NewPolygon(Corners(width, height), location, rotation, scale) == Ok(r)
  {
    Polygon(location, rotation, scale, Corners(width, height))
  }

  /** The corners are symmetric about the origin, pairwise opposite, and
      sum to the zero vector; they lie `width` apart across and `height`
      apart up and down. */
  lemma CornersSymmetric(width: real, height: real)
    ensures var c := Corners(width, height);
      c[3] == c[0].Neg() && c[2] == c[1].Neg() &&
      SumAll(Vec2(0.0, 0.0), c) == Vec2(0.0, 0.0) &&
      c[0].Dif(c[1]) == Vec2(width, 0.0) && c[0].Dif(c[2]) == Vec2(0.0, height)
  {
    var c := Corners(width, height);
    var o := Vec2(0.0, 0.0);
    assert c[..0] == [] && c[..1][..0] == [] && c[..2][..1] == c[..1] && c[..3][..2] == c[..2] && c[..4][..3] == c[..3];
    assert SumAll(o, c[..1]) == c[0];
    assert SumAll(o, c[..2]) == Vec2(0.0, height);
    assert SumAll(o, c[..3]) == Vec2(width * 0.5, height * 0.5);
    assert c[..4] == c;
  }

  /** `delta = 2π / vertexCount`. */
  function Delta(M: MathFns, n: int): real
    requires n > 0
  {
    M.pi * 2.0 / n as real
  }

  /** `theta`: 0 for an odd count, half a step for an even one. */
  function Theta(M: MathFns, n: int): real
    requires n > 0
  {
    if n % 2 != 0 then 0.0 else Delta(M, n) * 0.5
  }

  /** The angle of vertex i: `beta + delta * i` with `beta = π/2 − θ`. */
  function VertexAngle(M: MathFns, n: int, i: int): real
    requires n > 0
  {
    M.pi * 0.5 - Theta(M, n) + Delta(M, n) * i as real
  }

  /** Vertex i of a regular polygon: `fromDegree(beta + delta * i, radius)`. */
  function RegularVertex(M: MathFns, n: int, radius: real, i: int): Vec2
    requires n > 0
  {
    FromDegree(M, VertexAngle(M, n, i), radius)
  }

  /** The vertices of a regular polygon: none for a count that is not
      positive. */
  function RegularVertices(M: MathFns, n: int, radius: real): (r: seq<Vec2>)
    ensures |r| == if n < 0 then 0 else n
  {
    if n <= 0 then [] else seq(n, i requires 0 <= i < n => RegularVertex(M, n, radius, i))
  }

  /** The loop of the `RegularPolygon` constructor. */
  method PushRegularVertices(M: MathFns, n: int, radius: real) returns (verts: seq<Vec2>)
    ensures verts == RegularVertices(M, n, radius)
  {
    verts := [];
    if n <= 0 {
      return;
    }
    var delta := M.pi * 2.0 / n as real;
    var theta := if n % 2 != 0 then 0.0 else delta * 0.5;
    var beta := M.pi * 0.5 - theta;
    assert delta == Delta(M, n) && theta == Theta(M, n);
    var i := 0;
    while i < n
      invariant 0 <= i <= n
      invariant |verts| == i
      invariant forall k :: 0 <= k < i ==> verts[k] == RegularVertex(M, n, radius, k)
    {
      var angle := beta + delta * i as real;
      assert angle == VertexAngle(M, n, i);
      var v := FromDegree(M, angle, radius);
      verts := verts + [v];
      i := i + 1;
    }
    assert verts == RegularVertices(M, n, radius);
  }

  /** `new RegularPolygon({location, rotation, vertexCount, radius})`: the
      scale is always (1, 1), whatever was passed; fewer than three vertices
      are refused by `Polygon`. */
  method NewRegularPolygon(M: MathFns, n: int, radius: real, location: Vec2 := Vec2(0.0, 0.0),
                           rotation: real := 0.0) returns (r: Result<Polygon, ShapeError>)
    ensures r == NewPolygon(RegularVertices(M, n, radius), location, rotation, Vec2(1.0, 1.0))
    ensures r.Err? <==> n < 3
    ensures r.Ok? ==> |r.value.vertices| == n && r.value.scale == Vec2(1.0, 1.0)
  {
    var verts := PushRegularVertices(M, n, radius);
    r := NewPolygon(verts, location, rotation, Vec2(1.0, 1.0));
  }

  /** Successive vertices are one step of 2π/n apart, and the first sits at
      the top for an odd count and half a step to the right of it for an
      even count. */
  lemma RegularSteps(M: MathFns, n: int, radius: real, i: int)
    requires n >= 3 && 0 <= i < n
    ensures RegularVertices(M, n, radius)[i] == FromDegree(M, VertexAngle(M, n, i), radius)
    ensures i + 1 < n ==> VertexAngle(M, n, i + 1) == VertexAngle(M, n, i) + M.pi * 2.0 / n as real
    ensures n % 2 != 0 ==> VertexAngle(M, n, 0) == M.pi * 0.5
    ensures n % 2 == 0 ==> VertexAngle(M, n, 0) == M.pi * 0.5 - M.pi / n as real
  {
    assert RegularVertices(M, n, radius)[i] == RegularVertex(M, n, radius, i);
    assert Delta(M, n) * (i + 1) as real == Delta(M, n) * i as real + Delta(M, n);
    HalfOfDouble(M.pi, n as real);
  }

  /** With a correct `Math.hypot` and cos² + sin² = 1, every vertex lies on
      the circle of the given radius. */
  lemma RegularOnCircle(M: MathFns, n: int, radius: real, i: int)
    requires SizeLaw(M)
    requires forall a: real {:trigger M.cos(a)} :: M.hypot(M.cos(a), M.sin(a)) == 1.0
    requires 0 <= i < n
    ensures RegularVertices(M, n, radius)[i].Size(M) == (if radius < 0.0 then -radius else radius)
  {
    var a := VertexAngle(M, n, i);
    var u := Vec2(M.cos(a), M.sin(a));
    assert RegularVertices(M, n, radius)[i] == RegularVertex(M, n, radius, i) == u.Scale(radius);
    assert u.Size(M) == 1.0;
  }
}
