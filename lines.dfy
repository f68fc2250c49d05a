/** `LinesObject` of src/objects/LinesObject.ts: each line segment becomes a
    band of the given width, drawn as two triangles.

    For a line from v1 to v2 the offset c is the right perpendicular of
    v2 − v1 scaled to length `width`.  A zero-length line divides `width`
    by a zero size, and the infinite factor times the zero perpendicular
    gives NaN coordinates.  The model writes such a triangle as `None`. */
module Lines {
  import opened Numerics
  import opened Vectors
  import opened Buffers

  /** `Line2<number>`: the two end points. */
  datatype Line = Line(v1: Vec2, v2: Vec2)

  /** `c = a.right.scale(width / a.right.size)` for a = v2 − v1; `None`
      when the size is zero and the offset is NaN. */
  function Offset(M: MathFns, line: Line, width: real): (r: Option<Vec2>)
    ensures r.None? <==> line.v2.Dif(line.v1).Right().Size(M) == 0.0
  {
    var b := line.v2.Dif(line.v1).Right();
    var size := b.Size(M);
    if size == 0.0 then None else Some(b.Scale(width / size))
  }

  /** The two triangles pushed for one line, [v2−c, v1+c, v1−c] and
      [v2−c, v2+c, v1+c]; both are NaN when the offset is. */
  function Band(M: MathFns, line: Line, width: real): (r: seq<Option<Tri>>)
    ensures |r| == 2
  {
    match Offset(M, line, width)
    case None => [None, None]
    case Some(c) =>
      var (v1, v2) := (line.v1, line.v2);
      [Some(Tri(v2.Dif(c), v1.Plus(c), v1.Dif(c))), Some(Tri(v2.Dif(c), v2.Plus(c), v1.Plus(c)))]
  }

  /** The loop of the constructor: two triangles per line, in input order. */
  method Triangulate(M: MathFns, lines: seq<Line>, width: real) returns (verts: seq<Option<Tri>>)
    ensures |verts| == 2 * |lines|
    ensures forall i :: 0 <= i < |lines| ==> verts[2 * i..2 * i + 2] == Band(M, lines[i], width)
  {
    verts := [];
    var i := 0;
    while i < |lines|
      invariant 0 <= i <= |lines|
      invariant |verts| == 2 * i
      invariant forall k :: 0 <= k < i ==> verts[2 * k..2 * k + 2] == Band(M, lines[k], width)
    {
      var band := Band(M, lines[i], width);
      ghost var before := verts;
      verts := verts + [band[0]] + [band[1]];
      assert verts[2 * i..2 * i + 2] == band;
      assert forall k :: 0 <= k < i ==> verts[2 * k..2 * k + 2] == before[2 * k..2 * k + 2];
      i := i + 1;
    }
  }

  /** With a correct `Math.hypot`, the right perpendicular of v2 − v1 has
      size zero exactly when the ends coincide. */
  lemma PerpendicularSizeZero(M: MathFns, line: Line)
    requires HypotLaw(M)
    ensures M.hypot(line.v2.y - line.v1.y, -(line.v2.x - line.v1.x)) == 0.0 <==> line.v1 == line.v2
  {
  }

  /** With a correct `Math.hypot`, only a line whose ends coincide has a
      NaN offset. */
  lemma NaNOnlyForPoints(M: MathFns, line: Line, width: real)
    requires HypotLaw(M)
    ensures Offset(M, line, width).None? <==> line.v1 == line.v2
  {
    PerpendicularSizeZero(M, line);
    assert line.v2.Dif(line.v1).Right().Size(M) == M.hypot(line.v2.y - line.v1.y, -(line.v2.x - line.v1.x));
  }

  /** The offset is perpendicular to the line. */
  lemma OffsetPerpendicular(M: MathFns, line: Line, width: real)
    requires Offset(M, line, width).Some?
    ensures Offset(M, line, width).value.Dot(line.v2.Dif(line.v1)) == 0.0
  {
    var a := line.v2.Dif(line.v1);
    var k := width / a.Right().Size(M);
    assert a.Right().Scale(k).Dot(a) == k * (a.y * a.x - a.x * a.y);
  }

  /** The offset is `width` long, so the band is twice `width` wide. */
  lemma OffsetLength(M: MathFns, line: Line, width: real)
    requires SizeLaw(M) && Offset(M, line, width).Some?
    ensures Offset(M, line, width).value.Size(M) == (if width < 0.0 then -width else width)
  {
    var b := line.v2.Dif(line.v1).Right();
    var size := b.Size(M);
    assert b.Scale(width / size).Size(M) == (if width / size < 0.0 then -(width / size) else width / size) * size;
    assert size > 0.0;
  }

  /** The two triangles are the halves of the quadrilateral v1±c, v2±c:
      they share the diagonal from v2−c to v1+c, and their third corners are
      the remaining corners v1−c and v2+c. */
  lemma BandSharesDiagonal(M: MathFns, line: Line, width: real)
    requires Offset(M, line, width).Some?
    ensures var c := Offset(M, line, width).value;
      var t := Band(M, line, width);
      t[0].Some? && t[1].Some? &&
      t[0].value.p == t[1].value.p == line.v2.Dif(c) &&
      t[0].value.q == t[1].value.r == line.v1.Plus(c) &&
      t[0].value.r == line.v1.Dif(c) && t[1].value.q == line.v2.Plus(c)
  {
  }

  class LinesObject {
    /** The colour handed on to the one-colour object. */
    const color: string
    /** The triangles handed on to the positioned object. */
    const verts: seq<Option<Tri>>

    /** `new LinesObject({lines, width = 0.1, color = '#000'})`. */
    constructor (M: MathFns, lines: seq<Line>, width: real := 0.1, color: string := "#000")
      ensures this.color == color && |verts| == 2 * |lines|
      ensures forall i :: 0 <= i < |lines| ==> verts[2 * i..2 * i + 2] == Band(M, lines[i], width)
    {
      this.color := color;
      var vs := Triangulate(M, lines, width);
      verts := vs;
    }
  }
}
