/** `TransformMatrix3` of dist/js/math/TransformMatrix3.js: a `Matrix3`
    whose nine cells are kept in step with five decomposed fields —
    translation, angle, direction, skew and scale.

    `calcMatrix` recomposes the cells from the fields (`Compose`, a
    polynomial), and `calcFields` decomposes the cells into fields
    (`Decompose`, through the uninterpreted trigonometry of `MathFns`).
    Every mutator changes fields and then, unless told not to, recomposes;
    `setArray`, `matrix` and the a..f setters change cells and then
    decompose.  The class extends `Matrix3` in the source; here it holds its
    `Matrix3` part as a constant component, so the matrix operations apply to
    `transform.matrix`. */
module Transforms {
  import opened Numerics
  import opened Vectors
  import opened Matrices

  /** The decomposed fields `#translate`, `#angle`, `#direct`, `#skew` (the
      tangent of the skew angle) and `#scale`. */
  datatype Decomposition = Decomposition(translate: Vec2, angle: real, direct: Vec2, skew: real, scale: Vec2)

  /** `calcMatrix`: the cells of a transform with the given fields.  The
      stored angle plays no part: only the direction does. */
  function Compose(f: Decomposition): Cells
  {
    ComposeParts(f.translate, f.direct, f.skew, f.scale)
  }

  function ComposeParts(t: Vec2, d: Vec2, k: real, s: Vec2): Cells
  {
    [d.x * s.x, d.y * s.x, 0.0, (d.x * k - d.y) * s.y, (d.y * k + d.x) * s.y, 0.0, t.x, t.y, 1.0]
  }

  /** `calcFields`: the fields read back from the cells. */
  function Decompose(M: MathFns, a: Cells): Decomposition
  {
    var direct := Vec2(a[0], a[1]).Norm(M);
    var sk := M.atan2(a[4], a[3]) - M.pi / 2.0 - direct.Rotation(M);
    Decomposition(
      Vec2(a[6], a[7]),
      direct.Rotation(M),
      direct,
      -M.tan(sk),
      Vec2(M.sqrt(a[0] * a[0] + a[1] * a[1]), M.sqrt(a[3] * a[3] + a[4] * a[4]) * M.cos(sk)))
  }

  /** The elementary matrices the recomposition is made of. */
  function Translation(t: Vec2): Cells { [1.0, 0.0, 0.0, 0.0, 1.0, 0.0, t.x, t.y, 1.0] }

  function Rotation(d: Vec2): Cells { [d.x, d.y, 0.0, -d.y, d.x, 0.0, 0.0, 0.0, 1.0] }

  function Shear(k: real): Cells { [1.0, 0.0, 0.0, k, 1.0, 0.0, 0.0, 0.0, 1.0] }

  function Scaling(s: Vec2): Cells { [s.x, 0.0, 0.0, 0.0, s.y, 0.0, 0.0, 0.0, 1.0] }

  /** The recomposed cells are the product translation * rotation * shear *
      scale of the fields' elementary matrices. */
  lemma ComposeIsProduct(f: Decomposition)
    ensures Compose(f) == Product(Product(Product(Translation(f.translate), Rotation(f.direct)), Shear(f.skew)), Scaling(f.scale))
  {
    var t, d, k := f.translate, f.direct, f.skew;
    var rotated: Cells := [d.x, d.y, 0.0, -d.y, d.x, 0.0, t.x, t.y, 1.0];
    var sheared: Cells := [d.x, d.y, 0.0, d.x * k - d.y, d.y * k + d.x, 0.0, t.x, t.y, 1.0];
    TranslateThenRotate(t, d);
    ThenShear(t, d, k);
    ThenScale(t, d, k, f.scale);
    calc {
      Product(Product(Product(Translation(t), Rotation(d)), Shear(k)), Scaling(f.scale));
      Product(Product(rotated, Shear(k)), Scaling(f.scale));
      Product(sheared, Scaling(f.scale));
      Compose(f);
    }
  }

  lemma TranslateThenRotate(t: Vec2, d: Vec2)
    ensures Product(Translation(t), Rotation(d)) == [d.x, d.y, 0.0, -d.y, d.x, 0.0, t.x, t.y, 1.0]
  {
    var p := Product(Translation(t), Rotation(d));
    forall c, r | 0 <= c < 3 && 0 <= r < 3
      ensures At(p, c, r) == At([d.x, d.y, 0.0, -d.y, d.x, 0.0, t.x, t.y, 1.0], c, r)
    {
      ProductAt(Translation(t), Rotation(d), c, r);
    }
    SameCells(p, [d.x, d.y, 0.0, -d.y, d.x, 0.0, t.x, t.y, 1.0]);
  }

  lemma ThenShear(t: Vec2, d: Vec2, k: real)
    ensures Product([d.x, d.y, 0.0, -d.y, d.x, 0.0, t.x, t.y, 1.0], Shear(k))
         == [d.x, d.y, 0.0, d.x * k - d.y, d.y * k + d.x, 0.0, t.x, t.y, 1.0]
  {
    var a: Cells := [d.x, d.y, 0.0, -d.y, d.x, 0.0, t.x, t.y, 1.0];
    ShearCells(a, k);
    assert a[0] * k + a[3] == d.x * k - d.y && a[1] * k + a[4] == d.y * k + d.x && a[2] * k + a[5] == 0.0;
  }

  /** A shear on the right adds k times the first column to the second. */
  lemma ShearCells(a: Cells, k: real)
    ensures Product(a, Shear(k)) == [a[0], a[1], a[2], a[0] * k + a[3], a[1] * k + a[4], a[2] * k + a[5], a[6], a[7], a[8]]
  {
    var p := Product(a, Shear(k));
    forall c, r | 0 <= c < 3 && 0 <= r < 3
      ensures At(p, c, r) == At([a[0], a[1], a[2], a[0] * k + a[3], a[1] * k + a[4], a[2] * k + a[5], a[6], a[7], a[8]], c, r)
    {
      ProductAt(a, Shear(k), c, r);
    }
    SameCells(p, [a[0], a[1], a[2], a[0] * k + a[3], a[1] * k + a[4], a[2] * k + a[5], a[6], a[7], a[8]]);
  }

  lemma ThenScale(t: Vec2, d: Vec2, k: real, s: Vec2)
    ensures Product([d.x, d.y, 0.0, d.x * k - d.y, d.y * k + d.x, 0.0, t.x, t.y, 1.0], Scaling(s))
         == ComposeParts(t, d, k, s)
  {
    var a: Cells := [d.x, d.y, 0.0, d.x * k - d.y, d.y * k + d.x, 0.0, t.x, t.y, 1.0];
    ScaleCells(a, s);
    var q := [a[0] * s.x, a[1] * s.x, a[2] * s.x, a[3] * s.y, a[4] * s.y, a[5] * s.y, a[6], a[7], a[8]];
    var c := ComposeParts(t, d, k, s);
    assert q[0] == c[0] && q[1] == c[1] && q[2] == c[2];
    assert q[3] == c[3] && q[4] == c[4] && q[5] == c[5];
    assert q[6] == c[6] && q[7] == c[7] && q[8] == c[8];
  }

  /** A scaling on the right scales the first column by s.x and the second
      by s.y. */
  lemma ScaleCells(a: Cells, s: Vec2)
    ensures Product(a, Scaling(s)) == [a[0] * s.x, a[1] * s.x, a[2] * s.x, a[3] * s.y, a[4] * s.y, a[5] * s.y, a[6], a[7], a[8]]
  {
    var p := Product(a, Scaling(s));
    forall c, r | 0 <= c < 3 && 0 <= r < 3
      ensures At(p, c, r) == At([a[0] * s.x, a[1] * s.x, a[2] * s.x, a[3] * s.y, a[4] * s.y, a[5] * s.y, a[6], a[7], a[8]], c, r)
    {
      ProductAt(a, Scaling(s), c, r);
    }
    SameCells(p, [a[0] * s.x, a[1] * s.x, a[2] * s.x, a[3] * s.y, a[4] * s.y, a[5] * s.y, a[6], a[7], a[8]]);
  }

  /** Decomposition reads the translation straight from cells 6 and 7, so
      recomposing and decomposing keeps the translation exactly. */
  lemma TranslationRoundTrip(M: MathFns, f: Decomposition)
    ensures Decompose(M, Compose(f)).translate == f.translate
    ensures Compose(f)[6] == f.translate.x && Compose(f)[7] == f.translate.y
  {
  }

  /** The last row of a recomposed transform is always (0, 0, 1): it is an
      affine map. */
  lemma ComposeIsAffine(f: Decomposition)
    ensures At(Compose(f), 0, 2) == 0.0 && At(Compose(f), 1, 2) == 0.0 && At(Compose(f), 2, 2) == 1.0
  {
  }

  /** The named cells of the `a`..`f` accessors: a, b, c, d, e, f are cells
      0, 1, 3, 4, 6, 7. */
  datatype CellName = A | B | C | D | E | F
  {
    function Index(): (i: int)
      ensures 0 <= i < 9 && i % 3 != 2
    {
      match this
      case A => 0
      case B => 1
      case C => 3
      case D => 4
      case E => 6
      case F => 7
    }
  }

  /** `m`: the six cells of an affine transform in the order a..f. */
  function AffineCells(a: Cells): (r: seq<real>)
    ensures |r| == 6
    ensures r == [a[A.Index()], a[B.Index()], a[C.Index()], a[D.Index()], a[E.Index()], a[F.Index()]]
  {
    [a[0], a[1], a[3], a[4], a[6], a[7]]
  }

  /** `matrix(a, b, c, d, e, f)` writes these nine cells, which `m` reads back
      unchanged. */
  function AffineMatrix(a: real, b: real, c: real, d: real, e: real, f: real): (r: Cells)
    ensures AffineCells(r) == [a, b, c, d, e, f]
    ensures r[2] == 0.0 && r[5] == 0.0 && r[8] == 1.0
  {
    [a, b, 0.0, c, d, 0.0, e, f, 1.0]
  }

  class Transform {
    /** The `Matrix3` part: the nine cells. */
    const matrix: Matrix3
    var translate: Vec2
    var angle: real
    var direct: Vec2
    var skew: real
    var scale: Vec2

    ghost predicate Valid()
    {
      matrix.Valid()
    }

    function Fields(): Decomposition
      reads this
    {
      Decomposition(translate, angle, direct, skew, scale)
    }

    function Cells(): Cells
      requires Valid()
      reads matrix.data
    {
      matrix.Cells()
    }

    /** Cells and fields agree in the direction `calcMatrix` makes them. */
    ghost predicate Composed()
      requires Valid()
      reads this, matrix.data
    {
      Cells() == Compose(Fields())
    }

    method SetFields(f: Decomposition)
      modifies this
      ensures Fields() == f
    {
      translate, angle, direct, skew, scale := f.translate, f.angle, f.direct, f.skew, f.scale;
    }

    /** `new TransformMatrix3({translate, rotate, skew, scale})` with every
        option given: the fields, then `calcMatrix`. */
    constructor FromOptions(M: MathFns, translate: Vec2, rotate: real, skew: real, scale: Vec2)
      ensures Valid() && fresh(matrix) && fresh(matrix.data)
      ensures Fields() == Decomposition(translate, rotate, FromDegree(M, rotate), M.tan(skew), scale)
      ensures Composed()
    {
      matrix := new Matrix3.Identity();
      this.translate := translate;
      this.angle := rotate;
      this.direct := FromDegree(M, rotate);
      this.skew := M.tan(skew);
      this.scale := scale;
      new;
      CalcMatrix();
    }

    /** `new TransformMatrix3(cells)` for a nine-cell buffer: `setArray`,
        so the fields are decomposed from the cells. */
    constructor FromCells(M: MathFns, cells: Cells)
      ensures Valid() && fresh(matrix) && fresh(matrix.data)
      ensures Cells() == cells
      ensures Fields() == Decompose(M, cells)
    {
      matrix := new Matrix3.FromCells(cells);
      var f := Decompose(M, cells);
      translate, angle, direct, skew, scale := f.translate, f.angle, f.direct, f.skew, f.scale;
    }

    /** `calcMatrix`: recompose the nine cells from the fields. */
    method CalcMatrix()
      requires Valid()
      modifies matrix.data
      ensures Composed()
    {
      var c := Compose(Fields());
      var i := 0;
      while i < 9
        invariant 0 <= i <= 9
        invariant forall n :: 0 <= n < i ==> matrix.data[n] == c[n]
      {
        matrix.data[i] := c[i];
        i := i + 1;
      }
    }

    /** `calcFields`: decompose the cells into the fields. */
    method CalcFields(M: MathFns)
      requires Valid()
      modifies this
      ensures Fields() == Decompose(M, Cells())
    {
      SetFields(Decompose(M, matrix.data[..]));
    }

    /** Recompose when `recalc` is set; otherwise leave the cells alone. */
    method Recalc(recalc: bool)
      requires Valid()
      modifies matrix.data
      ensures recalc ==> Composed()
      ensures !recalc ==> Cells() == old(Cells())
    {
      if recalc {
        CalcMatrix();
      }
    }

    /** `translateX(x, recalc)`. */
    method TranslateX(x: real, recalc: bool := true)
      requires Valid()
      modifies this, matrix.data
      ensures Fields() == old(Fields()).(translate := Vec2(x, old(translate.y)))
      ensures recalc ==> Composed()
      ensures !recalc ==> Cells() == old(Cells())
    {
      translate := translate.(x := x);
      Recalc(recalc);
    }

    /** `translateY(y, recalc)`. */
    method TranslateY(y: real, recalc: bool := true)
      requires Valid()
      modifies this, matrix.data
      ensures Fields() == old(Fields()).(translate := Vec2(old(translate.x), y))
      ensures recalc ==> Composed()
      ensures !recalc ==> Cells() == old(Cells())
    {
      translate := translate.(y := y);
      Recalc(recalc);
    }

    /** `translate(x, y, recalc)`: afterwards `tx` is `x`, `ty` is `y`, and
        when recomposed cells 6 and 7 hold them. */
    method Translate(x: real, y: real, recalc: bool := true)
      requires Valid()
      modifies this, matrix.data
      ensures Fields() == old(Fields()).(translate := Vec2(x, y))
      ensures recalc ==> Composed() && Cells()[6] == x && Cells()[7] == y
      ensures !recalc ==> Cells() == old(Cells())
    {
      translate := Vec2(x, y);
      Recalc(recalc);
    }

    /** `rotate(angle, recalc)`: the angle is stored exactly and the direction
        is the unit vector at that angle. */
    method RotateTo(M: MathFns, angle: real, recalc: bool := true)
      requires Valid()
      modifies this, matrix.data
      ensures Fields() == old(Fields()).(angle := angle, direct := FromDegree(M, angle))
      ensures recalc ==> Composed()
      ensures !recalc ==> Cells() == old(Cells())
    {
      this.angle := angle;
      direct := FromDegree(M, angle);
      Recalc(recalc);
    }

    /** `rotate(x, y, recalc)`: the direction is the normalised (x, y) and the
        angle its rotation. */
    method RotateToward(M: MathFns, x: real, y: real, recalc: bool := true)
      requires Valid()
      modifies this, matrix.data
      ensures Fields() == old(Fields()).(angle := Vec2(x, y).Norm(M).Rotation(M), direct := Vec2(x, y).Norm(M))
      ensures recalc ==> Composed()
      ensures !recalc ==> Cells() == old(Cells())
    {
      direct := Vec2(x, y).Norm(M);
      angle := direct.Rotation(M);
      Recalc(recalc);
    }

    /** `scaleX(sx, recalc)`. */
    method ScaleX(sx: real, recalc: bool := true)
      requires Valid()
      modifies this, matrix.data
      ensures Fields() == old(Fields()).(scale := Vec2(sx, old(scale.y)))
      ensures recalc ==> Composed()
      ensures !recalc ==> Cells() == old(Cells())
    {
      scale := scale.(x := sx);
      Recalc(recalc);
    }

    /** `scaleY(sy, recalc)`. */
    method ScaleY(sy: real, recalc: bool := true)
      requires Valid()
      modifies this, matrix.data
      ensures Fields() == old(Fields()).(scale := Vec2(old(scale.x), sy))
      ensures recalc ==> Composed()
      ensures !recalc ==> Cells() == old(Cells())
    {
      scale := scale.(y := sy);
      Recalc(recalc);
    }

    /** `scale(sx, sy, recalc)`. */
    method Scale(sx: real, sy: real, recalc: bool := true)
      requires Valid()
      modifies this, matrix.data
      ensures Fields() == old(Fields()).(scale := Vec2(sx, sy))
      ensures recalc ==> Composed()
      ensures !recalc ==> Cells() == old(Cells())
    {
      scale := Vec2(sx, sy);
      Recalc(recalc);
    }

    /** `skew(k, recalc)`: the field holds the tangent of the angle `k`. */
    method Skew(M: MathFns, k: real, recalc: bool := true)
      requires Valid()
      modifies this, matrix.data
      ensures Fields() == old(Fields()).(skew := M.tan(k))
      ensures recalc ==> Composed()
      ensures !recalc ==> Cells() == old(Cells())
    {
      skew := M.tan(k);
      Recalc(recalc);
    }

    /** `setArray(value, offset)`: the typed array's `set`, which throws a
        RangeError when the values do not fit, then `calcFields`. */
    method SetArray(M: MathFns, value: seq<real>, offset: int := 0) returns (r: Outcome<SetError>)
      requires Valid()
      modifies this, matrix.data
      ensures WriteAt(old(Cells()), value, offset).Some? ==>
        r.Pass? && Cells() == WriteAt(old(Cells()), value, offset).value && Fields() == Decompose(M, Cells())
      ensures WriteAt(old(Cells()), value, offset).None? ==>
        r == Fail(RangeError) && Cells() == old(Cells()) && Fields() == old(Fields())
    {
      r := matrix.WriteCells(value, offset);
      if r.Pass? {
        CalcFields(M);
      }
    }

    /** `matrix(a, b, c, d, e, f)`: installs the affine cells and decomposes;
        afterwards `tx` and `ty` are `e` and `f`. */
    method Matrix(M: MathFns, a: real := 1.0, b: real := 0.0, c: real := 0.0, d: real := 1.0,
                  e: real := 0.0, f: real := 0.0)
      requires Valid()
      modifies this, matrix.data
      ensures Cells() == AffineMatrix(a, b, c, d, e, f)
      ensures Fields() == Decompose(M, Cells())
      ensures translate == Vec2(e, f)
    {
      var r := SetArray(M, AffineMatrix(a, b, c, d, e, f));
      assert AffineMatrix(a, b, c, d, e, f)[9..] == [];
    }

    /** `copy()`: a new transform over a copy of the cells, with fields
        decomposed from them. */
    method Copy(M: MathFns) returns (t: Transform)
      requires Valid()
      ensures t.Valid() && fresh(t) && fresh(t.matrix) && fresh(t.matrix.data)
      ensures t.Cells() == Cells()
      ensures t.Fields() == Decompose(M, Cells())
    {
      t := new Transform.FromCells(M, matrix.data[..]);
    }

    /** `copyFields(v)`: every field becomes `v`'s, then `calcMatrix`. */
    method CopyFields(v: Transform)
      requires Valid()
      modifies this, matrix.data
      ensures Fields() == old(v.Fields())
      ensures Composed()
    {
      SetFields(v.Fields());
      CalcMatrix();
    }

    /** The a..f setters: write one named cell, then `calcFields`. */
    method SetNamed(M: MathFns, name: CellName, v: real)
      requires Valid()
      modifies this, matrix.data
      ensures Cells() == old(Cells())[name.Index() := v]
      ensures Fields() == Decompose(M, Cells())
    {
      matrix.data[name.Index()] := v;
      CalcFields(M);
    }

    /** The a..f getters. */
    function GetNamed(name: CellName): real
      requires Valid()
      reads matrix.data
    {
      matrix.data[name.Index()]
    }

    /** `tx`, `ty` and `t`: `t` is a fresh copy, so it is a value here. */
    function T(): Vec2
      reads this
    {
      translate
    }

    /** `r`: the rotation of the direction. */
    function R(M: MathFns): real
      reads this
    {
      direct.Rotation(M)
    }

    /** `rd`: the stored angle. */
    function Rd(): real
      reads this
    {
      angle
    }

    /** `sx`, `sy` and `s`: `s` is a fresh copy, so it is a value here. */
    function S(): Vec2
      reads this
    {
      scale
    }

    /** `k`: the skew angle, `Math.atan` of the stored tangent. */
    function K(M: MathFns): real
      reads this
    {
      M.atan(skew)
    }

    /** `kt`: the stored tangent. */
    function Kt(): real
      reads this
    {
      skew
    }

    /** `m`: cells a..f. */
    function Affine(): seq<real>
      requires Valid()
      reads matrix.data
    {
      AffineCells(Cells())
    }
  }

  /** A named cell set through its setter reads back through its getter, and
      the translation cells set through `e` and `f` are the new `tx`/`ty`. */
  lemma NamedCellRoundTrip(M: MathFns, a: Cells, name: CellName, v: real)
    ensures a[name.Index() := v][name.Index()] == v
    ensures name == E ==> Decompose(M, a[name.Index() := v]).translate.x == v
    ensures name == F ==> Decompose(M, a[name.Index() := v]).translate.y == v
  {
  }
}
