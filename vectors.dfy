/** `Vector2` of src/math/Vector2.ts and the `vec2` helper of src/math.ts.

    A vector's coordinates are a value (`Vec2`); the operations that return a
    new vector are functions on it.  The one operation that changes a vector
    in place, `add`, and the two folds `sum` and `mult`, which build their
    result in a loop, are methods of the class `Vector2`, proved against the
    folds `SumAll` and `MultAll`. */
module Vectors {
  import opened Numerics

  datatype Vec2 = Vec2(x: real, y: real)
  {
    /** One step of `sum`/`add`: componentwise addition. */
    function Plus(v: Vec2): Vec2 { Vec2(x + v.x, y + v.y) }

    /** One step of `mult`: componentwise multiplication. */
    function Times(v: Vec2): Vec2 { Vec2(x * v.x, y * v.y) }

    /** `dif`: this minus `v`. */
    function Dif(v: Vec2): Vec2 { Vec2(x - v.x, y - v.y) }

    /** `div`: componentwise quotient; a zero component of `v` is outside the
        model (JavaScript produces an infinity or NaN there). */
    function Div(v: Vec2): (r: Vec2)
      requires v.x != 0.0 && v.y != 0.0
      ensures r.Times(v) == this
    {
      Vec2(x / v.x, y / v.y)
    }

    /** `scale`: multiplication by a number. */
    function Scale(n: real): Vec2 { Vec2(x * n, y * n) }

    /** `dot`: the scalar product. */
    function Dot(v: Vec2): real { x * v.x + y * v.y }

    /** The z component of the cross product of this and `v`. */
    function Cross(v: Vec2): real { x * v.y - y * v.x }

    /** `triProd`: `(y * c, -x * c)` with `c` the cross product. */
    function TriProd(v: Vec2): Vec2
    {
      var crossZ := Cross(v);
      Vec2(y * crossZ, -x * crossZ)
    }

    /** `right`: the perpendicular turned clockwise. */
    function Right(): Vec2 { Vec2(y, -x) }

    /** `left`: the perpendicular turned counter-clockwise. */
    function Left(): Vec2 { Vec2(-y, x) }

    /** `abs`: absolute value of each coordinate. */
    function Abs(): (r: Vec2)
      ensures r.x >= 0.0 && r.y >= 0.0
      ensures r.x == x || r.x == -x
      ensures r.y == y || r.y == -y
    {
      Vec2(if x < 0.0 then -x else x, if y < 0.0 then -y else y)
    }

    /** `neg`: the opposite vector. */
    function Neg(): Vec2 { Vec2(-x, -y) }

    /** `arr` and the iterator: the coordinates in order. */
    function Arr(): (r: seq<real>)
      ensures |r| == Length()
      ensures r[0] == x && r[1] == y
    {
      [x, y]
    }

    /** `length`: a vector always has two coordinates. */
    function Length(): nat { 2 }

    /** `size`: `Math.hypot(x, y)`. */
    function Size(M: MathFns): real { M.hypot(x, y) }

    /** `norm`: `scale(1 / size)`, left to `MathFns.norm` because it divides
        by zero for the zero vector. */
    function Norm(M: MathFns): Vec2
    {
      var (nx, ny) := M.norm(x, y);
      Vec2(nx, ny)
    }

    /** `rotation`: `Math.atan2(y, x)`. */
    function Rotation(M: MathFns): real { M.atan2(y, x) }
  }

  /** `vec2(x, y)`: a missing `y` repeats `x`. */
  function MakeVec2(x: real, y: Option<real>): (r: Vec2)
    ensures r.x == x
    ensures y.None? ==> r.y == x
    ensures y.Some? ==> r.y == y.value
  {
    Vec2(x, if y.Some? then y.value else x)
  }

  /** `Vector2.fromDegree(degree, length)`. */
  function FromDegree(M: MathFns, degree: real, length: real := 1.0): Vec2
  {
    Vec2(length * M.cos(degree), length * M.sin(degree))
  }

  /** What a correct `Math.hypot` satisfies about scaling: `|k v| = |k| |v|`.
      Required only by the lemmas that measure a scaled vector. */
  ghost predicate SizeLaw(M: MathFns)
  {
    HypotLaw(M) &&
    forall v: Vec2, k: real {:trigger v.Scale(k).Size(M)} ::
      v.Scale(k).Size(M) == (if k < 0.0 then -k else k) * v.Size(M)
  }

  /** The sum of `v` and every vector of `vs`, added left to right: what
      `sum(...vs)` returns and what `add(...vs)` leaves in the receiver. */
  function SumAll(v: Vec2, vs: seq<Vec2>): Vec2
    decreases |vs|
  {
    if |vs| == 0 then v else SumAll(v, vs[..|vs| - 1]).Plus(vs[|vs| - 1])
  }

  /** The receiver of `add` after adding each argument in turn, where
      `self[i]` says that argument i is the receiver itself and so adds the
      receiver's coordinates as they are at that point. */
  function AddedInPlace(v: Vec2, vals: seq<Vec2>, self: seq<bool>): Vec2
    requires |vals| == |self|
    decreases |vals|
  {
    if |vals| == 0 then v
    else
      var before := AddedInPlace(v, vals[..|vals| - 1], self[..|self| - 1]);
      before.Plus(if self[|self| - 1] then before else vals[|vals| - 1])
  }

  /** When the receiver is not among the arguments, `add` leaves it holding
      what `sum` returns. */
  lemma {:induction false} AddWithoutSelfIsSum(v: Vec2, vals: seq<Vec2>, self: seq<bool>)
    requires |vals| == |self| && forall i :: 0 <= i < |self| ==> !self[i]
    ensures AddedInPlace(v, vals, self) == SumAll(v, vals)
    decreases |vals|
  {
    if |vals| > 0 {
      AddWithoutSelfIsSum(v, vals[..|vals| - 1], self[..|self| - 1]);
    }
  }

  /** Passing the receiver itself after w doubles the running value:
      `v.add(w, v)` leaves 2v + 2w, not the sum v + w + v. */
  lemma AddSelfDoubles(v: Vec2, w: Vec2)
    ensures AddedInPlace(v, [w, v], [false, true]) == v.Plus(w).Scale(2.0)
  {
    assert [w, v][..1] == [w] && [false, true][..1] == [false];
    assert AddedInPlace(v, [w], [false]) == v.Plus(w);
  }

  /** The componentwise product of `v` and every vector of `vs`: what
      `mult(...vs)` returns. */
  function MultAll(v: Vec2, vs: seq<Vec2>): Vec2
    decreases |vs|
  {
    if |vs| == 0 then v else MultAll(v, vs[..|vs| - 1]).Times(vs[|vs| - 1])
  }

  /** The sum of a sequence of numbers. */
  function Total(xs: seq<real>): real
    decreases |xs|
  {
    if |xs| == 0 then 0.0 else Total(xs[..|xs| - 1]) + xs[|xs| - 1]
  }

  function Xs(vs: seq<Vec2>): (r: seq<real>)
    ensures |r| == |vs|
    ensures forall i :: 0 <= i < |vs| ==> r[i] == vs[i].x
  {
    seq(|vs|, i requires 0 <= i < |vs| => vs[i].x)
  }

  function Ys(vs: seq<Vec2>): (r: seq<real>)
    ensures |r| == |vs|
    ensures forall i :: 0 <= i < |vs| ==> r[i] == vs[i].y
  {
    seq(|vs|, i requires 0 <= i < |vs| => vs[i].y)
  }

  /** `sum` is componentwise: each coordinate of the result is the receiver's
      coordinate plus the total of the arguments' coordinates. */
  lemma {:induction false} SumAllComponents(v: Vec2, vs: seq<Vec2>)
    ensures SumAll(v, vs).x == v.x + Total(Xs(vs))
    ensures SumAll(v, vs).y == v.y + Total(Ys(vs))
    decreases |vs|
  {
    if |vs| > 0 {
      var init := vs[..|vs| - 1];
      SumAllComponents(v, init);
      assert Xs(vs)[..|vs| - 1] == Xs(init);
      assert Ys(vs)[..|vs| - 1] == Ys(init);
    }
  }

  /** Adding two lists one after the other is adding their concatenation. */
  lemma {:induction false} SumAllConcat(v: Vec2, a: seq<Vec2>, b: seq<Vec2>)
    ensures SumAll(v, a + b) == SumAll(SumAll(v, a), b)
    decreases |b|
  {
    if |b| == 0 {
      assert a + b == a;
    } else {
      var init := b[..|b| - 1];
      SumAllConcat(v, a, init);
      assert (a + b)[..|a + b| - 1] == a + init;
    }
  }

  /** `sum()` and `mult()` with no arguments return a copy of the receiver,
      and one argument gives one step. */
  lemma FoldsOfFewArguments(v: Vec2, w: Vec2)
    ensures SumAll(v, []) == v && MultAll(v, []) == v
    ensures SumAll(v, [w]) == v.Plus(w) && MultAll(v, [w]) == v.Times(w)
  {
    assert [w][..0] == [];
  }

  /** `dif(w)` is `sum(w.neg)`. */
  lemma DifIsSumOfNeg(v: Vec2, w: Vec2)
    ensures v.Dif(w) == SumAll(v, [w.Neg()])
  {
    assert [w.Neg()][..0] == [];
  }

  /** The triple product is orthogonal to the receiver. */
  lemma TriProdOrthogonal(v: Vec2, w: Vec2)
    ensures v.Dot(v.TriProd(w)) == 0.0
  {
    var c := v.Cross(w);
    calc {
      v.Dot(v.TriProd(w));
      v.x * (v.y * c) + v.y * (-v.x * c);
      (v.x * v.y) * c - (v.x * v.y) * c;
    }
  }

  /** Against the argument, the triple product gives minus the squared cross
      product, so it never points toward the argument: the direction the
      collision search needs. */
  lemma TriProdAgainstArgument(v: Vec2, w: Vec2)
    ensures w.Dot(v.TriProd(w)) == -(v.Cross(w) * v.Cross(w))
    ensures w.Dot(v.TriProd(w)) <= 0.0
  {
    var c := v.Cross(w);
    calc {
      w.Dot(v.TriProd(w));
      w.x * (v.y * c) + w.y * (-v.x * c);
      -((v.x * w.y - v.y * w.x) * c);
    }
    SquareNonNegative(c);
  }

  lemma SquareNonNegative(c: real)
    ensures c * c >= 0.0
  {
    if c < 0.0 {
      assert c * c == (-c) * (-c);
    }
  }

  /** Both perpendiculars are orthogonal to the vector, and `left` is the
      opposite of `right`. */
  lemma PerpendicularsOrthogonal(v: Vec2)
    ensures v.Dot(v.Right()) == 0.0 && v.Dot(v.Left()) == 0.0
    ensures v.Left() == v.Right().Neg()
  {
  }

  /** Scaling composes by multiplying the factors. */
  lemma ScaleCompose(v: Vec2, a: real, b: real)
    ensures v.Scale(a).Scale(b) == v.Scale(a * b)
  {
    assert v.x * a * b == v.x * (a * b);
    assert v.y * a * b == v.y * (a * b);
  }

  /** The scalar product is symmetric. */
  lemma DotSymmetric(v: Vec2, w: Vec2)
    ensures v.Dot(w) == w.Dot(v)
  {
  }

  /** Negation is an involution. */
  lemma NegInvolutive(v: Vec2)
    ensures v.Neg().Neg() == v
  {
  }

  /** A `Vector2` object: the coordinates that `add` changes in place. */
  class Vector2 {
    var x: real
    var y: real

    /** `new Vector2(x = 0, y = 0)`. */
    constructor(x: real := 0.0, y: real := 0.0)
      ensures Value() == Vec2(x, y)
    {
      this.x := x;
      this.y := y;
    }

    function Value(): Vec2
      reads this
    {
      Vec2(x, y)
    }

    /** The current coordinates of each argument, in order. */
    function Values(vs: seq<Vector2>): (r: seq<Vec2>)
      reads vs
      ensures |r| == |vs| && forall i :: 0 <= i < |vs| ==> r[i] == vs[i].Value()
    {
      seq(|vs|, i requires 0 <= i < |vs| reads vs => vs[i].Value())
    }

    /** Which arguments are the receiver itself. */
    function Selves(vs: seq<Vector2>): (r: seq<bool>)
      ensures |r| == |vs| && forall i :: 0 <= i < |vs| ==> (r[i] <==> vs[i] == this)
    {
      seq(|vs|, i requires 0 <= i < |vs| => vs[i] == this)
    }

    /** `add(...vs)`: adds every argument to the receiver in order.  Each
        argument is read when its turn comes, so the receiver passed as an
        argument adds its coordinates as they are by then; every other
        argument is unchanged. */
    method Add(vs: seq<Vector2>)
      modifies this
      ensures Value() == AddedInPlace(old(Value()), old(Values(vs)), Selves(vs))
    {
      ghost var start := Value();
      ghost var vals := Values(vs);
      ghost var selves := Selves(vs);
      var i := 0;
      while i < |vs|
        invariant 0 <= i <= |vs|
        invariant forall k :: 0 <= k < |vs| && vs[k] != this ==> vs[k].Value() == vals[k]
        invariant Value() == AddedInPlace(start, vals[..i], selves[..i])
      {
        assert vals[..i + 1][..i] == vals[..i] && selves[..i + 1][..i] == selves[..i];
        var v := vs[i];
        x := x + v.x;
        y := y + v.y;
        i := i + 1;
      }
      assert vals[..i] == vals && selves[..i] == selves;
    }

    /** `sum(...vs)`: a fresh vector holding the receiver plus the arguments;
        the receiver is only read. */
    method Sum(vs: seq<Vec2>) returns (r: Vec2)
      ensures r == SumAll(Value(), vs)
    {
      var rx, ry := x, y;
      var i := 0;
      while i < |vs|
        invariant 0 <= i <= |vs|
        invariant Vec2(rx, ry) == SumAll(Value(), vs[..i])
      {
        assert vs[..i + 1][..i] == vs[..i];
        rx := rx + vs[i].x;
        ry := ry + vs[i].y;
        i := i + 1;
      }
      assert vs[..i] == vs;
      r := Vec2(rx, ry);
    }

    /** `mult(...vs)`: a fresh vector holding the componentwise product of
        the receiver and the arguments. */
    method Mult(vs: seq<Vec2>) returns (r: Vec2)
      ensures r == MultAll(Value(), vs)
    {
      var rx, ry := x, y;
      var i := 0;
      while i < |vs|
        invariant 0 <= i <= |vs|
        invariant Vec2(rx, ry) == MultAll(Value(), vs[..i])
      {
        assert vs[..i + 1][..i] == vs[..i];
        rx := rx * vs[i].x;
        ry := ry * vs[i].y;
        i := i + 1;
      }
      assert vs[..i] == vs;
      r := Vec2(rx, ry);
    }
  }
}
