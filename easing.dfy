/** `bezier` of src/math.ts: an approximation of the `cubic-bezier()` easing
    function of CSS Easing Functions Level 1, section 2.2.

    `bezier(x1, y1, x2, y2)` checks the control abscissas and returns a table
    builder.  Each call `build(steps)` pushes the rows for t = 0, 1/steps,
    …, 1 into ONE array shared by every call, and returns a lookup.  The
    lookup does a binary search for x among the rows' abscissas and
    interpolates linearly between the two rows that it ends on.  All
    lookups read the current shared array, so the class below keeps that
    array as a field and `Lookup` reads it.

    `Num` values stand for what JavaScript computes: `NaN` here also stands
    for the infinities that a zero-width interval produces. */
module Easing {
  import opened Numerics

  /** The errors thrown: the three range checks, an array read past the end
      of an empty table, and the call stack exhausted by endless recursion. */
  datatype EasingError = X1OutOfBounds | X2OutOfBounds | XOutOfBounds | TypeError | StackOverflow

  /** One row `[pos(x1, x2, t), pos(y1, y2, t)]`. */
  datatype Row = Row(x: Num, y: Num)

  /** `pos(a, b, t)`: the Bézier polynomial with end points 0 and 1. */
  function Pos(a: real, b: real, t: real): real
  {
    t * (3.0 * a * (1.0 - t) * (1.0 - t) + t * (3.0 * b * (1.0 - t) + t))
  }

  /** The two range checks done before any table exists. */
  function CheckControls(x1: real, x2: real): (r: Outcome<EasingError>)
    ensures r == Pass <==> 0.0 <= x1 <= 1.0 && 0.0 <= x2 <= 1.0
    ensures !(0.0 <= x1 <= 1.0) ==> r == Fail(X1OutOfBounds)
    ensures 0.0 <= x1 <= 1.0 && !(0.0 <= x2 <= 1.0) ==> r == Fail(X2OutOfBounds)
  {
    if x1 < 0.0 || x1 > 1.0 then Fail(X1OutOfBounds)
    else if x2 < 0.0 || x2 > 1.0 then Fail(X2OutOfBounds)
    else Pass
  }

  /** The row for step i of `steps`: `t = i / steps`, which is NaN when
      `steps` is 0, and so is the row. */
  function RowAt(x1: real, y1: real, x2: real, y2: real, i: int, steps: int): Row
  {
    if steps == 0 then Row(NaN, NaN)
    else
      var t := i as real / steps as real;
      Row(Fin(Pos(x1, x2, t)), Fin(Pos(y1, y2, t)))
  }

  /** The rows one call of the builder pushes: one per i in 0 .. steps, so
      none for a negative count. */
  function Rows(x1: real, y1: real, x2: real, y2: real, steps: int): (r: seq<Row>)
    ensures |r| == if steps < 0 then 0 else steps + 1
    ensures steps >= 1 ==> r[0] == Row(Fin(0.0), Fin(0.0)) && r[steps] == Row(Fin(1.0), Fin(1.0))
    ensures steps == 0 ==> r == [Row(NaN, NaN)]
  {
    if steps < 0 then []
    else
      var r := seq(steps + 1, i => RowAt(x1, y1, x2, y2, i, steps));
      assert steps >= 1 ==> r[0] == Row(Fin(0.0), Fin(0.0)) && r[steps] == Row(Fin(1.0), Fin(1.0)) by {
        if steps >= 1 {
          var d := steps as real;
          assert d / d == 1.0 && 0.0 / d == 0.0;
          assert r[0] == RowAt(x1, y1, x2, y2, 0, steps);
          assert r[steps] == RowAt(x1, y1, x2, y2, steps, steps);
        }
      }
      r
  }

  /** `v[0] < x` and `v[0] > x`: false for a NaN abscissa. */
  predicate Below(a: Num, x: real) { a.Fin? && a.v < x }
  predicate Above(a: Num, x: real) { a.Fin? && a.v > x }

  /** The base case: `(x - rX) / (lX - rX) * lY + (x - lX) / (rX - lX) * rY`. */
  function Interpolate(lo: Row, hi: Row, x: real): (r: Num)
    ensures r.Fin? <==> lo.x.Fin? && lo.y.Fin? && hi.x.Fin? && hi.y.Fin? && lo.x != hi.x
  {
    if lo.x.NaN? || lo.y.NaN? || hi.x.NaN? || hi.y.NaN? || lo.x == hi.x then NaN
    else
      var (lX, lY, rX, rY) := (lo.x.v, lo.y.v, hi.x.v, hi.y.v);
      Fin((x - rX) / (lX - rX) * lY + (x - lX) / (rX - lX) * rY)
  }

  /** The interpolation passes through both rows. */
  lemma InterpolateEndpoints(lo: Row, hi: Row)
    requires lo.x.Fin? && lo.y.Fin? && hi.x.Fin? && hi.y.Fin? && lo.x != hi.x
    ensures Interpolate(lo, hi, lo.x.v) == lo.y
    ensures Interpolate(lo, hi, hi.x.v) == hi.y
  {
    var (lX, rX) := (lo.x.v, hi.x.v);
    var d := rX - lX;
    assert d != 0.0 && d / d == 1.0 && (-d) / (-d) == 1.0;
  }

  /** `Math.round(l + (r - l) / 2)` lies strictly between l and r once they
      are two or more apart. */
  lemma MidpointInside(l: int, r: int)
    requires r - l >= 2
    ensures l < Round(l as real + (r - l) as real / 2.0) < r
  {
  }

  /** `search(l, r)` for a range inside the table.  With l == r the call
      repeats itself for ever unless the row is an exact hit or NaN. */
  function Search(T: seq<Row>, x: real, l: int, r: int): (res: Result<Num, EasingError>)
    requires 0 <= l <= r < |T|
    decreases r - l
  {
    if r - l == 1 then Ok(Interpolate(T[l], T[r], x))
    else if r == l then
      if Below(T[l].x, x) || Above(T[l].x, x) then Err(StackOverflow) else Ok(T[l].y)
    else
      MidpointInside(l, r);
      var i := Round(l as real + (r - l) as real / 2.0);
      if Below(T[i].x, x) then Search(T, x, i, r)
      else if Above(T[i].x, x) then Search(T, x, l, i)
      else Ok(T[i].y)
  }

  /** The lookup returned by the builder, on the current table. */
  function LookupIn(T: seq<Row>, x: real): (r: Result<Num, EasingError>)
    ensures !(0.0 <= x <= 1.0) ==> r == Err(XOutOfBounds)
    ensures 0.0 <= x <= 1.0 && |T| == 0 ==> r == Err(TypeError)
  {
    if x < 0.0 || x > 1.0 then Err(XOutOfBounds)
    else if |T| == 0 then
      // search(0, -1) reads arr[Math.round(-0.5)] = arr[0], which is undefined
      Err(TypeError)
    else Search(T, x, 0, |T| - 1)
  }

  /** Once the range holds two rows or more it never shrinks to one row, so
      the search always ends. */
  lemma {:induction false} SearchEnds(T: seq<Row>, x: real, l: int, r: int)
    requires 0 <= l < r < |T|
    ensures Search(T, x, l, r).Ok?
    decreases r - l
  {
    if r - l != 1 {
      MidpointInside(l, r);
      var i := Round(l as real + (r - l) as real / 2.0);
      if Below(T[i].x, x) {
        SearchEnds(T, x, i, r);
      } else if Above(T[i].x, x) {
        SearchEnds(T, x, l, i);
      }
    }
  }

  /** A table built with at least one step is searched without end only if
      x is out of range; with `steps` = 0 alone the single row is NaN, so
      the lookup gives NaN rather than recursing. */
  lemma LookupEnds(x1: real, y1: real, x2: real, y2: real, prior: seq<Row>, steps: int, x: real)
    requires 0.0 <= x <= 1.0 && steps >= 0
    ensures LookupIn(prior + Rows(x1, y1, x2, y2, steps), x).Ok?
    ensures prior == [] && steps == 0 ==> LookupIn(prior + Rows(x1, y1, x2, y2, steps), x) == Ok(NaN)
  {
    var T := prior + Rows(x1, y1, x2, y2, steps);
    if |T| >= 2 {
      SearchEnds(T, x, 0, |T| - 1);
    } else {
      assert T[0] == Row(NaN, NaN);
    }
  }

  /** A table of finite rows whose abscissas strictly increase. */
  ghost predicate Increasing(T: seq<Row>)
  {
    (forall k :: 0 <= k < |T| ==> T[k].x.Fin? && T[k].y.Fin?) &&
    (forall j, k :: 0 <= j < k < |T| ==> T[j].x.v < T[k].x.v)
  }

  /** `y` is what the table says at `x`: the ordinate of a row at exactly
      `x`, or the interpolation between two neighbouring rows around `x`. */
  ghost predicate Approximates(T: seq<Row>, x: real, y: Num)
  {
    exists k :: 0 <= k < |T| &&
      ((T[k].x == Fin(x) && y == T[k].y) ||
       (k + 1 < |T| && T[k].x.Fin? && T[k + 1].x.Fin? &&
        T[k].x.v <= x <= T[k + 1].x.v && y == Interpolate(T[k], T[k + 1], x)))
  }

  /** On an increasing table, a search whose range brackets `x` ends on an
      exact row or between the two neighbours around `x`.  The claim is
      conditional: it says nothing about the table the builder leaves, for
      which being increasing is not proved here (it needs the abscissa
      `Pos(x1, x2, t)` to grow strictly with `t`), and which after a second
      build is not increasing at all (`SecondBuildAppends`). */
  lemma {:induction false} SearchBrackets(T: seq<Row>, x: real, l: int, r: int)
    requires Increasing(T) && 0 <= l < r < |T|
    requires T[l].x.v <= x <= T[r].x.v
    ensures Search(T, x, l, r).Ok? && Approximates(T, x, Search(T, x, l, r).value)
    decreases r - l
  {
    var y := Search(T, x, l, r);
    SearchEnds(T, x, l, r);
    if r - l == 1 {
      assert T[l].x.Fin? && T[l + 1].x.Fin?;
      assert T[l].x.v <= x <= T[l + 1].x.v && y.value == Interpolate(T[l], T[l + 1], x);
    } else {
      MidpointInside(l, r);
      var i := Round(l as real + (r - l) as real / 2.0);
      if Below(T[i].x, x) {
        SearchBrackets(T, x, i, r);
      } else if Above(T[i].x, x) {
        SearchBrackets(T, x, l, i);
      } else {
        assert T[i].x == Fin(x) && y.value == T[i].y;
      }
    }
  }

  class Bezier {
    const x1: real
    const y1: real
    const x2: real
    const y2: real
    /** The array shared by every call of the builder. */
    var table: seq<Row>

    /** The closure state right after `bezier(x1, y1, x2, y2)` passed its
        checks: an empty table. */
    constructor (x1: real, y1: real, x2: real, y2: real)
      requires CheckControls(x1, x2) == Pass
      ensures this.x1 == x1 && this.y1 == y1 && this.x2 == x2 && this.y2 == y2 && table == []
    {
      this.x1, this.y1, this.x2, this.y2 := x1, y1, x2, y2;
      table := [];
    }

    /** `build(steps)`: the loop pushes steps + 1 rows after whatever rows
        earlier calls left in the shared array. */
    method Build(steps: int)
      modifies this
      ensures table == old(table) + Rows(x1, y1, x2, y2, steps)
    {
      ghost var before := table;
      var i := 0;
      while i <= steps
        invariant 0 <= i && (steps >= 0 ==> i <= steps + 1)
        invariant steps < 0 ==> i == 0
        invariant table == before + seq(i, k => RowAt(x1, y1, x2, y2, k, steps))
      {
        var row := if steps == 0 then Row(NaN, NaN)
          else Row(Fin(Pos(x1, x2, i as real / steps as real)), Fin(Pos(y1, y2, i as real / steps as real)));
        table := table + [row];
        i := i + 1;
      }
    }

    /** The lookup, reading the shared array as it is now. */
    function Lookup(x: real): Result<Num, EasingError>
      reads this
    {
      LookupIn(table, x)
    }
  }

  /** `bezier(x1, y1, x2, y2)`: the checks, then a builder over an empty
      shared table. */
  method NewBezier(x1: real, y1: real, x2: real, y2: real) returns (r: Result<Bezier, EasingError>)
    ensures CheckControls(x1, x2).Fail? ==> r == Err(CheckControls(x1, x2).error)
    ensures CheckControls(x1, x2) == Pass ==>
      r.Ok? && fresh(r.value) && r.value.table == [] &&
      r.value.x1 == x1 && r.value.y1 == y1 && r.value.x2 == x2 && r.value.y2 == y2
  {
    var check := CheckControls(x1, x2);
    if check.Fail? {
      return Err(check.error);
    }
    var b := new Bezier(x1, y1, x2, y2);
    return Ok(b);
  }

  /** A second build appends behind the first, so after two builds the
      abscissas run 0 .. 1 twice and the table is no longer increasing. */
  lemma SecondBuildAppends(x1: real, y1: real, x2: real, y2: real, s1: int, s2: int)
    requires s1 >= 1 && s2 >= 1
    ensures var T := Rows(x1, y1, x2, y2, s1) + Rows(x1, y1, x2, y2, s2);
      |T| == s1 + s2 + 2 && T[s1] == Row(Fin(1.0), Fin(1.0)) && T[s1 + 1] == Row(Fin(0.0), Fin(0.0)) &&
      !Increasing(T)
  {
    var T := Rows(x1, y1, x2, y2, s1) + Rows(x1, y1, x2, y2, s2);
    assert T[s1] == Row(Fin(1.0), Fin(1.0)) && T[s1 + 1] == Row(Fin(0.0), Fin(0.0));
  }
}
