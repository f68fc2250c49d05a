/** `Matrix3` of src/math/Matrix3.ts: a 3x3 matrix kept as nine numbers in
    column-major order, so that cell (column c, row r) is number `c * 3 + r`.

    The nine numbers are an `array` that `set` and `transpose` overwrite in
    place; `sum`, `mult` and `copy` return a new matrix.  What each of them
    computes is stated against functions on the cell sequence (`Product`,
    `Transposed`, `SumCells`), whose algebra is proved separately. */
module Matrices {
  import opened Numerics

  /** The nine cells of a matrix, column after column. */
  type Cells = s: seq<real> | |s| == 9 witness [1.0, 0.0, 0.0, 0.0, 1.0, 0.0, 0.0, 0.0, 1.0]

  /** The constructor's default: the identity matrix. */
  const IdentityCells: Cells := [1.0, 0.0, 0.0, 0.0, 1.0, 0.0, 0.0, 0.0, 1.0]

  /** Cell (column `c`, row `r`) of a matrix. */
  function At(a: Cells, c: int, r: int): real
    requires 0 <= c < 3 && 0 <= r < 3
  {
    a[c * 3 + r]
  }

  /** Row `r` of `a` times column `c` of `b`. */
  function Entry(a: Cells, b: Cells, c: int, r: int): real
    requires 0 <= c < 3 && 0 <= r < 3
  {
    At(a, 0, r) * At(b, c, 0) + At(a, 1, r) * At(b, c, 1) + At(a, 2, r) * At(b, c, 2)
  }

  /** The matrix product `a * b`, column-major. */
  function Product(a: Cells, b: Cells): Cells
  {
    seq(9, n requires 0 <= n < 9 => Entry(a, b, n / 3, n % 3))
  }

  /** The transpose: cell (c, r) of the result is cell (r, c) of `a`. */
  function Transposed(a: Cells): Cells
  {
    [a[0], a[3], a[6], a[1], a[4], a[7], a[2], a[5], a[8]]
  }

  /** Cell-wise sum of two matrices. */
  function AddCells(a: Cells, b: Cells): Cells
  {
    seq(9, i requires 0 <= i < 9 => a[i] + b[i])
  }

  /** `a` plus every matrix of `ms`, added in order. */
  function SumCells(a: Cells, ms: seq<Cells>): Cells
    decreases |ms|
  {
    if |ms| == 0 then a else AddCells(SumCells(a, ms[..|ms| - 1]), ms[|ms| - 1])
  }

  lemma ProductAt(a: Cells, b: Cells, c: int, r: int)
    requires 0 <= c < 3 && 0 <= r < 3
    ensures At(Product(a, b), c, r) == Entry(a, b, c, r)
  {
    assert (c * 3 + r) / 3 == c && (c * 3 + r) % 3 == r;
  }

  lemma TransposedAt(a: Cells, c: int, r: int)
    requires 0 <= c < 3 && 0 <= r < 3
    ensures Transposed(a)[c * 3 + r] == a[r * 3 + c]
  {
  }

  /** The identity is neutral on both sides of the product. */
  lemma ProductIdentity(a: Cells)
    ensures Product(IdentityCells, a) == a
    ensures Product(a, IdentityCells) == a
  {
    forall c, r | 0 <= c < 3 && 0 <= r < 3
      ensures At(Product(IdentityCells, a), c, r) == At(a, c, r)
      ensures At(Product(a, IdentityCells), c, r) == At(a, c, r)
    {
      ProductAt(IdentityCells, a, c, r);
      ProductAt(a, IdentityCells, c, r);
    }
    SameCells(Product(IdentityCells, a), a);
    SameCells(Product(a, IdentityCells), a);
  }

  /** One cell of `(a b) c` equals the same cell of `a (b c)`. */
  lemma EntryAssociative(a: Cells, b: Cells, m: Cells, c: int, r: int)
    requires 0 <= c < 3 && 0 <= r < 3
    ensures Entry(Product(a, b), m, c, r) == Entry(a, Product(b, m), c, r)
  {
    ExpandLeft(a, b, m, c, r);
    Regroup(a, b, m, c, r);
    ExpandRight(a, b, m, c, r);
  }

  lemma ExpandLeft(a: Cells, b: Cells, m: Cells, c: int, r: int)
    requires 0 <= c < 3 && 0 <= r < 3
    ensures Entry(Product(a, b), m, c, r)
      == Entry(a, b, 0, r) * At(m, c, 0) + Entry(a, b, 1, r) * At(m, c, 1) + Entry(a, b, 2, r) * At(m, c, 2)
  {
    ProductAt(a, b, 0, r);
    ProductAt(a, b, 1, r);
    ProductAt(a, b, 2, r);
  }

  lemma Regroup(a: Cells, b: Cells, m: Cells, c: int, r: int)
    requires 0 <= c < 3 && 0 <= r < 3
    ensures Entry(a, b, 0, r) * At(m, c, 0) + Entry(a, b, 1, r) * At(m, c, 1) + Entry(a, b, 2, r) * At(m, c, 2)
         == At(a, 0, r) * Entry(b, m, c, 0) + At(a, 1, r) * Entry(b, m, c, 1) + At(a, 2, r) * Entry(b, m, c, 2)
  {
    Distribute(At(a, 0, r), At(a, 1, r), At(a, 2, r),
               At(b, 0, 0), At(b, 0, 1), At(b, 0, 2),
               At(b, 1, 0), At(b, 1, 1), At(b, 1, 2),
               At(b, 2, 0), At(b, 2, 1), At(b, 2, 2),
               At(m, c, 0), At(m, c, 1), At(m, c, 2));
  }

  lemma ExpandRight(a: Cells, b: Cells, m: Cells, c: int, r: int)
    requires 0 <= c < 3 && 0 <= r < 3
    ensures Entry(a, Product(b, m), c, r)
      == At(a, 0, r) * Entry(b, m, c, 0) + At(a, 1, r) * Entry(b, m, c, 1) + At(a, 2, r) * Entry(b, m, c, 2)
  {
    ProductAt(b, m, c, 0);
    ProductAt(b, m, c, 1);
    ProductAt(b, m, c, 2);
  }

  /** The ring identity behind associativity, for one cell. */
  lemma Distribute(a0: real, a1: real, a2: real,
                   b00: real, b01: real, b02: real, b10: real, b11: real, b12: real,
                   b20: real, b21: real, b22: real, m0: real, m1: real, m2: real)
    ensures (a0 * b00 + a1 * b01 + a2 * b02) * m0 + (a0 * b10 + a1 * b11 + a2 * b12) * m1
          + (a0 * b20 + a1 * b21 + a2 * b22) * m2
         == a0 * (b00 * m0 + b10 * m1 + b20 * m2) + a1 * (b01 * m0 + b11 * m1 + b21 * m2)
          + a2 * (b02 * m0 + b12 * m1 + b22 * m2)
  {
  }

  /** The product is associative. */
  lemma ProductAssociative(a: Cells, b: Cells, m: Cells)
    ensures Product(Product(a, b), m) == Product(a, Product(b, m))
  {
    forall c, r | 0 <= c < 3 && 0 <= r < 3
      ensures At(Product(Product(a, b), m), c, r) == At(Product(a, Product(b, m)), c, r)
    {
      EntryAssociative(a, b, m, c, r);
      ProductAt(Product(a, b), m, c, r);
      ProductAt(a, Product(b, m), c, r);
    }
    SameCells(Product(Product(a, b), m), Product(a, Product(b, m)));
  }

  /** Transposing twice gives the original matrix back. */
  lemma TransposeInvolutive(a: Cells)
    ensures Transposed(Transposed(a)) == a
  {
  }

  /** Cells `lo..hi` of `s` after the negative-index and clamping rules of a
      typed array's `subarray(lo, hi)`. */
  function Subarray(s: seq<real>, lo: int, hi: int): (r: seq<real>)
    ensures 0 <= lo <= hi <= |s| ==> r == s[lo..hi]
    ensures |r| <= |s|
  {
    var b := if lo < 0 then Max0(|s| + lo) else Min0(lo, |s|);
    var e := if hi < 0 then Max0(|s| + hi) else Min0(hi, |s|);
    if b < e then s[b..e] else []
  }

  function Max0(n: int): (r: nat) { if n < 0 then 0 else n }

  function Min0(n: nat, m: nat): (r: nat)
    ensures r <= n && r <= m
  {
    if n <= m then n else m
  }

  /** The argument lists `set` accepts. */
  datatype SetArgs =
    | CellArgs(col: int, row: int, value: real)   // set(col, row, value)
    | ColumnArgs(col: int, values: seq<real>)     // set(col, [v0, v1, v2])
    | WholeArgs(columns: seq<seq<real>>)          // set([[..], [..], [..]])
    | Malformed                                   // anything else

  /** Errors `set` raises. */
  datatype SetError = InvalidData | RangeError

  /** The columns of a nested array, flattened in order. */
  function Flat(columns: seq<seq<real>>): seq<real>
    decreases |columns|
  {
    if |columns| == 0 then [] else Flat(columns[..|columns| - 1]) + columns[|columns| - 1]
  }

  /** The cells after writing `values` at `offset`, as a typed array's `set`
      does; `None` when it throws a RangeError. */
  function WriteAt(a: Cells, values: seq<real>, offset: int): (r: Option<Cells>)
    ensures r.Some? <==> 0 <= offset && offset + |values| <= 9
    ensures r.Some? ==> r.value[offset..offset + |values|] == values
    ensures r.Some? ==> r.value[..offset] == a[..offset]
    ensures r.Some? ==> r.value[offset + |values|..] == a[offset + |values|..]
  {
    if 0 <= offset && offset + |values| <= 9 then
      Some(a[..offset] + values + a[offset + |values|..])
    else
      None
  }

  /** What `set(args)` leaves in the cells, or the error it throws. */
  function Assigned(a: Cells, args: SetArgs): Result<Cells, SetError>
  {
    match args
    case CellArgs(c, r, v) =>
      var i := c * 3 + r;
      Ok(if 0 <= i < 9 then a[i := v] else a)
    case ColumnArgs(c, col) =>
      var w := WriteAt(a, col, c * 3);
      if w.Some? then Ok(w.value) else Err(RangeError)
    case WholeArgs(columns) =>
      var w := WriteAt(a, Flat(columns), 0);
      if w.Some? then Ok(w.value) else Err(RangeError)
    case Malformed => Err(InvalidData)
  }

  /** Setting one cell changes exactly that cell; an index outside the nine
      cells is ignored, as a typed array ignores it. */
  lemma SetCellSpec(a: Cells, c: int, r: int, v: real)
    ensures Assigned(a, CellArgs(c, r, v)).Ok?
    ensures 0 <= c < 3 && 0 <= r < 3 ==> At(Assigned(a, CellArgs(c, r, v)).value, c, r) == v
    ensures forall i :: 0 <= i < 9 && i != c * 3 + r ==> Assigned(a, CellArgs(c, r, v)).value[i] == a[i]
  {
  }

  /** Setting a column of three replaces exactly cells `3c..3c+2`. */
  lemma SetColumnSpec(a: Cells, c: int, col: seq<real>)
    requires 0 <= c < 3 && |col| == 3
    ensures Assigned(a, ColumnArgs(c, col)).Ok?
    ensures forall i :: 0 <= i < 9 ==>
      Assigned(a, ColumnArgs(c, col)).value[i] == if c * 3 <= i < c * 3 + 3 then col[i - c * 3] else a[i]
  {
    var w := WriteAt(a, col, c * 3).value;
    forall i | 0 <= i < 9
      ensures w[i] == if c * 3 <= i < c * 3 + 3 then col[i - c * 3] else a[i]
    {
      if i < c * 3 {
        assert w[..c * 3][i] == a[..c * 3][i];
      } else if i < c * 3 + 3 {
        assert w[c * 3..c * 3 + 3][i - c * 3] == col[i - c * 3];
      } else {
        assert w[c * 3 + 3..][i - c * 3 - 3] == a[c * 3 + 3..][i - c * 3 - 3];
      }
    }
  }

  /** Arguments that are neither a number value nor arrays raise
      'Invalid data' and nothing is written. */
  lemma SetMalformedSpec(a: Cells)
    ensures Assigned(a, Malformed) == Err(InvalidData)
  {
  }

  class Matrix3 {
    const data: array<real>

    ghost predicate Valid()
    {
      data.Length == 9
    }

    function Cells(): Cells
      requires Valid()
      reads data
    {
      data[..]
    }

    /** `new Matrix3()`: the identity. */
    constructor Identity()
      ensures Valid() && fresh(data)
      ensures Cells() == IdentityCells
    {
      data := new real[9] [1.0, 0.0, 0.0, 0.0, 1.0, 0.0, 0.0, 0.0, 1.0];
    }

    /** `new Matrix3(data)`: the given nine cells, in fresh storage. */
    constructor FromCells(cells: Cells)
      ensures Valid() && fresh(data)
      ensures Cells() == cells
    {
      data := new real[9](i requires 0 <= i < 9 => cells[i]);
    }

    /** `get(col, row)`: the cell, or `undefined` (None) when the index
        `col * 3 + row` lies outside the nine cells. */
    method Get(c: int, r: int) returns (v: Option<real>)
      requires Valid()
      ensures 0 <= c * 3 + r < 9 ==> v == Some(data[c * 3 + r])
      ensures !(0 <= c * 3 + r < 9) ==> v == None
      ensures 0 <= c < 3 && 0 <= r < 3 ==> v == Some(At(Cells(), c, r))
    {
      var i := c * 3 + r;
      if 0 <= i < 9 {
        v := Some(data[i]);
      } else {
        v := None;
      }
    }

    /** `get(col)`: a copy of `subarray(col * 3, col * 3 + 3)`. */
    method GetColumn(c: int) returns (col: seq<real>)
      requires Valid()
      ensures col == Subarray(Cells(), c * 3, c * 3 + 3)
      ensures 0 <= c < 3 ==> col == [At(Cells(), c, 0), At(Cells(), c, 1), At(Cells(), c, 2)]
    {
      col := Subarray(data[..], c * 3, c * 3 + 3);
    }

    /** `get()`: the three columns. */
    method GetAll() returns (columns: seq<seq<real>>)
      requires Valid()
      ensures |columns| == 3
      ensures forall c :: 0 <= c < 3 ==> columns[c] == Cells()[c * 3..c * 3 + 3]
      ensures Flat(columns) == Cells()
    {
      columns := [data[0..3], data[3..6], data[6..9]];
      assert columns[..2][..1] == [data[0..3]] && columns[..2] == [data[0..3], data[3..6]];
      assert Flat([data[0..3]]) == data[0..3] by {
        assert [data[0..3]][..0] == [];
      }
      assert Flat(columns) == data[0..3] + data[3..6] + data[6..9];
    }

    /** `set(...)`: writes the cells in place and returns the matrix itself;
        a RangeError or 'Invalid data' is returned as a failure with the
        cells unchanged. */
    method Set(args: SetArgs) returns (r: Outcome<SetError>)
      requires Valid()
      modifies data
      ensures Assigned(old(Cells()), args).Ok? ==> r.Pass? && Cells() == Assigned(old(Cells()), args).value
      ensures Assigned(old(Cells()), args).Err? ==>
        r == Fail(Assigned(old(Cells()), args).error) && Cells() == old(Cells())
    {
      match args {
        case CellArgs(c, row, v) =>
          var i := c * 3 + row;
          if 0 <= i < 9 {
            data[i] := v;
          }
          r := Pass;
        case ColumnArgs(c, col) =>
          r := WriteCells(col, c * 3);
        case WholeArgs(columns) =>
          r := WriteCells(Flat(columns), 0);
        case Malformed =>
          r := Fail(InvalidData);
      }
    }

    /** A typed array's `set(values, offset)`. */
    method WriteCells(values: seq<real>, offset: int) returns (r: Outcome<SetError>)
      requires Valid()
      modifies data
      ensures WriteAt(old(Cells()), values, offset).Some? ==>
        r.Pass? && Cells() == WriteAt(old(Cells()), values, offset).value
      ensures WriteAt(old(Cells()), values, offset).None? ==> r == Fail(RangeError) && Cells() == old(Cells())
    {
      if offset < 0 || offset + |values| > 9 {
        return Fail(RangeError);
      }
      ghost var before := data[..];
      var i := 0;
      while i < |values|
        invariant 0 <= i <= |values|
        invariant forall k :: 0 <= k < 9 ==>
          data[k] == if offset <= k < offset + i then values[k - offset] else before[k]
      {
        data[offset + i] := values[i];
        i := i + 1;
      }
      assert data[..] == before[..offset] + values + before[offset + |values|..];
      r := Pass;
    }

    /** `copy()`: equal cells in separate storage. */
    method Copy() returns (m: Matrix3)
      requires Valid()
      ensures m.Valid() && fresh(m) && fresh(m.data)
      ensures m.Cells() == Cells()
    {
      m := new Matrix3.FromCells(data[..]);
    }

    /** `sum(...ms)`: a new matrix holding the cell-wise sum; no operand is
        changed. */
    method Sum(ms: seq<Matrix3>) returns (m: Matrix3)
      requires Valid()
      requires forall k :: 0 <= k < |ms| ==> ms[k].Valid()
      ensures m.Valid() && fresh(m) && fresh(m.data)
      ensures m.Cells() == SumCells(Cells(), CellsOf(ms))
    {
      var ret: Cells := data[..];
      var k := 0;
      while k < |ms|
        invariant 0 <= k <= |ms|
        invariant ret == SumCells(Cells(), CellsOf(ms)[..k])
      {
        assert CellsOf(ms)[..k + 1][..k] == CellsOf(ms)[..k];
        var other := ms[k].data;
        var i := 0;
        ghost var acc := ret;
        while i < 9
          invariant 0 <= i <= 9
          invariant forall n :: 0 <= n < 9 ==> ret[n] == if n < i then acc[n] + other[n] else acc[n]
        {
          ret := ret[i := ret[i] + other[i]];
          i := i + 1;
        }
        assert ret == AddCells(acc, ms[k].Cells());
        k := k + 1;
      }
      assert CellsOf(ms)[..k] == CellsOf(ms);
      m := new Matrix3.FromCells(ret);
    }

    /** `mult(b)`: a new matrix holding the product `this * b`. */
    method Mult(b: Matrix3) returns (m: Matrix3)
      requires Valid() && b.Valid()
      ensures m.Valid() && fresh(m) && fresh(m.data)
      ensures m.Cells() == Product(Cells(), b.Cells())
    {
      var x := Cells();
      var y := b.Cells();
      var r: Cells := [0.0, 0.0, 0.0, 0.0, 0.0, 0.0, 0.0, 0.0, 0.0];
      var i := 0;
      while i < 3
        invariant 0 <= i <= 3
        invariant forall c, rr :: 0 <= c < 3 && 0 <= rr < 3 ==>
          At(r, c, rr) == if rr < i then Entry(x, y, c, rr) else 0.0
      {
        var j := 0;
        while j < 3
          invariant 0 <= j <= 3
          invariant forall c, rr :: 0 <= c < 3 && 0 <= rr < 3 ==>
            At(r, c, rr) == if rr < i || (rr == i && c < j) then Entry(x, y, c, rr) else 0.0
        {
          ghost var prev := r;
          r := r[j * 3 + i := x[i] * y[j * 3] + x[3 + i] * y[j * 3 + 1] + x[6 + i] * y[j * 3 + 2]];
          forall c, rr | 0 <= c < 3 && 0 <= rr < 3
            ensures At(r, c, rr) == if c == j && rr == i then Entry(x, y, c, rr) else At(prev, c, rr)
          {
            if c * 3 + rr == j * 3 + i {
              assert c == j && rr == i;
            }
          }
          j := j + 1;
        }
        i := i + 1;
      }
      forall c, rr | 0 <= c < 3 && 0 <= rr < 3
        ensures At(r, c, rr) == At(Product(x, y), c, rr)
      {
        ProductAt(x, y, c, rr);
      }
      SameCells(r, Product(x, y));
      m := new Matrix3.FromCells(r);
    }

    /** `transpose()`: transposes the cells in place and returns the matrix
        itself. */
    method Transpose() returns (self: Matrix3)
      requires Valid()
      modifies data
      ensures self == this && Valid()
      ensures Cells() == Transposed(old(Cells()))
    {
      var before := data[..];
      var i := 0;
      while i < 3
        invariant 0 <= i <= 3
        invariant forall c, rr :: 0 <= c < 3 && 0 <= rr < 3 ==>
          At(data[..], c, rr) == if c < i then At(before, rr, c) else At(before, c, rr)
      {
        var j := 0;
        while j < 3
          invariant 0 <= j <= 3
          invariant forall c, rr :: 0 <= c < 3 && 0 <= rr < 3 ==>
            At(data[..], c, rr) == if c < i || (c == i && rr < j) then At(before, rr, c) else At(before, c, rr)
        {
          data[i * 3 + j] := before[j * 3 + i];
          j := j + 1;
        }
        i := i + 1;
      }
      SameCells(data[..], Transposed(before));
      self := this;
    }
  }

  /** The cells of each matrix of a list. */
  ghost function CellsOf(ms: seq<Matrix3>): (r: seq<Cells>)
    requires forall k :: 0 <= k < |ms| ==> ms[k].Valid()
    reads set k | 0 <= k < |ms| :: ms[k].data
    ensures |r| == |ms|
    ensures forall k :: 0 <= k < |ms| ==> r[k] == ms[k].Cells()
    decreases |ms|
  {
    if |ms| == 0 then [] else CellsOf(ms[..|ms| - 1]) + [ms[|ms| - 1].Cells()]
  }

  /** Two cell sequences that agree at every (column, row) are equal. */
  lemma SameCells(a: Cells, b: Cells)
    requires forall c, r :: 0 <= c < 3 && 0 <= r < 3 ==> At(a, c, r) == At(b, c, r)
    ensures a == b
  {
    assert At(a, 0, 0) == At(b, 0, 0) && At(a, 0, 1) == At(b, 0, 1) && At(a, 0, 2) == At(b, 0, 2);
    assert At(a, 1, 0) == At(b, 1, 0) && At(a, 1, 1) == At(b, 1, 1) && At(a, 1, 2) == At(b, 1, 2);
    assert At(a, 2, 0) == At(b, 2, 0) && At(a, 2, 1) == At(b, 2, 1) && At(a, 2, 2) == At(b, 2, 2);
  }
}
