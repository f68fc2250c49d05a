/** The triangle buffers of src/objects.

    `PositionedObject` keeps its vertex positions in the Float32Array
    `_tris`, and `TexPositionedObject` keeps its texture coordinates in
    `_uvmap`.  Both buffers hold six floats per triangle (x and y of each
    corner), and both classes read, overwrite, append and delete triangles.
    Writes go into the buffer in place, while append and delete allocate a
    new zero-filled buffer and copy into it.

    `TexPositionedObject` counts triangles as `byteLength / 24` (floats / 6).
    `PositionedObject` counts them as `_vertsCount / 2`, where
    `_vertsCount` is `byteLength / 8` (floats / 2), so its count is
    floats / 4.  Both are modelled here as written.  The typed-array
    offsets and lengths follow JavaScript: a length is truncated toward
    zero, and a negative length or a range past the end throws a
    `RangeError`. */
module Buffers {
  import opened Numerics
  import opened Vectors

  /** `Tri2<GLfloat>`: three corners. */
  datatype Tri = Tri(p: Vec2, q: Vec2, r: Vec2)

  /** The `RangeError` a typed array throws for a bad length or range. */
  datatype BufferError = RangeError

  /** `triangle.flat(2)`. */
  function Flat(t: Tri): (r: seq<real>)
    ensures |r| == 6
  {
    [t.p.x, t.p.y, t.q.x, t.q.y, t.r.x, t.r.y]
  }

  /** `tris.flat(2)`: a list of triangles laid out end to end. */
  function FlatAll(ts: seq<Tri>): (r: seq<real>)
    ensures |r| == 6 * |ts|
  {
    if |ts| == 0 then [] else FlatAll(ts[..|ts| - 1]) + Flat(ts[|ts| - 1])
  }

  /** The triangle whose six floats start at offset `at`. */
  function TriAt(buf: seq<real>, at: int): Tri
    requires 0 <= at && at + 6 <= |buf|
  {
    Tri(Vec2(buf[at], buf[at + 1]), Vec2(buf[at + 2], buf[at + 3]), Vec2(buf[at + 4], buf[at + 5]))
  }

  /** A buffer of whole triangles, read triangle by triangle. */
  function Triangles(buf: seq<real>): (r: seq<Tri>)
    requires |buf| % 6 == 0
    ensures |r| == |buf| / 6
  {
    seq(|buf| / 6, i requires 0 <= i < |buf| / 6 => TriAt(buf, 6 * i))
  }

  /** A fresh Float32Array of `n` elements is zero-filled. */
  function Zeros(n: nat): (r: seq<real>)
    ensures |r| == n && forall i :: 0 <= i < n ==> r[i] == 0.0
  {
    seq(n, _ => 0.0)
  }

  /** The contents after `set(vals, at)` on a typed array. */
  function Overwrite(buf: seq<real>, vals: seq<real>, at: int): (r: seq<real>)
    requires 0 <= at && at + |vals| <= |buf|
    ensures |r| == |buf| && r[at..at + |vals|] == vals
    ensures forall i :: 0 <= i < |buf| && !(at <= i < at + |vals|) ==> r[i] == buf[i]
  {
    buf[..at] + vals + buf[at + |vals|..]
  }

  /** ToIndex of a typed-array length: truncation toward zero, and a
      RangeError below zero. */
  function ToIndex(x: real): (r: Result<nat, BufferError>)
    ensures r.Ok? <==> x > -1.0
    ensures r.Ok? ==> x - 1.0 < r.value as real <= (if x >= 0.0 then x else 0.0)
  {
    if x <= -1.0 then Err(RangeError)
    else if x >= 0.0 then Ok(x.Floor)
    else Ok(0)
  }

  /** `new Float32Array(buffer, 24 * id, 6)` read as a triangle: the view
      throws when it would start before the buffer or run past its end. */
  function ReadTri(buf: seq<real>, id: int): (r: Result<Tri, BufferError>)
    ensures r.Ok? <==> 0 <= id && 6 * id + 6 <= |buf|
    ensures r.Ok? ==> Flat(r.value) == buf[6 * id..6 * id + 6]
  {
    if id < 0 || 6 * id + 6 > |buf| then Err(RangeError) else Ok(TriAt(buf, 6 * id))
  }

  /** Reading back what `tris.flat(2)` laid out gives the same triangles. */
  lemma {:induction false} FlatAllRoundTrip(ts: seq<Tri>)
    ensures Triangles(FlatAll(ts)) == ts
    decreases |ts|
  {
    if |ts| > 0 {
      var init := ts[..|ts| - 1];
      FlatAllRoundTrip(init);
      AppendTriangle(FlatAll(init), ts[|ts| - 1]);
    }
  }

  /** Appending six floats appends one triangle. */
  lemma AppendTriangle(buf: seq<real>, t: Tri)
    requires |buf| % 6 == 0
    ensures Triangles(buf + Flat(t)) == Triangles(buf) + [t]
  {
    var n := |buf| / 6;
    forall i | 0 <= i < n
      ensures Triangles(buf + Flat(t))[i] == Triangles(buf)[i]
    {
      assert (buf + Flat(t))[6 * i..6 * i + 6] == buf[6 * i..6 * i + 6];
    }
    assert Triangles(buf + Flat(t))[n] == t;
  }

  /** Overwriting the six floats of triangle `id` replaces that triangle
      and no other. */
  lemma OverwriteTriangle(buf: seq<real>, id: int, t: Tri)
    requires |buf| % 6 == 0 && 0 <= id < |buf| / 6
    ensures Triangles(Overwrite(buf, Flat(t), 6 * id)) == Triangles(buf)[id := t]
  {
    var after := Overwrite(buf, Flat(t), 6 * id);
    forall i | 0 <= i < |buf| / 6
      ensures Triangles(after)[i] == Triangles(buf)[id := t][i]
    {
      if i != id {
        assert after[6 * i..6 * i + 6] == buf[6 * i..6 * i + 6];
      } else {
        assert after[6 * i..6 * i + 6] == Flat(t);
      }
    }
  }

  /** Cutting out the six floats of triangle `id` removes that triangle,
      and the later ones move down by one. */
  lemma CutTriangle(buf: seq<real>, id: int)
    requires |buf| % 6 == 0 && 0 <= id < |buf| / 6
    ensures |buf[..6 * id] + buf[6 * id + 6..]| % 6 == 0
    ensures Triangles(buf[..6 * id] + buf[6 * id + 6..]) == Triangles(buf)[..id] + Triangles(buf)[id + 1..]
  {
    var n := |buf| / 6;
    var cut := buf[..6 * id] + buf[6 * id + 6..];
    assert |buf| == 6 * n;
    assert |cut| == 6 * (n - 1);
    var kept := Triangles(buf)[..id] + Triangles(buf)[id + 1..];
    forall i | 0 <= i < n - 1
      ensures Triangles(cut)[i] == kept[i]
    {
      if i < id {
        CutBefore(buf, id, i);
      } else {
        CutAfter(buf, id, i);
      }
    }
  }

  /** A triangle before the cut keeps its floats. */
  lemma CutBefore(buf: seq<real>, id: int, i: int)
    requires 0 <= i < id && 6 * id + 6 <= |buf|
    ensures (buf[..6 * id] + buf[6 * id + 6..])[6 * i..6 * i + 6] == buf[6 * i..6 * i + 6]
  {
  }

  /** A triangle after the cut takes the floats of the next one. */
  lemma CutAfter(buf: seq<real>, id: int, i: int)
    requires 0 <= id <= i && 6 * i + 12 <= |buf|
    ensures (buf[..6 * id] + buf[6 * id + 6..])[6 * i..6 * i + 6] == buf[6 * i + 6..6 * i + 12]
  {
  }

  /** `TypedArray.prototype.set(vals, at)` once the range is known to fit. */
  method Write(dst: array<real>, vals: seq<real>, at: int)
    requires 0 <= at && at + |vals| <= dst.Length
    modifies dst
    ensures dst[..] == Overwrite(old(dst[..]), vals, at)
  {
    var i := 0;
    while i < |vals|
      invariant 0 <= i <= |vals|
      invariant dst[..] == old(dst[..])[..at] + vals[..i] + old(dst[..])[at + i..]
    {
      dst[at + i] := vals[i];
      i := i + 1;
    }
  }

  /** `TypedArray.prototype.set(vals, at)`: a range that does not fit throws
      and writes nothing. */
  method Set(dst: array<real>, vals: seq<real>, at: int) returns (r: Outcome<BufferError>)
    modifies dst
    ensures r.Pass? <==> 0 <= at && at + |vals| <= dst.Length
    ensures r.Pass? ==> dst[..] == Overwrite(old(dst[..]), vals, at)
    ensures r.Fail? ==> dst[..] == old(dst[..])
  {
    if at < 0 || at + |vals| > dst.Length {
      return Fail(RangeError);
    }
    Write(dst, vals, at);
    r := Pass;
  }

  /** `Float32Array.from(values)`. */
  method FromSeq(values: seq<real>) returns (a: array<real>)
    ensures fresh(a) && a[..] == values
  {
    a := new real[|values|](i requires 0 <= i < |values| => values[i]);
  }

  class TexPositionedObject {
    /** `_uvmap`. */
    var uvmap: array<real>

    /** The map was built from whole triangles and stays that way. */
    ghost predicate Valid()
      reads this
    {
      uvmap.Length % 6 == 0
    }

    /** `byteLength / 24`: the number of triangles. */
    function Count(): int
      reads this
    {
      uvmap.Length / 6
    }

    /** The map as triangles. */
    function UVTriangles(): seq<Tri>
      requires Valid()
      reads this, uvmap
    {
      Triangles(uvmap[..])
    }

    /** The texture-coordinate part of the constructor:
        `Float32Array.from(uvmap.flat(2))`. */
    constructor (uvmap: seq<Tri>)
      ensures Valid() && fresh(this.uvmap) && UVTriangles() == uvmap
    {
      var a := FromSeq(FlatAll(uvmap));
      this.uvmap := a;
      new;
      FlatAllRoundTrip(uvmap);
    }

    /** `getUVTriangle(id)`. */
    function GetUVTriangle(id: int): (r: Result<Tri, BufferError>)
      reads this, uvmap
      ensures r.Ok? <==> 0 <= id && 6 * id + 6 <= uvmap.Length
    {
      ReadTri(uvmap[..], id)
    }

    /** `setUVTriangle(id, triangle)`: an id outside [0, count) gives false
        and changes nothing; otherwise the triangle's six floats are
        overwritten, and reading it back gives the triangle. */
    method SetUVTriangle(id: int, t: Tri) returns (ok: bool)
      requires Valid()
      modifies uvmap
      ensures Valid()
      ensures ok <==> 0 <= id < Count()
      ensures ok ==> uvmap[..] == Overwrite(old(uvmap[..]), Flat(t), 6 * id)
      ensures ok ==> UVTriangles() == old(UVTriangles())[id := t] && GetUVTriangle(id) == Ok(t)
      ensures !ok ==> uvmap[..] == old(uvmap[..])
    {
      if id < 0 || id as real >= uvmap.Length as real / 6.0 {
        return false;
      }
      Write(uvmap, Flat(t), id * 6);
      OverwriteTriangle(old(uvmap[..]), id, t);
      assert uvmap[6 * id..6 * id + 6] == Flat(t);
      ok := true;
    }

    /** `addUVTriangle(triangle)`: a buffer one triangle longer holding the
        old floats and then the new triangle; the result is its index. */
    method AddUVTriangle(t: Tri) returns (index: int)
      requires Valid()
      modifies this
      ensures Valid() && fresh(uvmap)
      ensures uvmap[..] == old(uvmap[..]) + Flat(t)
      ensures UVTriangles() == old(UVTriangles()) + [t]
      ensures index == old(Count())
    {
      var arr := new real[(Count() + 1) * 6](_ => 0.0);
      Write(arr, uvmap[..], 0);
      Write(arr, Flat(t), uvmap.Length);
      assert arr[..] == old(uvmap[..]) + Flat(t);
      AppendTriangle(old(uvmap[..]), t);
      uvmap := arr;
      index := uvmap.Length / 6 - 1;
    }

    /** `removeUVTriangle(id)`: an id outside [0, count) gives false and
        changes nothing; otherwise the triangle is cut out and the later ones
        move down by one. */
    method RemoveUVTriangle(id: int) returns (ok: bool)
      requires Valid()
      modifies this
      ensures Valid()
      ensures ok <==> 0 <= old(Count()) && 0 <= id < old(Count())
      ensures ok ==> uvmap[..] == old(uvmap[..])[..6 * id] + old(uvmap[..])[6 * id + 6..]
      ensures ok ==> UVTriangles() == old(UVTriangles())[..id] + old(UVTriangles())[id + 1..]
      ensures !ok ==> uvmap == old(uvmap) && uvmap[..] == old(uvmap[..])
    {
      if id < 0 || id as real >= uvmap.Length as real / 6.0 {
        return false;
      }
      var count := Count();
      var arr := new real[(count - 1) * 6](_ => 0.0);
      Write(arr, uvmap[..6 * id], 0);
      Write(arr, uvmap[6 * (id + 1)..6 * (id + 1) + (count - 1 - id) * 6], 6 * id);
      assert arr[..] == old(uvmap[..])[..6 * id] + old(uvmap[..])[6 * id + 6..];
      CutTriangle(old(uvmap[..]), id);
      uvmap := arr;
      ok := true;
    }
  }

  /** `setTriangle(id, …)` as written, on a buffer of `floats` floats: the
      bound is `_vertsCount / 2` = floats / 4, and an id past the last whole
      triangle makes the typed array throw. */
  function SetAsWritten(floats: nat, id: int): Result<bool, BufferError>
  {
    if id < 0 || id as real >= floats as real / 2.0 / 2.0 then Ok(false)
    else if 6 * id + 6 > floats then Err(RangeError)
    else Ok(true)
  }

  /** `addTriangle(triangle)` as written: the new buffer has
      `(_vertsCount / 2 + 1) * 6` floats, the old ones and then the triangle
      at offset `_vertsCount * 2`; the rest stays zero, and the result is
      the new `_vertsCount / 2 - 1`. */
  function AddAsWritten(buf: seq<real>, t: Tri): (r: (seq<real>, real))
    ensures r.0 == buf + Flat(t) + Zeros(|buf| / 2)
    ensures r.1 == |r.0| as real / 4.0 - 1.0
  {
    var n := |buf| + 6 + |buf| / 2;
    (buf + Flat(t) + Zeros(|buf| / 2), n as real / 4.0 - 1.0)
  }

  /** `removeTriangle(id)` as written, on the float contents: `Ok(false)`
      for an id the bound rejects, `Ok(true)` once every typed-array step
      has gone through, or the RangeError of the step that throws. */
  function RemoveAsWritten(buf: seq<real>, id: int): Result<bool, BufferError>
  {
    var count := |buf| as real / 2.0 / 2.0;
    if id < 0 || id as real >= count then Ok(false)
    else
      match ToIndex((count - 1.0) * 6.0)
      case Err(e) => Err(e)
      case Ok(n) =>
        if View(buf, 0, 6 * id).Err? || 6 * id > n then Err(RangeError)
        else
          match ToIndex((count - 1.0 - id as real) * 6.0)
          case Err(e) => Err(e)
          case Ok(len) =>
            if View(buf, 6 * (id + 1), len).Err? || 6 * id + len > n then Err(RangeError)
            else Ok(true)
  }

  /** `new Float32Array(buffer, 4 * at, len)`: a view that starts before
      the buffer or runs past its end throws. */
  function View(buf: seq<real>, at: int, len: int): (r: Result<seq<real>, BufferError>)
    ensures r.Ok? <==> 0 <= at && 0 <= len && at + len <= |buf|
    ensures r.Ok? ==> r.value == buf[at..at + len]
  {
    if at < 0 || len < 0 || at + len > |buf| then Err(RangeError) else Ok(buf[at..at + len])
  }

  /** The floor in `addTriangle`'s length: `(floats / 4 + 1) * 6` truncates
      to floats + 6 + floats / 2. */
  lemma AddLength(floats: nat)
    ensures ToIndex((floats as real / 2.0 / 2.0 + 1.0) * 6.0) == Ok(floats + 6 + floats / 2)
  {
    var x := (floats as real / 2.0 / 2.0 + 1.0) * 6.0;
    var h, m := floats / 2, floats % 2;
    var c := floats + 6 + h;
    assert floats == 2 * h + m && 0 <= m < 2;
    assert x == 1.5 * floats as real + 6.0;
    assert x == c as real + 0.5 * m as real;
    assert c as real <= x < c as real + 1.0;
  }

  /** On a buffer of whole triangles, any id from the last whole triangle
      up to floats / 4 passes `setTriangle`'s bound and then throws. */
  lemma SetPastLastThrows(n: nat)
    requires n >= 1
    ensures SetAsWritten(6 * n, n) == Err(RangeError)
  {
  }

  /** Adding to a buffer of one triangle leaves three zero floats after the
      new triangle and returns 2.75; adding to an empty one returns 0.5. */
  lemma AddPadsAndMisnumbers(t: Tri, u: Tri)
    ensures |AddAsWritten(Flat(t), u).0| == 15
    ensures AddAsWritten(Flat(t), u).1 == 2.75
    ensures AddAsWritten([], u).1 == 0.5
  {
  }

  /** `removeTriangle` never completes: an id is either rejected or one of
      the typed-array steps throws. */
  lemma RemoveNeverCompletes(buf: seq<real>, id: int)
    ensures RemoveAsWritten(buf, id) != Ok(true)
  {
  }

  class PositionedObject {
    /** `_tris`. */
    var tris: array<real>
    /** `_vertsCount`. */
    var vertsCount: real

    /** `updateTriangles` has run since the last change of `_tris`. */
    ghost predicate Valid()
      reads this
    {
      vertsCount == tris.Length as real / 2.0
    }

    /** The triangle part of the constructor: `Float32Array.from(tris.flat(2))`,
        then `updateTriangles`. */
    constructor (tris: seq<Tri>)
      ensures Valid() && fresh(this.tris) && this.tris[..] == FlatAll(tris) && Triangles(this.tris[..]) == tris
      ensures vertsCount == 3.0 * |tris| as real
    {
      var a := FromSeq(FlatAll(tris));
      this.tris := a;
      vertsCount := a.Length as real / 2.0;
      new;
      FlatAllRoundTrip(tris);
    }

    /** `updateTriangles`: `_vertsCount = byteLength / 8`. */
    method UpdateTriangles()
      modifies this
      ensures Valid() && tris == old(tris)
    {
      vertsCount := tris.Length as real / 2.0;
    }

    /** `getTriangle(id)`. */
    function GetTriangle(id: int): (r: Result<Tri, BufferError>)
      reads this, tris
      ensures r.Ok? <==> 0 <= id && 6 * id + 6 <= tris.Length
    {
      ReadTri(tris[..], id)
    }

    /** `setTriangle(id, triangle)` as written. */
    method SetTriangle(id: int, t: Tri) returns (r: Result<bool, BufferError>)
      requires Valid()
      modifies tris
      ensures Valid()
      ensures r == SetAsWritten(tris.Length, id)
      ensures r == Ok(true) ==> tris[..] == Overwrite(old(tris[..]), Flat(t), 6 * id) && GetTriangle(id) == Ok(t)
      ensures r != Ok(true) ==> tris[..] == old(tris[..])
    {
      if id < 0 || id as real >= vertsCount / 2.0 {
        return Ok(false);
      }
      var written := Set(tris, Flat(t), id * 6);
      if written.Fail? {
        return Err(RangeError);
      }
      assert tris[6 * id..6 * id + 6] == Flat(t);
      r := Ok(true);
    }

    /** `addTriangle(triangle)` as written. */
    method AddTriangle(t: Tri) returns (index: real)
      requires Valid()
      modifies this
      ensures Valid() && fresh(tris)
      ensures (tris[..], index) == AddAsWritten(old(tris[..]), t)
    {
      var length := ToIndex((vertsCount / 2.0 + 1.0) * 6.0);
      AddLength(tris.Length);
      var arr := new real[length.value](_ => 0.0);
      Write(arr, tris[..], 0);
      Write(arr, Flat(t), (vertsCount * 2.0).Floor);
      assert arr[..] == old(tris[..]) + Flat(t) + Zeros(old(tris.Length) / 2);
      tris := arr;
      UpdateTriangles();
      index := vertsCount / 2.0 - 1.0;
    }

    /** `removeTriangle(id)` as written.  The steps are those of
        `RemoveAsWritten`.  The view of the later triangles never fits: it
        starts at float 6·(id + 1) and is (floats/4 − 1 − id)·6 floats long,
        which overruns the buffer for every id the bound admits.  So the
        copy into the new buffer and the replacement of `_tris` are never
        reached, and the buffer never changes. */
    method RemoveTriangle(id: int) returns (r: Result<bool, BufferError>)
      requires Valid()
      modifies this
      ensures Valid() && tris == old(tris) && tris[..] == old(tris[..])
      ensures r == RemoveAsWritten(tris[..], id) && r != Ok(true)
    {
      var count := vertsCount / 2.0;
      if id < 0 || id as real >= count {
        return Ok(false);
      }
      var length := ToIndex((count - 1.0) * 6.0);
      if length.Err? {
        return Err(RangeError);
      }
      var arr := new real[length.value](_ => 0.0);
      var head := View(tris[..], 0, 6 * id);
      if head.Err? {
        return Err(RangeError);
      }
      assert |tris[..]| == tris.Length && arr.Length == length.value;
      var first := Set(arr, head.value, 0);
      if first.Fail? {
        return Err(RangeError);
      }
      var tailLength := ToIndex((count - 1.0 - id as real) * 6.0);
      if tailLength.Err? {
        return Err(RangeError);
      }
      var tail := View(tris[..], 6 * (id + 1), tailLength.value);
      if tail.Err? {
        return Err(RangeError);
      }
      assert false;
    }
  }
}
