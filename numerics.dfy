/** Numeric conventions shared by the whole model.

    JavaScript numbers are modelled as `real`.  The transcendental functions of
    the `Math` object are not interpreted: they are fields of a `MathFns` value
    that every operation needing them receives as a parameter.  Where a
    property needs `Math.hypot` to behave like a Euclidean length, the lemma
    asks for `HypotLaw(M)`.  `Infinity` appears in the source in three roles,
    each modelled explicitly: an unbounded limit (`Bound`), an immovable mass
    (`Mass.Infinite`) and the `Number.isFinite` test (`Mass.Finite?`). */
module Numerics {

  /** A failure value of the modelled JavaScript code: a thrown `Error` or
      `RangeError`, identified by its message. */
  datatype Outcome<+E> = Pass | Fail(error: E)

  datatype Result<+T, +E> = Ok(value: T) | Err(error: E)

  datatype Option<+T> = None | Some(value: T)

  /** A JavaScript number that may be NaN; used where the source lets NaN
      through to its output. */
  datatype Num = NaN | Fin(v: real)

  function Min(a: real, b: real): real { if a <= b then a else b }

  function Max(a: real, b: real): real { if a >= b then a else b }

  /** `clamp` of src/math.ts: `Math.min(Math.max(min, value), max)`. */
  function Clamp(value: real, lo: real, hi: real): (r: real)
    ensures lo <= hi ==> lo <= r <= hi
    ensures lo <= value <= hi ==> r == value
    ensures value < lo <= hi ==> r == lo
    ensures lo <= hi < value ==> r == hi
    ensures hi < lo ==> r == hi
  {
    Min(Max(lo, value), hi)
  }

  /** Clamping is idempotent: clamping the clamped value again changes nothing. */
  lemma ClampIdempotent(value: real, lo: real, hi: real)
    ensures Clamp(Clamp(value, lo, hi), lo, hi) == Clamp(value, lo, hi)
  {
  }

  /** One side of a range whose default is an infinite bound (`-Infinity` for a
      minimum, `Infinity` for a maximum). */
  datatype Bound = Unbounded | Bounded(v: real)

  /** `lo > value` where an unbounded minimum is -Infinity. */
  predicate Exceeds(lo: Bound, value: real) { lo.Bounded? && lo.v > value }

  /** `hi < value` where an unbounded maximum is Infinity. */
  predicate FallsShort(hi: Bound, value: real) { hi.Bounded? && hi.v < value }

  /** `clamp(value, min, max)` with either side possibly infinite:
      `Math.max(-Infinity, v) == v` and `Math.min(v, Infinity) == v`. */
  function ClampBounds(value: real, lo: Bound, hi: Bound): (r: real)
    ensures lo.Unbounded? && hi.Unbounded? ==> r == value
    ensures !Exceeds(lo, value) && !FallsShort(hi, value) ==> r == value
    ensures lo.Bounded? && hi.Bounded? ==> r == Clamp(value, lo.v, hi.v)
    ensures hi.Bounded? && (lo.Bounded? ==> lo.v <= hi.v) ==> r <= hi.v
    ensures lo.Bounded? && (hi.Bounded? ==> lo.v <= hi.v) ==> lo.v <= r
  {
    var raised := if lo.Bounded? then Max(lo.v, value) else value;
    if hi.Bounded? then Min(raised, hi.v) else raised
  }

  /** The product of two positive numbers is positive. */
  lemma ProductPositive(a: real, b: real)
    requires a > 0.0 && b > 0.0
    ensures a * b > 0.0
  {
  }

  /** A product with a positive factor that is not positive has a
      non-positive other factor. */
  lemma FactorSign(a: real, b: real)
    requires b > 0.0 && a * b <= 0.0
    ensures a <= 0.0
  {
    if a > 0.0 {
      ProductPositive(a, b);
    }
  }

  /** A non-positive number times a positive one is not positive. */
  lemma ProductNonPositive(a: real, b: real)
    requires a <= 0.0 && b > 0.0
    ensures a * b <= 0.0
  {
    if a < 0.0 {
      ProductPositive(-a, b);
      assert (-a) * b == -(a * b);
    }
  }

  /** A positive number divided by a positive one is positive. */
  lemma QuotientPositive(a: real, b: real)
    requires a > 0.0 && b > 0.0
    ensures a / b > 0.0
  {
    var q := a / b;
    assert q * b == a;
    if q <= 0.0 {
      ProductNonPositive(q, b);
    }
  }

  /** Half of `2x / d` is `x / d`. */
  lemma HalfOfDouble(x: real, d: real)
    requires d > 0.0
    ensures x * 2.0 / d * 0.5 == x / d
  {
    var q := x / d;
    assert q * d == x;
    assert (2.0 * q) * d == x * 2.0;
  }

  type PosReal = r: real | r > 0.0 witness 1.0

  /** A body's mass: a positive number of kilograms or `Infinity`. */
  datatype Mass = Finite(kg: PosReal) | Infinite

  /** `1 / mass`, which JavaScript evaluates to 0 for `Infinity`. */
  function InverseMass(m: Mass): (r: real)
    ensures m.Infinite? <==> r == 0.0
    ensures m.Finite? ==> r * m.kg == 1.0
  {
    if m.Infinite? then 0.0 else 1.0 / m.kg
  }

  /** The functions of JavaScript's `Math` object that the modelled code calls,
      left uninterpreted, and `Vector2.norm` which divides by `Math.hypot`
      (producing NaN for the zero vector). */
  datatype MathFns = MathFns(
    hypot: (real, real) -> real,
    sqrt: real -> real,
    atan2: (real, real) -> real,
    atan: real -> real,
    tan: real -> real,
    cos: real -> real,
    sin: real -> real,
    norm: (real, real) -> (real, real),
    pi: real)

  /** `Math.round`: the nearest integer, halves rounded up. */
  function Round(x: real): (r: int)
    ensures r as real - 0.5 <= x < r as real + 0.5
  {
    (x + 0.5).Floor
  }

  /** What a correct `Math.hypot` satisfies and the model relies on: it is
      never negative, and it is zero exactly for the zero vector. */
  ghost predicate HypotLaw(M: MathFns)
  {
    forall x: real, y: real {:trigger M.hypot(x, y)} ::
      M.hypot(x, y) >= 0.0 && (M.hypot(x, y) == 0.0 <==> x == 0.0 && y == 0.0)
  }
}
