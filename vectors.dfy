/** The 2D vector of the current engine (python/pyraycaster/vector.py) and of
    the Kotlin port (kotlin/src/Vec2d.kt), which behave identically except
    for a division by zero (Python raises, which the model follows): a
    mutable object with fields x and y whose operators return new objects,
    a zero-guarded `normalized` and an in-place `rotate`.

    `Vec` is the value of such an object; the functions on it are the
    arithmetic every operator promises, and the lemmas are the algebra the
    movement and ray code relies on. Square roots and trigonometry are
    parameters: `mag` stands for `sqrt(x*x + y*y)`, `c`/`s` for the cosine
    and sine of the rotation angle. */
module Vectors {
  import opened Numerics

  datatype Vec = Vec(x: real, y: real)

  /** Python's ZeroDivisionError, raised for a division by a zero float. */
  datatype DivisionError = ZeroDivision

  const Zero := Vec(0.0, 0.0)

  predicate IsZero(a: Vec) { a.x == 0.0 && a.y == 0.0 }

  function Add(a: Vec, b: Vec): Vec { Vec(a.x + b.x, a.y + b.y) }

  function Sub(a: Vec, b: Vec): Vec { Vec(a.x - b.x, a.y - b.y) }

  function Neg(a: Vec): Vec { Vec(-a.x, -a.y) }

  function Scale(a: Vec, s: real): Vec { Vec(a.x * s, a.y * s) }

  function Div(a: Vec, s: real): Vec
    requires s != 0.0
  {
    Vec(a.x / s, a.y / s)
  }

  function Dot(a: Vec, b: Vec): real { a.x * b.x + a.y * b.y }

  /** `magnitude()` squared: the radicand of `sqrt(x*x + y*y)`. */
  function MagSquared(a: Vec): real { a.x * a.x + a.y * a.y }

  /** `mag` is the square root the source computes for `magnitude()`: a
      non-negative root of `MagSquared(a)`, zero exactly for the zero vector.
      The root equation is stated for every value equal to `mag`, so that a
      proof brings in the product `mag * mag` only where it names
      `Square(mag)`. */
  predicate IsMagnitude(a: Vec, mag: real)
  {
    mag >= 0.0 && (mag == 0.0 <==> IsZero(a)) && forall m :: m == mag ==> Square(m) == MagSquared(a)
  }

  /** r squared. */
  function Square(r: real): real { r * r }

  /** `normalized()`: the zero vector is returned as it is (no division),
      any other vector is divided by its magnitude. */
  function Normalized(a: Vec, mag: real): (r: Vec)
    requires IsMagnitude(a, mag)
    ensures IsZero(a) ==> r == a
    ensures !IsZero(a) ==> mag != 0.0 && r == Div(a, mag)
  {
    if a.x == 0.0 && a.y == 0.0 then a else Div(a, mag)
  }

  /** A normalized non-zero vector has unit length and points the same way:
      scaling it by the magnitude gives the vector back. */
  lemma NormalizedIsUnit(a: Vec, mag: real)
    requires IsMagnitude(a, mag) && !IsZero(a)
    ensures MagSquared(Normalized(a, mag)) == 1.0
    ensures Scale(Normalized(a, mag), mag) == a
  {
    var r := Normalized(a, mag);
    assert Square(mag) == mag * mag;
    assert r.x * mag == a.x && r.y * mag == a.y;
    assert (r.x * r.x) * (mag * mag) == a.x * a.x;
    assert (r.y * r.y) * (mag * mag) == a.y * a.y;
    assert MagSquared(r) * (mag * mag) == MagSquared(a);
    var k := mag * mag;
    assert k > 0.0;
    assert MagSquared(r) * k == k;
    assert (MagSquared(r) - 1.0) * k == 0.0;
  }

  /** `rotate(angle)` with c = cos(angle), s = sin(angle): both new
      components are computed from the pre-rotation ones. */
  function Rotated(a: Vec, c: real, s: real): Vec
  {
    Vec(a.x * c - a.y * s, a.y * c + a.x * s)
  }

  /** Subtraction undoes addition. */
  lemma SubUndoesAdd(a: Vec, b: Vec)
    ensures Sub(Add(a, b), b) == a
    ensures Add(a, Neg(b)) == Sub(a, b)
  {
  }

  /** The dot product is bilinear and `magnitude()`² is `v.dotproduct(v)`. */
  lemma DotAlgebra(a: Vec, b: Vec, c: Vec, s: real)
    ensures Dot(a, a) == MagSquared(a) >= 0.0
    ensures Dot(a, b) == Dot(b, a)
    ensures Dot(Add(a, b), c) == Dot(a, c) + Dot(b, c)
    ensures Dot(Scale(a, s), b) == s * Dot(a, b)
  {
    assert a.x * a.x >= 0.0 && a.y * a.y >= 0.0;
    assert (a.x + b.x) * c.x == a.x * c.x + b.x * c.x;
    assert (a.y + b.y) * c.y == a.y * c.y + b.y * c.y;
    assert (a.x * s) * b.x == s * (a.x * b.x);
    assert (a.y * s) * b.y == s * (a.y * b.y);
  }

  /** Division by a scalar is scaling by its reciprocal, so dividing undoes
      scaling. */
  lemma DivUndoesScale(a: Vec, s: real)
    requires s != 0.0
    ensures Div(Scale(a, s), s) == a
    ensures Div(a, s) == Scale(a, 1.0 / s)
  {
  }

  /** A rotation by an angle (c*c + s*s == 1) preserves dot products, hence
      lengths, and rotating back by the opposite angle restores the vector. */
  lemma RotationIsIsometry(a: Vec, b: Vec, c: real, s: real)
    requires c * c + s * s == 1.0
    ensures Dot(Rotated(a, c, s), Rotated(b, c, s)) == Dot(a, b)
    ensures MagSquared(Rotated(a, c, s)) == MagSquared(a)
    ensures Rotated(Rotated(a, c, s), c, -s) == a
  {
    RotationKeepsDot(a, b, c, s);
    RotationKeepsDot(a, a, c, s);
    RotationUndone(a, c, s);
  }

  /** A rotation preserves dot products. */
  lemma RotationKeepsDot(a: Vec, b: Vec, c: real, s: real)
    requires c * c + s * s == 1.0
    ensures Dot(Rotated(a, c, s), Rotated(b, c, s)) == Dot(a, b)
  {
    RotatedDot(a.x, a.y, b.x, b.y, c, s);
  }

  /** The dot product of two rotated vectors, written out in coordinates:
      the cross terms cancel and what is left is scaled by c^2 + s^2. */
  lemma RotatedDot(x1: real, y1: real, x2: real, y2: real, c: real, s: real)
    ensures (x1 * c - y1 * s) * (x2 * c - y2 * s) + (y1 * c + x1 * s) * (y2 * c + x2 * s) ==
            (x1 * x2 + y1 * y2) * (c * c + s * s)
  {
  }

  /** Rotating back by the opposite angle restores the vector. */
  lemma RotationUndone(a: Vec, c: real, s: real)
    requires c * c + s * s == 1.0
    ensures Rotated(Rotated(a, c, s), c, -s) == a
  {
    var ra := Rotated(a, c, s);
    var back := Rotated(ra, c, -s);
    var k := c * c + s * s;
    calc {
      back.x;
      (a.x * c - a.y * s) * c + (a.y * c + a.x * s) * s;
      a.x * k;
      a.x;
    }
    calc {
      back.y;
      (a.y * c + a.x * s) * c - (a.x * c - a.y * s) * s;
      a.y * k;
      a.y;
    }
  }

  /** The mutable vector object. Every operator allocates a new object; only
      `Rotate` (and direct field assignment) changes an existing one. */
  class Vec2 {
    var x: real
    var y: real

    function Value(): Vec
      reads this
    {
      Vec(x, y)
    }

    constructor (x: real, y: real)
      ensures Value() == Vec(x, y)
    {
      this.x := x;
      this.y := y;
    }

    /** Kotlin's secondary constructor `Vec2d(x: Int, y: Int)`: the primary
        constructor applied to the converted values. */
    constructor FromInts(x: int, y: int)
      ensures Value() == Vec(x as real, y as real)
    {
      this.x := x as real;
      this.y := y as real;
    }

    function Dotproduct(other: Vec2): (d: real)
      reads this, other
      ensures d == Dot(Value(), other.Value())
    {
      x * other.x + y * other.y
    }

    method Negate() returns (r: Vec2)
      ensures fresh(r) && r.Value() == Neg(Value())
    {
      r := new Vec2(-x, -y);
    }

    method Plus(other: Vec2) returns (r: Vec2)
      ensures fresh(r) && r.Value() == Add(Value(), other.Value())
    {
      r := new Vec2(x + other.x, y + other.y);
    }

    method Minus(other: Vec2) returns (r: Vec2)
      ensures fresh(r) && r.Value() == Sub(Value(), other.Value())
    {
      r := new Vec2(x - other.x, y - other.y);
    }

    /** `v * s`. */
    method Times(scalar: real) returns (r: Vec2)
      ensures fresh(r) && r.Value() == Scale(Value(), scalar)
    {
      r := new Vec2(x * scalar, y * scalar);
    }

    /** `s * v` (Python's `__rmul__`): the same vector as `v * s`. */
    method TimesLeft(scalar: real) returns (r: Vec2)
      ensures fresh(r) && r.Value() == Scale(Value(), scalar)
    {
      r := new Vec2(x * scalar, y * scalar);
    }

    /** `v / s`: a division by zero raises ZeroDivisionError, whatever
        the vector. */
    method DivideBy(scalar: real) returns (r: Result<Vec2, DivisionError>)
      ensures r.Err? <==> scalar == 0.0
      ensures r.Ok? ==> fresh(r.value) && r.value.Value() == Div(Value(), scalar)
    {
      if scalar == 0.0 {
        r := Err(ZeroDivision);
      } else {
        var v := new Vec2(x / scalar, y / scalar);
        r := Ok(v);
      }
    }

    /** `normalized()`: the zero vector yields the very same object. */
    method Normalize(mag: real) returns (r: Vec2)
      requires IsMagnitude(Value(), mag)
      ensures IsZero(Value()) ==> r == this
      ensures !IsZero(Value()) ==> fresh(r)
      ensures r.Value() == Normalized(Value(), mag)
    {
      if x == 0.0 && y == 0.0 {
        r := this;
      } else {
        r := new Vec2(x / mag, y / mag);
      }
    }

    /** `rotate(angle)` in place, with c = cos(angle) and s = sin(angle). */
    method Rotate(c: real, s: real)
      modifies this
      ensures Value() == Rotated(old(Value()), c, s)
    {
      var x2 := x * c - y * s;
      var y2 := y * c + x * s;
      x := x2;
      y := y2;
    }
  }
}
