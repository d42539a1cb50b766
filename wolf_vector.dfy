/** The vector of the older engine (pywolf/vector.py): a single mutable
    field `xy` holding a Python complex number whose real part is x and
    whose imaginary part is y. Every operator goes through complex
    arithmetic, a scalar `s` being promoted to the complex number `s + 0j`;
    the lemmas show that this is the componentwise arithmetic of the newer
    vector. Unlike the newer vector, `normalized` has no zero guard. */
module WolfVectors {
  import opened Numerics
  import opened Vectors

  datatype Complex = Complex(re: real, im: real)

  /** Python's promotion of a real scalar to a complex operand. */
  function OfReal(s: real): Complex { Complex(s, 0.0) }

  function CAdd(a: Complex, b: Complex): Complex { Complex(a.re + b.re, a.im + b.im) }

  function CNeg(a: Complex): Complex { Complex(-a.re, -a.im) }

  function CSub(a: Complex, b: Complex): Complex { Complex(a.re - b.re, a.im - b.im) }

  function CMul(a: Complex, b: Complex): Complex
  {
    Complex(a.re * b.re - a.im * b.im, a.re * b.im + a.im * b.re)
  }

  /** CPython's complex quotient (Smith's method) for a divisor `s + 0j`
      whose real part dominates: `ratio = 0/s`, `denom = s + 0*ratio`. */
  function CDivReal(a: Complex, s: real): Complex
    requires s != 0.0
  {
    var ratio := 0.0 / s;
    var denom := s + 0.0 * ratio;
    Complex((a.re + a.im * ratio) / denom, (a.im - a.re * ratio) / denom)
  }

  /** The vector a complex number stands for. */
  function AsVec(a: Complex): Vec { Vec(a.re, a.im) }

  datatype VectorError = ZeroDivisionError

  /** `xy * scalar` and `scalar * xy` (promoted) scale both components. */
  lemma ScalarProductIsScale(a: Complex, s: real)
    ensures AsVec(CMul(a, OfReal(s))) == Scale(AsVec(a), s)
    ensures CMul(OfReal(s), a) == CMul(a, OfReal(s))
  {
  }

  /** `xy / scalar` (promoted) divides both components. */
  lemma ScalarQuotientIsDiv(a: Complex, s: real)
    requires s != 0.0
    ensures AsVec(CDivReal(a, s)) == Div(AsVec(a), s)
  {
    assert 0.0 / s == 0.0;
  }

  /** `self.xy / abs(self.xy)`: complex division by the magnitude, which
      raises ZeroDivisionError for the zero vector. */
  function NormalizedComplex(a: Complex, mag: real): (r: Result<Complex, VectorError>)
    requires IsMagnitude(AsVec(a), mag)
    ensures r.Err? <==> IsZero(AsVec(a))
    ensures !IsZero(AsVec(a)) ==> AsVec(r.value) == Vectors.Normalized(AsVec(a), mag)
  {
    if mag == 0.0 then Err(ZeroDivisionError)
    else
      ScalarQuotientIsDiv(a, mag);
      Ok(CDivReal(a, mag))
  }

  /** The complex-backed vector object. */
  class Vec2 {
    var xy: Complex

    function Value(): Vec
      reads this
    {
      AsVec(xy)
    }

    constructor (x: real, y: real)
      ensures xy == Complex(x, y)
    {
      xy := Complex(x, y);
    }

    /** The `x` property. */
    function X(): (x: real)
      reads this
      ensures x == Value().x
    {
      xy.re
    }

    /** The `y` property. */
    function Y(): (y: real)
      reads this
      ensures y == Value().y
    {
      xy.im
    }

    /** The `x` setter: a new complex with the old imaginary part. */
    method SetX(value: real)
      modifies this
      ensures X() == value && Y() == old(Y())
    {
      xy := Complex(value, xy.im);
    }

    /** The `y` setter: a new complex with the old real part. */
    method SetY(value: real)
      modifies this
      ensures Y() == value && X() == old(X())
    {
      xy := Complex(xy.re, value);
    }

    /** `__add__` and `__radd__` with another vector. */
    method Plus(other: Vec2) returns (r: Vec2)
      ensures fresh(r) && r.Value() == Add(Value(), other.Value())
    {
      r := new Vec2(0.0, 0.0);
      r.xy := CAdd(xy, other.xy);
    }

    method Minus(other: Vec2) returns (r: Vec2)
      ensures fresh(r) && r.Value() == Sub(Value(), other.Value())
    {
      r := new Vec2(0.0, 0.0);
      r.xy := CSub(xy, other.xy);
    }

    method Negate() returns (r: Vec2)
      ensures fresh(r) && r.Value() == Neg(Value())
    {
      r := new Vec2(0.0, 0.0);
      r.xy := CNeg(xy);
    }

    /** `__rsub__`: `(-self) + other`, that is `other - self`. */
    method MinusFrom(other: Vec2) returns (r: Vec2)
      ensures fresh(r) && r.Value() == Sub(other.Value(), Value())
    {
      var n := Negate();
      r := n.Plus(other);
    }

    /** `__mul__` and `__rmul__`: both compute `self.xy * scalar`. */
    method Times(scalar: real) returns (r: Vec2)
      ensures fresh(r) && r.Value() == Scale(Value(), scalar)
    {
      ScalarProductIsScale(xy, scalar);
      r := new Vec2(0.0, 0.0);
      r.xy := CMul(xy, OfReal(scalar));
    }

    /** `__truediv__`: complex division by the promoted scalar. */
    method DivideBy(scalar: real) returns (r: Result<Vec2, VectorError>)
      ensures r.Err? <==> scalar == 0.0
      ensures r.Ok? ==> fresh(r.value) && r.value.Value() == Div(Value(), scalar)
    {
      if scalar == 0.0 {
        r := Err(ZeroDivisionError);
      } else {
        ScalarQuotientIsDiv(xy, scalar);
        var v := new Vec2(0.0, 0.0);
        v.xy := CDivReal(xy, scalar);
        r := Ok(v);
      }
    }

    function Dotproduct(other: Vec2): (d: real)
      reads this, other
      ensures d == Dot(Value(), other.Value())
    {
      X() * other.X() + Y() * other.Y()
    }

    /** `normalized()`, where `mag` is `abs(self.xy)`. */
    method Normalize(mag: real) returns (r: Result<Vec2, VectorError>)
      requires IsMagnitude(Value(), mag)
      ensures r.Err? <==> IsZero(Value())
      ensures !IsZero(Value()) ==> fresh(r.value) && r.value.Value() == Vectors.Normalized(Value(), mag)
    {
      var n := NormalizedComplex(xy, mag);
      if n.Err? {
        r := Err(n.error);
      } else {
        var v := new Vec2(n.value.re, n.value.im);
        r := Ok(v);
      }
    }

    /** `rotate(radians)` with c = cos(radians), s = sin(radians). */
    method Rotate(c: real, s: real)
      modifies this
      ensures Value() == Rotated(old(Value()), c, s)
    {
      var x2 := xy.re * c - xy.im * s;
      var y2 := xy.im * c + xy.re * s;
      xy := Complex(x2, y2);
    }
  }
}
