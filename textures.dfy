/** The 64x64 textures of all engines: the size (and mode) checks of their
    loaders, the three ways of turning a coordinate into a texel index, and
    the colour scaling helpers.

    A texture is modelled as the decoded image it keeps: `texels[x][y]` is
    the pixel in column x and row y, which is how PIL's pixel access, the
    Kotlin `getRGB(x, y)` and the column lists built by the older loaders
    index it. Image decoding itself is not modelled; a loader receives the
    decoded image (or nothing, when the resource was missing). */
module Textures {
  import opened Numerics

  /** `Texture.SIZE`, `TEXTURE_SIZE`. */
  const SIZE: int := 64

  datatype Rgba = Rgba(r: int, g: int, b: int, a: int)

  datatype Rgb = Rgb(r: int, g: int, b: int)

  /** pixeltest.py's `brightness` returns float channels. */
  datatype RgbReal = RgbReal(r: real, g: real, b: real)

  /** A decoded image: PIL's `size` and `mode` and its pixels by column. */
  datatype Image<P> = Image(width: int, height: int, mode: string, pixels: seq<seq<P>>)

  /** The pixels really have the size the image reports. */
  predicate Decoded<P>(img: Image<P>)
  {
    |img.pixels| == img.width &&
    forall x :: 0 <= x < |img.pixels| ==> |img.pixels[x]| == img.height
  }

  datatype Texture<P> = Texture(texels: seq<seq<P>>)

  /** SIZE columns of SIZE texels each. */
  predicate IsSquare<P>(t: Texture<P>)
  {
    |t.texels| == SIZE && forall x :: 0 <= x < SIZE ==> |t.texels[x]| == SIZE
  }

  datatype LoadError = IOError | ValueError | IllegalArgumentException

  /** `Texture.__init__` of the current engine. `data` is None when
      `pkgutil.get_data` found nothing for a resource name (IOError); the
      image must be 64x64 (IOError). The `RGBA` conversion is not modelled:
      the image is given in RGBA already. */
  function LoadTexture(data: Option<Image<Rgba>>): (r: Result<Texture<Rgba>, LoadError>)
    requires data.Some? ==> Decoded(data.value)
    ensures r.Ok? <==> data.Some? && data.value.width == SIZE && data.value.height == SIZE
    ensures r.Err? ==> r.error == IOError
    ensures r.Ok? ==> IsSquare(r.value) && r.value.texels == data.value.pixels
  {
    match data
    case None => Err(IOError)
    case Some(img) =>
      if img.width != SIZE || img.height != SIZE then Err(IOError)
      else Ok(Texture(img.pixels))
  }

  /** `Texture.__init__` of pywolf: no data is a ValueError, a wrong size or
      a mode other than "RGB" (an alpha channel) an IOError; the accepted
      image is copied column by column. */
  function LoadWolfTexture(data: Option<Image<Rgb>>): (r: Result<Texture<Rgb>, LoadError>)
    requires data.Some? ==> Decoded(data.value)
    ensures r.Ok? <==> data.Some? && data.value.width == SIZE && data.value.height == SIZE && data.value.mode == "RGB"
    ensures data.None? ==> r == Err(ValueError)
    ensures data.Some? && r.Err? ==> r.error == IOError
    ensures r.Ok? ==> IsSquare(r.value) && r.value.texels == data.value.pixels
  {
    match data
    case None => Err(ValueError)
    case Some(img) =>
      if img.width != SIZE || img.height != SIZE then Err(IOError)
      else if img.mode != "RGB" then Err(IOError)
      else Ok(Texture(img.pixels))
  }

  /** The Kotlin `Texture` initialiser: IllegalArgumentException unless the
      image is 64x64. */
  function LoadKotlinTexture(img: Image<Rgba>): (r: Result<Texture<Rgba>, LoadError>)
    requires Decoded(img)
    ensures r.Ok? <==> img.width == SIZE && img.height == SIZE
    ensures r.Err? ==> r.error == IllegalArgumentException
    ensures r.Ok? ==> IsSquare(r.value) && r.value.texels == img.pixels
  {
    if img.width != SIZE || img.height != SIZE then Err(IllegalArgumentException)
    else Ok(Texture(img.pixels))
  }

  /** pixeltest.py's `Texture` constructor: IOError unless 64x64; the
      accepted image is stored column by column, `pixels[x][y]`. */
  function LoadPixelTexture(img: Image<Rgb>): (r: Result<Texture<Rgb>, LoadError>)
    requires Decoded(img)
    ensures r.Ok? <==> img.width == SIZE && img.height == SIZE
    ensures r.Err? ==> r.error == IOError
    ensures r.Ok? ==> IsSquare(r.value) && r.value.texels == img.pixels
  {
    if img.width != SIZE || img.height != SIZE then Err(IOError)
    else Ok(Texture(img.pixels))
  }

  /** All four loaders accept the same images (pywolf additionally wants
      RGB), so a texture that loads in one engine loads in the others. */
  lemma LoadersAgree(img: Image<Rgba>, rgb: Image<Rgb>)
    requires Decoded(img) && Decoded(rgb)
    requires img.width == rgb.width && img.height == rgb.height
    ensures LoadTexture(Some(img)).Ok? == LoadKotlinTexture(img).Ok? == LoadPixelTexture(rgb).Ok?
    ensures rgb.mode == "RGB" ==> LoadWolfTexture(Some(rgb)).Ok? == LoadPixelTexture(rgb).Ok?
  {
  }

  /* ---------------- wrap-around sampling (Python, Kotlin) ---------------- */

  /** `int((c % 1.0) * SIZE)`: the texel index of a coordinate, wrapping. */
  function WrapIndex(c: real): (i: int)
    ensures 0 <= i < SIZE
  {
    Trunc(PyMod1(c) * SIZE as real)
  }

  /** `Texture.sample(x, y)` of the current engine. */
  function Sample<P>(t: Texture<P>, x: real, y: real): (p: P)
    requires IsSquare(t)
    ensures 0.0 <= x < 1.0 && 0.0 <= y < 1.0 ==>
      p == t.texels[(x * SIZE as real).Floor][(y * SIZE as real).Floor]
  {
    t.texels[WrapIndex(x)][WrapIndex(y)]
  }

  /** Shifting a coordinate by a whole number does not change its
      fractional part. */
  lemma {:induction false} PyMod1Shift(c: real, k: int)
    ensures PyMod1(c + k as real) == PyMod1(c)
  {
    var f := c.Floor;
    assert f as real <= c < f as real + 1.0;
    assert (f + k) as real <= c + k as real < (f + k) as real + 1.0;
    assert (c + k as real).Floor == f + k;
  }

  /** Sampling wraps around: coordinates that differ by whole numbers read
      the same texel, in particular `sample(x+1, y) == sample(x, y)` and
      `sample(x, y+1) == sample(x, y)`; and the texel read for a coordinate
      in [0, 1) is the one covering it. */
  lemma SampleWraps<P>(t: Texture<P>, x: real, y: real, kx: int, ky: int)
    requires IsSquare(t)
    ensures Sample(t, x + kx as real, y + ky as real) == Sample(t, x, y)
    ensures Sample(t, x + 1.0, y) == Sample(t, x, y) == Sample(t, x, y + 1.0)
    ensures 0.0 <= x < 1.0 ==> WrapIndex(x) == (x * SIZE as real).Floor
  {
    PyMod1Shift(x, kx);
    PyMod1Shift(y, ky);
    PyMod1Shift(x, 1);
    PyMod1Shift(y, 1);
  }

  /** `Texture.sample(x, y)` of the Kotlin port: `x % 1.0` keeps the sign
      of x, and a negative remainder is moved into [0, 1) by adding 1. */
  function KotlinSample<P>(t: Texture<P>, x: real, y: real): (p: P)
    requires IsSquare(t)
    ensures p == Sample(t, x, y)
  {
    var xi := KtWrap1(x);
    var yi := KtWrap1(y);
    t.texels[Trunc(SIZE as real * xi)][Trunc(SIZE as real * yi)]
  }

  /** The fixed-up remainder lies in [0, 1), so the Kotlin indices lie in
      [0, 64), and the Kotlin port samples exactly like the Python engine,
      wrap-around included. */
  lemma KotlinSampleMatches<P>(t: Texture<P>, x: real, y: real)
    requires IsSquare(t)
    ensures 0.0 <= KtWrap1(x) < 1.0 && 0 <= Trunc(SIZE as real * KtWrap1(x)) < SIZE
    ensures KotlinSample(t, x, y) == Sample(t, x, y)
    ensures KotlinSample(t, x + 1.0, y) == KotlinSample(t, x, y) == KotlinSample(t, x, y + 1.0)
  {
    SampleWraps(t, x, y, 0, 0);
  }

  /* ---------------- rounding without wrap (pywolf) ---------------- */

  datatype SampleError = IndexError

  /** pywolf's `Texture.sample(x, y)`: `pixels[round(x*63)][round(y*63)]`,
      with Python list indexing (a negative index counts from the end, one
      outside [-64, 64) raises IndexError). */
  function WolfSample<P>(t: Texture<P>, x: real, y: real): (r: Result<P, SampleError>)
    requires IsSquare(t)
    ensures r.Ok? <==> -SIZE <= RoundHalfEven(x * 63.0) < SIZE && -SIZE <= RoundHalfEven(y * 63.0) < SIZE
    ensures 0 <= RoundHalfEven(x * 63.0) < SIZE && 0 <= RoundHalfEven(y * 63.0) < SIZE ==>
      r == Ok(t.texels[RoundHalfEven(x * 63.0)][RoundHalfEven(y * 63.0)])
  {
    match PyIndex(t.texels, RoundHalfEven(x * 63.0))
    case None => Err(IndexError)
    case Some(column) =>
      match PyIndex(column, RoundHalfEven(y * 63.0))
      case None => Err(IndexError)
      case Some(p) => Ok(p)
  }

  /** For coordinates in [0, 1] the pywolf index is the nearest of the 64
      texel positions 0..63, both ends included: x = 1 reads the last
      column instead of wrapping to the first. */
  lemma WolfSampleInRange<P>(t: Texture<P>, x: real, y: real)
    requires IsSquare(t)
    requires 0.0 <= x <= 1.0 && 0.0 <= y <= 1.0
    ensures 0 <= RoundHalfEven(x * 63.0) < SIZE && 0 <= RoundHalfEven(y * 63.0) < SIZE
    ensures WolfSample(t, x, y) == Ok(t.texels[RoundHalfEven(x * 63.0)][RoundHalfEven(y * 63.0)])
    ensures WolfSample(t, 1.0, y) == Ok(t.texels[SIZE - 1][RoundHalfEven(y * 63.0)])
    ensures Sample(t, 1.0, y) == t.texels[0][WrapIndex(y)]
  {
    assert (SIZE - 1) as real == 63.0;
    assert PyMod1(1.0) == 0.0;
  }

  /** Far outside [0, 1] there is no wrap-around but an IndexError, and a
      slightly negative coordinate reads from the far end of the texture. */
  lemma WolfSampleOutOfRange<P>(t: Texture<P>, y: real)
    requires IsSquare(t)
    requires 0.0 <= y <= 1.0
    ensures WolfSample(t, 2.0, y) == Err(IndexError)
    ensures WolfSample(t, -1.0 / 63.0, y) == Ok(t.texels[SIZE - 1][RoundHalfEven(y * 63.0)])
  {
    assert (SIZE - 1) as real == 63.0;
    assert RoundHalfEven(2.0 * 63.0) == 126;
    assert RoundHalfEven(-1.0 / 63.0 * 63.0) == -1;
  }

  /* ---------------- bitmask lookup (pixeltest.py) ---------------- */

  /** `n & TEX_SIZE_MASK` with `TEX_SIZE_MASK = 63`. Python's `&` on ints
      acts on the infinite two's-complement form, so the result is the low
      six bits of n, which for every int (negative ones included) is n
      modulo 64. */
  function Mask63(n: int): (m: int)
    ensures 0 <= m < SIZE
    ensures (n - m) % SIZE == 0
  {
    n % SIZE
  }

  /** The mask is the bitwise and: the low six bits of the two's
      complement form of n, for negative n too. */
  lemma Mask63IsBitwiseAnd(n: int)
    ensures Mask63(n) == LowBits(n, 6)
  {
    LowBitsIsMod(n, 6);
    assert Pow2(6) == 64;
  }

  /** pixeltest.py's `Texture.get(x, y)`: `pixels[int(y) & 63][int(x) & 63]`.
      The constructor stores columns, `pixels[x][y]`, so this reads the
      texel in column `int(y) & 63` and row `int(x) & 63`: the texture
      comes out transposed. */
  function PixelGet<P>(t: Texture<P>, x: real, y: real): (p: P)
    requires IsSquare(t)
    ensures 0.0 <= x < SIZE as real && 0.0 <= y < SIZE as real ==> p == t.texels[Trunc(y)][Trunc(x)]
  {
    t.texels[Mask63(Trunc(y))][Mask63(Trunc(x))]
  }

  /** The lookup on a loaded texture is always in range and is transposed
      with respect to the loaded image. */
  lemma PixelGetTransposed(img: Image<Rgb>, x: real, y: real)
    requires Decoded(img) && img.width == SIZE && img.height == SIZE
    ensures PixelGet(LoadPixelTexture(img).value, x, y) == img.pixels[Mask63(Trunc(y))][Mask63(Trunc(x))]
  {
  }

  /** The lookup repeats every 64 units in each coordinate, for
      non-negative coordinates. */
  lemma PixelGetPeriodic<P>(t: Texture<P>, x: real, y: real)
    requires IsSquare(t)
    ensures x >= 0.0 ==> PixelGet(t, x + 64.0, y) == PixelGet(t, x, y)
    ensures y >= 0.0 ==> PixelGet(t, x, y + 64.0) == PixelGet(t, x, y)
  {
    if x >= 0.0 {
      TruncShift(x, SIZE);
      Mask63Period(Trunc(x));
    }
    if y >= 0.0 {
      TruncShift(y, SIZE);
      Mask63Period(Trunc(y));
    }
  }

  /** The mask repeats every 64. */
  lemma Mask63Period(n: int)
    ensures Mask63(n + SIZE) == Mask63(n)
  {
    ModUnique(n + SIZE, SIZE, n / SIZE + 1, n % SIZE);
  }

  /** The period needs non-negative coordinates: int() truncates toward
      zero, so every x in (-1, 0) reads index 0 while x + 64 reads 63. */
  lemma PixelGetNegativeShift(x: real)
    requires -1.0 < x < 0.0
    ensures Mask63(Trunc(x)) == 0 && Mask63(Trunc(x + 64.0)) == 63
  {
  }

  /* ---------------- colour scaling ---------------- */

  /** `color_brightness` of the current engine: every colour channel
      multiplied and truncated by int(), the alpha channel kept. */
  function ColorBrightness(c: Rgba, brightness: real): (r: Rgba)
    ensures r.r == Trunc(c.r as real * brightness)
    ensures r.g == Trunc(c.g as real * brightness)
    ensures r.b == Trunc(c.b as real * brightness)
    ensures r.a == c.a
  {
    Rgba(Trunc(c.r as real * brightness), Trunc(c.g as real * brightness),
         Trunc(c.b as real * brightness), c.a)
  }

  /** One channel scaled and truncated, `int(v * f)`: a factor in [0, 1]
      leaves it between 0 and its old value. */
  lemma ScaledChannelBounds(v: int, f: real)
    requires 0 <= v && 0.0 <= f <= 1.0
    ensures 0 <= Trunc(v as real * f) <= v
  {
    var p := v as real * f;
    assert v as real - p == v as real * (1.0 - f);
    assert 0.0 <= p <= v as real;
    var n := Trunc(p);
    assert n as real <= p < n as real + 1.0;
  }

  /** A brightness of 1 leaves a colour as it is. */
  lemma ColorBrightnessOne(c: Rgba)
    ensures ColorBrightness(c, 1.0) == c
  {
  }

  /** A brightness of 0 is pitch black: the colour channels drop to 0
      and the alpha channel stays. */
  lemma ColorBrightnessZero(c: Rgba)
    ensures ColorBrightness(c, 0.0) == Rgba(0, 0, 0, c.a)
  {
  }

  /** A brightness in [0, 1] only darkens: every channel ends between 0
      and its old value. */
  lemma ColorBrightnessDarkens(c: Rgba, brightness: real)
    requires 0 <= c.r && 0 <= c.g && 0 <= c.b
    requires 0.0 <= brightness <= 1.0
    ensures var d := ColorBrightness(c, brightness);
      0 <= d.r <= c.r && 0 <= d.g <= c.g && 0 <= d.b <= c.b
  {
    ScaledChannelBounds(c.r, brightness);
    ScaledChannelBounds(c.g, brightness);
    ScaledChannelBounds(c.b, brightness);
  }

  /** One channel of pywolf's `rgb_brightness`: `min(int(v*scale), 255)`. */
  function ScaledByte(v: int, scale: real): (b: int)
    ensures b <= 255
    ensures v as real * scale < 255.0 ==> b == Trunc(v as real * scale)
    ensures v as real * scale >= 255.0 ==> b == 255
  {
    var p := v as real * scale;
    var t := Trunc(p);
    assert p >= 255.0 ==> t >= 255 by {
      if p >= 255.0 {
        assert t as real <= p < t as real + 1.0;
      }
    }
    Min(t, 255)
  }

  /** A byte scaled by a non-negative factor stays a byte, and by a factor
      of at most 1 it does not grow. */
  lemma ScaledByteBounds(v: int, scale: real)
    requires 0 <= v <= 255 && 0.0 <= scale
    ensures 0 <= ScaledByte(v, scale) <= 255
    ensures scale <= 1.0 ==> ScaledByte(v, scale) <= v
  {
    assert 0.0 <= v as real * scale;
    if scale <= 1.0 {
      ScaledChannelBounds(v, scale);
    }
  }

  /** pywolf's `rgb_brightness`: every channel scaled and capped at 255. */
  function RgbBrightness(c: Rgb, scale: real): (r: Rgb)
    ensures r == Rgb(ScaledByte(c.r, scale), ScaledByte(c.g, scale), ScaledByte(c.b, scale))
    ensures r.r <= 255 && r.g <= 255 && r.b <= 255
  {
    Rgb(ScaledByte(c.r, scale), ScaledByte(c.g, scale), ScaledByte(c.b, scale))
  }

  /** Scale 1 is neutral on an 8-bit colour. */
  lemma RgbBrightnessOne(c: Rgb)
    requires 0 <= c.r <= 255 && 0 <= c.g <= 255 && 0 <= c.b <= 255
    ensures RgbBrightness(c, 1.0) == c
  {
  }

  /** Scale 0 is black. */
  lemma RgbBrightnessZero(c: Rgb)
    ensures RgbBrightness(c, 0.0) == Rgb(0, 0, 0)
  {
  }

  /** A scale above 1 makes an 8-bit colour whiter: no channel drops, and
      each stays at most 255. */
  lemma RgbBrightnessWhiter(c: Rgb, scale: real)
    requires 0 <= c.r <= 255 && 0 <= c.g <= 255 && 0 <= c.b <= 255 && scale >= 1.0
    ensures var d := RgbBrightness(c, scale);
      c.r <= d.r <= 255 && c.g <= d.g <= 255 && c.b <= d.b <= 255
  {
    ScaledByteGrows(c.r, scale);
    ScaledByteGrows(c.g, scale);
    ScaledByteGrows(c.b, scale);
  }

  /** Only the top is clamped: a negative scale whose product reaches -1
      gives a negative channel. */
  lemma RgbBrightnessNoLowerClamp(c: Rgb, scale: real)
    requires c.r as real * scale <= -1.0
    ensures RgbBrightness(c, scale).r < 0
  {
    var t := Trunc(c.r as real * scale);
    assert t as real - 1.0 < c.r as real * scale <= t as real;
  }

  /** A byte scaled by a factor of at least 1 does not drop. */
  lemma ScaledByteGrows(v: int, scale: real)
    requires 0 <= v <= 255 && scale >= 1.0
    ensures v <= ScaledByte(v, scale) <= 255
  {
    var p := v as real * scale;
    assert p - v as real == v as real * (scale - 1.0);
    assert v as real * (scale - 1.0) >= 0.0;
    var t := Trunc(p);
    assert t as real <= p < t as real + 1.0;
  }

  /** With a non-negative scale and channels, the capped channels also stay
      non-negative, so the result is a valid 8-bit colour; a scale of at
      most 1 only darkens. */
  lemma RgbBrightnessInByteRange(c: Rgb, scale: real)
    requires 0 <= c.r <= 255 && 0 <= c.g <= 255 && 0 <= c.b <= 255 && 0.0 <= scale
    ensures var d := RgbBrightness(c, scale);
      0 <= d.r <= 255 && 0 <= d.g <= 255 && 0 <= d.b <= 255
    ensures scale <= 1.0 ==> var d := RgbBrightness(c, scale);
      d.r <= c.r && d.g <= c.g && d.b <= c.b
  {
    ScaledByteBounds(c.r, scale);
    ScaledByteBounds(c.g, scale);
    ScaledByteBounds(c.b, scale);
  }

  /** pixeltest.py's `brightness`: `min(c*scale, 255.0)` per channel, in
      floating point. */
  function PixelBrightness(c: Rgb, scale: real): (r: RgbReal)
    ensures r.r <= 255.0 && r.g <= 255.0 && r.b <= 255.0
    ensures c.r as real * scale <= 255.0 ==> r.r == c.r as real * scale
    ensures c.g as real * scale <= 255.0 ==> r.g == c.g as real * scale
    ensures c.b as real * scale <= 255.0 ==> r.b == c.b as real * scale
  {
    RgbReal(MinReal(c.r as real * scale, 255.0), MinReal(c.g as real * scale, 255.0),
            MinReal(c.b as real * scale, 255.0))
  }

  /** Only the upper end is clamped: a negative scale gives negative
      channels. */
  lemma PixelBrightnessNoLowerClamp(c: Rgb, scale: real)
    requires c.r > 0 && scale < 0.0
    ensures PixelBrightness(c, scale).r < 0.0
  {
    assert c.r as real * scale < 0.0;
  }
}
