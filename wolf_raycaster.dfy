/** The older `pywolf` engine (pywolf/raycaster.py): a built-in map text
    parsed bottom-up, a ray march in fixed 0.02 steps instead of a grid
    walk, one textured or black wall span per screen column between a sky
    and a floor gradient, and movement that accepts a step only onto an
    empty square.

    Vectors are their values (`Vec`); the complex-backed `Vec2` of
    pywolf/vector.py computes exactly this arithmetic (see `WolfVector`).
    Square roots and `tan` are parameters: `mag` is the magnitude that
    `normalized()` divides by and `tanHalfFov` is `tan(FOV / 2)`. */
module WolfEngine {
  import opened Numerics
  import opened Vectors
  import opened Textures
  import WorldMap

  const BLACK_DISTANCE: real := 6.0
  const FOCAL_LENGTH: real := 3.0
  /** The length of one step of the ray march. */
  const STEP: real := 0.02
  /** A step count the march never exceeds: 301 steps are 6.02 > BLACK_DISTANCE. */
  const MAX_STEPS: nat := 301

  const Sky := Rgb(20, 100, 255)
  const Grass := Rgb(0, 255, 20)
  const Black := Rgb(0, 0, 0)

  /** The map text built into `load_map`, top row first. */
  const Cmap: seq<string> := [
    "11111111111111111111",
    "1..................1",
    "1..111111222222....1",
    "1.....2.....1......1",
    "1.....2.....1......1",
    "1...112.....1222...1",
    "1.....2222..1......1",
    "1...........1......1",
    "1........s.........1",
    "11111111111111111111"]

  /** The names of the textures the constructor loads. */
  const TextureNames: set<string> := {"test", "floor", "ceiling", "wall-bricks", "wall-stone"}

  /** The exceptions a frame or a move can raise. */
  datatype WolfError = ZeroDivisionError | IndexError

  /* ---------------- the map ---------------- */

  /** `line.find(c)`: the index of the first c, or -1 when there is none. */
  function Find(line: string, c: char): (i: int)
    ensures -1 <= i < |line|
    ensures i >= 0 ==> line[i] == c && forall j :: 0 <= j < i ==> line[j] != c
    ensures i < 0 ==> forall j :: 0 <= j < |line| ==> line[j] != c
    decreases |line|
  {
    if |line| == 0 then -1
    else if line[0] == c then 0
    else
      var r := Find(line[1..], c);
      if r < 0 then -1 else r + 1
  }

  /** The first row from row y upward that holds an `s`, with the column of
      its first `s`: where the `break` in `load_map` stops. */
  function FirstStart(rows: seq<string>, y: nat): (r: Option<WorldMap.Cell>)
    requires y <= |rows|
    ensures r.None? <==> forall j :: y <= j < |rows| ==> Find(rows[j], 's') < 0
    ensures r.Some? ==>
      y <= r.value.1 < |rows| && r.value.0 == Find(rows[r.value.1], 's') &&
      0 <= r.value.0 < |rows[r.value.1]| && rows[r.value.1][r.value.0] == 's' &&
      forall j :: y <= j < r.value.1 ==> Find(rows[j], 's') < 0
    decreases |rows| - y
  {
    if y == |rows| then None
    else if Find(rows[y], 's') >= 0 then Some((Find(rows[y], 's'), y))
    else FirstStart(rows, y + 1)
  }

  /** The map rows `load_map` returns: the text flipped so that row 0 is
      the bottom one, every character translated to a wall code. */
  predicate IsParsed(m: seq<seq<int>>, cmap: seq<string>)
  {
    |m| == |cmap| &&
    forall y :: 0 <= y < |cmap| ==> m[y] == WorldMap.TranslateRow(cmap[|cmap| - 1 - y])
  }

  /** What `get_map_square` can index: a first row to take the width from,
      and every row as long as it. */
  predicate Rectangular(m: seq<seq<int>>)
  {
    |m| > 0 && forall y :: 0 <= y < |m| ==> |m[y]| == |m[0]|
  }

  /** Parsing keeps a map text's rectangular shape. */
  lemma ParsedIsRectangular(m: seq<seq<int>>, cmap: seq<string>)
    requires IsParsed(m, cmap) && |cmap| > 0
    requires forall y :: 0 <= y < |cmap| ==> |cmap[y]| == |cmap[0]|
    ensures Rectangular(m)
  {
    forall y | 0 <= y < |m|
      ensures |m[y]| == |m[0]|
    {
      assert |m[y]| == |cmap[|cmap| - 1 - y]|;
    }
  }

  /** The player start of the parsed map is an empty square: `s` is not a
      digit. */
  lemma WolfStartSquareIsEmpty(m: seq<seq<int>>, cmap: seq<string>)
    requires IsParsed(m, cmap)
    requires FirstStart(WorldMap.Reversed(cmap), 0).Some?
    ensures var c := FirstStart(WorldMap.Reversed(cmap), 0).value;
      0 <= c.1 < |m| && 0 <= c.0 < |m[c.1]| && m[c.1][c.0] == 0
  {
    var rows := WorldMap.Reversed(cmap);
    var c := FirstStart(rows, 0).value;
    assert rows[c.1] == cmap[|cmap| - 1 - c.1];
    WorldMap.TranslateWallOfOther('s');
  }

  /** The built-in map is 20 squares wide and 10 high, and its first `s`
      from the bottom is in column 9 of row 1. */
  lemma BuiltInMap()
    ensures forall y :: 0 <= y < |Cmap| ==> |Cmap[y]| == 20
    ensures FirstStart(WorldMap.Reversed(Cmap), 0) == Some((9, 1))
  {
    BuiltInMapWidths();
    BuiltInMapBottom();
    StartInSecondRow(Cmap, 9);
  }

  /** Every row of the built-in map text is 20 characters long. */
  lemma BuiltInMapWidths()
    ensures forall y :: 0 <= y < |Cmap| ==> |Cmap[y]| == 20
  {
    assert |Cmap| == 10;
    assert |Cmap[0]| == 20 && |Cmap[1]| == 20 && |Cmap[2]| == 20 && |Cmap[3]| == 20 && |Cmap[4]| == 20;
    assert |Cmap[5]| == 20 && |Cmap[6]| == 20 && |Cmap[7]| == 20 && |Cmap[8]| == 20 && |Cmap[9]| == 20;
  }

  /** The bottom row of the built-in map is all wall, and the row above it
      has its first `s` in column 9. */
  lemma BuiltInMapBottom()
    ensures |Cmap| == 10
    ensures NoStartBefore(Cmap[9], |Cmap[9]|)
    ensures 9 < |Cmap[8]| && Cmap[8][9] == 's' && NoStartBefore(Cmap[8], 9)
  {
  }

  /** The first i characters of a map text row hold no `s`. */
  predicate NoStartBefore(line: string, i: int)
    requires 0 <= i <= |line|
  {
    forall j :: 0 <= j < i ==> line[j] != 's'
  }

  /** When the bottom text row has no `s` and the one above it has its
      first `s` in column i, the start square is (i, 1). */
  lemma StartInSecondRow(cmap: seq<string>, i: int)
    requires |cmap| >= 2 && NoStartBefore(cmap[|cmap| - 1], |cmap[|cmap| - 1]|)
    requires 0 <= i < |cmap[|cmap| - 2]| && cmap[|cmap| - 2][i] == 's' && NoStartBefore(cmap[|cmap| - 2], i)
    ensures FirstStart(WorldMap.Reversed(cmap), 0) == Some((i, 1))
  {
    var rows := WorldMap.Reversed(cmap);
    FindFirst(rows[1], 's', i);
  }

  /** Find returns the first position of c. */
  lemma FindFirst(line: string, c: char, i: int)
    requires 0 <= i < |line| && line[i] == c && forall j :: 0 <= j < i ==> line[j] != c
    ensures Find(line, c) == i
  {
  }

  /** `get_map_square(x, y)`: the wall code of square (int(x), int(y)), and
      0 (empty) outside the map. */
  function MapSquare(m: seq<seq<int>>, x: real, y: real): (s: int)
    requires Rectangular(m)
    ensures 0 <= Trunc(x) < |m[0]| && 0 <= Trunc(y) < |m| ==> s == m[Trunc(y)][Trunc(x)]
    ensures !(0 <= Trunc(x) < |m[0]| && 0 <= Trunc(y) < |m|) ==> s == 0
  {
    var mx := Trunc(x);
    var my := Trunc(y);
    if mx < 0 || mx >= |m[0]| || my < 0 || my >= |m| then 0
    else m[my][mx]
  }

  /** For a parsed map the lookup reads the flipped text: a digit's value
      inside the map and an empty square outside it. Since `int()`
      truncates toward zero, coordinates in (-1, 0) still read row or
      column 0. */
  lemma MapSquareReadsText(m: seq<seq<int>>, cmap: seq<string>, x: real, y: real)
    requires IsParsed(m, cmap) && Rectangular(m)
    ensures 0 <= MapSquare(m, x, y) <= 9
    ensures 0 <= Trunc(x) < |m[0]| && 0 <= Trunc(y) < |m| ==>
      MapSquare(m, x, y) == WorldMap.TranslateWall(cmap[|cmap| - 1 - Trunc(y)][Trunc(x)])
    ensures !(0 <= Trunc(x) < |m[0]| && 0 <= Trunc(y) < |m|) ==> MapSquare(m, x, y) == 0
    ensures -1.0 < x < 0.0 && 0.0 <= y < 1.0 && |m[0]| > 0 ==> MapSquare(m, x, y) == m[0][0]
  {
    var mx, my := Trunc(x), Trunc(y);
    if 0 <= mx < |m[0]| && 0 <= my < |m| {
      assert |m[my]| == |m[0]|;
      assert m[my][mx] == WorldMap.TranslateWall(cmap[|cmap| - 1 - my][mx]);
    }
  }

  /* ---------------- the ray march ---------------- */

  /** `cast_ray`'s result: the square hit (0 for none), the distance
      marched and the texture x coordinate. */
  datatype Hit = Hit(square: int, step: real, textureX: real)

  /** The engine state one frame reads. */
  datatype Scene = Scene(squares: seq<seq<int>>, position: Vec, direction: Vec, plane: Vec,
                         width: int, height: int, texture: Texture<Rgb>)
  {
    predicate Valid()
    {
      Rectangular(squares) && width >= 0 && height >= 0 && IsSquare(texture)
    }

    /** `player_direction + (pixel_x / pixwidth - 0.5) * 2 * camera_plane`:
        the ray through screen column x, before normalizing. */
    function Ray(x: int): Vec
      requires width > 0
    {
      Add(direction, Scale(plane, (x as real / width as real - 0.5) * 2.0))
    }

    /** The square under the march after k steps along the unit ray u. */
    function SquareAt(u: Vec, k: nat): int
      requires Valid()
    {
      var p := Add(position, Scale(u, STEP * k as real));
      MapSquare(squares, p.x, p.y)
    }

    /** The step count at which the march, having taken k steps, stops:
        the first count from k on whose square is a wall or whose distance
        is past BLACK_DISTANCE. */
    function March(u: Vec, k: nat): (n: nat)
      requires Valid() && 1 <= k <= MAX_STEPS
      ensures k <= n <= MAX_STEPS
      ensures SquareAt(u, n) != 0 || STEP * n as real > BLACK_DISTANCE
      ensures forall j :: k <= j < n ==> SquareAt(u, j) == 0 && STEP * j as real <= BLACK_DISTANCE
      decreases MAX_STEPS - k
    {
      if SquareAt(u, k) != 0 || STEP * k as real > BLACK_DISTANCE then k
      else
        assert k < MAX_STEPS;
        March(u, k + 1)
    }

    /** The march of column x along the unit ray u: it stops at the first
        wall square or just past BLACK_DISTANCE, having moved more than 0
        and at most BLACK_DISTANCE + 0.02, and a wall hit gets a texture
        coordinate in [0, 1) (none gets 0). */
    function MarchAlong(x: int, u: Vec): (hit: Hit)
      requires Valid() && width > 0
      ensures 0.0 < hit.step <= BLACK_DISTANCE + STEP
      ensures hit.square != 0 || hit.step > BLACK_DISTANCE
      ensures 0.0 <= hit.textureX < 1.0 && (hit.square == 0 ==> hit.textureX == 0.0)
    {
      var n := March(u, 1);
      assert n == 1 || STEP * (n - 1) as real <= BLACK_DISTANCE;
      var square := SquareAt(u, n);
      Hit(square, STEP * n as real,
          if square != 0 then PyMod1(x as real / width as real * 4.0) else 0.0)
    }

    /** Every step the march takes before its last one lands on an empty
        square, so the square it returns is the first wall on the ray. */
    lemma MarchFindsFirstWall(x: int, u: Vec, j: nat)
      requires Valid() && width > 0
      requires 1 <= j && STEP * j as real < MarchAlong(x, u).step
      ensures SquareAt(u, j) == 0
    {
      var n := March(u, 1);
      assert STEP * j as real < STEP * n as real;
      assert j < n;
    }

    /** The hit of a march that stops after k steps: the square and the
        distance of step k, and the texture x of column x for a wall. */
    lemma MarchAlongStopsAt(x: int, u: Vec, k: nat, square: int, step: real, tx: real)
      requires Valid() && width > 0 && 1 <= k <= MAX_STEPS && March(u, 1) == k
      requires square == SquareAt(u, k) && step == STEP * k as real
      requires tx == if square != 0 then PyMod1(x as real / width as real * 4.0) else 0.0
      ensures MarchAlong(x, u) == Hit(square, step, tx)
    {
    }

    /** `cast_ray(x)`: a zero ray cannot be normalized (ZeroDivisionError);
        any other is marched along its unit vector. */
    function Cast(x: int, mag: real): (r: Result<Hit, WolfError>)
      requires Valid() && width > 0 && IsMagnitude(Ray(x), mag)
      ensures match r
        case Err(e) => IsZero(Ray(x)) && e == ZeroDivisionError
        case Ok(hit) => !IsZero(Ray(x)) && hit == MarchAlong(x, Normalized(Ray(x), mag))
    {
      if mag == 0.0 then Err(ZeroDivisionError)
      else Ok(MarchAlong(x, Normalized(Ray(x), mag)))
    }

    /** The pixels `tick` draws in column x, top row first, or the
        exception the column raises: the cast's, or the layout's. */
    function Column(x: int, mag: real): (r: Result<seq<Rgb>, WolfError>)
      requires Valid() && width > 0 && IsMagnitude(Ray(x), mag)
      ensures r.Ok? ==> |r.value| == height
    {
      match Cast(x, mag)
      case Err(e) => Err(e)
      case Ok(hit) => ColumnOf(hit, height, texture)
    }
  }

  /** The pixels of a column whose march ended with `hit`, top row first:
      the sky, the wall span (textured, or black when the march found no
      wall) and the floor. A screen with no rows raises ZeroDivisionError
      (the depth step divides by its height), and a wall span can raise
      its own exception. */
  function ColumnOf(hit: Hit, height: int, texture: Texture<Rgb>): (r: Result<seq<Rgb>, WolfError>)
    requires hit.step > 0.0 && height >= 0 && IsSquare(texture)
    ensures r.Ok? ==> |r.value| == height
    ensures r.Ok? <==> height > 0 && (hit.square > 0 ==> WallColumnOf(hit, height, texture).Ok?)
  {
    if height == 0 then Err(ZeroDivisionError)
    else
      var s := ColumnSpan(hit.step, height);
      var wall := if hit.square > 0 then WallColumnOf(hit, height, texture)
                  else Ok(seq(s.count, _ => Black));
      match wall
      case Err(e) => Err(e)
      case Ok(rows) =>
        var df := DepthStep(height);
        Ok(CeilingRows(s.yTop, df) + rows + FloorRows(s.yTop + s.count, height, df))
  }

  /** The wall span of a column that hit a wall: `draw_wall_column` with
      the layout `tick` computes. */
  function WallColumnOf(hit: Hit, height: int, texture: Texture<Rgb>): (r: Result<seq<Rgb>, WolfError>)
    requires hit.step > 0.0 && height >= 0 && IsSquare(texture)
    ensures r.Ok? ==> |r.value| == ColumnSpan(hit.step, height).count
  {
    var s := ColumnSpan(hit.step, height);
    WallColumn(s.count, s.distance, texture, hit.textureX, s.textureY, s.wallHeight)
  }

  /* ---------------- one column ---------------- */

  /** The layout `tick` gives a column: the distance floored at 0.1, the
      wall height, the first wall row, the number of wall rows and the
      texture y coordinate of the first one. */
  datatype Span = Span(distance: real, wallHeight: real, yTop: int, count: int, textureY: real)

  /** The column layout of `tick` for a ray that marched `step`: a wall
      that fits is centred (the floor span is as tall as the ceiling span
      or up to two rows taller), a taller one is clipped to the screen and
      starts its texture part-way down; either way the ceiling rows
      [0, yTop), the wall rows [yTop, yTop + count) and the floor rows
      [yTop + count, height) split the column. */
  function ColumnSpan(step: real, height: int): (s: Span)
    requires step > 0.0 && height >= 0
    ensures s.distance == MaxReal(0.1, step) && s.wallHeight * s.distance == height as real
    ensures 0 <= s.yTop && 0 <= s.count && s.yTop + s.count <= height
    ensures s.count == Min(Trunc(s.wallHeight), height)
    ensures s.yTop <= height - (s.yTop + s.count) <= s.yTop + 2
    ensures s.wallHeight <= height as real ==> s.textureY == 0.0
    ensures s.wallHeight > height as real ==> s.yTop == 0 && 0.0 < s.textureY < 0.5
  {
    var distance := MaxReal(0.1, step);
    var h := height as real;
    var wallHeight := h / distance;
    assert wallHeight >= 0.0;
    if wallHeight <= h then
      var yTop := Trunc((h - wallHeight) / 2.0);
      var count := Trunc(wallHeight);
      assert count <= height;
      Span(distance, wallHeight, yTop, count, 0.0)
    else
      assert h / wallHeight < 1.0 by {
        QuotientBelow(h, wallHeight, 1.0);
      }
      assert Trunc(wallHeight) >= height;
      Span(distance, wallHeight, 0, height, 0.5 - h / wallHeight / 2.0)
  }

  /** The depth step `df` of `draw_ceiling` and `draw_floor`:
      `1/((pixheight - pixheight/BLACK_DISTANCE)/2/BLACK_DISTANCE)`. */
  function DepthStep(height: int): (df: real)
    requires height > 0
  {
    1.0 / ((height as real - height as real / BLACK_DISTANCE) / 2.0 / BLACK_DISTANCE)
  }

  /** The depth step is 72 / (5 * height), so row y of the sky has depth
      y * 72 / (5 * height): it reaches BLACK_DISTANCE exactly at 5/12 of
      the screen height. */
  lemma DepthStepValue(height: int)
    requires height > 0
    ensures DepthStep(height) * (5 * height) as real == 72.0
    ensures DepthStep(height) > 0.0
  {
    var h := height as real;
    var den := (h - h / BLACK_DISTANCE) / 2.0 / BLACK_DISTANCE;
    assert den == 5.0 * h / 72.0;
    assert DepthStep(height) == 1.0 / den;
  }

  /** The colour `set_pixel` writes for `rgb` at depth z: darkened with
      scale `1 - min(BLACK_DISTANCE, z)/BLACK_DISTANCE` when z > 0. */
  function Shade(c: Rgb, z: real): (d: Rgb)
    ensures z <= 0.0 ==> d == c
    ensures z >= BLACK_DISTANCE ==> d == Black
  {
    if z > 0.0 then RgbBrightness(c, 1.0 - MinReal(BLACK_DISTANCE, z) / BLACK_DISTANCE) else c
  }

  /** Colour d is what `set_pixel` writes for colour c at depth z. The
      equation is stated for every depth equal to z, so that a proof works
      out the shaded channels only where it names `Shade(c, z)` itself. */
  predicate ShadedAs(d: Rgb, c: Rgb, z: real)
  {
    forall w :: w == z ==> d == Shade(c, w)
  }

  /** The depth `draw_ceiling` gives row y: its distance from the top of
      the screen times the depth step. */
  function SkyDepth(y: int, df: real): real
  {
    y as real * df
  }

  /** The depth `draw_floor` gives row y: its distance from the bottom of
      the screen times the depth step. */
  function FloorDepth(height: int, y: int, df: real): real
  {
    (height - y) as real * df
  }

  /** Two colours shaded from the same colour at the same depth agree. */
  lemma ShadedAsUnique(d: Rgb, e: Rgb, c: Rgb, z: real)
    requires ShadedAs(d, c, z) && ShadedAs(e, c, z)
    ensures d == e
  {
    assert d == Shade(c, z);
  }

  /** Depth only darkens a colour: every channel stays between 0 and its
      value, nothing changes at depth 0 or less, everything is black from
      BLACK_DISTANCE on, and black stays black. */
  lemma ShadeDarkens(c: Rgb, z: real)
    requires 0 <= c.r <= 255 && 0 <= c.g <= 255 && 0 <= c.b <= 255
    ensures var d := Shade(c, z); 0 <= d.r <= c.r && 0 <= d.g <= c.g && 0 <= d.b <= c.b
    ensures z <= 0.0 ==> Shade(c, z) == c
    ensures z >= BLACK_DISTANCE ==> Shade(c, z) == Black
    ensures Shade(Black, z) == Black
  {
    if z > 0.0 {
      var scale := 1.0 - MinReal(BLACK_DISTANCE, z) / BLACK_DISTANCE;
      assert 0.0 <= scale <= 1.0;
      RgbBrightnessInByteRange(c, scale);
      if z >= BLACK_DISTANCE {
        assert scale == 0.0;
      }
    }
  }

  /** The sky rows [0, n): `draw_ceiling`'s blue at depth y * df. */
  function CeilingRows(n: int, df: real): (r: seq<Rgb>)
    requires n >= 0
    ensures |r| == n
  {
    seq(n, y => Shade(Sky, SkyDepth(y, df)))
  }

  /** The floor rows [start, height): `draw_floor`'s green at depth
      (height - y) * df. */
  function FloorRows(start: int, height: int, df: real): (r: seq<Rgb>)
    requires 0 <= start <= height
    ensures |r| == height - start
  {
    seq(height - start, k => Shade(Grass, FloorDepth(height, start + k, df)))
  }

  /** A pixel shaded from blue at depth y * df is row y of the sky. */
  lemma SkyRow(n: int, df: real, y: int, d: Rgb)
    requires 0 <= y < n && ShadedAs(d, Sky, SkyDepth(y, df))
    ensures d == CeilingRows(n, df)[y]
  {
    assert CeilingRows(n, df)[y] == Shade(Sky, SkyDepth(y, df));
  }

  /** A pixel shaded from green at row y's floor depth is row y of the
      floor. */
  lemma FloorRow(start: int, height: int, df: real, y: int, d: Rgb)
    requires 0 <= start <= y < height && ShadedAs(d, Grass, FloorDepth(height, y, df))
    ensures d == FloorRows(start, height, df)[y - start]
  {
    assert FloorRows(start, height, df)[y - start] == Shade(Grass, FloorDepth(height, y, df));
  }

  /** A row whose distance from its screen edge is at least 5/12 of the
      screen height lies at depth BLACK_DISTANCE or more. */
  lemma DepthPastBlack(height: int, e: int)
    requires height > 0 && 12 * e >= 5 * height
    ensures e as real * DepthStep(height) >= BLACK_DISTANCE
  {
    DepthStepValue(height);
    var df := DepthStep(height);
    var h := (5 * height) as real;
    assert (e as real * df) * h == e as real * (df * h);
    assert (e as real * df) * h >= BLACK_DISTANCE * h;
  }

  /** Sky and floor fade to black toward the horizon: the sky from 5/12 of
      the screen height down, the floor from 5/12 of it up. */
  lemma FadeToHorizon(height: int, y: int)
    requires height > 0
    ensures 12 * y >= 5 * height ==> Shade(Sky, SkyDepth(y, DepthStep(height))) == Black
    ensures 12 * (height - y) >= 5 * height ==>
      Shade(Grass, FloorDepth(height, y, DepthStep(height))) == Black
  {
    if 12 * y >= 5 * height {
      DepthPastBlack(height, y);
      ShadeDarkens(Sky, SkyDepth(y, DepthStep(height)));
    }
    if 12 * (height - y) >= 5 * height {
      DepthPastBlack(height, height - y);
      ShadeDarkens(Grass, FloorDepth(height, y, DepthStep(height)));
    }
  }

  /** The texture y coordinate of row k of a wall span whose first row
      samples `ty`: `ty` grows by `1/int(wall_height-1)` per row. */
  function TexY(ty: real, wallHeight: real, k: int): real
    requires Trunc(wallHeight - 1.0) != 0
  {
    ty + k as real * (1.0 / Trunc(wallHeight - 1.0) as real)
  }

  /** Each row down the span adds one texture step to the texture y. */
  lemma TexYStep(ty: real, wallHeight: real, k: int)
    requires Trunc(wallHeight - 1.0) != 0
    ensures TexY(ty, wallHeight, k + 1) == TexY(ty, wallHeight, k) + 1.0 / Trunc(wallHeight - 1.0) as real
  {
    var d := 1.0 / Trunc(wallHeight - 1.0) as real;
    assert (k + 1) as real * d == k as real * d + d;
  }

  /** The rows `draw_wall_column` draws: each the texel the texture y of
      its row selects, shaded by the distance; ZeroDivisionError when
      `int(wall_height-1)` is 0, IndexError when a texel index falls
      outside the texture. */
  function WallColumn(count: int, distance: real, texture: Texture<Rgb>, tx: real, ty: real,
                      wallHeight: real): (r: Result<seq<Rgb>, WolfError>)
    requires count >= 0 && IsSquare(texture)
    ensures r.Ok? ==> |r.value| == count
  {
    if Trunc(wallHeight - 1.0) == 0 then Err(ZeroDivisionError)
    else if exists k :: 0 <= k < count && WolfSample(texture, tx, TexY(ty, wallHeight, k)).Err? then
      Err(WolfError.IndexError)
    else
      Ok(seq(count, k requires 0 <= k < count =>
        Shade(WolfSample(texture, tx, TexY(ty, wallHeight, k)).value, distance)))
  }

  /** A pixel shaded from row k's texel at the wall's distance is row k of
      the wall span. */
  lemma WallRow(count: int, distance: real, texture: Texture<Rgb>, tx: real, ty: real,
                wallHeight: real, k: int, d: Rgb)
    requires 0 <= k < count && IsSquare(texture)
    requires WallColumn(count, distance, texture, tx, ty, wallHeight).Ok?
    requires ShadedAs(d, WolfSample(texture, tx, TexY(ty, wallHeight, k)).value, distance)
    ensures d == WallColumn(count, distance, texture, tx, ty, wallHeight).value[k]
  {
    assert WallColumn(count, distance, texture, tx, ty, wallHeight).value[k] ==
      Shade(WolfSample(texture, tx, TexY(ty, wallHeight, k)).value, distance);
  }

  /** Row k of m + 1 rows that start at texture y 0 samples y = k/m, inside
      [0, 1]: the first row samples 0, the last 1, and with a texture x in
      [0, 1] no texel index leaves the texture. */
  lemma UnclippedWallRow(texture: Texture<Rgb>, tx: real, wallHeight: real, m: int, k: int)
    requires IsSquare(texture) && 0.0 <= tx <= 1.0
    requires Trunc(wallHeight - 1.0) == m >= 1 && 0 <= k <= m
    ensures TexY(0.0, wallHeight, k) == k as real / m as real
    ensures WolfSample(texture, tx, TexY(0.0, wallHeight, k)).Ok?
  {
    var t := TexY(0.0, wallHeight, k);
    assert t == k as real / m as real;
    assert 0.0 <= t <= 1.0 by {
      QuotientBelow(k as real, m as real, 0.0);
      if k < m {
        QuotientBelow(k as real, m as real, 1.0);
      }
    }
    WolfSampleInRange(texture, tx, t);
  }

  /** Rows 0 and m of such a span sample the top and the bottom edge of
      the texture. */
  lemma TexYEnds(wallHeight: real, m: int)
    requires Trunc(wallHeight - 1.0) == m >= 1
    ensures TexY(0.0, wallHeight, 0) == 0.0 && TexY(0.0, wallHeight, m) == 1.0
  {
    var d := 1.0 / m as real;
    assert m as real * d == 1.0;
  }

  /** A wall that fits on the screen and is at least two rows tall spans
      the texture exactly: its first row samples y = 0, its last y = 1,
      and with a texture x in [0, 1] no texel index leaves the texture. */
  lemma UnclippedWallSpansTexture(step: real, height: int, texture: Texture<Rgb>, tx: real)
    requires step > 0.0 && height >= 0 && IsSquare(texture) && 0.0 <= tx <= 1.0
    requires ColumnSpan(step, height).wallHeight <= height as real
    requires ColumnSpan(step, height).count >= 2
    ensures var s := ColumnSpan(step, height);
      Trunc(s.wallHeight - 1.0) == s.count - 1 &&
      TexY(0.0, s.wallHeight, 0) == 0.0 && TexY(0.0, s.wallHeight, s.count - 1) == 1.0 &&
      WallColumn(s.count, s.distance, texture, tx, 0.0, s.wallHeight).Ok?
  {
    var s := ColumnSpan(step, height);
    var m := s.count - 1;
    assert Trunc(s.wallHeight - 1.0) == m;
    TexYEnds(s.wallHeight, m);
    forall k | 0 <= k < s.count
      ensures WolfSample(texture, tx, TexY(0.0, s.wallHeight, k)).Ok?
    {
      UnclippedWallRow(texture, tx, s.wallHeight, m, k);
    }
  }

  /** On a screen at least 13 rows tall the wall step `1/int(wall_height-1)`
      is always defined: a march ends within BLACK_DISTANCE + 0.02, so a
      wall is more than two rows tall. */
  lemma WallStepDefined(step: real, height: int)
    requires 0.0 < step <= BLACK_DISTANCE + STEP && height >= 13
    ensures Trunc(ColumnSpan(step, height).wallHeight - 1.0) >= 1
  {
    var s := ColumnSpan(step, height);
    assert s.distance <= 6.02;
    assert s.wallHeight * s.distance == height as real;
    assert s.wallHeight >= 2.0 by {
      assert s.wallHeight * s.distance <= s.wallHeight * 6.02;
    }
  }

  /** On a 10-row screen a wall hit at distance 0.94 is clipped and its
      texture y runs past 1: the last row reads texel row 65 of 64 and
      the column raises IndexError. */
  lemma ShortScreenClippedWallRaises(texture: Texture<Rgb>)
    requires IsSquare(texture)
    ensures WallColumnOf(Hit(1, 0.94, 0.5), 10, texture) == Err(WolfError.IndexError)
  {
    var s := ColumnSpan(0.94, 10);
    assert s.wallHeight == 10.0 / 0.94;
    assert Trunc(s.wallHeight - 1.0) == 9;
    assert s.count == 10;
    var t := TexY(s.textureY, s.wallHeight, 9);
    assert s.textureY == 0.5 - 0.47;
    assert t == 1.03;
    assert RoundHalfEven(t * 63.0) == 65;
    assert WolfSample(texture, 0.5, t).Err?;
  }

  /** The texture y of row k of a clipped wall with the step
      `1/wall_height`: the wall is `wall_height` rows tall and spans the
      texture once, so that is the step the centred start
      `0.5 - pixheight/wall_height/2` goes with. */
  function ClippedTexY(ty: real, wallHeight: real, k: int): real
    requires wallHeight > 0.0
  {
    ty + k as real / wallHeight
  }

  /** With that step every row of a clipped wall samples strictly inside
      the texture, so with a texture x in [0, 1] no row raises. */
  lemma ClippedWallStaysInTexture(step: real, height: int, texture: Texture<Rgb>, tx: real, k: int)
    requires step > 0.0 && height >= 0 && IsSquare(texture) && 0.0 <= tx <= 1.0
    requires ColumnSpan(step, height).wallHeight > height as real
    requires 0 <= k < ColumnSpan(step, height).count
    ensures var s := ColumnSpan(step, height);
      0.0 < ClippedTexY(s.textureY, s.wallHeight, k) < 1.0 &&
      WolfSample(texture, tx, ClippedTexY(s.textureY, s.wallHeight, k)).Ok?
  {
    var s := ColumnSpan(step, height);
    var w := s.wallHeight;
    var h := height as real;
    var q := h / w;
    var a := k as real / w;
    assert q * w == h && a * w == k as real;
    assert s.textureY == 0.5 - q / 2.0;
    assert q < 1.0 by {
      QuotientBelow(h, w, 1.0);
    }
    assert a < q by {
      assert (q - a) * w == h - k as real;
      assert h - k as real > 0.0;
    }
    assert 0.0 <= a;
    WolfSampleInRange(texture, tx, ClippedTexY(s.textureY, w, k));
  }

  /** Every texture `Raycaster.__init__` loads is there, 64x64. */
  predicate WolfTexturesLoaded(textures: map<string, Texture<Rgb>>)
  {
    forall name :: name in TextureNames ==> name in textures && IsSquare(textures[name])
  }

  /** `self.map[int(p.y)][int(p.x)]` in the movement code: Python list
      indexing, so a negative index counts from the far end and one past
      either end raises IndexError (None). */
  function Lookup(m: seq<seq<int>>, p: Vec): (r: Option<int>)
    ensures !(-|m| <= Trunc(p.y) < |m|) ==> r.None?
    ensures 0 <= Trunc(p.y) < |m| && 0 <= Trunc(p.x) < |m[Trunc(p.y)]| ==>
      r == Some(m[Trunc(p.y)][Trunc(p.x)])
  {
    match PyIndex(m, Trunc(p.y))
    case None => None
    case Some(row) => PyIndex(row, Trunc(p.x))
  }

  /** Inside the map the movement lookup agrees with `get_map_square`;
      just below the bottom row (y in (-2, -1]) it reads the top row
      instead of failing, and below -|m| it raises. */
  lemma LookupWraps(m: seq<seq<int>>, p: Vec)
    requires Rectangular(m)
    ensures 0 <= Trunc(p.x) < |m[0]| && 0 <= Trunc(p.y) < |m| ==>
      Lookup(m, p) == Some(MapSquare(m, p.x, p.y))
    ensures 0 <= Trunc(p.x) < |m[0]| && -2.0 < p.y <= -1.0 ==>
      Lookup(m, p) == Some(m[|m| - 1][Trunc(p.x)])
    ensures Trunc(p.y) < -|m| ==> Lookup(m, p).None?
  {
    if -2.0 < p.y <= -1.0 {
      assert Trunc(p.y) == -1;
      assert |m[|m| - 1]| == |m[0]|;
    }
    if 0 <= Trunc(p.y) < |m| {
      assert |m[Trunc(p.y)]| == |m[0]|;
    }
  }

  /* ---------------- the renderer ---------------- */

  class WolfRaycaster {
    const pixwidth: int
    const pixheight: int
    /** The PIL image, `image[x, y]`. */
    const image: array2<Rgb>
    /** `zbuffer[x][y]`. */
    const zbuffer: array2<Ext>
    const textures: map<string, Texture<Rgb>>
    var frame: int
    var position: Vec
    var direction: Vec
    var plane: Vec
    /** `self.map`, rows bottom-up: `map[y][x]`. */
    var squares: seq<seq<int>>

    /** The buffers have the screen's size, the map is rectangular and the
        textures are loaded. */
    predicate Valid()
      reads this
    {
      pixwidth >= 0 && pixheight >= 0 &&
      image.Length0 == pixwidth && image.Length1 == pixheight &&
      zbuffer.Length0 == pixwidth && zbuffer.Length1 == pixheight &&
      Rectangular(squares) && WolfTexturesLoaded(textures)
    }

    /** What a frame reads; `tick` draws walls with the "test" texture. */
    function CurrentScene(): (s: Scene)
      reads this
      requires Valid()
      ensures s.Valid()
    {
      Scene(squares, position, direction, plane, pixwidth, pixheight, textures["test"])
    }

    /** `Raycaster(pixwidth, pixheight)` with its textures already loaded;
        `tanHalfFov` is `tan(FOV / 2)`. The image starts black, the
        z-buffer at 0, and the player in the middle of the built-in map's
        start square, looking along +y. */
    constructor (pixwidth: int, pixheight: int, textures: map<string, Texture<Rgb>>, tanHalfFov: real)
      requires pixwidth >= 0 && pixheight >= 0 && WolfTexturesLoaded(textures)
      ensures Valid() && fresh(image) && fresh(zbuffer)
      ensures this.pixwidth == pixwidth && this.pixheight == pixheight && this.textures == textures
      ensures frame == 0
      ensures direction == Vec(0.0, FOCAL_LENGTH) && plane == Vec(tanHalfFov * FOCAL_LENGTH, 0.0)
      ensures IsParsed(squares, Cmap) && position == Vec(9.5, 1.5)
      ensures forall a, b :: 0 <= a < pixwidth && 0 <= b < pixheight ==>
        image[a, b] == Black && zbuffer[a, b] == Fin(0.0)
    {
      this.pixwidth := pixwidth;
      this.pixheight := pixheight;
      image := new Rgb[pixwidth, pixheight]((_, _) => Black);
      zbuffer := new Ext[pixwidth, pixheight]((_, _) => Fin(0.0));
      this.textures := textures;
      frame := 0;
      position := Vec(0.0, 0.0);
      direction := Vec(0.0, FOCAL_LENGTH);
      plane := Vec(tanHalfFov * FOCAL_LENGTH, 0.0);
      squares := [[0]];
      new;
      BuiltInMapWidths();
      BuiltInMapBottom();
      LoadStartMap(Cmap, 9);
    }

    /** The constructor's `self.map = self.load_map(cmap)`, for a
        rectangular map text whose bottom row has no `s` and whose next
        row up has its first `s` in column i (the built-in map, with i = 9). */
    method LoadStartMap(cmap: seq<string>, i: int)
      requires |cmap| >= 2 && forall y :: 0 <= y < |cmap| ==> |cmap[y]| == |cmap[0]|
      requires NoStartBefore(cmap[|cmap| - 1], |cmap[|cmap| - 1]|)
      requires 0 <= i < |cmap[|cmap| - 2]| && cmap[|cmap| - 2][i] == 's' && NoStartBefore(cmap[|cmap| - 2], i)
      modifies this`squares, this`position
      ensures IsParsed(squares, cmap) && Rectangular(squares)
      ensures position == Vec(i as real + 0.5, 1.5)
    {
      StartInSecondRow(cmap, i);
      var m := LoadMap(cmap);
      ParsedIsRectangular(m, cmap);
      squares := m;
    }

    /** `load_map` on the map text `cmap`: the rows come back flipped and
        translated, and the player moves to the centre of the first `s`
        from the bottom, or stays where it was if there is none. */
    method LoadMap(cmap: seq<string>) returns (m2: seq<seq<int>>)
      modifies this`position
      ensures IsParsed(m2, cmap)
      ensures match FirstStart(WorldMap.Reversed(cmap), 0)
        case None => position == old(position)
        case Some(c) => position == Vec(c.0 as real + 0.5, c.1 as real + 0.5)
    {
      var rows := WorldMap.Reversed(cmap);
      var y := 0;
      while y < |rows|
        invariant 0 <= y <= |rows|
        invariant FirstStart(rows, y) == FirstStart(rows, 0)
        invariant position == old(position)
      {
        var x := Find(rows[y], 's');
        if x >= 0 {
          position := Vec(x as real + 0.5, y as real + 0.5);
          break;
        }
        y := y + 1;
      }
      m2 := [];
      var i := 0;
      while i < |rows|
        invariant 0 <= i <= |rows| && |m2| == i
        invariant forall j :: 0 <= j < i ==> m2[j] == WorldMap.TranslateRow(cmap[|cmap| - 1 - j])
      {
        m2 := m2 + [WorldMap.TranslateRow(rows[i])];
        i := i + 1;
      }
    }

    /** `get_map_square(x, y)`. */
    function GetMapSquare(x: real, y: real): (s: int)
      reads this
      requires Valid()
      ensures s == MapSquare(squares, x, y)
    {
      MapSquare(squares, x, y)
    }

    /** `cast_ray(pixel_x)`, with `mag` the magnitude of the column's ray:
        normalize the ray (ZeroDivisionError for a zero ray) and march it
        in 0.02 steps, as `Scene.Cast` says. */
    method CastRay(pixelX: int, mag: real) returns (r: Result<Hit, WolfError>)
      requires Valid() && pixwidth > 0 && IsMagnitude(CurrentScene().Ray(pixelX), mag)
      ensures r == CurrentScene().Cast(pixelX, mag)
    {
      var cameraPlaneRay := Scale(plane, (pixelX as real / pixwidth as real - 0.5) * 2.0);
      var ray := Add(direction, cameraPlaneRay);
      assert ray == CurrentScene().Ray(pixelX);
      if mag == 0.0 {
        return Err(ZeroDivisionError);
      }
      var hit := MarchRay(pixelX, Normalized(ray, mag));
      r := Ok(hit);
    }

    /** The march of `cast_ray` along the unit ray u, then the texture x
        coordinate of a wall hit: `Scene.MarchAlong`. */
    method MarchRay(pixelX: int, u: Vec) returns (hit: Hit)
      requires Valid() && pixwidth > 0
      ensures hit == CurrentScene().MarchAlong(pixelX, u)
    {
      ghost var scene := CurrentScene();
      var square, step, k := MarchSteps(u);
      var tx := 0.0;
      if square != 0 {
        tx := PyMod1(pixelX as real / pixwidth as real * 4.0);
      }
      assert pixelX as real / pixwidth as real * 4.0 == pixelX as real / scene.width as real * 4.0;
      scene.MarchAlongStopsAt(pixelX, u, k, square, step, tx);
      hit := Hit(square, step, tx);
    }

    /** The march loop of `cast_ray` along the unit ray u: step 0.02 at a
        time until the square under the march is a wall or the distance is
        past BLACK_DISTANCE. It stops after `Scene.March` steps. */
    method MarchSteps(u: Vec) returns (square: int, step: real, ghost k: nat)
      requires Valid()
      ensures k == CurrentScene().March(u, 1)
      ensures square == CurrentScene().SquareAt(u, k) && step == STEP * k as real
    {
      ghost var scene := CurrentScene();
      ghost var n := scene.March(u, 1);
      step := 0.0;
      square := 0;
      k := 0;
      while step <= BLACK_DISTANCE && square == 0
        invariant k <= n && step == STEP * k as real
        invariant k == 0 ==> square == 0
        invariant k > 0 ==> square == scene.SquareAt(u, k)
        decreases n - k
      {
        // Step n is a wall or past BLACK_DISTANCE, so the march has not reached it.
        assert k < n;
        step := step + STEP;
        k := k + 1;
        var p := Add(position, Scale(u, step));
        square := GetMapSquare(p.x, p.y);
        assert square == scene.SquareAt(u, k);
      }
      // The march stopped at step k, so k is where `Scene.March` ends.
      assert k == n;
    }

    /** `set_pixel(x, y, z, rgb)`: with a colour, pixel (x, y) becomes that
        colour shaded by z, whatever was drawn there before (the z-buffer
        plays no part); without one nothing changes. */
    method SetPixel(x: int, y: int, z: real, rgb: Option<Rgb>)
      requires 0 <= x < image.Length0 && 0 <= y < image.Length1
      modifies image
      ensures rgb.Some? ==> ShadedAs(image[x, y], rgb.value, z)
      ensures forall a, b ::
        (0 <= a < image.Length0 && 0 <= b < image.Length1 && (a != x || b != y || rgb.None?)) ==>
        image[a, b] == old(image[a, b])
    {
      if rgb.Some? {
        var c := rgb.value;
        if z > 0.0 {
          c := RgbBrightness(c, 1.0 - MinReal(BLACK_DISTANCE, z) / BLACK_DISTANCE);
        }
        image[x, y] := c;
      }
    }

    /** `clear_zbuffer`: every depth becomes `inf`. */
    method ClearZBuffer()
      requires Valid()
      modifies zbuffer
      ensures forall a, b :: 0 <= a < pixwidth && 0 <= b < pixheight ==> zbuffer[a, b] == Inf
    {
      for x := 0 to pixwidth
        invariant forall a, b :: 0 <= a < x && 0 <= b < pixheight ==> zbuffer[a, b] == Inf
      {
        for y := 0 to pixheight
          invariant forall a, b :: 0 <= a < x && 0 <= b < pixheight ==> zbuffer[a, b] == Inf
          invariant forall b :: 0 <= b < y ==> zbuffer[x, b] == Inf
        {
          zbuffer[x, y] := Inf;
        }
      }
    }

    /** `draw_ceiling(x, num_y_pixels)`: rows [0, num) of column x become
        the sky colour at depth y * df. The depth step divides by the
        screen height, so a screen with no rows raises ZeroDivisionError. */
    method DrawCeiling(x: int, numYPixels: int) returns (r: Result<(), WolfError>)
      requires Valid() && 0 <= x < pixwidth && 0 <= numYPixels <= pixheight
      modifies image
      ensures r == if pixheight == 0 then Err(ZeroDivisionError) else Ok(())
      ensures r.Ok? ==> forall b :: 0 <= b < numYPixels ==>
        ShadedAs(image[x, b], Sky, SkyDepth(b, DepthStep(pixheight)))
      ensures forall a, b :: 0 <= a < pixwidth && 0 <= b < pixheight && !(a == x && b < numYPixels) ==>
        image[a, b] == old(image[a, b])
    {
      if pixheight == 0 {
        return Err(ZeroDivisionError);
      }
      var df := 1.0 / ((pixheight as real - pixheight as real / BLACK_DISTANCE) / 2.0 / BLACK_DISTANCE);
      assert df == DepthStep(pixheight);
      for y := 0 to numYPixels
        invariant forall b :: 0 <= b < y ==> ShadedAs(image[x, b], Sky, SkyDepth(b, df))
        invariant forall a, b :: 0 <= a < pixwidth && 0 <= b < pixheight && !(a == x && b < y) ==>
          image[a, b] == old(image[a, b])
      {
        SetPixel(x, y, SkyDepth(y, df), Some(Sky));
      }
      r := Ok(());
    }

    /** `draw_floor(x, y_start)`: rows [y_start, pixheight) of column x
        become the floor colour at depth (pixheight - y) * df; a screen
        with no rows raises ZeroDivisionError. */
    method DrawFloor(x: int, yStart: int) returns (r: Result<(), WolfError>)
      requires Valid() && 0 <= x < pixwidth && 0 <= yStart <= pixheight
      modifies image
      ensures r == if pixheight == 0 then Err(ZeroDivisionError) else Ok(())
      ensures r.Ok? ==> forall b :: yStart <= b < pixheight ==>
        ShadedAs(image[x, b], Grass, FloorDepth(pixheight, b, DepthStep(pixheight)))
      ensures forall a, b :: 0 <= a < pixwidth && 0 <= b < pixheight && !(a == x && yStart <= b) ==>
        image[a, b] == old(image[a, b])
    {
      if pixheight == 0 {
        return Err(ZeroDivisionError);
      }
      var df := 1.0 / ((pixheight as real - pixheight as real / BLACK_DISTANCE) / 2.0 / BLACK_DISTANCE);
      assert df == DepthStep(pixheight);
      for y := yStart to pixheight
        invariant forall b :: yStart <= b < y ==> ShadedAs(image[x, b], Grass, FloorDepth(pixheight, b, df))
        invariant forall a, b :: 0 <= a < pixwidth && 0 <= b < pixheight && !(a == x && yStart <= b < y) ==>
          image[a, b] == old(image[a, b])
      {
        SetPixel(x, y, FloorDepth(pixheight, y, df), Some(Grass));
      }
      r := Ok(());
    }

    /** `draw_black_column`: rows [y_top, y_top + num) of column x become
        black, whatever the distance. */
    method DrawBlackColumn(x: int, yTop: int, numYPixels: int, distance: real)
      requires Valid() && 0 <= x < pixwidth && 0 <= yTop && 0 <= numYPixels
      requires yTop + numYPixels <= pixheight
      modifies image
      ensures forall a, b :: 0 <= a < pixwidth && 0 <= b < pixheight ==>
        image[a, b] == if a == x && yTop <= b < yTop + numYPixels then Black else old(image[a, b])
    {
      ShadeDarkens(Black, distance);
      for y := yTop to yTop + numYPixels
        invariant forall a, b :: 0 <= a < pixwidth && 0 <= b < pixheight ==>
          image[a, b] == if a == x && yTop <= b < y then Black else old(image[a, b])
      {
        SetPixel(x, y, distance, Some(Black));
      }
    }

    /** `draw_wall_column`: rows [y_top, y_top + num) of column x become
        the rows of `WallColumn`; when that raises, the exception is the
        same and only the span's rows may have been drawn. */
    method DrawWallColumn(x: int, yTop: int, numYPixels: int, distance: real, texture: Texture<Rgb>,
                          tx: real, ty: real, wallHeight: real) returns (r: Result<(), WolfError>)
      requires Valid() && 0 <= x < pixwidth && 0 <= yTop && 0 <= numYPixels
      requires yTop + numYPixels <= pixheight && IsSquare(texture)
      modifies image
      ensures var col := WallColumn(numYPixels, distance, texture, tx, ty, wallHeight);
        (r.Ok? <==> col.Ok?) && (r.Err? ==> col == Err(r.error))
      ensures r.Ok? ==> forall b :: yTop <= b < yTop + numYPixels ==>
        ShadedAs(image[x, b], WolfSample(texture, tx, TexY(ty, wallHeight, b - yTop)).value, distance)
      ensures forall a, b ::
        (0 <= a < pixwidth && 0 <= b < pixheight && !(a == x && yTop <= b < yTop + numYPixels)) ==>
        image[a, b] == old(image[a, b])
    {
      var m := Trunc(wallHeight - 1.0);
      if m == 0 {
        return Err(ZeroDivisionError);
      }
      var dty := 1.0 / m as real;
      var t := ty;
      for y := yTop to yTop + numYPixels
        invariant t == TexY(ty, wallHeight, y - yTop)
        invariant forall k :: 0 <= k < y - yTop ==> WolfSample(texture, tx, TexY(ty, wallHeight, k)).Ok?
        invariant forall b :: yTop <= b < y ==>
          ShadedAs(image[x, b], WolfSample(texture, tx, TexY(ty, wallHeight, b - yTop)).value, distance)
        invariant forall a, b ::
          (0 <= a < pixwidth && 0 <= b < pixheight && !(a == x && yTop <= b < y)) ==>
          image[a, b] == old(image[a, b])
      {
        var sample := WolfSample(texture, tx, t);
        if sample.Err? {
          return Err(WolfError.IndexError);
        }
        SetPixel(x, y, distance, Some(sample.value));
        TexYStep(ty, wallHeight, y - yTop);
        t := t + dty;
      }
      r := Ok(());
    }

    /** One column of `tick`: cast the ray, then draw the column the march
        ends with. Only column x changes; an exception is the one
        `Scene.Column` gives, and without one column x holds
        `Scene.Column`. */
    method RenderColumn(x: int, mag: real, ghost scene: Scene) returns (r: Result<(), WolfError>)
      requires Valid() && CurrentScene() == scene && 0 <= x < pixwidth
      requires IsMagnitude(scene.Ray(x), mag)
      modifies image
      ensures r.Err? ==> scene.Column(x, mag) == Err(r.error)
      ensures r.Ok? ==>
        scene.Column(x, mag).Ok? &&
        forall b :: 0 <= b < pixheight ==> image[x, b] == scene.Column(x, mag).value[b]
      ensures forall a, b :: 0 <= a < pixwidth && 0 <= b < pixheight && a != x ==>
        image[a, b] == old(image[a, b])
    {
      var hit := CastRay(x, mag);
      if hit.Err? {
        return Err(hit.error);
      }
      // The march always moves, so the source's `distance > 0` guard holds.
      assert hit.value.step > 0.0;
      r := DrawColumn(x, hit.value);
    }

    /** The layout `tick` computes for a column whose march ended after
        `step`: the distance floored at 0.1, the wall height, and a wall
        that fits centred or a taller one clipped to the screen. */
    method LayOut(step: real) returns (s: Span)
      requires Valid() && step > 0.0
      ensures s == ColumnSpan(step, pixheight)
    {
      var distance := MaxReal(0.1, step);
      var wallHeight := pixheight as real / distance;
      var yTop, numYPixels, textureY;
      if wallHeight <= pixheight as real {
        yTop := Trunc((pixheight as real - wallHeight) / 2.0);
        numYPixels := Trunc(wallHeight);
        textureY := 0.0;
      } else {
        yTop := 0;
        numYPixels := pixheight;
        textureY := 0.5 - pixheight as real / wallHeight / 2.0;
      }
      s := Span(distance, wallHeight, yTop, numYPixels, textureY);
    }

    /** The drawing half of one column of `tick` for a march that ended
        with `hit`: lay out the column, draw the ceiling, the wall
        (textured) or a black span (no wall within BLACK_DISTANCE), and the
        floor. Only column x changes; an exception is the one `ColumnOf`
        gives, and without one column x holds `ColumnOf`. */
    method DrawColumn(x: int, hit: Hit) returns (r: Result<(), WolfError>)
      requires Valid() && 0 <= x < pixwidth && hit.step > 0.0
      modifies image
      ensures var col := ColumnOf(hit, pixheight, textures["test"]);
        match r
        case Err(e) => col == Err(e)
        case Ok(_) => col.Ok? && forall b :: 0 <= b < pixheight ==> image[x, b] == col.value[b]
      ensures forall a, b :: 0 <= a < pixwidth && 0 <= b < pixheight && a != x ==>
        image[a, b] == old(image[a, b])
    {
      var s := LayOut(hit.step);
      var distance, wallHeight, yTop, numYPixels, textureY := s.distance, s.wallHeight, s.yTop, s.count, s.textureY;
      var c := DrawCeiling(x, yTop);
      if c.Err? {
        return c;
      }
      if hit.square > 0 {
        var w := DrawWallColumn(x, yTop, numYPixels, distance, textures["test"], hit.textureX, textureY, wallHeight);
        if w.Err? {
          return w;
        }
      } else {
        DrawBlackColumn(x, yTop, numYPixels, distance);
      }
      var f := DrawFloor(x, yTop + numYPixels);
      forall b | 0 <= b < pixheight
        ensures image[x, b] == ColumnOf(hit, pixheight, textures["test"]).value[b]
      {
        assert DrawnRow(hit, pixheight, textures["test"], b, image[x, b]);
        ColumnRow(hit, pixheight, textures["test"], b, image[x, b]);
      }
      r := Ok(());
    }

    /** `tick`: count the frame and draw every column in turn, `mags[x]`
        being the magnitude of column x's ray. The frame succeeds exactly
        when every column can be drawn, and then column x holds
        `Scene.Column(x)`; otherwise the first column that fails raises its
        exception. */
    method Tick(mags: seq<real>) returns (r: Result<(), WolfError>)
      requires Valid() && |mags| == pixwidth
      requires forall x :: 0 <= x < pixwidth ==> IsMagnitude(CurrentScene().Ray(x), mags[x])
      modifies this`frame, image
      ensures Valid() && frame == old(frame) + 1 && CurrentScene() == old(CurrentScene())
      ensures r.Ok? ==> forall a :: 0 <= a < pixwidth ==>
        CurrentScene().Column(a, mags[a]).Ok? &&
        forall b :: 0 <= b < pixheight ==> image[a, b] == CurrentScene().Column(a, mags[a]).value[b]
      ensures r.Err? ==> exists x ::
        0 <= x < pixwidth && CurrentScene().Column(x, mags[x]) == Err(r.error) &&
        forall a :: 0 <= a < x ==> CurrentScene().Column(a, mags[a]).Ok?
    {
      frame := frame + 1;
      r := DrawColumns(mags, CurrentScene());
    }

    /** The column loop of `tick`: columns 0, 1, ... in turn, stopping at
        the first that raises. */
    method DrawColumns(mags: seq<real>, ghost scene: Scene) returns (r: Result<(), WolfError>)
      requires Valid() && CurrentScene() == scene && |mags| == pixwidth
      requires forall x :: 0 <= x < pixwidth ==> IsMagnitude(scene.Ray(x), mags[x])
      modifies image
      ensures r.Ok? ==> forall a :: 0 <= a < pixwidth ==>
        scene.Column(a, mags[a]).Ok? &&
        forall b :: 0 <= b < pixheight ==> image[a, b] == scene.Column(a, mags[a]).value[b]
      ensures r.Err? ==> exists x ::
        0 <= x < pixwidth && scene.Column(x, mags[x]) == Err(r.error) &&
        forall a :: 0 <= a < x ==> scene.Column(a, mags[a]).Ok?
    {
      for x := 0 to pixwidth
        invariant forall a :: 0 <= a < x ==>
          scene.Column(a, mags[a]).Ok? &&
          forall b :: 0 <= b < pixheight ==> image[a, b] == scene.Column(a, mags[a]).value[b]
      {
        var c := RenderColumn(x, mags[x], scene);
        if c.Err? {
          assert scene.Column(x, mags[x]) == Err(c.error);
          return c;
        }
      }
      r := Ok(());
    }

    /** `move_player_forward_or_back(amount)`: the step along the unit
        direction is taken only onto an empty square. A zero direction
        cannot be normalized (ZeroDivisionError) and a target off the map
        by more than its size raises IndexError; neither moves the player. */
    method MoveForwardOrBack(amount: real, mag: real) returns (r: Result<(), WolfError>)
      requires IsMagnitude(direction, mag)
      modifies this`position
      ensures r.Err? ==> position == old(position)
      ensures if IsZero(old(direction)) then r == Err(ZeroDivisionError) else
        var target := Add(old(position), Scale(Normalized(old(direction), mag), amount));
        match Lookup(squares, target)
        case None => r == Err(WolfError.IndexError)
        case Some(square) => r == Ok(()) && position == if square == 0 then target else old(position)
    {
      if mag == 0.0 {
        return Err(ZeroDivisionError);
      }
      var dn := Normalized(direction, mag);
      var target := Add(position, Scale(dn, amount));
      var square := Lookup(squares, target);
      if square.None? {
        return Err(WolfError.IndexError);
      }
      if square.value == 0 {
        position := target;
      }
      r := Ok(());
    }

    /** `move_player_left_or_right(amount)`: the same, sideways along
        (dn.y, -dn.x) for the unit direction dn. */
    method MoveLeftOrRight(amount: real, mag: real) returns (r: Result<(), WolfError>)
      requires IsMagnitude(direction, mag)
      modifies this`position
      ensures r.Err? ==> position == old(position)
      ensures if IsZero(old(direction)) then r == Err(ZeroDivisionError) else
        var target := Add(old(position), Scale(Sideways(old(direction), mag), amount));
        match Lookup(squares, target)
        case None => r == Err(WolfError.IndexError)
        case Some(square) => r == Ok(()) && position == if square == 0 then target else old(position)
    {
      if mag == 0.0 {
        return Err(ZeroDivisionError);
      }
      var dn := Normalized(direction, mag);
      var target := Add(position, Scale(Vec(dn.y, -dn.x), amount));
      var square := Lookup(squares, target);
      if square.None? {
        return Err(WolfError.IndexError);
      }
      if square.value == 0 {
        position := target;
      }
      r := Ok(());
    }
  }

  /** The unit vector a quarter turn clockwise from a non-zero direction. */
  function Sideways(direction: Vec, mag: real): (s: Vec)
    requires IsMagnitude(direction, mag) && !IsZero(direction)
    ensures MagSquared(s) == 1.0 && Dot(s, direction) == 0.0
  {
    NormalizedIsUnit(direction, mag);
    var dn := Normalized(direction, mag);
    assert Dot(Vec(dn.y, -dn.x), direction) == (dn.y * direction.x - dn.x * direction.y);
    assert dn.y * direction.x == dn.x * direction.y by {
      assert dn.y * direction.x == direction.y * direction.x / mag;
      assert dn.x * direction.y == direction.x * direction.y / mag;
    }
    Vec(dn.y, -dn.x)
  }

  /** A drawn column is its sky rows, its wall span and its floor rows,
      one after the other. */
  lemma ColumnParts(hit: Hit, height: int, texture: Texture<Rgb>)
    requires hit.step > 0.0 && height >= 0 && IsSquare(texture)
    requires ColumnOf(hit, height, texture).Ok?
    ensures var s := ColumnSpan(hit.step, height);
      var df := DepthStep(height);
      var rows := if hit.square > 0 then WallColumnOf(hit, height, texture).value
                  else seq(s.count, _ => Black);
      ColumnOf(hit, height, texture).value == CeilingRows(s.yTop, df) + rows + FloorRows(s.yTop + s.count, height, df)
  {
  }

  /** Pixel d is drawn the way `tick` draws row b of a column whose march
      ended with `hit`: shaded sky above the wall span, the span's texel (or
      black) shaded at the wall's distance, and shaded floor below it. */
  predicate DrawnRow(hit: Hit, height: int, texture: Texture<Rgb>, b: int, d: Rgb)
    requires hit.step > 0.0 && height > 0 && IsSquare(texture)
  {
    var s := ColumnSpan(hit.step, height);
    var df := DepthStep(height);
    if b < s.yTop then ShadedAs(d, Sky, SkyDepth(b, df))
    else if b < s.yTop + s.count then
      if hit.square > 0 then
        Trunc(s.wallHeight - 1.0) != 0 &&
        var texel := WolfSample(texture, hit.textureX, TexY(s.textureY, s.wallHeight, b - s.yTop));
        texel.Ok? && ShadedAs(d, texel.value, s.distance)
      else d == Black
    else ShadedAs(d, Grass, FloorDepth(height, b, df))
  }

  /** A pixel drawn the way `tick` draws row b of a column is row b of
      `ColumnOf`. */
  lemma ColumnRow(hit: Hit, height: int, texture: Texture<Rgb>, b: int, d: Rgb)
    requires hit.step > 0.0 && height > 0 && IsSquare(texture)
    requires ColumnOf(hit, height, texture).Ok? && 0 <= b < height
    requires DrawnRow(hit, height, texture, b, d)
    ensures d == ColumnOf(hit, height, texture).value[b]
  {
    var s := ColumnSpan(hit.step, height);
    var df := DepthStep(height);
    var rows := if hit.square > 0 then WallColumnOf(hit, height, texture).value
                else seq(s.count, _ => Black);
    ColumnParts(hit, height, texture);
    if b < s.yTop {
      SkyRow(s.yTop, df, b, d);
    } else if b < s.yTop + s.count {
      if hit.square > 0 {
        WallRow(s.count, s.distance, texture, hit.textureX, s.textureY, s.wallHeight, b - s.yTop, d);
      }
      assert d == rows[b - s.yTop];
    } else {
      FloorRow(s.yTop + s.count, height, df, b, d);
    }
  }

}
