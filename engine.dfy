/** The renderer of the current engine (python/pyraycaster/raycaster.py,
    class `Raycaster`): a flat z-buffer and a frame image of
    `pixwidth * pixheight` entries, indexed `x + y * pixwidth`, which every
    frame resets and then fills column by column with walls, floor and
    ceiling, and sprites; plus the player's position and its collision
    checks.

    Trigonometry and square roots are parameters: `dScreen` is the value
    of `screen_distance()`, `mag` the magnitude of the player direction,
    and each sprite arrives with its distance, view angle and the cosine of
    that angle already computed. */
module Engine {
  import opened Numerics
  import opened Vectors
  import opened Textures
  import Dda
  import WorldMap

  /** `Raycaster.BLACK_DISTANCE`, the class default. */
  const BLACK_DISTANCE: real := 4.5

  /** The colour of `draw_black_column`, and of the freshly created image. */
  const Black := Rgba(0, 0, 0, 0)

  /* ---------------- shading ---------------- */

  /** `brightness(distance)`: fades linearly to black at the black
      distance. */
  function Brightness(distance: real, blackDistance: real): (b: real)
    requires blackDistance != 0.0
    ensures 0.0 <= b
    ensures distance == 0.0 ==> b == 1.0
    ensures distance / blackDistance >= 1.0 ==> b == 0.0
  {
    MaxReal(0.0, 1.0 - distance / blackDistance)
  }

  /** For a positive black distance the brightness lies in [0, 1] for any
      distance not behind the player, is 1 at distance 0 and 0 from the
      black distance on, and never grows with the distance. */
  lemma BrightnessFalloff(d: real, d2: real, blackDistance: real)
    requires blackDistance > 0.0
    ensures 0.0 <= Brightness(d, blackDistance)
    ensures d >= 0.0 ==> Brightness(d, blackDistance) <= 1.0
    ensures Brightness(0.0, blackDistance) == 1.0
    ensures d >= blackDistance ==> Brightness(d, blackDistance) == 0.0
    ensures d <= d2 ==> Brightness(d2, blackDistance) <= Brightness(d, blackDistance)
  {
    if d <= d2 {
      assert d / blackDistance <= d2 / blackDistance by {
        assert d2 / blackDistance - d / blackDistance == (d2 - d) / blackDistance;
      }
    }
    if d >= blackDistance {
      var q := d / blackDistance;
      assert q * blackDistance == d;
    }
  }

  /* ---------------- the depth test ---------------- */

  /** A `set_pixel` call that was given a colour: where, how near, and in
      which frame. */
  datatype Plot = Plot(index: int, z: real, frame: int)

  /** The depth a z-buffer entry holds after the plots of `log`, starting
      from `inf`: each plot at that index keeps the nearer of the two. */
  function Nearest(log: seq<Plot>, i: int): Ext
    decreases |log|
  {
    if |log| == 0 then Inf
    else
      var before := Nearest(log[..|log| - 1], i);
      if log[|log| - 1].index == i then MinExt(before, Fin(log[|log| - 1].z)) else before
  }

  /** Appending a plot changes the nearest depth at its own index only. */
  lemma NearestAppend(log: seq<Plot>, p: Plot)
    ensures forall i :: Nearest(log + [p], i) == if p.index == i then MinExt(Nearest(log, i), Fin(p.z)) else Nearest(log, i)
  {
    assert (log + [p])[..|log|] == log;
  }

  /** The nearest depth at an index is `inf` exactly when nothing was
      plotted there; otherwise it is the depth of one of the plots there
      and no plot there is nearer. */
  lemma {:induction false} NearestIsMinimum(log: seq<Plot>, i: int)
    ensures Nearest(log, i).Inf? <==> forall k :: 0 <= k < |log| ==> log[k].index != i
    ensures forall k :: 0 <= k < |log| && log[k].index == i ==> !Below(Fin(log[k].z), Nearest(log, i))
    ensures Nearest(log, i).Fin? ==> exists k :: 0 <= k < |log| && log[k].index == i && Nearest(log, i) == Fin(log[k].z)
    decreases |log|
  {
    if |log| > 0 {
      var front := log[..|log| - 1];
      NearestIsMinimum(front, i);
      assert forall k :: 0 <= k < |front| ==> front[k] == log[k];
      if Nearest(log, i).Fin? && log[|log| - 1].index != i {
        var k :| 0 <= k < |front| && front[k].index == i && Nearest(front, i) == Fin(front[k].z);
        assert log[k] == front[k];
      } else if Nearest(log, i).Fin? && Nearest(log, i) != Fin(log[|log| - 1].z) {
        var k :| 0 <= k < |front| && front[k].index == i && Nearest(front, i) == Fin(front[k].z);
        assert log[k] == front[k];
      }
    }
  }

  /** More plots never raise a depth: within a frame each z-buffer entry
      only moves nearer. */
  lemma {:induction false} NearestNeverRises(log: seq<Plot>, more: seq<Plot>, i: int)
    ensures !Below(Nearest(log, i), Nearest(log + more, i))
    decreases |more|
  {
    if |more| > 0 {
      var front := more[..|more| - 1];
      NearestNeverRises(log, front, i);
      assert (log + more)[..|log + more| - 1] == log + front;
      var last := more[|more| - 1];
      assert !Below(Nearest(log + front, i), Nearest(log + more, i)) by {
        if last.index == i {
          assert Nearest(log + more, i) == MinExt(Nearest(log + front, i), Fin(last.z));
        }
      }
    } else {
      assert log + more == log;
    }
  }

  /** What `set_pixel` leaves in one z-buffer entry and image pixel: with a
      colour nearer than the stored depth, that depth and the colour,
      shaded when in front of the player and not at full brightness;
      otherwise both as they were. */
  function Plotted(depth: Ext, pixel: Rgba, z: real, brightness: real, rgba: Option<Rgba>): (r: (Ext, Rgba))
    ensures rgba.None? ==> r == (depth, pixel)
    ensures r.0 == if rgba.Some? then MinExt(depth, Fin(z)) else depth
    ensures r.1.a == if rgba.Some? && Below(Fin(z), depth) then rgba.value.a else pixel.a
  {
    if rgba.Some? && Below(Fin(z), depth) then
      (Fin(z), if z > 0.0 && brightness != 1.0 then ColorBrightness(rgba.value, brightness) else rgba.value)
    else
      (depth, pixel)
  }

  /** The depth test: a plot without a colour, or not strictly nearer,
      changes nothing; a plot with a colour leaves the nearer of the two
      depths; a plot that passes writes the (shaded) colour, which keeps
      its alpha. */
  lemma PlottedIsDepthTest(depth: Ext, pixel: Rgba, z: real, brightness: real, rgba: Option<Rgba>)
    ensures !(rgba.Some? && Below(Fin(z), depth)) ==> Plotted(depth, pixel, z, brightness, rgba) == (depth, pixel)
    ensures Plotted(depth, pixel, z, brightness, rgba).0 == if rgba.Some? then MinExt(depth, Fin(z)) else depth
    ensures rgba.Some? && Below(Fin(z), depth) ==>
      Plotted(depth, pixel, z, brightness, rgba).1.a == rgba.value.a &&
      (brightness == 1.0 || z <= 0.0 ==> Plotted(depth, pixel, z, brightness, rgba).1 == rgba.value)
  {
  }

  /** A cell of the flat buffers and back: `x + y * w` for a column x in
      [0, w) and a row y in [0, h) is in [0, w * h), and its remainder and
      quotient by w give x and y again. */
  lemma FlatIndex(x: int, y: int, w: int, h: int)
    requires 0 <= x < w && 0 <= y < h
    ensures 0 <= x + y * w < w * h
    ensures (x + y * w) % w == x && (x + y * w) / w == y
  {
    ModUnique(x + y * w, w, y, x);
    ProductBounds(w, h - y);
    assert w * h - (x + y * w) == w * (h - y) - x;
  }

  /** Every index of a flat buffer is the index of its column and row. */
  lemma FlatCell(i: int, w: int, h: int)
    requires w > 0 && 0 <= i < w * h
    ensures 0 <= i % w < w && 0 <= i / w < h && i == i % w + (i / w) * w
  {
    var y := i / w;
    assert i == w * y + i % w;
    ProductMonotone(w, h, y);
    ProductBounds(w, y);
  }

  /* ---------------- sprite kinds ---------------- */

  /** The exceptions a frame can raise. */
  datatype PyError = ZeroDivisionError | IndexError | KeyError

  /** `get_sprite_texture(kind)`: the texture and the size of a sprite,
      or KeyError for a kind other than g, h and t. */
  function SpriteTexture(textures: map<string, Texture<Rgba>>, kind: char): (r: Result<(Texture<Rgba>, real), PyError>)
    requires TexturesLoaded(textures)
    ensures r.Ok? <==> kind in "ght"
    ensures kind == 'g' ==> r == Ok((textures["creature-gargoyle"], 0.8))
    ensures kind == 'h' ==> r == Ok((textures["creature-hero"], 0.7))
    ensures kind == 't' ==> r == Ok((textures["treasure"], 0.6))
  {
    if kind == 'g' then Ok((textures["creature-gargoyle"], 0.8))
    else if kind == 'h' then Ok((textures["creature-hero"], 0.7))
    else if kind == 't' then Ok((textures["treasure"], 0.6))
    else Err(KeyError)
  }

  /** The textures the constructor loads, each 64x64. */
  predicate TexturesLoaded(textures: map<string, Texture<Rgba>>)
  {
    (forall name :: name in TextureNames ==> name in textures) &&
    (forall name :: name in textures ==> IsSquare(textures[name]))
  }

  const TextureNames: set<string> := {"test", "floor", "ceiling", "wall-bricks", "wall-stone",
                                      "creature-gargoyle", "creature-hero", "treasure"}

  /** Every sprite of a parsed map has a texture: drawing the sprites of a
      map never raises KeyError. */
  lemma MapSpritesHaveTextures(m: WorldMap.Map, textures: map<string, Texture<Rgba>>)
    requires m.Valid() && TexturesLoaded(textures)
    ensures forall p :: p in m.sprites ==> SpriteTexture(textures, m.sprites[p]).Ok?
  {
  }

  /** One snap of `_move_player`: with a non-empty square (`square != 0`)
      just past the coordinate, it moves to 0.9 (below that square) or 0.1
      (above the square before it) of its own `int()` cell; otherwise it
      stays. */
  function SnapBelow(c: real, square: int): real
  {
    if square != 0 then Trunc(c) as real + 0.9 else c
  }

  function SnapAbove(c: real, square: int): real
  {
    if square != 0 then Trunc(c) as real + 0.1 else c
  }

  /** Putting a coordinate at 0.9 or 0.1 into its own `int()` cell keeps
      the cell, for any coordinate whose cell is not negative. */
  lemma SnapKeepsCell(c: real)
    requires Trunc(c) >= 0
    ensures Trunc(Trunc(c) as real + 0.9) == Trunc(c)
    ensures Trunc(Trunc(c) as real + 0.1) == Trunc(c)
  {
  }

  /* ---------------- the column spans ---------------- */

  /** The plots of a column drawn over rows [from, to) at one depth. */
  function ColumnPlots(x: int, width: int, from: int, to: int, z: real, frame: int): seq<Plot>
    requires from <= to
  {
    seq(to - from, k requires 0 <= k < to - from => Plot(x + (from + k) * width, z, frame))
  }

  /** Drawing one more row appends that row's plot. */
  lemma ColumnPlotsGrow(x: int, width: int, from: int, to: int, z: real, frame: int)
    requires from <= to
    ensures ColumnPlots(x, width, from, to + 1, z, frame) ==
            ColumnPlots(x, width, from, to, z, frame) + [Plot(x + to * width, z, frame)]
  {
  }

  /** `(y - ceiling) / wall_height`: the texture row for screen row y of a
      wall that leaves `ceiling` rows above it on a screen `height` tall. */
  function WallTexY(y: int, ceiling: int, height: int): real
    requires Max(0, ceiling) < height - Max(0, ceiling)
  {
    (y - ceiling) as real / (height - 2 * ceiling) as real
  }

  /** The flat buffers `zs` and `ims` after `draw_column` has plotted the
      rows [max(0, c), y) of column x over `z0` and `i0`: those cells hold
      the depth test with the texel of their row, every other cell is as
      it was. */
  predicate WallRowsPlotted(zs: seq<Ext>, ims: seq<Rgba>, z0: seq<Ext>, i0: seq<Rgba>, w: int, h: int,
                            x: int, ceiling: int, y: int, distance: real, brightness: real,
                            texture: Texture<Rgba>, tx: real)
    requires w > 0 && IsSquare(texture) && |zs| == |ims| == |z0| == |i0|
    requires Max(0, ceiling) <= y <= Max(Max(0, ceiling), h - Max(0, ceiling))
  {
    forall i :: 0 <= i < |zs| ==>
      if i % w == x && Max(0, ceiling) <= i / w < y then
        (zs[i], ims[i]) == Plotted(z0[i], i0[i], distance, brightness,
                                  Some(Sample(texture, tx, WallTexY(i / w, ceiling, h))))
      else
        zs[i] == z0[i] && ims[i] == i0[i]
  }

  /** One more row of the column: plotting row y over buffers that hold
      rows [max(0, c), y) gives buffers that hold rows [max(0, c), y + 1). */
  lemma WallRowStep(zs: seq<Ext>, ims: seq<Rgba>, zPrev: seq<Ext>, iPrev: seq<Rgba>, z0: seq<Ext>, i0: seq<Rgba>,
                    w: int, h: int, x: int, ceiling: int, y: int, distance: real, brightness: real,
                    texture: Texture<Rgba>, tx: real)
    requires 0 <= x < w && IsSquare(texture) && |zPrev| == |iPrev| == |z0| == |i0| == w * h
    requires Max(0, ceiling) <= y < h - Max(0, ceiling)
    requires WallRowsPlotted(zPrev, iPrev, z0, i0, w, h, x, ceiling, y, distance, brightness, texture, tx)
    requires x + y * w < |zPrev|
    requires var k := x + y * w;
      var p := Plotted(zPrev[k], iPrev[k], distance, brightness, Some(Sample(texture, tx, WallTexY(y, ceiling, h))));
      zs == zPrev[k := p.0] && ims == iPrev[k := p.1]
    ensures WallRowsPlotted(zs, ims, z0, i0, w, h, x, ceiling, y + 1, distance, brightness, texture, tx)
  {
    FlatIndex(x, y, w, h);
    forall i | 0 <= i < |zs|
      ensures if i % w == x && Max(0, ceiling) <= i / w < y + 1 then
        (zs[i], ims[i]) == Plotted(z0[i], i0[i], distance, brightness,
                                  Some(Sample(texture, tx, WallTexY(i / w, ceiling, h))))
      else
        zs[i] == z0[i] && ims[i] == i0[i]
    {
      if i % w == x && i / w == y {
        FlatCell(i, w, h);
      }
    }
  }

  /** The rows `draw_column` fills, [max(0, c), h - max(0, c)), lie on the
      screen, and over them the texture row runs through [0, 1): the whole
      texture ims spread over the wall's full height h - 2c, of which the
      screen shows the middle part when c ims negative. */
  lemma ColumnSpan(y: int, ceiling: int, height: int)
    requires Max(0, ceiling) <= y < height - Max(0, ceiling)
    ensures 0 <= y < height
    ensures 0.0 <= WallTexY(y, ceiling, height) < 1.0
  {
    var wallHeight := (height - 2 * ceiling) as real;
    assert wallHeight > 0.0;
    assert 0.0 <= (y - ceiling) as real < wallHeight;
  }

  /* ---------------- floor and ceiling ---------------- */

  /** Python's `max(s)` of a non-empty list of ints. */
  function MaxOf(s: seq<int>): (m: int)
    requires |s| > 0
    ensures m in s && forall k :: 0 <= k < |s| ==> s[k] <= m
  {
    if |s| == 1 then s[0] else Max(s[0], MaxOf(s[1..]))
  }

  /** `d_ground = 0.5 * d_screen / sy` with `sy = 0.5 - y / pixheight`:
      how far over the ground the ceiling row y (and its mirror floor row)
      is seen. */
  function GroundDistance(y: int, height: int, dScreen: real): real
    requires 0 <= 2 * y < height
  {
    var sy := 0.5 - y as real / height as real;
    assert sy == (height - 2 * y) as real / (2 * height) as real;
    0.5 * dScreen / sy
  }

  /** The ground distance is `d_screen * h / (h - 2y)`. */
  lemma GroundDistanceClosed(y: int, height: int, dScreen: real)
    requires 0 <= 2 * y < height
    ensures GroundDistance(y, height, dScreen) == dScreen * height as real / (height - 2 * y) as real
  {
    var h := height as real;
    var n := (height - 2 * y) as real;
    var sy := 0.5 - y as real / h;
    var g := 0.5 * dScreen / sy;
    var c := dScreen * h / n;
    assert sy * (2.0 * h) == n;
    assert g * sy == 0.5 * dScreen;
    assert g * n == dScreen * h by {
      assert g * n == g * sy * (2.0 * h);
    }
    assert c * n == dScreen * h;
    assert (g - c) * n == 0.0;
  }

  /** The top row is seen at the screen distance, and no row nearer. */
  lemma GroundBeyondScreen(y: int, height: int, dScreen: real)
    requires 0 <= 2 * y < height && dScreen > 0.0
    ensures dScreen <= GroundDistance(y, height, dScreen)
  {
    var h := height as real;
    var n := (height - 2 * y) as real;
    GroundDistanceClosed(y, height, dScreen);
    assert n * dScreen <= dScreen * h by {
      assert dScreen * h - n * dScreen == (h - n) * dScreen;
    }
    QuotientBelow(dScreen * h, n, dScreen);
  }

  /** Rows nearer the horizon show ground farther away. */
  lemma GroundRecedes(y: int, y2: int, height: int, dScreen: real)
    requires 0 <= y < y2 && 2 * y2 < height && dScreen > 0.0
    ensures GroundDistance(y, height, dScreen) < GroundDistance(y2, height, dScreen)
  {
    var h := height as real;
    var n := (height - 2 * y) as real;
    var n2 := (height - 2 * y2) as real;
    GroundDistanceClosed(y, height, dScreen);
    GroundDistanceClosed(y2, height, dScreen);
    var c2 := dScreen * h / n2;
    assert c2 * n2 == dScreen * h;
    assert c2 * n > dScreen * h by {
      assert c2 * n == c2 * n2 + c2 * (n - n2);
      assert c2 > 0.0 by { QuotientBelow(dScreen * h, n2, 0.0); }
    }
    QuotientBelow(dScreen * h, n, c2);
  }

  /** `max_height_possible` is the row where the ground reaches the black
      distance: every row above it shows ground nearer than that. */
  lemma GroundWithinBlackDistance(y: int, height: int, dScreen: real, blackDistance: real)
    requires 0 <= 2 * y < height && dScreen > 0.0 && blackDistance > 0.0
    requires y < MaxHeightPossible(height, dScreen, blackDistance)
    ensures GroundDistance(y, height, dScreen) < blackDistance
  {
    var h := height as real;
    var n := (height - 2 * y) as real;
    GroundDistanceClosed(y, height, dScreen);
    var q := dScreen / blackDistance;
    assert q * blackDistance == dScreen;
    assert 2.0 * y as real < h - h * q;
    assert h * q < n;
    assert dScreen * h < n * blackDistance by {
      assert dScreen * h == (h * q) * blackDistance;
      assert (n - h * q) * blackDistance > 0.0;
      assert n * blackDistance - (h * q) * blackDistance == (n - h * q) * blackDistance;
    }
    QuotientBelow(dScreen * h, n, blackDistance);
  }

  /** The loop row of `draw_floor_and_ceiling` that writes screen row
      `row`: a row in the top half is a ceiling row written in its own
      iteration, a row in the bottom half the floor row `h - y - 1` written
      in iteration y. */
  function MirrorRow(row: int, height: int): (y: int)
    requires 0 <= row < height
    ensures 0 <= 2 * y < height
    ensures y == row || y == height - 1 - row
  {
    if 2 * row < height then row else height - 1 - row
  }

  /** What the floor and ceiling drawing reads from the renderer. */
  datatype Camera = Camera(width: int, height: int, position: Vec, direction: Vec, plane: Vec,
                           blackDistance: real, ceiling: Texture<Rgba>, floor: Texture<Rgba>)
  {
    predicate Valid()
    {
      width > 0 && height > 0 && blackDistance != 0.0 && IsSquare(ceiling) && IsSquare(floor)
    }

    /** `position + d * (direction + (x / pixwidth - 0.5) * 2 * plane)`:
        where column x's ray meets the ground at distance d. */
    function GroundPoint(x: int, d: real): Vec
      requires Valid()
    {
      Add(position, Scale(Add(direction, Scale(plane, (x as real / width as real - 0.5) * 2.0)), d))
    }
  }

  /** `min(max(ceiling_sizes), max_height_possible)`, the loop rows of
      `draw_floor_and_ceiling`, or none when no column has a ceiling. */
  function GroundRows(ceilingSizes: seq<int>, height: int, dScreen: real, blackDistance: real): int
    requires |ceilingSizes| > 0 && blackDistance != 0.0
  {
    var mcs := MaxOf(ceilingSizes);
    if mcs <= 0 then 0 else Min(mcs, MaxHeightPossible(height, dScreen, blackDistance))
  }

  /** `max_height_possible`: the row where the ground reaches the black
      distance. */
  function MaxHeightPossible(height: int, dScreen: real, blackDistance: real): int
    requires blackDistance != 0.0
  {
    Trunc(height as real * (1.0 - dScreen / blackDistance) / 2.0)
  }

  /** What `draw_floor_and_ceiling` leaves in flat pixel i once its loop
      has done rows [0, rows) and, of row `rows`, columns [0, cols), given
      the depths z0 and pixels img0 it started from: the ceiling pixel
      (x, y) and the floor pixel (x, h - y - 1) of a done iteration get the
      depth test with the ground distance of row y, when y is above column
      x's wall and that ground is nearer than the depth the ceiling pixel
      had; every other pixel is as it was. */
  function Ground(i: int, z0: seq<Ext>, img0: seq<Rgba>, ceilingSizes: seq<int>, cam: Camera,
                  dScreen: real, rows: int, cols: int): (Ext, Rgba)
    requires cam.Valid() && |ceilingSizes| == cam.width
    requires 0 <= i < |z0| && |z0| == |img0| == cam.width * cam.height
  {
    FlatCell(i, cam.width, cam.height);
    var col, row := i % cam.width, i / cam.width;
    var y := MirrorRow(row, cam.height);
    FlatIndex(col, y, cam.width, cam.height);
    var d := GroundDistance(y, cam.height, dScreen);
    if (y < rows || (y == rows && col < cols)) && y < ceilingSizes[col] && Below(Fin(d), z0[col + y * cam.width]) then
      var p := cam.GroundPoint(col, d);
      Plotted(z0[i], img0[i], d, Brightness(d, cam.blackDistance),
              Some(Sample(if y == row then cam.ceiling else cam.floor, p.x, p.y)))
    else
      (z0[i], img0[i])
  }

  /** The floor and ceiling never touch the rows `draw_column` gave the
      wall, [max(0, c), h - max(0, c)) for the column's ceiling size c:
      wall, ceiling and floor split each column. */
  lemma {:induction false} GroundSparesWalls(i: int, z0: seq<Ext>, img0: seq<Rgba>, ceilingSizes: seq<int>, cam: Camera,
                                            dScreen: real, rows: int, cols: int)
    requires cam.Valid() && |ceilingSizes| == cam.width
    requires 0 <= i < |z0| && |z0| == |img0| == cam.width * cam.height
    requires var c := ceilingSizes[i % cam.width];
      Max(0, c) <= i / cam.width < cam.height - Max(0, c)
    ensures Ground(i, z0, img0, ceilingSizes, cam, dScreen, rows, cols) == (z0[i], img0[i])
  {
    FlatCell(i, cam.width, cam.height);
    var row := i / cam.width;
    assert MirrorRow(row, cam.height) >= ceilingSizes[i % cam.width];
  }

  /** One inner iteration of `draw_floor_and_ceiling` moves from column
      x to x + 1 of row y: only the ceiling pixel (x, y) and the floor
      pixel (x, h - y - 1) change their description; they are two pixels
      whenever y is above the column's wall. */
  lemma GroundStep(z0: seq<Ext>, img0: seq<Rgba>, ceilingSizes: seq<int>, cam: Camera,
                   dScreen: real, y: int, x: int)
    requires cam.Valid() && |ceilingSizes| == cam.width
    requires |z0| == |img0| == cam.width * cam.height
    requires 0 <= x < cam.width && 0 <= 2 * y < cam.height && 2 * ceilingSizes[x] < cam.height
    ensures var w, h := cam.width, cam.height;
      0 <= x + y * w < |z0| && 0 <= x + (h - 1 - y) * w < |z0| &&
      (y < ceilingSizes[x] ==> x + y * w != x + (h - 1 - y) * w)
    ensures var w, h := cam.width, cam.height;
      forall i :: 0 <= i < |z0| && i != x + y * w && i != x + (h - 1 - y) * w ==>
        Ground(i, z0, img0, ceilingSizes, cam, dScreen, y, x + 1) == Ground(i, z0, img0, ceilingSizes, cam, dScreen, y, x)
  {
    var w, h := cam.width, cam.height;
    FlatIndex(x, y, w, h);
    FlatIndex(x, h - 1 - y, w, h);
    forall i | 0 <= i < |z0| && i != x + y * w && i != x + (h - 1 - y) * w
      ensures Ground(i, z0, img0, ceilingSizes, cam, dScreen, y, x + 1) == Ground(i, z0, img0, ceilingSizes, cam, dScreen, y, x)
    {
      FlatCell(i, w, h);
      var col, row := i % w, i / w;
      if col == x && MirrorRow(row, h) == y {
        assert row == y || row == h - 1 - y;
      }
    }
  }

  /** The ceiling pixel (x, y) is untouched before column x of row y, and
      afterwards holds the depth test with the ceiling texel when the
      guard held. */
  lemma GroundStepCeiling(z0: seq<Ext>, img0: seq<Rgba>, ceilingSizes: seq<int>, cam: Camera,
                          dScreen: real, y: int, x: int)
    requires cam.Valid() && |ceilingSizes| == cam.width
    requires |z0| == |img0| == cam.width * cam.height
    requires 0 <= x < cam.width && 0 <= 2 * y < cam.height
    ensures var i := x + y * cam.width;
      var d := GroundDistance(y, cam.height, dScreen);
      var p := cam.GroundPoint(x, d);
      0 <= i < |z0| &&
      Ground(i, z0, img0, ceilingSizes, cam, dScreen, y, x) == (z0[i], img0[i]) &&
      Ground(i, z0, img0, ceilingSizes, cam, dScreen, y, x + 1) ==
        if y < ceilingSizes[x] && Below(Fin(d), z0[i]) then
          Plotted(z0[i], img0[i], d, Brightness(d, cam.blackDistance), Some(Sample(cam.ceiling, p.x, p.y)))
        else (z0[i], img0[i])
  {
    FlatIndex(x, y, cam.width, cam.height);
  }

  /** The floor pixel (x, h - y - 1) likewise, with the floor texel and
      the guard read from the ceiling pixel above it. */
  lemma GroundStepFloor(z0: seq<Ext>, img0: seq<Rgba>, ceilingSizes: seq<int>, cam: Camera,
                        dScreen: real, y: int, x: int)
    requires cam.Valid() && |ceilingSizes| == cam.width
    requires |z0| == |img0| == cam.width * cam.height
    requires 0 <= x < cam.width && 0 <= 2 * y < cam.height && 2 * ceilingSizes[x] < cam.height
    ensures var i, c := x + (cam.height - 1 - y) * cam.width, x + y * cam.width;
      var d := GroundDistance(y, cam.height, dScreen);
      var p := cam.GroundPoint(x, d);
      0 <= i < |z0| && 0 <= c < |z0| &&
      (y < ceilingSizes[x] ==>
        Ground(i, z0, img0, ceilingSizes, cam, dScreen, y, x) == (z0[i], img0[i]) &&
        Ground(i, z0, img0, ceilingSizes, cam, dScreen, y, x + 1) ==
          if Below(Fin(d), z0[c]) then
            Plotted(z0[i], img0[i], d, Brightness(d, cam.blackDistance), Some(Sample(cam.floor, p.x, p.y)))
          else (z0[i], img0[i]))
  {
    FlatIndex(x, y, cam.width, cam.height);
    FlatIndex(x, cam.height - 1 - y, cam.width, cam.height);
  }

  /* ---------------- sprites ---------------- */

  /** A sprite of the map as `draw_sprites` sees it once the trigonometry
      is done: its square and kind, its distance from the player
      (`sprite_vec.magnitude()`), its view angle already brought into
      [-pi, pi], and the cosine of that angle. */
  datatype SpriteView = SpriteView(cell: WorldMap.Cell, kind: char, distance: real, viewAngle: real, cosViewAngle: real)

  function AbsReal(a: real): real { if a < 0.0 then -a else a }

  /** The sprite is nearer than the black distance and within the field of
      view widened by 1.4. */
  predicate Visible(v: SpriteView, hvof: real, blackDistance: real)
  {
    v.distance < blackDistance && AbsReal(v.viewAngle) < hvof / 1.4
  }

  /** Where `draw_sprites` puts one sprite: its depth and brightness, the
      middle column, the first screen row and the texture rows skipped above
      the screen, the square size in pixels, and the clipped column range
      [xFrom, xTo) and row count. */
  datatype SpriteBox = SpriteBox(z: real, brightness: real, middle: int, yOffset: int, texYOffset: int,
                                 size: int, xFrom: int, xTo: int, rows: int)
  {
    /** The clipped box lies on a screen of the given size. */
    predicate Fits(width: int, height: int)
    {
      0 <= xFrom && xTo <= width && 0 <= yOffset && yOffset + rows <= height && rows <= size
    }
  }

  /** Lines 200-216 of `draw_sprites` for one visible sprite of the given
      size: None when the perpendicular distance is below 0.2 (the
      `continue`); otherwise the box, clipped to the screen on every side. */
  function SpriteLayout(v: SpriteView, spriteSize: real, dScreen: real, hvof: real,
                        width: int, height: int, blackDistance: real): (b: Option<SpriteBox>)
    requires hvof != 0.0 && blackDistance != 0.0
    ensures b.None? <==> v.distance * v.cosViewAngle < 0.2
    ensures b.Some? ==> b.value.Fits(width, height) && b.value.z == v.distance * v.cosViewAngle
  {
    var perp := v.distance * v.cosViewAngle;
    if perp < 0.2 then None
    else
      var middle := Trunc((0.5 * (v.viewAngle / (hvof / 2.0)) + 0.5) * width as real);
      var ceiling := Trunc(height as real * (1.0 - dScreen / perp) / 2.0);
      var fullHeight := height - ceiling * 2;
      var top := Trunc((1.0 - spriteSize) * fullHeight as real) + ceiling;
      var yOffset := if top < 0 then 0 else top;
      var texYOffset := if top < 0 then -top else 0;
      var size := Trunc(spriteSize * fullHeight as real);
      Some(SpriteBox(perp, Brightness(perp, blackDistance), middle, yOffset, texYOffset, size,
                     Max(0, Trunc(middle as real - size as real / 2.0)),
                     Min(width, Trunc(middle as real + size as real / 2.0)),
                     Min(size, height - yOffset)))
  }

  /** What drawing sprite box b leaves in flat pixel i once rows [0, rows)
      of the box and, of row `rows`, the columns below `cols` are done: a
      done pixel of the box whose texel has alpha above 200 gets the depth
      test with that texel; every other pixel is as it was. */
  function SpritePixel(i: int, z0: seq<Ext>, img0: seq<Rgba>, b: SpriteBox, texture: Texture<Rgba>,
                       width: int, rows: int, cols: int): (Ext, Rgba)
    requires width > 0 && 0 <= i < |z0| == |img0| && IsSquare(texture) && b.rows <= b.size
  {
    var col, row := i % width, i / width;
    var y := row - b.yOffset;
    if 0 <= y < b.rows && b.xFrom <= col < b.xTo && (y < rows || (y == rows && col < cols)) then
      var tc := Sample(texture, (col - b.middle) as real / b.size as real - 0.5, (y + b.texYOffset) as real / b.size as real);
      if tc.a > 200 then Plotted(z0[i], img0[i], b.z, b.brightness, Some(tc)) else (z0[i], img0[i])
    else
      (z0[i], img0[i])
  }

  /** One inner iteration of the sprite loop, at column x of box row y,
      changes the description of pixel (x, y + yOffset) alone: from as it
      was to the depth test with its texel, when that is opaque. */
  lemma SpriteStep(z0: seq<Ext>, img0: seq<Rgba>, b: SpriteBox, texture: Texture<Rgba>,
                   width: int, height: int, y: int, x: int)
    requires width > 0 && |z0| == |img0| == width * height && IsSquare(texture) && b.Fits(width, height)
    requires 0 <= y < b.rows && b.xFrom <= x < b.xTo
    ensures var p := x + (y + b.yOffset) * width;
      var tc := Sample(texture, (x - b.middle) as real / b.size as real - 0.5, (y + b.texYOffset) as real / b.size as real);
      0 <= p < |z0| &&
      SpritePixel(p, z0, img0, b, texture, width, y, x) == (z0[p], img0[p]) &&
      SpritePixel(p, z0, img0, b, texture, width, y, x + 1) ==
        (if tc.a > 200 then Plotted(z0[p], img0[p], b.z, b.brightness, Some(tc)) else (z0[p], img0[p]))
    ensures forall i :: 0 <= i < |z0| && i != x + (y + b.yOffset) * width ==>
      SpritePixel(i, z0, img0, b, texture, width, y, x + 1) == SpritePixel(i, z0, img0, b, texture, width, y, x)
  {
    FlatIndex(x, y + b.yOffset, width, height);
    forall i | 0 <= i < |z0| && i != x + (y + b.yOffset) * width
      ensures SpritePixel(i, z0, img0, b, texture, width, y, x + 1) == SpritePixel(i, z0, img0, b, texture, width, y, x)
    {
      FlatCell(i, width, height);
    }
  }

  /* ---------------- the frame ---------------- */

  /** `int(pixheight * (1.0 - d_screen / distance) / 2.0)`: the rows above
      a wall seen at a positive distance; with the screen in front of the
      player it is less than half the screen, so the wall keeps at least
      one row. */
  function CeilingSize(distance: real, height: int, dScreen: real): (c: int)
    requires distance > 0.0
    ensures dScreen > 0.0 && height > 0 ==> 2 * c < height
  {
    var r := height as real * (1.0 - dScreen / distance) / 2.0;
    if dScreen > 0.0 && height > 0 then
      assert dScreen / distance > 0.0;
      assert r < height as real / 2.0;
      Trunc(r)
    else
      Trunc(r)
  }

  /** What a frame reads of the renderer and its map, fixed while the
      frame is drawn. */
  datatype Scene = Scene(grid: Dda.Grid, position: Vec, direction: Vec, plane: Vec,
                         width: int, height: int, blackDistance: real)
  {
    /** The player stands on an empty square of a map walled all round:
        what every walk of the frame relies on. */
    predicate OnFloor()
    {
      grid.Walled() && grid.InRect(Trunc(position.x), Trunc(position.y)) &&
      grid.Wall(Trunc(position.x), Trunc(position.y)) == 0
    }

    lemma OnFloorIsInterior()
      requires OnFloor()
      ensures grid.Interior(Trunc(position.x), Trunc(position.y))
    {
      Dda.EmptyIsInterior(grid, Trunc(position.x), Trunc(position.y));
    }

    /** The ray through screen column x: `cameraX` runs from -1 at the
        left edge to +1 at the right edge. */
    function Ray(x: int): Vec
      requires width > 0
    {
      var cameraX := 2.0 * x as real / width as real - 1.0;
      Add(direction, Scale(plane, cameraX))
    }

    /** What `cast_ray_dda(x)` returns. */
    function Hit(x: int): Result<Dda.Hit, Dda.CastError>
      requires OnFloor() && width > 0
    {
      OnFloorIsInterior();
      Dda.CastRay(grid, position, Ray(x), blackDistance)
    }

    /** Column x makes `tick` raise: its ray is the zero vector
        (ZeroDivisionError), or a wall at a positive distance has a code
        beyond the `wallCount` wall textures (IndexError). */
    predicate Fails(x: int, wallCount: int)
      requires OnFloor() && width > 0
    {
      var h := Hit(x);
      h.Err? || (h.value.distance > 0.0 && h.value.wall >= wallCount && h.value.wall > 0)
    }

    /** `ceiling_sizes[x]` once `tick` has drawn column x. */
    function Ceiling(x: int, dScreen: real): int
      requires OnFloor() && width > 0 && Hit(x).Ok?
    {
      var d := Hit(x).value.distance;
      if d > 0.0 then CeilingSize(d, height, dScreen) else 0
    }
  }

  /* ---------------- the renderer ---------------- */

  class Raycaster {
    const pixwidth: int
    const pixheight: int
    const dungeonMap: WorldMap.Map
    const textures: map<string, Texture<Rgba>>
    /** `wall_textures`, indexed by wall code. */
    const wallTextures: seq<Texture<Rgba>>
    /** The depth of each pixel, `x + y * pixwidth`; `inf` where nothing
        was drawn since the last reset. */
    const zbuffer: array<Ext>
    /** `image_buf[x, y]`, stored at `x + y * pixwidth` like the z-buffer. */
    const image: array<Rgba>
    /** `ceiling_sizes`: the rows above the wall, per screen column. */
    const ceilingSizes: array<int>
    var frame: int
    var position: Vec
    var direction: Vec
    var plane: Vec
    /** `BLACK_DISTANCE`, which the GUI may overwrite with any float. */
    var blackDistance: real
    /** Every plot of the current frame, in order. */
    ghost var depthLog: seq<Plot>

    /** The buffers have one entry per pixel and the z-buffer holds, for
        every pixel, the nearest depth plotted there in this frame. */
    ghost predicate Valid()
      reads this, dungeonMap, zbuffer, ceilingSizes
    {
      Shape() &&
      (forall i :: 0 <= i < zbuffer.Length ==> zbuffer[i] == Nearest(depthLog, i)) &&
      (forall k :: 0 <= k < |depthLog| ==> depthLog[k].frame == frame)
    }

    /** Everything `Valid` says except what it says about the depths. */
    ghost predicate Shape()
      reads this, dungeonMap, ceilingSizes
    {
      pixwidth > 0 && pixheight > 0 &&
      zbuffer.Length == pixwidth * pixheight && image.Length == pixwidth * pixheight &&
      ceilingSizes.Length == pixwidth &&
      dungeonMap.Valid() && blackDistance != 0.0 &&
      TexturesLoaded(textures) &&
      wallTextures == [textures["test"], textures["wall-bricks"], textures["wall-stone"]] &&
      (forall x :: 0 <= x < pixwidth ==> 2 * ceilingSizes[x] < pixheight)
    }

    /** `Raycaster(pixwidth, pixheight, dungeon_map)` with its textures
        already loaded; `tanHalfFov` is `tan(HVOF / 2)`. The player stands
        in the middle of the map's start square, looking along +y. */
    constructor (pixwidth: int, pixheight: int, dungeonMap: WorldMap.Map,
                 textures: map<string, Texture<Rgba>>, tanHalfFov: real)
      requires pixwidth > 0 && pixheight > 0 && dungeonMap.Valid() && TexturesLoaded(textures)
      ensures Valid() && fresh(zbuffer) && fresh(image) && fresh(ceilingSizes)
      ensures this.pixwidth == pixwidth && this.pixheight == pixheight
      ensures this.dungeonMap == dungeonMap && this.textures == textures
      ensures frame == 0 && blackDistance == BLACK_DISTANCE
      ensures position == Vec(dungeonMap.playerStart.0 as real + 0.5, dungeonMap.playerStart.1 as real + 0.5)
      ensures direction == Vec(0.0, 1.0) && plane == Vec(tanHalfFov, 0.0)
      ensures forall i :: 0 <= i < zbuffer.Length ==> zbuffer[i] == Inf && image[i] == Black
      ensures forall x :: 0 <= x < ceilingSizes.Length ==> ceilingSizes[x] == 0
    {
      this.pixwidth := pixwidth;
      this.pixheight := pixheight;
      zbuffer := new Ext[pixwidth * pixheight](_ => Inf);
      ceilingSizes := new int[pixwidth](_ => 0);
      image := new Rgba[pixwidth * pixheight](_ => Black);
      this.textures := textures;
      wallTextures := [textures["test"], textures["wall-bricks"], textures["wall-stone"]];
      frame := 0;
      direction := Vec(0.0, 1.0);
      plane := Vec(tanHalfFov, 0.0);
      this.dungeonMap := dungeonMap;
      blackDistance := BLACK_DISTANCE;
      position := Vec(dungeonMap.playerStart.0 as real + 0.5, dungeonMap.playerStart.1 as real + 0.5);
      depthLog := [];
    }

    /** The map as the grid walk sees it. */
    function Grid(): Dda.Grid
      reads dungeonMap
    {
      Dda.Grid(dungeonMap.walls, dungeonMap.width)
    }

    /** `map_square(x, y)`: the wall code of the square containing (x, y),
        found by `int()` of each coordinate, or 255 outside the map. */
    function MapSquare(x: real, y: real): (c: int)
      reads dungeonMap
      requires dungeonMap.Valid()
      ensures c == 255 <==> !(0 <= Trunc(x) < dungeonMap.width && 0 <= Trunc(y) < dungeonMap.height)
      ensures c != 255 ==> c == dungeonMap.walls[Trunc(y)][Trunc(x)] && 0 <= c <= 9
    {
      var mx, my := Trunc(x), Trunc(y);
      if mx < 0 || mx >= dungeonMap.width || my < 0 || my >= dungeonMap.height then 255
      else dungeonMap.GetWall(mx, my).value
    }

    /** `set_pixel(x, y, z, brightness, rgba)`: the depth test on one
        pixel; nothing else in the buffers changes. */
    method SetPixel(x: int, y: int, z: real, brightness: real, rgba: Option<Rgba>)
      requires Valid() && 0 <= x < pixwidth && 0 <= y < pixheight
      modifies this`depthLog, zbuffer, image
      ensures Valid()
      ensures 0 <= x + y * pixwidth < zbuffer.Length
      ensures var i := x + y * pixwidth;
        var p := Plotted(old(zbuffer[i]), old(image[i]), z, brightness, rgba);
        zbuffer[..] == old(zbuffer[..])[i := p.0] && image[..] == old(image[..])[i := p.1]
      ensures depthLog == old(depthLog) + if rgba.Some? then [Plot(x + y * pixwidth, z, frame)] else []
    {
      var i := x + y * pixwidth;
      FlatIndex(x, y, pixwidth, pixheight);
      ghost var z0 := zbuffer[..];
      if rgba.Some? && Below(Fin(z), zbuffer[i]) {
        zbuffer[i] := Fin(z);
        var c := rgba.value;
        if z > 0.0 && brightness != 1.0 {
          c := ColorBrightness(c, brightness);
        }
        image[i] := c;
      }
      if rgba.Some? {
        ghost var log0 := depthLog;
        NearestAppend(log0, Plot(i, z, frame));
        depthLog := depthLog + [Plot(i, z, frame)];
        forall j | 0 <= j < zbuffer.Length
          ensures zbuffer[j] == Nearest(depthLog, j)
        {
          assert z0[j] == Nearest(log0, j);
        }
      }
    }
  
    /** Line 46 of `tick`, `self.zbuffer[:] = self.empty_zbuffer`: every
        depth back to `inf`, and a new frame of plots begins. */
    method ResetZBuffer()
      requires Shape()
      modifies this`depthLog, zbuffer
      ensures Valid() && depthLog == []
      ensures forall i :: 0 <= i < zbuffer.Length ==> zbuffer[i] == Inf
    {
      forall i | 0 <= i < zbuffer.Length {
        zbuffer[i] := Inf;
      }
      depthLog := [];
    }

    /** `draw_column(x, ceiling, distance, texture, tx)`: every row of
        column x from max(0, ceiling) to pixheight - max(0, ceiling) gets
        the depth test with the texel at (tx, WallTexY(row)), shaded by the
        distance; no other pixel changes. */
    method DrawColumn(x: int, ceiling: int, distance: real, texture: Texture<Rgba>, tx: real)
      requires Valid() && 0 <= x < pixwidth && IsSquare(texture)
      modifies this`depthLog, zbuffer, image
      ensures Valid()
      ensures WallRowsPlotted(zbuffer[..], image[..], old(zbuffer[..]), old(image[..]), pixwidth, pixheight,
                              x, ceiling, Max(Max(0, ceiling), pixheight - Max(0, ceiling)),
                              distance, Brightness(distance, blackDistance), texture, tx)
      ensures depthLog == old(depthLog) + ColumnPlots(x, pixwidth, Max(0, ceiling), Max(Max(0, ceiling), pixheight - Max(0, ceiling)), distance, frame)
    {
      var startY := Max(0, ceiling);
      var numPixels := pixheight - 2 * startY;
      var brightness := Brightness(distance, blackDistance);
      ghost var z0, i0, log0 := zbuffer[..], image[..], depthLog;
      var y := startY;
      while y < startY + numPixels
        invariant startY <= y <= Max(startY, startY + numPixels)
        invariant Valid() && |z0| == |i0| == zbuffer.Length
        invariant WallRowsPlotted(zbuffer[..], image[..], z0, i0, pixwidth, pixheight, x, ceiling, y,
                                  distance, brightness, texture, tx)
        invariant depthLog == log0 + ColumnPlots(x, pixwidth, startY, y, distance, frame)
      {
        PlotWallRow(x, y, ceiling, distance, brightness, texture, tx, z0, i0);
        ColumnPlotsGrow(x, pixwidth, startY, y, distance, frame);
        y := y + 1;
      }
    }

    /** One pass of `draw_column`'s loop: row y of column x gets the depth
        test with its texel, on top of the rows above it. */
    method PlotWallRow(x: int, y: int, ceiling: int, distance: real, brightness: real,
                       texture: Texture<Rgba>, tx: real, ghost z0: seq<Ext>, ghost i0: seq<Rgba>)
      requires Valid() && 0 <= x < pixwidth && IsSquare(texture) && |z0| == |i0| == zbuffer.Length
      requires Max(0, ceiling) <= y < pixheight - Max(0, ceiling)
      requires WallRowsPlotted(zbuffer[..], image[..], z0, i0, pixwidth, pixheight, x, ceiling, y,
                               distance, brightness, texture, tx)
      modifies this`depthLog, zbuffer, image
      ensures Valid()
      ensures WallRowsPlotted(zbuffer[..], image[..], z0, i0, pixwidth, pixheight, x, ceiling, y + 1,
                              distance, brightness, texture, tx)
      ensures depthLog == old(depthLog) + [Plot(x + y * pixwidth, distance, frame)]
    {
      ghost var zPrev, iPrev := zbuffer[..], image[..];
      FlatIndex(x, y, pixwidth, pixheight);
      SetPixel(x, y, distance, brightness, Some(Sample(texture, tx, WallTexY(y, ceiling, pixheight))));
      WallRowStep(zbuffer[..], image[..], zPrev, iPrev, z0, i0, pixwidth, pixheight, x, ceiling, y,
                  distance, brightness, texture, tx);
    }

    /** `draw_black_column(x, ceiling, distance)`: the same rows as
        `draw_column`, plotted in black at full brightness. */
    method DrawBlackColumn(x: int, ceiling: int, distance: real)
      requires Valid() && 0 <= x < pixwidth
      modifies this`depthLog, zbuffer, image
      ensures Valid()
      ensures forall i :: 0 <= i < zbuffer.Length ==>
        if i % pixwidth == x && Max(0, ceiling) <= i / pixwidth < pixheight - Max(0, ceiling) then
          (zbuffer[i], image[i]) == Plotted(old(zbuffer[i]), old(image[i]), distance, 1.0, Some(Black))
        else
          zbuffer[i] == old(zbuffer[i]) && image[i] == old(image[i])
      ensures depthLog == old(depthLog) + ColumnPlots(x, pixwidth, Max(0, ceiling), Max(Max(0, ceiling), pixheight - Max(0, ceiling)), distance, frame)
    {
      var startY := Max(0, ceiling);
      var numPixels := pixheight - 2 * startY;
      ghost var z0, i0, log0 := zbuffer[..], image[..], depthLog;
      var y := startY;
      while y < startY + numPixels
        invariant startY <= y <= Max(startY, startY + numPixels)
        invariant Valid()
        invariant forall i :: 0 <= i < zbuffer.Length ==>
          if i % pixwidth == x && startY <= i / pixwidth < y then
            (zbuffer[i], image[i]) == Plotted(z0[i], i0[i], distance, 1.0, Some(Black))
          else
            zbuffer[i] == z0[i] && image[i] == i0[i]
        invariant depthLog == log0 + ColumnPlots(x, pixwidth, startY, y, distance, frame)
      {
        FlatIndex(x, y, pixwidth, pixheight);
        SetPixel(x, y, distance, 1.0, Some(Black));
        forall i | 0 <= i < zbuffer.Length
          ensures if i % pixwidth == x && startY <= i / pixwidth < y + 1 then
            (zbuffer[i], image[i]) == Plotted(z0[i], i0[i], distance, 1.0, Some(Black))
          else
            zbuffer[i] == z0[i] && image[i] == i0[i]
        {
          if i % pixwidth == x && i / pixwidth == y {
            FlatCell(i, pixwidth, pixheight);
          }
        }
        ColumnPlotsGrow(x, pixwidth, startY, y, distance, frame);
        y := y + 1;
      }
    }
  
    /** The renderer's state as the floor and ceiling drawing sees it. */
    function Cam(): (c: Camera)
      reads this
      requires TexturesLoaded(textures)
      ensures pixwidth > 0 && pixheight > 0 && blackDistance != 0.0 ==> c.Valid()
    {
      Camera(pixwidth, pixheight, position, direction, plane, blackDistance, textures["ceiling"], textures["floor"])
    }

    /** One iteration of the outer loop of `draw_floor_and_ceiling`: row y
        and its mirror row, column by column. */
    method DrawGroundRow(y: int, dScreen: real, ghost z0: seq<Ext>, ghost img0: seq<Rgba>)
      requires Valid() && 0 <= 2 * y < pixheight
      requires |z0| == |img0| == zbuffer.Length
      requires forall i :: 0 <= i < zbuffer.Length ==>
        (zbuffer[i], image[i]) == Ground(i, z0, img0, ceilingSizes[..], Cam(), dScreen, y, 0)
      modifies this`depthLog, zbuffer, image
      ensures Valid() && old(depthLog) <= depthLog
      ensures forall i :: 0 <= i < zbuffer.Length ==>
        (zbuffer[i], image[i]) == Ground(i, z0, img0, ceilingSizes[..], Cam(), dScreen, y + 1, 0)
    {
      var d := GroundDistance(y, pixheight, dScreen);
      var brightness := Brightness(d, blackDistance);
      var x := 0;
      while x < pixwidth
        invariant 0 <= x <= pixwidth
        invariant Valid() && old(depthLog) <= depthLog
        invariant forall i :: 0 <= i < zbuffer.Length ==>
          (zbuffer[i], image[i]) == Ground(i, z0, img0, ceilingSizes[..], Cam(), dScreen, y, x)
      {
        DrawGroundCell(x, y, dScreen, d, brightness, z0, img0);
        x := x + 1;
      }
      forall i | 0 <= i < zbuffer.Length
        ensures (zbuffer[i], image[i]) == Ground(i, z0, img0, ceilingSizes[..], Cam(), dScreen, y + 1, 0)
      {
        FlatCell(i, pixwidth, pixheight);
      }
    }

    /** The body of the inner loop of `draw_floor_and_ceiling` for column
        x of row y: the ceiling pixel and its mirror floor pixel, when y is
        above the column's wall and the ground is nearer than the ceiling
        pixel's depth. */
    method DrawGroundCell(x: int, y: int, dScreen: real, d: real, brightness: real,
                          ghost z0: seq<Ext>, ghost img0: seq<Rgba>)
      requires Valid() && 0 <= x < pixwidth && 0 <= 2 * y < pixheight
      requires d == GroundDistance(y, pixheight, dScreen) && brightness == Brightness(d, blackDistance)
      requires |z0| == |img0| == zbuffer.Length
      requires forall i :: 0 <= i < zbuffer.Length ==>
        (zbuffer[i], image[i]) == Ground(i, z0, img0, ceilingSizes[..], Cam(), dScreen, y, x)
      modifies this`depthLog, zbuffer, image
      ensures Valid() && old(depthLog) <= depthLog
      ensures forall i :: 0 <= i < zbuffer.Length ==>
        (zbuffer[i], image[i]) == Ground(i, z0, img0, ceilingSizes[..], Cam(), dScreen, y, x + 1)
    {
      ghost var cs, cam := ceilingSizes[..], Cam();
      FlatIndex(x, y, pixwidth, pixheight);
      var mirror := pixheight - y - 1;
      GroundStep(z0, img0, cs, cam, dScreen, y, x);
      GroundStepCeiling(z0, img0, cs, cam, dScreen, y, x);
      GroundStepFloor(z0, img0, cs, cam, dScreen, y, x);
      if y < ceilingSizes[x] && Below(Fin(d), zbuffer[x + y * pixwidth]) {
        var cameraPlaneRay := Scale(plane, (x as real / pixwidth as real - 0.5) * 2.0);
        var p := Add(position, Scale(Add(direction, cameraPlaneRay), d));
        assert p == cam.GroundPoint(x, d);
        FlatIndex(x, mirror, pixwidth, pixheight);
        ghost var log0 := depthLog;
        SetPixel(x, y, d, brightness, Some(Sample(textures["ceiling"], p.x, p.y)));
        SetPixel(x, mirror, d, brightness, Some(Sample(textures["floor"], p.x, p.y)));
        assert log0 <= depthLog;
      }
    }

    /** `draw_floor_and_ceiling(ceiling_sizes, d_screen)` on the renderer's
        own `ceiling_sizes`: every pixel ends as `Ground` describes for all
        the loop rows. */
    method DrawFloorAndCeiling(dScreen: real)
      requires Valid()
      modifies this`depthLog, zbuffer, image
      ensures Valid() && old(depthLog) <= depthLog
      ensures forall i :: 0 <= i < zbuffer.Length ==>
        (zbuffer[i], image[i]) == Ground(i, old(zbuffer[..]), old(image[..]), ceilingSizes[..], Cam(), dScreen,
                                         GroundRows(ceilingSizes[..], pixheight, dScreen, blackDistance), 0)
    {
      ghost var z0, img0, cs, cam := zbuffer[..], image[..], ceilingSizes[..], Cam();
      ghost var allRows := GroundRows(cs, pixheight, dScreen, blackDistance);
      var mcs := MaxOf(ceilingSizes[..]);
      if mcs <= 0 {
        assert allRows == 0;
        forall i | 0 <= i < zbuffer.Length
          ensures (zbuffer[i], image[i]) == Ground(i, z0, img0, cs, cam, dScreen, allRows, 0)
        {
          FlatCell(i, pixwidth, pixheight);
        }
        return;
      }
      var rows := Min(mcs, MaxHeightPossible(pixheight, dScreen, blackDistance));
      assert rows == allRows;
      var y := 0;
      while y < rows
        invariant 0 <= y <= Max(0, rows)
        invariant Valid() && old(depthLog) <= depthLog
        invariant ceilingSizes[..] == cs && Cam() == cam
        invariant forall i :: 0 <= i < zbuffer.Length ==>
          (zbuffer[i], image[i]) == Ground(i, z0, img0, cs, cam, dScreen, y, 0)
      {
        DrawGroundRow(y, dScreen, z0, img0);
        y := y + 1;
      }
      forall i | 0 <= i < zbuffer.Length
        ensures (zbuffer[i], image[i]) == Ground(i, z0, img0, cs, cam, dScreen, allRows, 0)
      {
        FlatCell(i, pixwidth, pixheight);
      }
    }

    /** `cast_ray_dda(pixel_x)`: set up the walk from the player's square,
        run the loop until a wall, then compute the perpendicular distance
        and the texture coordinate. It computes exactly `Dda.CastRay`. */
    method CastRayDda(pixelX: int) returns (r: Result<Dda.Hit, Dda.CastError>)
      requires Valid() && Grid().Walled() && Grid().Interior(Trunc(position.x), Trunc(position.y))
      ensures r == Dda.CastRay(Grid(), position, CurrentScene().Ray(pixelX), blackDistance)
    {
      var ray := CurrentScene().Ray(pixelX);
      var mapX, mapY := Trunc(position.x), Trunc(position.y);
      var deltaDistX, deltaDistY := Dda.DeltaDist(ray.x), Dda.DeltaDist(ray.y);
      var side := false;
      var stepX, stepY, sideDistX, sideDistY;
      if ray.x < 0.0 {
        stepX := -1;
        sideDistX := Dda.Times(position.x - mapX as real, deltaDistX);
      } else {
        stepX := 1;
        sideDistX := Dda.Times(mapX as real + 1.0 - position.x, deltaDistX);
      }
      if ray.y < 0.0 {
        stepY := -1;
        sideDistY := Dda.Times(position.y - mapY as real, deltaDistY);
      } else {
        stepY := 1;
        sideDistY := Dda.Times(mapY as real + 1.0 - position.y, deltaDistY);
      }
      var g := Grid();
      ghost var w := Dda.WalkerFor(ray);
      ghost var end := Dda.Walk(g, w, Dda.StartState(position, ray));
      assert w == Dda.Walker(stepX, stepY, deltaDistX, deltaDistY);
      assert Dda.State(mapX, mapY, sideDistX, sideDistY, side) == Dda.StartState(position, ray);
      var wall;
      mapX, mapY, side, wall := Dda.RunWalk(g, stepX, stepY, deltaDistX, deltaDistY, mapX, mapY, sideDistX, sideDistY);
      assert end.mapX == mapX && end.mapY == mapY && end.side == side && wall == g.Wall(end.mapX, end.mapY);
      r := Dda.FinishCast(position, ray, stepX, stepY, mapX, mapY, side, wall, blackDistance);
    }

    /** Drawing one sprite box: rows of the box top to bottom, each left
        to right. */
    method DrawSprite(b: SpriteBox, texture: Texture<Rgba>)
      requires Valid() && IsSquare(texture) && b.Fits(pixwidth, pixheight)
      modifies this`depthLog, zbuffer, image
      ensures Valid() && old(depthLog) <= depthLog
      ensures forall i :: 0 <= i < zbuffer.Length ==>
        (zbuffer[i], image[i]) == SpritePixel(i, old(zbuffer[..]), old(image[..]), b, texture, pixwidth, b.rows, 0)
    {
      ghost var z0, img0 := zbuffer[..], image[..];
      var y := 0;
      while y < b.rows
        invariant 0 <= y <= Max(0, b.rows)
        invariant Valid() && old(depthLog) <= depthLog
        invariant forall i :: 0 <= i < zbuffer.Length ==>
          (zbuffer[i], image[i]) == SpritePixel(i, z0, img0, b, texture, pixwidth, y, 0)
      {
        DrawSpriteRow(b, texture, y, z0, img0);
        y := y + 1;
      }
      forall i | 0 <= i < zbuffer.Length
        ensures (zbuffer[i], image[i]) == SpritePixel(i, z0, img0, b, texture, pixwidth, b.rows, 0)
      {
        FlatCell(i, pixwidth, pixheight);
      }
    }

    /** Row y of a sprite box: the opaque texels of its clipped columns. */
    method DrawSpriteRow(b: SpriteBox, texture: Texture<Rgba>, y: int, ghost z0: seq<Ext>, ghost img0: seq<Rgba>)
      requires Valid() && IsSquare(texture) && b.Fits(pixwidth, pixheight) && 0 <= y < b.rows
      requires |z0| == |img0| == zbuffer.Length
      requires forall i :: 0 <= i < zbuffer.Length ==>
        (zbuffer[i], image[i]) == SpritePixel(i, z0, img0, b, texture, pixwidth, y, 0)
      modifies this`depthLog, zbuffer, image
      ensures Valid() && old(depthLog) <= depthLog
      ensures forall i :: 0 <= i < zbuffer.Length ==>
        (zbuffer[i], image[i]) == SpritePixel(i, z0, img0, b, texture, pixwidth, y + 1, 0)
    {
      forall i | 0 <= i < zbuffer.Length
        ensures SpritePixel(i, z0, img0, b, texture, pixwidth, y, 0) == SpritePixel(i, z0, img0, b, texture, pixwidth, y, b.xFrom)
      {
      }
      var x := b.xFrom;
      while x < b.xTo
        invariant b.xFrom <= x <= Max(b.xFrom, b.xTo)
        invariant Valid() && old(depthLog) <= depthLog
        invariant forall i :: 0 <= i < zbuffer.Length ==>
          (zbuffer[i], image[i]) == SpritePixel(i, z0, img0, b, texture, pixwidth, y, x)
      {
        SpriteStep(z0, img0, b, texture, pixwidth, pixheight, y, x);
        var tc := Sample(texture, (x - b.middle) as real / b.size as real - 0.5, (y + b.texYOffset) as real / b.size as real);
        if tc.a > 200 {
          ghost var log0 := depthLog;
          SetPixel(x, y + b.yOffset, b.z, b.brightness, Some(tc));
          assert log0 <= depthLog;
        }
        x := x + 1;
      }
      forall i | 0 <= i < zbuffer.Length
        ensures (zbuffer[i], image[i]) == SpritePixel(i, z0, img0, b, texture, pixwidth, y + 1, 0)
      {
        FlatCell(i, pixwidth, pixheight);
      }
    }

    /** `draw_sprites(d_screen)` over the map's sprites in the order of
        `views`: a visible sprite of a kind without a texture raises
        KeyError (sprites drawn before it stay drawn); a visible sprite too
        close to the screen plane is skipped; the others are drawn. */
    method DrawSprites(views: seq<SpriteView>, dScreen: real, hvof: real) returns (r: Result<(), PyError>)
      requires Valid() && hvof != 0.0
      modifies this`depthLog, zbuffer, image
      ensures Valid() && old(depthLog) <= depthLog
      ensures r.Err? <==> exists k :: 0 <= k < |views| && Visible(views[k], hvof, blackDistance) && views[k].kind !in "ght"
      ensures r.Err? ==> r.error == KeyError
    {
      var k := 0;
      while k < |views|
        invariant 0 <= k <= |views|
        invariant Valid() && old(depthLog) <= depthLog
        invariant forall j :: 0 <= j < k ==> !(Visible(views[j], hvof, blackDistance) && views[j].kind !in "ght")
      {
        var v := views[k];
        if Visible(v, hvof, blackDistance) {
          var t := SpriteTexture(textures, v.kind);
          if t.Err? {
            return Err(t.error);
          }
          var texture, spriteSize := t.value.0, t.value.1;
          var b := SpriteLayout(v, spriteSize, dScreen, hvof, pixwidth, pixheight, blackDistance);
          if b.Some? {
            ghost var log0 := depthLog;
            DrawSprite(b.value, texture);
            assert log0 <= depthLog;
          }
        }
        k := k + 1;
      }
      return Ok(());
    }

    /** What a frame reads of the renderer and its map. */
    function CurrentScene(): Scene
      reads this, dungeonMap
    {
      Scene(Grid(), position, direction, plane, pixwidth, pixheight, blackDistance)
    }

    /** The body of the column loop of `tick` for column x: cast the ray,
        record the ceiling size, and draw the wall textured by its code or
        the black column. */
    method RenderColumn(x: int, dScreen: real, ghost scene: Scene) returns (r: Result<(), PyError>)
      requires Valid() && scene == CurrentScene() && scene.OnFloor() && 0 <= x < pixwidth && dScreen > 0.0
      modifies this`depthLog, zbuffer, image, ceilingSizes
      ensures Valid() && old(depthLog) <= depthLog
      ensures r.Err? <==> scene.Fails(x, |wallTextures|)
      ensures r == Err(ZeroDivisionError) <==> scene.Hit(x).Err?
      ensures scene.Hit(x).Ok? ==> ceilingSizes[..] == old(ceilingSizes[..])[x := scene.Ceiling(x, dScreen)]
      ensures scene.Hit(x).Err? ==> ceilingSizes[..] == old(ceilingSizes[..])
    {
      scene.OnFloorIsInterior();
      var hit := CastRayDda(x);
      if hit.Err? {
        return Err(ZeroDivisionError);
      }
      var wall, distance, textureX := hit.value.wall, hit.value.distance, hit.value.textureX;
      if distance > 0.0 {
        var ceiling := CeilingSize(distance, pixheight, dScreen);
        ceilingSizes[x] := ceiling;
        if wall > 0 {
          var texture := PyIndex(wallTextures, wall);
          if texture.None? {
            return Err(PyError.IndexError);
          }
          DrawColumn(x, ceiling, distance, texture.value, textureX);
        } else {
          DrawBlackColumn(x, ceiling, distance);
        }
      } else {
        ceilingSizes[x] := 0;
      }
      return Ok(());
    }

    /** `tick()`: a new frame with every depth back to `inf`; then each
        column in turn is cast and drawn, recording its ceiling size; then
        the floor and ceiling, then the sprites. The frame fails exactly
        when some column fails; the sprites of the map never fail.
        `dScreen` is `screen_distance()`, `hvof` the field of view, and
        `views` the map's sprites in the order of `self.map.sprites`. */
    method Tick(dScreen: real, hvof: real, views: seq<SpriteView>) returns (r: Result<(), PyError>)
      requires Valid() && CurrentScene().OnFloor() && dScreen > 0.0 && hvof != 0.0
      requires forall k :: 0 <= k < |views| ==>
        views[k].cell in dungeonMap.sprites && views[k].kind == dungeonMap.sprites[views[k].cell]
      modifies this`frame, this`depthLog, zbuffer, image, ceilingSizes
      ensures Valid() && frame == old(frame) + 1 && CurrentScene() == old(CurrentScene())
      ensures var scene := CurrentScene();
        r.Ok? <==> forall x :: 0 <= x < pixwidth ==> !scene.Fails(x, |wallTextures|)
      ensures var scene := CurrentScene();
        r.Ok? ==> forall x :: 0 <= x < pixwidth ==> !scene.Fails(x, |wallTextures|) && ceilingSizes[x] == scene.Ceiling(x, dScreen)
    {
      ghost var scene := CurrentScene();
      frame := frame + 1;
      ResetZBuffer();
      r := DrawColumns(dScreen, scene);
      if r.Err? {
        return;
      }
      DrawFloorAndCeiling(dScreen);
      assert forall k :: 0 <= k < |views| ==> views[k].kind in "ght";
      r := DrawSprites(views, dScreen, hvof);
    }

    /** The column loop of `tick()`: cast and draw columns 0, 1, ... in
        turn, recording each ceiling size, and stop at the first that
        fails. */
    method DrawColumns(dScreen: real, ghost scene: Scene) returns (r: Result<(), PyError>)
      requires Valid() && scene == CurrentScene() && scene.OnFloor() && dScreen > 0.0
      modifies this`depthLog, zbuffer, image, ceilingSizes
      ensures Valid() && old(depthLog) <= depthLog && CurrentScene() == scene
      ensures r.Ok? <==> forall x :: 0 <= x < pixwidth ==> !scene.Fails(x, |wallTextures|)
      ensures r.Ok? ==> forall x :: 0 <= x < pixwidth ==>
        !scene.Fails(x, |wallTextures|) && ceilingSizes[x] == scene.Ceiling(x, dScreen)
    {
      var x := 0;
      while x < pixwidth
        invariant 0 <= x <= pixwidth
        invariant Valid() && old(depthLog) <= depthLog && CurrentScene() == scene
        invariant forall c :: 0 <= c < x ==> !scene.Fails(c, |wallTextures|) && ceilingSizes[c] == scene.Ceiling(c, dScreen)
      {
        var column := RenderColumn(x, dScreen, scene);
        if column.Err? {
          return column;
        }
        x := x + 1;
      }
      r := Ok(());
    }

    /** Where `_move_player(x, y)` puts the player once (x, y) is known to
        be on an empty square: pulled back to 0.1 inside the square from a
        non-empty square within 0.1 to the right or left, then above or
        below (each check using the coordinates adjusted so far). */
    function Snapped(x: real, y: real): (p: Vec)
      reads dungeonMap
      requires dungeonMap.Valid()
      ensures MapSquare(x, y) == 0 ==> Trunc(p.x) == Trunc(x) && Trunc(p.y) == Trunc(y)
    {
      var x1 := SnapBelow(x, MapSquare(x + 0.1, y));
      var x2 := SnapAbove(x1, MapSquare(x1 - 0.1, y));
      var y1 := SnapBelow(y, MapSquare(x2, y + 0.1));
      var y2 := SnapAbove(y1, MapSquare(x2, y1 - 0.1));
      if MapSquare(x, y) == 0 then
        SnapKeepsCell(x);
        SnapKeepsCell(x1);
        SnapKeepsCell(y);
        SnapKeepsCell(y1);
        Vec(x2, y2)
      else
        Vec(x2, y2)
    }

    /** The snaps never leave the target square: the snapped position has
        the same `int()` cell, so it is on the same empty square and never
        inside a wall; and a wall within 0.1 to the right (or above) keeps
        the player at least 0.1 from that square's edge. */
    lemma SnappedStaysInSquare(x: real, y: real)
      requires dungeonMap.Valid() && MapSquare(x, y) == 0
      ensures Trunc(Snapped(x, y).x) == Trunc(x) && Trunc(Snapped(x, y).y) == Trunc(y)
      ensures MapSquare(Snapped(x, y).x, Snapped(x, y).y) == 0
      ensures MapSquare(x + 0.1, y) != 0 ==> Snapped(x, y).x <= Trunc(x) as real + 0.9
    {
      SnapKeepsCell(x);
      var x1 := if MapSquare(x + 0.1, y) != 0 then Trunc(x) as real + 0.9 else x;
      SnapKeepsCell(x1);
      SnapKeepsCell(y);
      var x2 := Snapped(x, y).x;
      var y1 := if MapSquare(x2, y + 0.1) != 0 then Trunc(y) as real + 0.9 else y;
      SnapKeepsCell(y1);
    }

    /** `_move_player(x, y)`: a target on a non-empty square (or outside
        the map, 255) is refused; otherwise the player moves to the target,
        snapped away from neighbouring walls. */
    method MovePlayer(x: real, y: real)
      requires Valid()
      modifies this`position
      ensures MapSquare(x, y) != 0 ==> position == old(position)
      ensures MapSquare(x, y) == 0 ==> position == Snapped(x, y) && MapSquare(position.x, position.y) == 0
    {
      if MapSquare(x, y) == 0 {
        SnappedStaysInSquare(x, y);
        var x, y := x, y;
        x := SnapBelow(x, MapSquare(x + 0.1, y));
        x := SnapAbove(x, MapSquare(x - 0.1, y));
        y := SnapBelow(y, MapSquare(x, y + 0.1));
        y := SnapAbove(y, MapSquare(x, y - 0.1));
        position := Vec(x, y);
      }
    }

    /** `move_player_forward_or_back(amount)`, with `mag` the magnitude of
        the direction: try to move `amount` along the unit direction. */
    method MoveForwardOrBack(amount: real, mag: real)
      requires Valid() && IsMagnitude(direction, mag)
      modifies this`position
      ensures var t := Add(old(position), Scale(Normalized(direction, mag), amount));
        position == if MapSquare(t.x, t.y) == 0 then Snapped(t.x, t.y) else old(position)
      ensures MapSquare(old(position).x, old(position).y) == 0 ==> MapSquare(position.x, position.y) == 0
    {
      var target := Add(position, Scale(Normalized(direction, mag), amount));
      MovePlayer(target.x, target.y);
    }

    /** `move_player_left_or_right(amount)`: try to move `amount` along
        the unit direction turned a quarter to the right, (dn.y, -dn.x). */
    method MoveLeftOrRight(amount: real, mag: real)
      requires Valid() && IsMagnitude(direction, mag)
      modifies this`position
      ensures var dn := Normalized(direction, mag);
        var t := Add(old(position), Scale(Vec(dn.y, -dn.x), amount));
        position == if MapSquare(t.x, t.y) == 0 then Snapped(t.x, t.y) else old(position)
      ensures MapSquare(old(position).x, old(position).y) == 0 ==> MapSquare(position.x, position.y) == 0
    {
      var dn := Normalized(direction, mag);
      var target := Add(position, Scale(Vec(dn.y, -dn.x), amount));
      MovePlayer(target.x, target.y);
    }
  }
}

