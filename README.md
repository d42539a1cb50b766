# Grid-dungeon ray-caster, modelled in Dafny

This project models the logic of a software ray-caster for a grid dungeon. The repository holds three generations of it:

- the current Python engine (`python/pyraycaster`);
- an older engine (`pywolf`);
- Kotlin ports of the map, texture and vector classes.

Two stand-alone experiments are modelled too. The first finds the point where a camera ray meets a unit map square (`squareintersect.py`). The second is a bitmask texture lookup (`pixeltest.py`).

The model has one Dafny module per concern:

- `Numerics` (`numerics.dfy`) holds the numeric conventions of the source:
  - Python `int()` and Kotlin `toInt()` truncate toward zero (`Trunc`).
  - Python `% 1.0` and the Kotlin remainder fix-up (`PyMod1`, `KtRem1`, `KtWrap1`).
  - Python `round` is round-half-to-even.
  - Python negative list indices (`PyIndex`).
  - `inf` becomes an explicit `Ext` value.
- `Vectors` (`vectors.dfy`) is the value arithmetic of `Vec2` and `Vec2d`. It also has a `Vec2` class whose `rotate` updates it in place.
- `WolfVectors` (`wolf_vector.dfy`) is the complex-number-backed `Vec2` of `pywolf`, with its setters.
- `Textures` (`textures.dfy`) covers:
  - the 64×64 load checks of all four texture classes;
  - the three sampling schemes: wrap-around, rounding without wrap, and bitmask;
  - the colour-brightness helpers.
- `WorldMap` (`world_map.dfy`) is the map parser shared by `Map` and the Kotlin `WorldMap`. It flips the rows, turns digits into wall codes, builds the sprite table and finds the start square. Its loops are methods proved against specification functions.
- `Dda` (`dda.dfy`) is the grid walk of `cast_ray_dda`. It is a function proved to stop at the first wall, together with the loop as a method proved against it, and the perpendicular distance / texture-u outcome.
- `Engine` (`engine.dfy`) is the current renderer, a class over flat arrays:
  - the z-buffer reset and the depth-gated `set_pixel`;
  - the wall, black, floor/ceiling and sprite drawing loops;
  - the per-column `tick`;
  - player movement with collision snapping.

  A ghost log of every plot of the frame lets the class invariant state that each z-buffer entry is the nearest depth plotted there.
- `WolfEngine` (`wolf_raycaster.dfy`) is the older renderer, a class over two-dimensional arrays. It covers the built-in map, the fixed-step ray march, column layout and clipping, ceiling and floor shading, and movement.
- `SquareIntersect` (`square_intersect.dfy`) is the screen mapping and the edge intersection of `squareintersect.py`.

Coordinates are exact `real`s. Trigonometry and square roots are parameters: a cosine and sine pair with `c*c + s*s == 1`, and a magnitude `mag` with `mag*mag == x*x + y*y`.

## Model

| member | source | states |
|---|---|---|
| `Numerics.Trunc` | python/pyraycaster/raycaster.py:74-75 | `int()` truncates toward zero: the result is within one of r and not past it, from below for r ≥ 0 and from above for r < 0 |
| `Numerics.PyMod1` | python/pyraycaster/mapstuff.py:24 | `x % 1.0` lies in [0,1) and differs from x by a whole number |
| `Numerics.KtRem1` | kotlin/src/Texture.kt:37 | Kotlin `x % 1.0` lies in (-1,1) and has the sign of x |
| `Numerics.KtWrap1` | kotlin/src/Texture.kt:37-40 | adding 1.0 to a negative remainder yields exactly Python's `x % 1.0` |
| `Numerics.RoundHalfEven` | pywolf/raycaster.py:31 | `round` gives the nearest integer, and the even one on a tie |
| `Numerics.PyIndex` | python/pyraycaster/raycaster.py:58 | a Python list index succeeds exactly for -len ≤ i < len; a negative index counts from the end |
| `Numerics.MinExt` | python/pyraycaster/raycaster.py:225-226 | the minimum of two depths (with `inf`) is one of them and below neither |
| `Numerics.LowBitsIsMod` | pixeltest.py:25 | keeping the low k bits of an int (`& (2^k - 1)`) is the Euclidean remainder mod 2^k, negatives included |
| `Vectors.Normalized` | python/pyraycaster/vector.py:22-26 | the zero vector comes back unchanged; any other vector is divided by its magnitude |
| `Vectors.NormalizedIsUnit` | python/pyraycaster/vector.py:22-26 | a normalized non-zero vector has length 1 and scales back to the original |
| `Vectors.SubUndoesAdd` | python/pyraycaster/vector.py:34-44 | subtracting undoes adding; adding the negation is subtracting |
| `Vectors.DotAlgebra` | python/pyraycaster/vector.py:55-56 | the dot product of a vector with itself is its squared magnitude; the dot product is symmetric, additive and scales |
| `Vectors.DivUndoesScale` | python/pyraycaster/vector.py:46-53 | dividing by s undoes scaling by s; dividing is scaling by 1/s |
| `Vectors.RotationIsIsometry` | python/pyraycaster/vector.py:58-62 | a rotation keeps dot products and lengths; rotating back by the opposite angle restores the vector |
| `Vectors.RotationKeepsDot` | python/pyraycaster/vector.py:58-62 | a rotation preserves the dot product of any two vectors |
| `Vectors.RotationUndone` | python/pyraycaster/vector.py:58-62 | rotating by (c, -s) undoes rotating by (c, s) |
| `Vectors.Vec2.constructor` | python/pyraycaster/vector.py:5-7 | the new vector holds (x, y) |
| `Vectors.Vec2.FromInts` | kotlin/src/Vec2d.kt:6 | the `Int` constructor equals the `Double` constructor on the converted values |
| `Vectors.Vec2.Dotproduct` | python/pyraycaster/vector.py:55-56 | `dotproduct` is x·ox + y·oy |
| `Vectors.Vec2.Negate` | python/pyraycaster/vector.py:31-32 | unary minus returns a new vector with both components negated |
| `Vectors.Vec2.Plus` | python/pyraycaster/vector.py:34-38 | `+` returns a new vector, the componentwise sum |
| `Vectors.Vec2.Minus` | python/pyraycaster/vector.py:40-44 | `-` returns a new vector, the componentwise difference |
| `Vectors.Vec2.Times` | python/pyraycaster/vector.py:46-47 | `v * s` returns a new vector scaled by s |
| `Vectors.Vec2.TimesLeft` | python/pyraycaster/vector.py:49-50 | `s * v` gives the same vector as `v * s` |
| `Vectors.Vec2.DivideBy` | python/pyraycaster/vector.py:52-53 | a zero scalar raises ZeroDivisionError, whatever the vector; any other scalar gives a new vector with each component divided by it |
| `Vectors.Vec2.Normalize` | python/pyraycaster/vector.py:22-26 | the zero vector returns the same object; otherwise a fresh vector, the normalized value |
| `Vectors.Vec2.Rotate` | python/pyraycaster/vector.py:58-62 | rotates in place, both new components computed from the old ones |
| `WolfVectors.ScalarProductIsScale` | pywolf/vector.py:58-62 | complex multiplication by a real scales both components; `v*s` and `s*v` agree |
| `WolfVectors.ScalarQuotientIsDiv` | pywolf/vector.py:64-65 | complex division by a non-zero real divides both components |
| `WolfVectors.NormalizedComplex` | pywolf/vector.py:21-22 | no zero guard: the zero vector is a ZeroDivisionError; any other vector normalizes as in the current engine |
| `WolfVectors.Vec2.constructor` | pywolf/vector.py:5-6 | stores the complex number x + yi |
| `WolfVectors.Vec2.X` | pywolf/vector.py:24-26 | `x` is the real part |
| `WolfVectors.Vec2.Y` | pywolf/vector.py:32-34 | `y` is the imaginary part |
| `WolfVectors.Vec2.SetX` | pywolf/vector.py:28-30 | the `x` setter replaces the real part and keeps the imaginary part |
| `WolfVectors.Vec2.SetY` | pywolf/vector.py:36-38 | the `y` setter replaces the imaginary part and keeps the real part |
| `WolfVectors.Vec2.Plus` | pywolf/vector.py:40-44 | `+` is the componentwise sum, a new vector |
| `WolfVectors.Vec2.Minus` | pywolf/vector.py:49-53 | `-` is the componentwise difference, a new vector |
| `WolfVectors.Vec2.MinusFrom` | pywolf/vector.py:55-56 | `__rsub__` computes other − self |
| `WolfVectors.Vec2.Negate` | pywolf/vector.py:67-68 | unary minus negates both components |
| `WolfVectors.Vec2.Times` | pywolf/vector.py:58-62 | scaling by a real, a new vector |
| `WolfVectors.Vec2.DivideBy` | pywolf/vector.py:64-65 | division by zero is a ZeroDivisionError; otherwise each component is divided |
| `WolfVectors.Vec2.Dotproduct` | pywolf/vector.py:70-71 | `dotproduct` is x·ox + y·oy |
| `WolfVectors.Vec2.Normalize` | pywolf/vector.py:21-22 | fails exactly on the zero vector; otherwise a fresh normalized vector |
| `WolfVectors.Vec2.Rotate` | pywolf/vector.py:73-76 | rotates the stored value in place from the old components |
| `Textures.LoadTexture` | python/pyraycaster/mapstuff.py:10-20 | loading succeeds exactly for a 64×64 image, else IOError (also when no data is found); the texels are the image's |
| `Textures.LoadWolfTexture` | pywolf/raycaster.py:12-23 | no data is a ValueError; an image that is not 64×64 or not RGB is an IOError; otherwise the texture holds its pixels |
| `Textures.LoadKotlinTexture` | kotlin/src/Texture.kt:28-31 | construction succeeds exactly for 64×64, else IllegalArgumentException |
| `Textures.LoadPixelTexture` | pixeltest.py:15-22 | loading succeeds exactly for 64×64, else IOError |
| `Textures.LoadersAgree` | python/pyraycaster/mapstuff.py:17-18 | all four loaders accept the same sizes (the older one also requires RGB) |
| `Textures.WrapIndex` | python/pyraycaster/mapstuff.py:24 | `int((c % 1.0) * SIZE)` is an index in [0,64) for every real c |
| `Textures.Sample` | python/pyraycaster/mapstuff.py:22-24 | inside the unit square the sample is texel (⌊64x⌋, ⌊64y⌋) |
| `Textures.SampleWraps` | python/pyraycaster/mapstuff.py:22-24 | sampling is periodic: shifting either coordinate by a whole number gives the same texel |
| `Textures.PyMod1Shift` | python/pyraycaster/mapstuff.py:24 | `(c + k) % 1.0 == c % 1.0` for any whole k |
| `Textures.KotlinSample` | kotlin/src/Texture.kt:36-41 | the Kotlin sample, with its fix-up of negative remainders, equals the Python sample for every coordinate |
| `Textures.KotlinSampleMatches` | kotlin/src/Texture.kt:36-41 | the Kotlin sample wraps negatives into [0,1), reads indices in [0,64), equals the Python sample and wraps around |
| `Textures.WolfSample` | pywolf/raycaster.py:25-31 | the sample succeeds exactly when both rounded indices round(63x), round(63y) lie in [-64, 64), Python's valid list indices; with both in [0, 64) it reads that texel |
| `Textures.WolfSampleInRange` | pywolf/raycaster.py:25-31 | for coordinates in [0,1] the older sample reads texel (round(63x), round(63y)), with no wrap: x = 1 reads the last column where the wrapping sample reads the first |
| `Textures.WolfSampleOutOfRange` | pywolf/raycaster.py:25-31 | x = 2 raises IndexError; a small negative x reads the last column via Python's negative index |
| `Textures.Mask63` | pixeltest.py:10-11 | `n & 63` lies in [0,64) and is congruent to n mod 64 |
| `Textures.Mask63IsBitwiseAnd` | pixeltest.py:25 | the modulo definition agrees with keeping the low six bits |
| `Textures.PixelGet` | pixeltest.py:24-25 | for coordinates in [0, 64) the mask changes nothing, and `get(x, y)` reads column int(y), row int(x) |
| `Textures.PixelGetTransposed` | pixeltest.py:19-25 | `get(x, y)` returns image texel (y, x), because the pixels are stored by column and read by row |
| `Textures.PixelGetPeriodic` | pixeltest.py:24-25 | for non-negative coordinates, `get` repeats every 64 along either axis |
| `Textures.Mask63Period` | pixeltest.py:25 | masking is 64-periodic |
| `Textures.PixelGetNegativeShift` | pixeltest.py:25 | on (-1,0) truncation gives 0, so the period-64 law fails there: x reads index 0 and x+64 reads 63 |
| `Textures.PixelBrightness` | pixeltest.py:28-31 | each of the red, green and blue channels is capped at 255.0 and equals its own c·scale up to the cap |
| `Textures.PixelBrightnessNoLowerClamp` | pixeltest.py:28-31 | there is no lower clamp: a negative scale gives a negative channel |
| `Textures.ColorBrightness` | python/pyraycaster/raycaster.py:231-238 | each of red, green and blue becomes int(channel · brightness), truncated toward zero; alpha is kept unchanged |
| `Textures.ColorBrightnessZero` | python/pyraycaster/raycaster.py:231-238 | brightness 0 is pitch black: the colour channels become 0 and alpha stays |
| `Textures.ScaledChannelBounds` | python/pyraycaster/raycaster.py:238 | `int(v * f)` with f in [0,1] lies between 0 and v |
| `Textures.ColorBrightnessOne` | python/pyraycaster/raycaster.py:227-229 | brightness 1 leaves the colour unchanged, so skipping the call at brightness 1 changes nothing |
| `Textures.ColorBrightnessDarkens` | python/pyraycaster/raycaster.py:231-238 | a brightness in [0,1] never brightens a channel or makes it negative |
| `Textures.ScaledByte` | pywolf/raycaster.py:205-208 | `min(int(v*scale), 255)` is at most 255: the truncated product below the cap, and exactly 255 at or above it |
| `Textures.ScaledByteBounds` | pywolf/raycaster.py:205-208 | a byte scaled by a non-negative factor stays a byte, and does not grow when the factor is at most 1 |
| `Textures.RgbBrightness` | pywolf/raycaster.py:205-208 | each channel of `rgb_brightness` is its own capped scaled byte, so it is at most 255 whatever the scale |
| `Textures.RgbBrightnessOne` | pywolf/raycaster.py:206 | scale 1 is neutral: an 8-bit colour comes back unchanged |
| `Textures.RgbBrightnessZero` | pywolf/raycaster.py:206 | scale 0 is black |
| `Textures.RgbBrightnessWhiter` | pywolf/raycaster.py:206-208 | a scale above 1 is whiter: no channel of an 8-bit colour drops, and none passes 255 |
| `Textures.ScaledByteGrows` | pywolf/raycaster.py:208 | a byte scaled by a factor of at least 1 does not drop and stays at most 255 |
| `Textures.RgbBrightnessNoLowerClamp` | pywolf/raycaster.py:206-208 | the docstring says the result is clamped at 0..255, but only the top is clamped: a negative scale whose product reaches -1 gives a negative channel |
| `Textures.RgbBrightnessInByteRange` | pywolf/raycaster.py:205-208 | every channel of `rgb_brightness` is capped at 255, and darkens for a scale at most 1 |
| `WorldMap.TranslateWall` | python/pyraycaster/mapstuff.py:45-48 | wall codes lie in [0,9]; a non-zero code comes from a digit '1'..'9' |
| `WorldMap.TranslateWallOfDigit` | python/pyraycaster/mapstuff.py:46-47 | digit d becomes wall code d |
| `WorldMap.TranslateWallOfOther` | python/pyraycaster/mapstuff.py:48 | every non-digit becomes 0 |
| `WorldMap.TranslateRow` | python/pyraycaster/mapstuff.py:43 | a row translates cell by cell, keeping its length |
| `WorldMap.Reversed` | python/pyraycaster/mapstuff.py:34-35 | row i of the flipped map is row len-1-i of the text |
| `WorldMap.ReversedTwice` | python/pyraycaster/mapstuff.py:34-35 | flipping twice restores the rows |
| `WorldMap.LastStartIn` | python/pyraycaster/mapstuff.py:37-39 | the scan of one row finds the last 's' before the bound, or reports that there is none |
| `WorldMap.StartAfter` | python/pyraycaster/mapstuff.py:29-39 | the start is (1,1) or an 's' cell among the rows scanned |
| `WorldMap.StartIsLastS` | python/pyraycaster/mapstuff.py:29-39 | when any 's' exists, the start is the last 's' in bottom-up scan order; with none it stays (1,1) |
| `WorldMap.WallRows` | python/pyraycaster/mapstuff.py:42-43 | row y of the wall grid translates text row len-1-y |
| `WorldMap.PyGetWall` | python/pyraycaster/mapstuff.py:50-51 | `get_wall` reads `map[y][x]`, and succeeds exactly where Python's negative indices allow |
| `WorldMap.KtGetWall` | kotlin/src/WorldMap.kt:33 | `getWall` succeeds exactly for in-range indices and reads `map[y][x]` |
| `WorldMap.GetWallReadsFlippedText` | python/pyraycaster/mapstuff.py:34-51 | `get_wall(x, y)` is the wall code of text cell (x, height-1-y), in both ports, within [0,9] |
| `WorldMap.NegativeIndexDiffers` | python/pyraycaster/mapstuff.py:50-51 | the Python port reads y = -1 as the top row; the Kotlin port fails there |
| `WorldMap.ScanCells` | python/pyraycaster/mapstuff.py:36-41 | the scan loop returns the start of `StartAfter`, and a sprite table whose keys are exactly the "ght" cells, each mapped to its character |
| `WorldMap.ScanRow` | python/pyraycaster/mapstuff.py:37-41 | one row of the scan extends the start and the sprite table from rows below y to rows up to y |
| `WorldMap.TranslateRows` | python/pyraycaster/mapstuff.py:42-43 | the translation loop appends each row's wall codes in order |
| `WorldMap.NewMap` | python/pyraycaster/mapstuff.py:28-43 | building a map raises IndexError exactly when the text has no rows or a row shorter than the first; otherwise the new map has the first row's width, the row count as height, the flipped translated rows as walls, the last 's' as start and exactly the "ght" cells, with their letters, as sprites |
| `WorldMap.Map.constructor` | python/pyraycaster/mapstuff.py:28-43 | width is the first row's length and height the row count; walls are the flipped translated rows; the start is the last 's'; the sprite keys are exactly the "ght" cells |
| `WorldMap.Map.GetWall` | python/pyraycaster/mapstuff.py:50-51 | an in-range lookup reads the wall grid; any code returned lies in [0,9] |
| `WorldMap.Map.GetWallChecked` | kotlin/src/WorldMap.kt:33 | the Kotlin lookup succeeds exactly in range, with a code in [0,9] |
| `WorldMap.StartSquareIsEmpty` | python/pyraycaster/mapstuff.py:38-48 | a start read from the map lies on an 's' cell, whose wall code is 0 |
| `Dda.EmptyIsInterior` | python/pyraycaster/raycaster.py:101-114 | in a map walled all round, an empty cell is not on the border, so the walk can start there |
| `Dda.Step` | python/pyraycaster/raycaster.py:104-111 | with ±1 steps exactly one of mapX and mapY changes; `side` records that Y moved; X moves exactly when sideDistX < sideDistY |
| `Dda.StepMovesOneAxis` | python/pyraycaster/raycaster.py:104-111 | each step moves exactly one of mapX/mapY by its ±1 step; X moves only when sideDistX < sideDistY strictly, and ties step Y |
| `Dda.Walk` | python/pyraycaster/raycaster.py:101-114 | the walk from an interior cell ends on a wall inside the map |
| `Dda.Path` | python/pyraycaster/raycaster.py:101-114 | the cells the walk visits, at least one |
| `Dda.WalkStopsAtFirstWall` | python/pyraycaster/raycaster.py:101-114 | the walk is a chain of single steps through empty interior cells, and ends at the first non-zero wall |
| `Dda.RunWalk` | python/pyraycaster/raycaster.py:100-114 | the `while wall == 0` loop returns the cell, side and wall code of the walk, and the wall is non-zero |
| `Dda.DeltaDist` | python/pyraycaster/raycaster.py:78-79 | `abs(1/r)` is positive, and is `inf` exactly when r is 0 |
| `Dda.WalkerFor` | python/pyraycaster/raycaster.py:78-98 | the step directions and delta distances of a ray form a valid walker |
| `Dda.WalkSideHasComponent` | python/pyraycaster/raycaster.py:104-120 | a walk that ends on an X side has a non-zero ray x; ending on a Y side with ray y zero needs the ray to be zero |
| `Dda.CastRay` | python/pyraycaster/raycaster.py:66-131 | only the zero ray fails (division by zero); otherwise the result is the walk's non-zero wall at 0 < distance < BLACK_DISTANCE, or exactly (-1, BLACK_DISTANCE, 0.0) |
| `Dda.FinishCast` | python/pyraycaster/raycaster.py:116-131 | the distance and texture-u code returns the outcome function of the walk's end state |
| `Dda.RoomExamples` | python/pyraycaster/raycaster.py:66-131 | in a 5×5 walled room, a ray along +x from the centre hits wall 1 at distance 1.5 with texture-u 2.5; a diagonal ray with equal side distances steps Y first |
| `Engine.Brightness` | python/pyraycaster/raycaster.py:140-141 | brightness is never negative, is 1 at distance 0 and 0 once distance/black distance reaches 1 |
| `Engine.BrightnessFalloff` | python/pyraycaster/raycaster.py:140-141 | brightness lies in [0,1] for non-negative distances, is 1 at 0 and 0 from the black distance on, and never rises with distance |
| `Engine.NearestAppend` | python/pyraycaster/raycaster.py:225-226 | after one more plot, the nearest depth of its pixel is the minimum of the old depth and the new one; other pixels keep theirs |
| `Engine.NearestIsMinimum` | python/pyraycaster/raycaster.py:225-226 | the nearest depth of a pixel is `inf` exactly when nothing was plotted there, and otherwise the smallest depth plotted there |
| `Engine.NearestNeverRises` | python/pyraycaster/raycaster.py:225-226 | within a frame the depth of a pixel never increases |
| `Engine.Plotted` | python/pyraycaster/raycaster.py:221-229 | without a colour nothing changes; the stored depth becomes the nearer of the two when a colour is given; the pixel takes the new colour's alpha exactly when it passes the depth test |
| `Engine.PlottedIsDepthTest` | python/pyraycaster/raycaster.py:221-229 | a pixel changes only when a colour is given and z is strictly below its depth; the depth becomes the minimum; the colour keeps its alpha and is unscaled at brightness 1 or z ≤ 0 |
| `Engine.FlatIndex` | python/pyraycaster/raycaster.py:225 | `x + y*pixwidth` is a valid flat index, from which x and y are recovered |
| `Engine.SpriteTexture` | python/pyraycaster/raycaster.py:177-185 | 'g', 'h' and 't' map to their textures with sizes 0.8, 0.7 and 0.6; any other kind is a KeyError |
| `Engine.MapSpritesHaveTextures` | python/pyraycaster/raycaster.py:177-185 | every sprite of a parsed map has a texture, so drawing the map's sprites never raises |
| `Engine.SnapKeepsCell` | python/pyraycaster/raycaster.py:252-259 | snapping to `int(c) + 0.9` or `int(c) + 0.1` keeps the cell of a non-negative coordinate |
| `Engine.ColumnSpan` | python/pyraycaster/raycaster.py:145-150 | each row of a wall column lies on screen, and its texture y lies in [0,1) |
| `Engine.MaxOf` | python/pyraycaster/raycaster.py:159 | `max(ceiling_sizes)` is an element and bounds every element |
| `Engine.GroundDistanceClosed` | python/pyraycaster/raycaster.py:166-167 | the ground distance of row y is d_screen·h/(h-2y) |
| `Engine.GroundBeyondScreen` | python/pyraycaster/raycaster.py:166-167 | the ground seen in a row is never nearer than the screen |
| `Engine.GroundRecedes` | python/pyraycaster/raycaster.py:165-167 | rows nearer the horizon see ground farther away |
| `Engine.GroundWithinBlackDistance` | python/pyraycaster/raycaster.py:162-167 | rows below `max_height_possible` see ground nearer than the black distance |
| `Engine.MirrorRow` | python/pyraycaster/raycaster.py:174-175 | the ceiling row y and its floor mirror h-1-y both come from a row in the top half |
| `Engine.GroundSparesWalls` | python/pyraycaster/raycaster.py:169-175 | the floor and ceiling loop never touches a pixel inside a wall column's span |
| `Engine.GroundStep` | python/pyraycaster/raycaster.py:169-175 | one inner iteration changes only the ceiling pixel (x, y) and its floor mirror, and they are distinct when drawn |
| `Engine.GroundStepCeiling` | python/pyraycaster/raycaster.py:170-174 | the ceiling pixel gets the depth test with the ceiling texel at the ground point, when y is below the column's ceiling size |
| `Engine.GroundStepFloor` | python/pyraycaster/raycaster.py:170-175 | the floor pixel gets the depth test with the floor texel at the same ground point |
| `Engine.SpriteLayout` | python/pyraycaster/raycaster.py:200-216 | a sprite is skipped exactly when its perpendicular distance is below 0.2; otherwise its clipped box lies on screen at that depth |
| `Engine.SpriteStep` | python/pyraycaster/raycaster.py:214-219 | one inner iteration changes only its own pixel, by the depth test with the texel when its alpha is above 200 |
| `Engine.CeilingSize` | python/pyraycaster/raycaster.py:55 | with the screen in front of the player, the ceiling is less than half the screen, so each wall keeps a row |
| `Engine.Scene.OnFloorIsInterior` | python/pyraycaster/raycaster.py:73-75 | a player on an empty square of a walled map stands on an interior cell, where the grid walk can start |
| `Engine.Raycaster.constructor` | python/pyraycaster/raycaster.py:18-42 | fresh buffers, frame 0, the player in the middle of the map's start square looking along +y, and `BLACK_DISTANCE` 4.5 |
| `Engine.Raycaster.MapSquare` | python/pyraycaster/raycaster.py:133-138 | 255 exactly outside [0,width)×[0,height) by truncated coordinates; otherwise the wall code, within [0,9] |
| `Engine.Raycaster.SetPixel` | python/pyraycaster/raycaster.py:221-229 | only flat entry x + y·pixwidth of the z-buffer and image changes, by the depth test; the plot is logged when a colour is given |
| `Engine.Raycaster.ResetZBuffer` | python/pyraycaster/raycaster.py:44-46 | every z-buffer entry becomes `inf` and the frame's plot log starts empty |
| `Engine.Raycaster.DrawColumn` | python/pyraycaster/raycaster.py:143-150 | exactly the pixels of column x in rows [max(0,c), h-max(0,c)) get the depth test with the texel at texture y (y-c)/(h-2c); nothing else changes |
| `Engine.Raycaster.PlotWallRow` | python/pyraycaster/raycaster.py:149-150 | one row of the wall loop extends the drawn span by row y |
| `Engine.Raycaster.DrawBlackColumn` | python/pyraycaster/raycaster.py:152-156 | exactly the span of column x gets the depth test with black at brightness 1; nothing else changes |
| `Engine.Raycaster.Cam` | python/pyraycaster/raycaster.py:171-172 | the camera a frame reads for ground rays is valid |
| `Engine.Raycaster.DrawGroundRow` | python/pyraycaster/raycaster.py:165-175 | one ground row y takes the buffers from the state before row y to the state after it |
| `Engine.Raycaster.DrawGroundCell` | python/pyraycaster/raycaster.py:169-175 | one inner iteration takes the buffers from cell x of row y to cell x+1 |
| `Engine.Raycaster.DrawFloorAndCeiling` | python/pyraycaster/raycaster.py:158-175 | every pixel ends as the ground function says: ceiling and mirrored floor rows up to min(max ceiling size, max height possible) pass through the depth test; nothing when the largest ceiling size is ≤ 0 |
| `Engine.Raycaster.CastRayDda` | python/pyraycaster/raycaster.py:66-131 | the method with the stepping loop returns exactly `Dda.CastRay` for the column's ray |
| `Engine.Raycaster.DrawSprite` | python/pyraycaster/raycaster.py:212-219 | every pixel of a sprite box with an opaque texel gets the depth test; all others are unchanged |
| `Engine.Raycaster.DrawSpriteRow` | python/pyraycaster/raycaster.py:215-219 | one row of the sprite loop extends the drawn box by row y |
| `Engine.Raycaster.DrawSprites` | python/pyraycaster/raycaster.py:187-219 | fails, with KeyError, exactly when some visible sprite has a kind outside "ght" |
| `Engine.Raycaster.RenderColumn` | python/pyraycaster/raycaster.py:53-62 | a column fails exactly on a zero ray or an unknown wall code; the ceiling size is recorded, 0 for a non-positive distance |
| `Engine.Raycaster.Tick` | python/pyraycaster/raycaster.py:44-64 | the frame counter advances; the frame succeeds exactly when no column fails, and every ceiling size is then the column's |
| `Engine.Raycaster.DrawColumns` | python/pyraycaster/raycaster.py:52-62 | the column loop succeeds exactly when no column fails, and records every ceiling size |
| `Engine.Raycaster.Snapped` | python/pyraycaster/raycaster.py:249-260 | from a target on an empty square the snapped position keeps the target's int() cell in both coordinates |
| `Engine.Raycaster.SnappedStaysInSquare` | python/pyraycaster/raycaster.py:249-260 | from an empty target the four snaps keep the same cell, so the player never ends inside a wall, and a wall on the right keeps x at most 0.9 into the cell |
| `Engine.Raycaster.MovePlayer` | python/pyraycaster/raycaster.py:249-260 | a non-empty target leaves the position unchanged; otherwise the snapped target is taken, and it is empty |
| `Engine.Raycaster.MoveForwardOrBack` | python/pyraycaster/raycaster.py:240-242 | moves along the normalized direction by `amount` through the collision check; a player on an empty square stays on one |
| `Engine.Raycaster.MoveLeftOrRight` | python/pyraycaster/raycaster.py:244-247 | moves along (dn.y, -dn.x) by `amount`, with the same guarantee |
| `WolfEngine.Find` | pywolf/raycaster.py:77 | `find` is the first index of the character, or -1 when it does not occur |
| `WolfEngine.FirstStart` | pywolf/raycaster.py:76-80 | the scan stops at the first row, bottom-up, that contains 's', at the first 's' of that row |
| `WolfEngine.FindFirst` | pywolf/raycaster.py:77 | `find` returns the position of the first occurrence |
| `WolfEngine.ParsedIsRectangular` | pywolf/raycaster.py:81-84 | rows of equal length give a rectangular grid |
| `WolfEngine.WolfStartSquareIsEmpty` | pywolf/raycaster.py:76-83 | the start cell found lies in the grid and its code is 0 |
| `WolfEngine.BuiltInMap` | pywolf/raycaster.py:59-80 | the built-in map has rows of width 20, and its start is cell (9, 1) |
| `WolfEngine.BuiltInMapWidths` | pywolf/raycaster.py:59-68 | every built-in row is 20 characters wide |
| `WolfEngine.BuiltInMapBottom` | pywolf/raycaster.py:59-68 | the built-in map has 10 rows; the bottom row has no 's'; the next one has its first 's' at 9 |
| `WolfEngine.StartInSecondRow` | pywolf/raycaster.py:69-80 | with no 's' in the bottom row, the first 's' of the row above gives the start (i, 1) |
| `WolfEngine.MapSquare` | pywolf/raycaster.py:132-137 | inside the map the square is the wall code at (int(x), int(y)); outside it every square reads as empty, 0 |
| `WolfEngine.MapSquareReadsText` | pywolf/raycaster.py:132-137 | `get_map_square` is the translated text cell in range, 0 out of range (not 255), and reads cell 0 for x in (-1,0) |
| `WolfEngine.Scene.March` | pywolf/raycaster.py:122-125 | the march stops at the first step, counted from k, that is in a wall or past the black distance, and never later than the step cap |
| `WolfEngine.Scene.MarchAlong` | pywolf/raycaster.py:119-129 | the final step satisfies 0 < step ≤ BLACK_DISTANCE + 0.02; it ends on a wall or past the black distance; tx is 0 without a wall and in [0,1) with one |
| `WolfEngine.Scene.MarchFindsFirstWall` | pywolf/raycaster.py:122-125 | every sample point before the final step is empty |
| `WolfEngine.Scene.MarchAlongStopsAt` | pywolf/raycaster.py:119-129 | the march result is the square and step at the stopping index, with tx `(x/width·4) % 1` on a wall |
| `WolfEngine.Scene.Cast` | pywolf/raycaster.py:115-129 | `cast_ray` fails exactly on a zero ray (normalization without a zero guard) and otherwise is the march along the unit ray |
| `WolfEngine.Scene.Column` | pywolf/raycaster.py:90-113 | a drawn column has one colour per screen row |
| `WolfEngine.ColumnOf` | pywolf/raycaster.py:92-113 | a column succeeds exactly when the screen has rows and the wall part does not fail; it then has exactly `pixheight` rows |
| `WolfEngine.WallColumnOf` | pywolf/raycaster.py:105-110 | the wall part has the laid-out number of rows |
| `WolfEngine.ColumnSpan` | pywolf/raycaster.py:92-104 | after flooring the distance at 0.1: ceiling [0, y_top), wall [y_top, y_top+n) and floor [y_top+n, h) partition the column, centred to within two rows; a wall that fits starts at texture y 0; a clipped wall fills the screen from a texture y in (0, 0.5) |
| `WolfEngine.DepthStepValue` | pywolf/raycaster.py:152 | the shading step `df` equals 72/(5h) and is positive |
| `WolfEngine.ShadedAsUnique` | pywolf/raycaster.py:200-203 | the colour written for a given colour and depth is unique |
| `WolfEngine.Shade` | pywolf/raycaster.py:200-208 | a depth ≤ 0 writes the colour unshaded, and a depth at or beyond the black distance writes black |
| `WolfEngine.ShadeDarkens` | pywolf/raycaster.py:200-208 | shading never brightens a byte; depth ≤ 0 writes the colour unchanged; the black distance and beyond writes black |
| `WolfEngine.CeilingRows` | pywolf/raycaster.py:150-154 | the ceiling part has one colour per row drawn |
| `WolfEngine.FloorRows` | pywolf/raycaster.py:156-160 | the floor part has one colour per row from `y_start` to the bottom |
| `WolfEngine.SkyRow` | pywolf/raycaster.py:153-154 | ceiling row y is the sky colour shaded at depth y·df |
| `WolfEngine.FloorRow` | pywolf/raycaster.py:159-160 | floor row y is the grass colour shaded at depth (h-y)·df |
| `WolfEngine.DepthPastBlack` | pywolf/raycaster.py:152 | from row 5h/12 on, the shading depth reaches the black distance |
| `WolfEngine.FadeToHorizon` | pywolf/raycaster.py:150-160 | ceiling rows y ≥ 5h/12 are black, and so are floor rows at least 5h/12 above the bottom, 12·(h−y) ≥ 5h, that is y ≤ 7h/12 |
| `WolfEngine.TexYStep` | pywolf/raycaster.py:141-144 | each wall row advances texture y by `1/int(wall_height-1)` |
| `WolfEngine.WallColumn` | pywolf/raycaster.py:139-144 | a wall column that succeeds has one colour per row |
| `WolfEngine.WallRow` | pywolf/raycaster.py:142-143 | wall row k is the texel at texture y `ty + k·dty`, shaded at the wall distance |
| `WolfEngine.UnclippedWallRow` | pywolf/raycaster.py:141-144 | for an unclipped wall, row k samples texture y k/m, which is always in range |
| `WolfEngine.TexYEnds` | pywolf/raycaster.py:141-144 | an unclipped wall's texture y starts at 0 and reaches 1 at row m |
| `WolfEngine.UnclippedWallSpansTexture` | pywolf/raycaster.py:95-99 | a wall that fits on screen spans its texture from 0 to exactly 1 and never fails |
| `WolfEngine.WallStepDefined` | pywolf/raycaster.py:141 | on a screen of at least 13 rows, `int(wall_height-1)` is never 0, so `dty` is defined |
| `WolfEngine.ShortScreenClippedWallRaises` | pywolf/raycaster.py:100-110 | on a 10-row screen, a clipped wall at distance 0.94 samples past texture y 1 and raises IndexError |
| `WolfEngine.ClippedWallStaysInTexture` | pywolf/raycaster.py:100-104 | with the step 1/wall_height that the centred start of a clipped wall goes with, every row samples strictly inside the texture and none raises |
| `WolfEngine.Lookup` | pywolf/raycaster.py:165 | a row index int(y) outside [-height, height) raises IndexError; inside the map it reads the wall code at (int(x), int(y)) |
| `WolfEngine.LookupWraps` | pywolf/raycaster.py:165 | the movement lookup `map[int(y)][int(x)]` agrees with `get_map_square` in range, wraps y in (-2,-1] to the top row, and fails below -height |
| `WolfEngine.Sideways` | pywolf/raycaster.py:170-171 | `Vec2(dn.y, -dn.x)` is a unit vector perpendicular to the direction |
| `WolfEngine.WolfRaycaster.CurrentScene` | pywolf/raycaster.py:115-129 | what a frame reads of the renderer is a well-formed scene |
| `WolfEngine.WolfRaycaster.constructor` | pywolf/raycaster.py:39-56 | frame 0, direction (0, 3), the camera plane `tan(FOV/2)·3` along x, the built-in map parsed and the player at (9.5, 1.5) |
| `WolfEngine.WolfRaycaster.LoadStartMap` | pywolf/raycaster.py:58-84 | loading a map whose first 's' is in the second row places the player at its centre |
| `WolfEngine.WolfRaycaster.LoadMap` | pywolf/raycaster.py:58-84 | the grid is the flipped, translated text; the player moves to the centre of the first 's' bottom-up, or stays put with none |
| `WolfEngine.WolfRaycaster.GetMapSquare` | pywolf/raycaster.py:132-137 | the method reads the map function |
| `WolfEngine.WolfRaycaster.CastRay` | pywolf/raycaster.py:115-129 | the method with the stepping loop returns `Scene.Cast` |
| `WolfEngine.WolfRaycaster.MarchRay` | pywolf/raycaster.py:119-129 | the loop and the tx computation return `Scene.MarchAlong` |
| `WolfEngine.WolfRaycaster.MarchSteps` | pywolf/raycaster.py:122-125 | the `while` loop stops at `Scene.March`'s index, with the square and step there |
| `WolfEngine.WolfRaycaster.SetPixel` | pywolf/raycaster.py:189-203 | with a colour, pixel (x,y) is written shaded by depth, with no depth test; without one, nothing changes |
| `WolfEngine.WolfRaycaster.ClearZBuffer` | pywolf/raycaster.py:183-187 | every z-buffer entry becomes `inf` |
| `WolfEngine.WolfRaycaster.DrawCeiling` | pywolf/raycaster.py:150-154 | a zero-height screen raises ZeroDivisionError; otherwise rows [0,n) of column x hold sky shaded by y·df; nothing else changes |
| `WolfEngine.WolfRaycaster.DrawFloor` | pywolf/raycaster.py:156-160 | likewise for grass on rows [y_start, h) at depth (h-y)·df |
| `WolfEngine.WolfRaycaster.DrawBlackColumn` | pywolf/raycaster.py:146-148 | exactly rows [y_top, y_top+n) of column x become black |
| `WolfEngine.WolfRaycaster.DrawWallColumn` | pywolf/raycaster.py:139-144 | succeeds exactly when `WallColumn` does, and then writes its rows into the span; nothing outside changes |
| `WolfEngine.WolfRaycaster.RenderColumn` | pywolf/raycaster.py:90-113 | column x is drawn as `Scene.Column` says, or fails with its error; other columns are unchanged |
| `WolfEngine.WolfRaycaster.LayOut` | pywolf/raycaster.py:92-104 | the method computes `ColumnSpan` |
| `WolfEngine.WolfRaycaster.DrawColumn` | pywolf/raycaster.py:105-113 | column x ends as `ColumnOf` says, or the call fails with its error; other columns are unchanged |
| `WolfEngine.WolfRaycaster.Tick` | pywolf/raycaster.py:86-113 | the frame counter advances; on success every column is drawn as `Scene.Column` says; a failure is the error of the first failing column |
| `WolfEngine.WolfRaycaster.DrawColumns` | pywolf/raycaster.py:90-113 | the column loop draws every column as `Scene.Column` says, or fails with the error of the first failing column |
| `WolfEngine.WolfRaycaster.MoveForwardOrBack` | pywolf/raycaster.py:162-166 | a zero direction raises; a target outside the list's reach raises IndexError; otherwise the player moves exactly when the target square is 0 |
| `WolfEngine.WolfRaycaster.MoveLeftOrRight` | pywolf/raycaster.py:168-173 | the same, along `Vec2(dn.y, -dn.x)` |
| `WolfEngine.ColumnParts` | pywolf/raycaster.py:105-113 | a drawn column is its ceiling rows, then its wall or black rows, then its floor rows |
| `WolfEngine.ColumnRow` | pywolf/raycaster.py:105-113 | each row of a drawn column is the ceiling, wall, black or floor colour its span says |
| `SquareIntersect.ScreenRoundTrip` | squareintersect.py:38-42 | `from_screen(to_screen(x, y)) == (x, y)` and the converse; the screen y axis points down |
| `SquareIntersect.SquareCenterHolds` | squareintersect.py:83-84 | for non-negative coordinates the centre is that of the unit cell containing the ray end |
| `SquareIntersect.SquareCenterNegative` | squareintersect.py:84 | truncation puts a ray end with x in (-1,0) in the cell centred at x = 0.5, which does not contain it |
| `SquareIntersect.ChooseEdge` | squareintersect.py:85-107 | each camera quadrant restricts the edge: left-below gives bottom or left, left-not-below left or top, right-below bottom or right, right-not-below right or top |
| `SquareIntersect.CrossAtY` | squareintersect.py:109-116 | a horizontal ray falls back to ix = 0 without dividing; otherwise (ix, iy) lies on the ray's line |
| `SquareIntersect.CrossAtX` | squareintersect.py:119-126 | a vertical ray falls back to iy = 0 without dividing; otherwise (ix, iy) lies on the ray's line |
| `SquareIntersect.IntersectionOnEdgeLine` | squareintersect.py:108-127 | the point returned lies on the chosen edge's line, with the zero-component fallbacks |
| `SquareIntersect.TextureCoordinateAlongEdge` | squareintersect.py:108-127 | bottom and right measure from the square's low corner, top and left from its high corner; the coordinate is in [0,1] exactly when the point is on the edge |
| `SquareIntersect.TraceRay` | squareintersect.py:59-67 | an intersection is computed exactly when the ray end lies in the closed square [1,2]×[1,2] |
| `SquareIntersect.TraceRayFarSide` | squareintersect.py:64-65 | a ray ending at (2.0, 1.5) passes the closed test but intersects the left edge of the next square, at x = 2 |
| `SquareIntersect.TraceRayInCell` | squareintersect.py:64-67 | the half-open test computes an intersection exactly when the ray end lies in [1,2)×[1,2) |
| `SquareIntersect.TraceRayInCellHitsShownSquare` | squareintersect.py:64-84 | with the half-open test, every intersection reported lies on an edge line of the square shown |

## Left out

- Trigonometry and square roots are parameters, not computed:
  - `tan`, `cos`, `sin`, `atan2` and `sqrt`;
  - `rotate_player`, `rotate_player_to`, `set_fov`, `screen_distance` and `Vec2.from_angle`;
  - `magnitude`, which is `mag` with `mag*mag == x*x + y*y`.
- The sprite bearing (python/pyraycaster/raycaster.py:189-198) and `cos` projection are not computed. Each sprite's distance, view angle and cosine arrive as a `SpriteView`.
- `squareintersect.py` compares `angle()` values. The angle function is a parameter, so `ChooseEdge` states only the quadrant restriction, not which of the two edges is picked.
- Floating point: the model uses exact reals, so no IEEE rounding is modelled. For example, Python's `(-1e-20) % 1.0 == 1.0` would give texture index 64.
- Vectors.Vec2.DivideBy: follows Python, which raises ZeroDivisionError for a zero scalar. The Kotlin `div` (kotlin/src/Vec2d.kt:35) instead returns infinite or NaN components, which exact reals cannot hold.
- WorldMap.Map.constructor: requires a well-formed map text. The IndexError that both constructors raise on a text without rows or with a row shorter than the first is modelled by `WorldMap.NewMap`, which builds every other map through this constructor.
- WolfEngine.WallColumn: keeps the texture step `1/int(wall_height-1)` of the code, so the renderer raises IndexError where pywolf does. The corrected step for clipped walls is `WolfEngine.ClippedTexY`; the renderer does not use it.
- WolfEngine.TexY: texture y is `ty + k·dty` in exact arithmetic. The source accumulates `ty += dty` in floats, which can drift.
- Image decoding and asset loading are not modelled: PIL, `pkgutil` and `ImageIO`, and the RGBA conversion. A texture is a decoded grid, and only the size and mode checks remain.
- All GUI and event code is not part of this model:
  - the GUI files, `RaycasterEngine.kt`, the interactive `squareintersecttest` scripts and the `pixeltest.py` `tick`;
  - the Tk canvas calls of `squareintersect.py`, including `no_intersect` and `intersect`.
- The image of the current engine is stored flat at `x + y*pixwidth`, like its z-buffer, instead of as a PIL image. That image is a PIL 'RGB' image (python/pyraycaster/raycaster.py:24), so the alpha that `set_pixel` writes is dropped there; the model keeps the full `Rgba` value.
- `walltime_msec` is unused by both `tick`s.
- The older engine's `wall_textures` list is unused by its `tick`, which always draws `textures["test"]`. That is modelled as written.
- The older engine's `tick` does not call `clear_zbuffer`, whose z-buffer nothing reads. That is modelled as written.
- `Dda.CastRay`, `Engine.Raycaster.Tick` and the other frame methods require a map walled all round and a player on an empty square. `cast_ray_dda` does not bounds-check `get_wall`, so elsewhere the source may loop forever or index out of range. Those runs are not modelled.
- `Engine.Raycaster.Tick` does not state the final image and z-buffer as one formula. They are stated step by step by `DrawColumn`, `DrawBlackColumn`, `DrawFloorAndCeiling` and `DrawSprite`, and by the class invariant that every depth is the nearest plotted.
- `Engine.Raycaster.DrawColumns` does not state the pixels either, for the same reason.
- `Engine.Raycaster.RenderColumn` likewise states only failure and the ceiling size, not the pixels.
- `Engine.Raycaster.DrawSprites` states only failure and the invariant; the pixels of each sprite are stated by `DrawSprite`.
- The sprite order is the order of the `views` sequence. It stands for the dictionary order of `self.map.sprites`.
- `Engine.Raycaster.DrawColumn` states its pixels through the predicate `WallRowsPlotted` rather than inline.
- `Engine.Raycaster.Tick` and `Engine.Raycaster.DrawSprites` take the sprites as views of the map's sprite table. Views of kinds outside "ght" can reach `DrawSprites` only directly.

## Findings

| source | as written | input that shows it | evidently intended | confidence | as-written member | corrected member |
|---|---|---|---|---|---|---|
| squareintersect.py:64 | `trace_ray` computes an intersection when the ray end lies in the CLOSED square `1 <= x <= 2`, `1 <= y <= 2`. `calc_intersection_with_mapsquare` then centres on `int(x) + 0.5` (line 84), which is the next square when x or y is exactly 2 | camera (0.5, 1.5), viewray (1.5, 0.0): the ray ends at (2.0, 1.5). The square used is centred at (2.5, 1.5), and the point reported is (2.0, 1.5) on its left edge, the far side of the square shown | the test is half-open (`x < 2`, `y < 2`), so every reported point lies on an edge of the square shown | not executed; medium (a mouse lands on the exact boundary rarely) | `SquareIntersect.TraceRayFarSide` | `SquareIntersect.TraceRayInCellHitsShownSquare` |
| pywolf/raycaster.py:141-144 | a wall taller than the screen is clipped and its texture y starts at `0.5 - pixheight/wall_height/2` (line 104), but each row still adds `1/int(wall_height-1)`, the step of an unclipped wall. On a short screen the last rows run past texture y 1, `round(ty*63)` reaches 64 or more and `texture.sample` raises IndexError | a screen 10 rows tall and a wall hit at distance 0.94: wall height 10.64, start 0.03, step 1/9, so the last row samples y = 1.03, texel row 65 of 64 | the clipped rows show the middle part of the texture, stepping by `1/wall_height`, so every row samples inside the texture | not executed; low (only screens under about 63 rows are affected) | `WolfEngine.ShortScreenClippedWallRaises` | `WolfEngine.ClippedWallStaysInTexture` |
