// squareintersect.py: where a camera ray meets the edge of one 1x1 map
// square, and which texture coordinate that edge point has. The Tk window
// that draws the picture is not modelled; `angle()` (cmath.phase) is a
// parameter.

module SquareIntersect {
  import opened Numerics
  import opened Vectors

  /** The demo's world, 3x3 units, drawn at 200 pixels per unit. */
  const Width: real := 3.0
  const Height: real := 3.0
  const ScreenScale: real := 200.0

  /** The square the demo shows, with its low corner on whole numbers. */
  const SquareOrigin: Vec := Vec(1.0, 1.0)

  /* ---------------- screen coordinates ---------------- */

  /** `to_screen(x, y)`: scaled, with y measured down from the top. */
  function ToScreen(x: real, y: real): (real, real)
  {
    (x * ScreenScale, (Height - y) * ScreenScale)
  }

  /** `from_screen(sx, sy)`. */
  function FromScreen(sx: real, sy: real): (real, real)
  {
    (sx / ScreenScale, Height - sy / ScreenScale)
  }

  /** The two conversions undo each other, in both orders, and the screen
      y axis points the other way. */
  lemma ScreenRoundTrip(x: real, y: real, sx: real, sy: real)
    ensures FromScreen(ToScreen(x, y).0, ToScreen(x, y).1) == (x, y)
    ensures ToScreen(FromScreen(sx, sy).0, FromScreen(sx, sy).1) == (sx, sy)
    ensures forall y' :: y < y' ==> ToScreen(x, y').1 < ToScreen(x, y).1
  {
  }

  /* ---------------- the square and its edges ---------------- */

  /** The four edges of a square. */
  datatype Edge = Top | Bottom | Left | Right

  /** `square_center`: `int()` of each coordinate, plus one half. */
  function SquareCenter(p: Vec): Vec
  {
    Vec(Trunc(p.x) as real + 0.5, Trunc(p.y) as real + 0.5)
  }

  /** For a point with non-negative coordinates the centre is that of the
      1x1 square holding it: the point is at most half a unit to its left
      or below, and less than half a unit to its right or above, and the
      square's corners are whole numbers. */
  lemma SquareCenterHolds(p: Vec)
    requires p.x >= 0.0 && p.y >= 0.0
    ensures var c := SquareCenter(p);
      c.x - 0.5 <= p.x < c.x + 0.5 && c.y - 0.5 <= p.y < c.y + 0.5 &&
      (c.x - 0.5).Floor as real == c.x - 0.5 && (c.y - 0.5).Floor as real == c.y - 0.5
  {
  }

  /** Below zero `int()` rounds the wrong way for a cell: a point in
      (-1, 0) gets the centre 0.5 of the square to its right. */
  lemma SquareCenterNegative(p: Vec)
    requires -1.0 < p.x < 0.0
    ensures SquareCenter(p).x == 0.5 && p.x < SquareCenter(p).x - 0.5
  {
  }

  /** The vertex test of `calc_intersection_with_mapsquare`: from the
      quadrant of the camera relative to the centre of the square holding
      the ray's end, the angle of the ray against the angle towards the
      nearer low (or high) left corner picks one of two edges. In the right
      half, camera and ray are mirrored about the centre first. */
  function ChooseEdge(camera: Vec, viewray: Vec, angle: Vec -> real): (e: Edge)
    ensures var c := SquareCenter(Add(camera, viewray));
      (camera.x < c.x && camera.y < c.y ==> e == Bottom || e == Left) &&
      (camera.x < c.x && camera.y >= c.y ==> e == Left || e == Top) &&
      (camera.x >= c.x && camera.y < c.y ==> e == Bottom || e == Right) &&
      (camera.x >= c.x && camera.y >= c.y ==> e == Right || e == Top)
  {
    var c := SquareCenter(Add(camera, viewray));
    if camera.x < c.x then
      if camera.y < c.y then
        (if angle(viewray) < angle(Sub(Add(c, Vec(-0.5, -0.5)), camera)) then Bottom else Left)
      else
        (if angle(viewray) < angle(Sub(Add(c, Vec(-0.5, 0.5)), camera)) then Left else Top)
    else
      var flippedCam := Vec(c.x - camera.x + c.x, camera.y);
      var flippedRay := Vec(-viewray.x, viewray.y);
      if camera.y < c.y then
        (if angle(flippedRay) < angle(Sub(Add(c, Vec(-0.5, -0.5)), flippedCam)) then Bottom else Right)
      else
        (if angle(flippedRay) < angle(Sub(Add(c, Vec(-0.5, 0.5)), flippedCam)) then Right else Top)
  }

  /** The x where the camera's ray line crosses the line y = iy, or 0.0
      when the ray runs level (`viewray.y == 0`) and never crosses it: the
      vector from the camera to the crossing is parallel to the ray. */
  function CrossAtY(camera: Vec, viewray: Vec, iy: real): (ix: real)
    ensures viewray.y == 0.0 ==> ix == 0.0
    ensures viewray.y != 0.0 ==> (ix - camera.x) * viewray.y == (iy - camera.y) * viewray.x
  {
    if viewray.y == 0.0 then 0.0
    else
      var q := (iy - camera.y) * viewray.x;
      assert q / viewray.y * viewray.y == q;
      camera.x + q / viewray.y
  }

  /** The y where the camera's ray line crosses the line x = ix, or 0.0
      when the ray runs upright (`viewray.x == 0`). */
  function CrossAtX(camera: Vec, viewray: Vec, ix: real): (iy: real)
    ensures viewray.x == 0.0 ==> iy == 0.0
    ensures viewray.x != 0.0 ==> (ix - camera.x) * viewray.y == (iy - camera.y) * viewray.x
  {
    if viewray.x == 0.0 then 0.0
    else
      var q := (ix - camera.x) * viewray.y;
      assert q / viewray.x * viewray.x == q;
      camera.y + q / viewray.x
  }

  /** The second half of `calc_intersection_with_mapsquare`, once the edge
      is chosen: the point where the camera's ray line crosses that edge's
      line, and the texture coordinate along the edge. */
  function Intersection(camera: Vec, viewray: Vec, e: Edge): (real, Vec)
  {
    var c := SquareCenter(Add(camera, viewray));
    match e
    case Top =>
      var iy := c.y + 0.5;
      var ix := CrossAtY(camera, viewray, iy);
      (c.x + 0.5 - ix, Vec(ix, iy))
    case Bottom =>
      var iy := c.y - 0.5;
      var ix := CrossAtY(camera, viewray, iy);
      (ix - c.x + 0.5, Vec(ix, iy))
    case Left =>
      var ix := c.x - 0.5;
      var iy := CrossAtX(camera, viewray, ix);
      (c.y + 0.5 - iy, Vec(ix, iy))
    case Right =>
      var ix := c.x + 0.5;
      var iy := CrossAtX(camera, viewray, ix);
      (iy - c.y + 0.5, Vec(ix, iy))
  }

  /** The line through the edge `e` of the square centred at c. */
  predicate OnEdgeLine(e: Edge, c: Vec, p: Vec)
  {
    match e
    case Top => p.y == c.y + 0.5
    case Bottom => p.y == c.y - 0.5
    case Left => p.x == c.x - 0.5
    case Right => p.x == c.x + 0.5
  }

  /** The point is on the chosen edge's line; a ray parallel to that edge
      gives the fallback coordinate 0.0 instead of a division by zero. */
  lemma IntersectionOnEdgeLine(camera: Vec, viewray: Vec, e: Edge)
    ensures var p := Intersection(camera, viewray, e).1;
      OnEdgeLine(e, SquareCenter(Add(camera, viewray)), p) &&
      ((e == Top || e == Bottom) && viewray.y == 0.0 ==> p.x == 0.0) &&
      ((e == Left || e == Right) && viewray.x == 0.0 ==> p.y == 0.0)
  {
  }

  /** The texture coordinate runs along the edge from one corner: from the
      low corner for the bottom and right edges, from the high corner for
      the top and left ones. It lies in [0, 1] exactly when the point lies
      on the edge itself rather than elsewhere on its line. */
  lemma TextureCoordinateAlongEdge(camera: Vec, viewray: Vec, e: Edge)
    ensures var c := SquareCenter(Add(camera, viewray));
      var (t, p) := Intersection(camera, viewray, e);
      (e == Top || e == Bottom ==> (0.0 <= t <= 1.0 <==> c.x - 0.5 <= p.x <= c.x + 0.5)) &&
      (e == Left || e == Right ==> (0.0 <= t <= 1.0 <==> c.y - 0.5 <= p.y <= c.y + 0.5)) &&
      (e == Bottom ==> t == p.x - (c.x - 0.5)) && (e == Right ==> t == p.y - (c.y - 0.5)) &&
      (e == Top ==> t == (c.x + 0.5) - p.x) && (e == Left ==> t == (c.y + 0.5) - p.y)
  {
  }

  /** `calc_intersection_with_mapsquare(camera, viewray)`: the texture
      coordinate and the point where the ray meets the square holding the
      ray's end. */
  function CalcIntersection(camera: Vec, viewray: Vec, angle: Vec -> real): (real, Vec)
  {
    Intersection(camera, viewray, ChooseEdge(camera, viewray, angle))
  }

  /** Whether `trace_ray` draws an intersection: the ray's end lies in the
      closed unit square at `square_origin`. */
  predicate EndsInShownSquare(camera: Vec, viewray: Vec)
  {
    var end := Add(camera, viewray);
    SquareOrigin.x <= end.x <= SquareOrigin.x + 1.0 && SquareOrigin.y <= end.y <= SquareOrigin.y + 1.0
  }

  /** `trace_ray`: the intersection, or None (`no_intersect`) when the
      ray ends outside the shown square. */
  function TraceRay(camera: Vec, viewray: Vec, angle: Vec -> real): (r: Option<(real, Vec)>)
    ensures r.Some? <==> EndsInShownSquare(camera, viewray)
    ensures r.Some? ==> r.value == CalcIntersection(camera, viewray, angle)
  {
    if EndsInShownSquare(camera, viewray) then Some(CalcIntersection(camera, viewray, angle)) else None
  }

  /** The line through side `e` of the shown square itself. */
  predicate OnShownEdge(e: Edge, p: Vec)
  {
    OnEdgeLine(e, Vec(SquareOrigin.x + 0.5, SquareOrigin.y + 0.5), p)
  }

  /** The closed bounds let a ray end on the square's far side x = 2 (or
      y = 2) through, where `int()` picks the next square: a camera level
      with the square, left of it, looking right at (2, 1.5), is reported
      to hit a "left" edge at x = 2, the shown square's right side. The
      requirement on `angle` holds for the phase of a vector: the ray
      (1.5, 0) is flatter than the vector (1.5, 0.5) to the corner. */
  lemma TraceRayFarSide(angle: Vec -> real)
    requires angle(Vec(1.5, 0.0)) < angle(Vec(1.5, 0.5))
    ensures var camera, viewray := Vec(0.5, 1.5), Vec(1.5, 0.0);
      var r := TraceRay(camera, viewray, angle);
      r.Some? && ChooseEdge(camera, viewray, angle) == Left &&
      r.value.1 == Vec(2.0, 1.5) && !OnShownEdge(Left, r.value.1)
  {
    var camera, viewray := Vec(0.5, 1.5), Vec(1.5, 0.0);
    var c := SquareCenter(Add(camera, viewray));
    assert c == Vec(2.5, 1.5);
    assert Sub(Add(c, Vec(-0.5, 0.5)), camera) == Vec(1.5, 0.5);
  }

  /** The ray's end in the half-open unit square [1, 2) x [1, 2), the
      square `int()` assigns to `square_origin`. */
  predicate EndsInShownCell(camera: Vec, viewray: Vec)
  {
    var end := Add(camera, viewray);
    SquareOrigin.x <= end.x < SquareOrigin.x + 1.0 && SquareOrigin.y <= end.y < SquareOrigin.y + 1.0
  }

  /** `trace_ray` with the upper bounds open, so that the square the gate
      admits is the square the intersection is computed for. */
  function TraceRayInCell(camera: Vec, viewray: Vec, angle: Vec -> real): (r: Option<(real, Vec)>)
    ensures r.Some? <==> EndsInShownCell(camera, viewray)
    ensures r.Some? ==> r.value == CalcIntersection(camera, viewray, angle)
  {
    if EndsInShownCell(camera, viewray) then Some(CalcIntersection(camera, viewray, angle)) else None
  }

  /** With the half-open gate every reported point lies on the line of
      the side of the shown square that the edge choice names. */
  lemma TraceRayInCellHitsShownSquare(camera: Vec, viewray: Vec, angle: Vec -> real)
    ensures var r := TraceRayInCell(camera, viewray, angle);
      r.Some? ==> OnShownEdge(ChooseEdge(camera, viewray, angle), r.value.1)
  {
    if EndsInShownCell(camera, viewray) {
      var end := Add(camera, viewray);
      assert Trunc(end.x) == 1 && Trunc(end.y) == 1;
      IntersectionOnEdgeLine(camera, viewray, ChooseEdge(camera, viewray, angle));
    }
  }
}
