/** The grid walk behind `cast_ray_dda` (python/pyraycaster/raycaster.py),
    the digital differential analyser of the current engine: from the
    player's square, step one square at a time along X or along Y,
    whichever side of a square the ray crosses first, until a square with a
    non-zero wall code is reached.

    The source does no bounds check while walking, so the walk is only
    defined for a map whose border squares are all walls; the measure that
    proves it ends is the distance to the map edge in the step direction of
    each axis. A ray component of zero makes its side distance `inf`, which
    is modelled by `Numerics.Ext`. */
module Dda {
  import opened Numerics
  import opened Vectors

  /** The walls and the width the map reports (`Map.width`); the height is
      the number of rows. */
  datatype Grid = Grid(walls: seq<seq<int>>, width: int)
  {
    function Height(): int { |walls| }

    /** The rectangle [0, width) x [0, height) of the parsed map. */
    predicate InRect(x: int, y: int)
    {
      0 <= x < width && 0 <= y < |walls|
    }

    /** The rows cover the rectangle, the codes are the 0..9 of a parsed
        map, and every square on the border of the rectangle is a wall:
        what the walk relies on instead of a bounds check. */
    predicate Walled()
    {
      width >= 1 && |walls| >= 1 &&
      (forall y :: 0 <= y < |walls| ==> width <= |walls[y]|) &&
      (forall y, x :: 0 <= y < |walls| && 0 <= x < |walls[y]| ==> 0 <= walls[y][x] <= 9) &&
      (forall y :: 0 <= y < |walls| ==> walls[y][0] != 0 && walls[y][width - 1] != 0) &&
      (forall x :: 0 <= x < width ==> walls[0][x] != 0 && walls[|walls| - 1][x] != 0)
    }

    /** Strictly inside the border ring. */
    predicate Interior(x: int, y: int)
    {
      1 <= x < width - 1 && 1 <= y < |walls| - 1
    }

    /** `get_wall(x, y)` for a square of the rectangle. */
    function Wall(x: int, y: int): int
      requires Walled() && InRect(x, y)
    {
      walls[y][x]
    }
  }

  /** An empty square of a walled grid is an interior one. */
  lemma EmptyIsInterior(g: Grid, x: int, y: int)
    requires g.Walled() && g.InRect(x, y) && g.Wall(x, y) == 0
    ensures g.Interior(x, y)
  {
    var last := |g.walls| - 1;
    assert g.walls[last][x] != 0 && g.walls[0][x] != 0;
  }

  /** The loop state of `cast_ray_dda`. */
  datatype State = State(mapX: int, mapY: int, sideDistX: Ext, sideDistY: Ext, side: bool)

  /** What the loop reads but never changes: the steps (+1 or -1) and the
      per-square increments of the side distances. */
  datatype Walker = Walker(stepX: int, stepY: int, deltaDistX: Ext, deltaDistY: Ext)
  {
    predicate Valid() { (stepX == 1 || stepX == -1) && (stepY == 1 || stepY == -1) }
  }

  /** One iteration of the loop: jump to the next square in X when the X
      side is strictly nearer, otherwise (ties included) in Y. */
  function Step(w: Walker, s: State): (n: State)
    ensures w.Valid() ==> ((n.mapX != s.mapX) <==> (n.mapY == s.mapY))
    ensures w.Valid() ==> (n.side <==> n.mapY != s.mapY)
    ensures w.Valid() ==> (n.mapX != s.mapX <==> Below(s.sideDistX, s.sideDistY))
  {
    if Below(s.sideDistX, s.sideDistY) then
      s.(sideDistX := Plus(s.sideDistX, w.deltaDistX), mapX := s.mapX + w.stepX, side := false)
    else
      s.(sideDistY := Plus(s.sideDistY, w.deltaDistY), mapY := s.mapY + w.stepY, side := true)
  }

  /** Each iteration moves exactly one of mapX and mapY, by its step; it
      moves X exactly when sideDistX < sideDistY, so a tie steps Y; and
      `side` records which axis moved. */
  lemma StepMovesOneAxis(w: Walker, s: State)
    requires w.Valid()
    ensures var n := Step(w, s);
      (n.mapX == s.mapX + w.stepX && n.mapY == s.mapY && !n.side) ||
      (n.mapY == s.mapY + w.stepY && n.mapX == s.mapX && n.side)
    ensures Step(w, s).mapX != s.mapX <==> Below(s.sideDistX, s.sideDistY)
    ensures s.sideDistX == s.sideDistY ==> Step(w, s).side && Step(w, s).mapY == s.mapY + w.stepY
  {
  }

  /** Squares still to cross before the map edge in each step direction. */
  function Remaining(g: Grid, w: Walker, s: State): int
  {
    (if w.stepX > 0 then g.width - 1 - s.mapX else s.mapX) +
    (if w.stepY > 0 then g.Height() - 1 - s.mapY else s.mapY)
  }

  /** The loop from state s, which stands on an interior square: step, look
      the new square up, and go on while it is empty. The result is the
      state on the first wall reached. */
  function Walk(g: Grid, w: Walker, s: State): (e: State)
    requires g.Walled() && w.Valid() && g.Interior(s.mapX, s.mapY)
    ensures g.InRect(e.mapX, e.mapY) && g.Wall(e.mapX, e.mapY) > 0
    decreases Remaining(g, w, s)
  {
    var n := Step(w, s);
    if g.Wall(n.mapX, n.mapY) != 0 then n
    else
      EmptyIsInterior(g, n.mapX, n.mapY);
      Walk(g, w, n)
  }

  /** The squares the walk visits from s, in order, ending on the wall. */
  function Path(g: Grid, w: Walker, s: State): (p: seq<State>)
    requires g.Walled() && w.Valid() && g.Interior(s.mapX, s.mapY)
    ensures |p| >= 1
    decreases Remaining(g, w, s)
  {
    var n := Step(w, s);
    if g.Wall(n.mapX, n.mapY) != 0 then [n]
    else
      EmptyIsInterior(g, n.mapX, n.mapY);
      [n] + Path(g, w, n)
  }

  /** The walk stops at the first wall on its path: every square visited
      before the last is an empty square of the map, the last one is the
      walk's result, and consecutive squares are one loop step apart. */
  lemma {:induction false} WalkStopsAtFirstWall(g: Grid, w: Walker, s: State)
    requires g.Walled() && w.Valid() && g.Interior(s.mapX, s.mapY)
    ensures var p := Path(g, w, s);
      p[0] == Step(w, s) && p[|p| - 1] == Walk(g, w, s) &&
      (forall i :: 0 <= i < |p| - 1 ==> g.Interior(p[i].mapX, p[i].mapY) && g.Wall(p[i].mapX, p[i].mapY) == 0) &&
      (forall i :: 0 <= i < |p| - 1 ==> p[i + 1] == Step(w, p[i]))
    decreases Remaining(g, w, s)
  {
    var n := Step(w, s);
    if g.Wall(n.mapX, n.mapY) == 0 {
      EmptyIsInterior(g, n.mapX, n.mapY);
      WalkStopsAtFirstWall(g, w, n);
      var rest := Path(g, w, n);
      var p := Path(g, w, s);
      assert p == [n] + rest;
      forall i | 0 <= i < |p| - 1
        ensures g.Interior(p[i].mapX, p[i].mapY) && g.Wall(p[i].mapX, p[i].mapY) == 0
        ensures p[i + 1] == Step(w, p[i])
      {
        if i > 0 {
          assert p[i] == rest[i - 1] && p[i + 1] == rest[i];
        }
      }
    }
  }

  /** The `while wall == 0` loop of `cast_ray_dda` on its own variables:
      it ends on the square, side and wall code where `Walk` ends. */
  method RunWalk(g: Grid, stepX: int, stepY: int, deltaDistX: Ext, deltaDistY: Ext,
                 mapX0: int, mapY0: int, sideDistX0: Ext, sideDistY0: Ext)
    returns (mapX: int, mapY: int, side: bool, wall: int)
    requires g.Walled() && Walker(stepX, stepY, deltaDistX, deltaDistY).Valid() && g.Interior(mapX0, mapY0)
    ensures var e := Walk(g, Walker(stepX, stepY, deltaDistX, deltaDistY), State(mapX0, mapY0, sideDistX0, sideDistY0, false));
      mapX == e.mapX && mapY == e.mapY && side == e.side && wall == g.Wall(mapX, mapY) && wall > 0
  {
    ghost var w := Walker(stepX, stepY, deltaDistX, deltaDistY);
    ghost var end := Walk(g, w, State(mapX0, mapY0, sideDistX0, sideDistY0, false));
    mapX, mapY, side := mapX0, mapY0, false;
    var sideDistX, sideDistY := sideDistX0, sideDistY0;
    wall := 0;
    while wall == 0
      invariant wall == 0 ==>
        g.Interior(mapX, mapY) && Walk(g, w, State(mapX, mapY, sideDistX, sideDistY, side)) == end
      invariant wall != 0 ==> State(mapX, mapY, sideDistX, sideDistY, side) == end && wall == g.Wall(mapX, mapY)
      decreases if wall == 0 then Remaining(g, w, State(mapX, mapY, sideDistX, sideDistY, side)) + 1 else 0
    {
      if Below(sideDistX, sideDistY) {
        sideDistX := Plus(sideDistX, deltaDistX);
        mapX := mapX + stepX;
        side := false;
      } else {
        sideDistY := Plus(sideDistY, deltaDistY);
        mapY := mapY + stepY;
        side := true;
      }
      wall := g.Wall(mapX, mapY);
      if wall == 0 {
        EmptyIsInterior(g, mapX, mapY);
      }
    }
  }

  /* ---------------- the whole cast: set-up, walk, distance ---------------- */

  /** `x * d` for a float that may be `inf`; a positive factor keeps `inf`
      (the source never multiplies `inf` by zero). */
  function Times(k: real, d: Ext): Ext
    requires d.Inf? ==> k > 0.0
  {
    if d.Inf? then Inf else Fin(k * d.v)
  }

  /** `abs(1 / r) if r else float("inf")`. */
  function DeltaDist(r: real): (d: Ext)
    ensures d.Inf? <==> r == 0.0
    ensures d.Fin? ==> d.v > 0.0
  {
    if r == 0.0 then Inf else if r < 0.0 then Fin(-(1.0 / r)) else Fin(1.0 / r)
  }

  /** -1 for a negative component, +1 otherwise (zero included). */
  function StepFor(r: real): int
  {
    if r < 0.0 then -1 else 1
  }

  /** The constants of the loop for a ray. */
  function WalkerFor(ray: Vec): (w: Walker)
    ensures w.Valid()
  {
    Walker(StepFor(ray.x), StepFor(ray.y), DeltaDist(ray.x), DeltaDist(ray.y))
  }

  /** The square the player stands on (`int()` of each coordinate) and the
      initial side distances: the part of that square still to cross in
      the step direction, times `deltaDist`. */
  function StartState(pos: Vec, ray: Vec): State
  {
    var mx, my := Trunc(pos.x), Trunc(pos.y);
    State(mx, my,
          Times(if ray.x < 0.0 then pos.x - mx as real else mx as real + 1.0 - pos.x, DeltaDist(ray.x)),
          Times(if ray.y < 0.0 then pos.y - my as real else my as real + 1.0 - pos.y, DeltaDist(ray.y)),
          false)
  }

  /** A side distance is `inf` exactly when its ray component is zero; the
      loop keeps this, since `inf` absorbs and finite sums stay finite. */
  predicate Tracks(w: Walker, s: State, ray: Vec)
  {
    (w.deltaDistX.Inf? <==> ray.x == 0.0) && (w.deltaDistY.Inf? <==> ray.y == 0.0) &&
    (s.sideDistX.Inf? <==> ray.x == 0.0) && (s.sideDistY.Inf? <==> ray.y == 0.0)
  }

  /** The last step of a walk crossed an X side only along a ray with an X
      component, and a Y side along a ray with a Y component unless the
      ray is zero (both side distances `inf`, which ties and steps Y). */
  lemma {:induction false} WalkSideHasComponent(g: Grid, w: Walker, s: State, ray: Vec)
    requires g.Walled() && w.Valid() && g.Interior(s.mapX, s.mapY) && Tracks(w, s, ray)
    ensures var e := Walk(g, w, s);
      (!e.side ==> ray.x != 0.0) && (e.side && ray.y == 0.0 ==> ray.x == 0.0)
    decreases Remaining(g, w, s)
  {
    var n := Step(w, s);
    assert Tracks(w, n, ray);
    if g.Wall(n.mapX, n.mapY) == 0 {
      EmptyIsInterior(g, n.mapX, n.mapY);
      WalkSideHasComponent(g, w, n, ray);
    }
  }

  /** What `cast_ray_dda` returns, or the division by zero it raises. */
  datatype Hit = Hit(wall: int, distance: real, textureX: real)

  datatype CastError = ZeroDivisionError

  /** The perpendicular distance from `pos` to the side of square
      (mapX, mapY) that the ray crossed last: `side` tells which axis. */
  function Perpendicular(pos: Vec, ray: Vec, stepX: int, stepY: int, mapX: int, mapY: int, side: bool): Result<real, CastError>
  {
    if side then
      if ray.y == 0.0 then Err(ZeroDivisionError)
      else Ok((mapY as real - pos.y + (1 - stepY) as real / 2.0) / ray.y)
    else
      if ray.x == 0.0 then Err(ZeroDivisionError)
      else Ok((mapX as real - pos.x + (1 - stepX) as real / 2.0) / ray.x)
  }

  /** `cast_ray_dda` for a ray from `pos`: walk to the first wall, then
      report that wall, the perpendicular distance and the coordinate along
      the wall, or the "nothing visible" triple when the distance is not in
      (0, blackDistance). Only the zero ray divides by zero; otherwise the
      result is either a real hit on the wall the walk stopped at or
      exactly (-1, blackDistance, 0.0). */
  function CastRay(g: Grid, pos: Vec, ray: Vec, blackDistance: real): (r: Result<Hit, CastError>)
    requires g.Walled() && g.Interior(Trunc(pos.x), Trunc(pos.y))
    ensures r.Err? <==> IsZero(ray)
    ensures !IsZero(ray) ==>
      var e := Walk(g, WalkerFor(ray), StartState(pos, ray));
      (r.value.wall == g.Wall(e.mapX, e.mapY) && r.value.wall > 0 && 0.0 < r.value.distance < blackDistance) ||
      r.value == Hit(-1, blackDistance, 0.0)
  {
    var w, s := WalkerFor(ray), StartState(pos, ray);
    var e := Walk(g, w, s);
    WalkSideHasComponent(g, w, s, ray);
    Outcome(pos, ray, e.side, Perpendicular(pos, ray, w.stepX, w.stepY, e.mapX, e.mapY, e.side), g.Wall(e.mapX, e.mapY), blackDistance)
  }

  /** The tail of `cast_ray_dda` once the walk has stopped on wall code
      `wall` and the perpendicular distance has been computed. */
  function Outcome(pos: Vec, ray: Vec, side: bool, distance: Result<real, CastError>, wall: int, blackDistance: real): Result<Hit, CastError>
  {
    match distance
    case Err(err) => Err(err)
    case Ok(d) =>
      if 0.0 < d < blackDistance then
        Ok(Hit(wall, d, if side then pos.x + d * ray.x else pos.y + d * ray.y))
      else
        Ok(Hit(-1, blackDistance, 0.0))
  }

  /** The tail of `cast_ray_dda` after the loop: the distance, then the
      hit or the "nothing visible" triple. */
  method FinishCast(pos: Vec, ray: Vec, stepX: int, stepY: int, mapX: int, mapY: int, side: bool,
                    wall: int, blackDistance: real)
    returns (r: Result<Hit, CastError>)
    ensures r == Outcome(pos, ray, side, Perpendicular(pos, ray, stepX, stepY, mapX, mapY, side), wall, blackDistance)
  {
    var distance: real;
    if side {
      if ray.y == 0.0 {
        return Err(ZeroDivisionError);
      }
      distance := (mapY as real - pos.y + (1 - stepY) as real / 2.0) / ray.y;
    } else {
      if ray.x == 0.0 {
        return Err(ZeroDivisionError);
      }
      distance := (mapX as real - pos.x + (1 - stepX) as real / 2.0) / ray.x;
    }
    if 0.0 < distance < blackDistance {
      var wallTexX;
      if side {
        wallTexX := pos.x + distance * ray.x;
      } else {
        wallTexX := pos.y + distance * ray.y;
      }
      r := Ok(Hit(wall, distance, wallTexX));
      ghost var o := Outcome(pos, ray, side, Ok(distance), wall, blackDistance);
      assert o.value.wall == wall && o.value.distance == distance && o.value.textureX == wallTexX;
    } else {
      r := Ok(Hit(-1, blackDistance, 0.0));
    }
  }

  /** A 5 x 5 room walled with code 1. */
  const Room: Grid := Grid([[1, 1, 1, 1, 1], [1, 0, 0, 0, 1], [1, 0, 0, 0, 1], [1, 0, 0, 0, 1], [1, 1, 1, 1, 1]], 5)

  /** From the centre of the room looking along +X the ray crosses one
      empty square and hits the east wall 1.5 away, at y = 2.5; looking
      diagonally, the first step is a tie and goes in Y. */
  lemma RoomExamples()
    ensures Room.Walled()
    ensures CastRay(Room, Vec(2.5, 2.5), Vec(1.0, 0.0), 4.5) == Ok(Hit(1, 1.5, 2.5))
    ensures Step(WalkerFor(Vec(1.0, 1.0)), StartState(Vec(2.5, 2.5), Vec(1.0, 1.0))).mapY == 3
  {
    assert Room.Walled();
    var ray := Vec(1.0, 0.0);
    var w, s := WalkerFor(ray), StartState(Vec(2.5, 2.5), ray);
    assert s == State(2, 2, Fin(0.5), Inf, false);
    var n := Step(w, s);
    assert n == State(3, 2, Fin(1.5), Inf, false);
    assert Room.Wall(3, 2) == 0;
    assert Walk(Room, w, s) == Walk(Room, w, n);
    assert Walk(Room, w, n) == State(4, 2, Fin(2.5), Inf, false);
  }
}

