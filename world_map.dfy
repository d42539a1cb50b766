/** The dungeon map of the current engine (python/pyraycaster/mapstuff.py,
    class `Map`) and of the Kotlin port (kotlin/src/WorldMap.kt), which parse
    a map the same way: the text rows are flipped so that row 0 is the
    bottom one, digits become wall codes and every other character an empty
    square, `g`/`h`/`t` cells go into a sprite table and the last `s` in the
    bottom-up scan is the player start. The engines differ only in how a
    lookup outside the grid fails. */
module WorldMap {
  import opened Numerics

  /** `translate_walls`: '0'..'9' become 0..9, anything else 0 (empty). */
  function TranslateWall(c: char): (code: int)
    ensures 0 <= code <= 9
    ensures code != 0 ==> '1' <= c <= '9'
  {
    if '0' <= c <= '9' then (c as int) - ('0' as int) else 0
  }

  /** Every digit character translates back to the digit it shows. */
  lemma TranslateWallOfDigit(d: int)
    requires 0 <= d <= 9
    ensures TranslateWall((('0' as int) + d) as char) == d
  {
  }

  /** A character that is not a digit is an empty square. */
  lemma TranslateWallOfOther(c: char)
    requires !('0' <= c <= '9')
    ensures TranslateWall(c) == 0
  {
  }

  /** A row of the parsed map: every character translated. */
  function TranslateRow(line: string): (r: seq<int>)
    ensures |r| == |line|
    ensures forall x :: 0 <= x < |line| ==> r[x] == TranslateWall(line[x])
  {
    seq(|line|, x requires 0 <= x < |line| => TranslateWall(line[x]))
  }

  /** `list.reverse()` / `asReversed()`: the flip of the Y axis. */
  function Reversed<T>(s: seq<T>): (r: seq<T>)
    ensures |r| == |s|
    ensures forall i :: 0 <= i < |s| ==> r[i] == s[|s| - 1 - i]
    decreases |s|
  {
    if |s| == 0 then [] else Reversed(s[1..]) + [s[0]]
  }

  /** Flipping twice restores the rows. */
  lemma ReversedTwice<T>(s: seq<T>)
    ensures Reversed(Reversed(s)) == s
  {
    var r := Reversed(s);
    assert forall i :: 0 <= i < |s| ==> Reversed(r)[i] == r[|s| - 1 - i] == s[i];
  }

  /** What the constructors index without failing: a first row to take the
      width from, and every row at least that long. */
  predicate WellFormed(mapdef: seq<string>)
  {
    |mapdef| > 0 && forall y :: 0 <= y < |mapdef| ==> |mapdef[0]| <= |mapdef[y]|
  }

  /** Cells are (x, y) pairs, as the source's tuple keys. */
  type Cell = (int, int)

  /** Whether cell `p` lies in the scanned area `[0, width) x [0, |rows|)`. */
  predicate InScan(rows: seq<string>, width: int, p: Cell)
  {
    0 <= p.1 < |rows| && 0 <= p.0 < width && p.0 < |rows[p.1]|
  }

  /** Whether the scan visits cell p before reaching column x of row y. */
  predicate ScannedBefore(p: Cell, y: int, x: int)
  {
    p.1 < y || (p.1 == y && p.0 < x)
  }

  /** A sprite cell: a scanned cell holding one of "ght". */
  predicate IsSpriteCell(rows: seq<string>, width: int, p: Cell)
  {
    InScan(rows, width, p) && rows[p.1][p.0] in "ght"
  }

  /** The last `s` among the first n characters of a row. */
  function LastStartIn(line: string, n: nat): (r: Option<int>)
    requires n <= |line|
    ensures r.Some? ==> 0 <= r.value < n && line[r.value] == 's'
    ensures r.Some? ==> forall x :: r.value < x < n ==> line[x] != 's'
    ensures r.None? ==> forall x :: 0 <= x < n ==> line[x] != 's'
  {
    if n == 0 then None
    else if line[n - 1] == 's' then Some(n - 1)
    else LastStartIn(line, n - 1)
  }

  /** The player start after scanning the first n flipped rows, each over
      the columns [0, width): (1, 1) until an `s` is seen, then the last
      `s` seen, since every `s` overwrites it. */
  function StartAfter(rows: seq<string>, width: nat, n: nat): (p: Cell)
    requires n <= |rows|
    requires forall y :: 0 <= y < |rows| ==> width <= |rows[y]|
    ensures p == (1, 1) || (InScan(rows, width, p) && p.1 < n && rows[p.1][p.0] == 's')
  {
    if n == 0 then (1, 1)
    else match LastStartIn(rows[n - 1], width)
      case Some(x) => (x, n - 1)
      case None => StartAfter(rows, width, n - 1)
  }

  /** The start is the last `s` of the bottom-up scan, and (1, 1) when the
      map has none. */
  lemma {:induction false} StartIsLastS(rows: seq<string>, width: nat, n: nat)
    requires n <= |rows|
    requires forall y :: 0 <= y < |rows| ==> width <= |rows[y]|
    ensures var p := StartAfter(rows, width, n);
      forall y, x :: 0 <= y < n && 0 <= x < width && rows[y][x] == 's' ==>
        InScan(rows, width, p) && p.1 < n && rows[p.1][p.0] == 's' && !ScannedBefore(p, y, x)
    ensures (forall y, x :: 0 <= y < n && 0 <= x < width ==> rows[y][x] != 's') ==> StartAfter(rows, width, n) == (1, 1)
  {
    if n > 0 {
      StartIsLastS(rows, width, n - 1);
    }
  }

  /** The rows as the parsed map stores them: flipped, then translated. */
  function WallRows(mapdef: seq<string>): (walls: seq<seq<int>>)
    ensures |walls| == |mapdef|
    ensures forall y :: 0 <= y < |mapdef| ==> walls[y] == TranslateRow(mapdef[|mapdef| - 1 - y])
  {
    var flipped := Reversed(mapdef);
    seq(|flipped|, y requires 0 <= y < |flipped| => TranslateRow(flipped[y]))
  }

  /** `get_wall(x, y)` (Python): `self.map[y][x]`, where a negative index
      counts from the end and an index past it raises IndexError (None). */
  function PyGetWall(walls: seq<seq<int>>, x: int, y: int): (w: Option<int>)
    ensures 0 <= y < |walls| && 0 <= x < |walls[y]| ==> w == Some(walls[y][x])
    ensures w.Some? <==> -|walls| <= y < |walls| && -|PyIndex(walls, y).value| <= x < |PyIndex(walls, y).value|
  {
    match PyIndex(walls, y)
    case None => None
    case Some(row) => PyIndex(row, x)
  }

  /** `getWall(x, y)` (Kotlin): `map[y][x]`, where any index outside the
      list or array throws IndexOutOfBoundsException (None). */
  function KtGetWall(walls: seq<seq<int>>, x: int, y: int): (w: Option<int>)
    ensures w.Some? <==> 0 <= y < |walls| && 0 <= x < |walls[y]|
    ensures w.Some? ==> w.value == walls[y][x]
  {
    if 0 <= y < |walls| && 0 <= x < |walls[y]| then Some(walls[y][x]) else None
  }

  /** Inside the grid both lookups read the flipped text: the wall at (x, y)
      is the translated character x of text row `height - 1 - y`, so (0, 0)
      is the bottom-left corner; and every wall code is a digit 0..9. */
  lemma GetWallReadsFlippedText(mapdef: seq<string>, x: int, y: int)
    requires 0 <= y < |mapdef| && 0 <= x < |mapdef[|mapdef| - 1 - y]|
    ensures PyGetWall(WallRows(mapdef), x, y) == Some(TranslateWall(mapdef[|mapdef| - 1 - y][x]))
    ensures KtGetWall(WallRows(mapdef), x, y) == PyGetWall(WallRows(mapdef), x, y)
    ensures 0 <= PyGetWall(WallRows(mapdef), x, y).value <= 9
  {
  }

  /** Python wraps a negative index where Kotlin throws: the engines agree
      only on the non-negative part of the grid. */
  lemma NegativeIndexDiffers(walls: seq<seq<int>>)
    requires |walls| > 0 && |walls[|walls| - 1]| > 0
    ensures PyGetWall(walls, 0, -1) == Some(walls[|walls| - 1][0])
    ensures KtGetWall(walls, 0, -1) == None
  {
  }

  /** The scan loop of the constructors: every cell of the flipped rows in
      bottom-up, left-to-right order; an `s` overwrites the start, a
      `g`/`h`/`t` enters the sprite table. */
  method ScanCells(rows: seq<string>, w: nat) returns (start: Cell, table: map<Cell, char>)
    requires forall y :: 0 <= y < |rows| ==> w <= |rows[y]|
    ensures start == StartAfter(rows, w, |rows|)
    ensures forall p :: p in table <==> IsSpriteCell(rows, w, p)
    ensures forall p :: p in table ==> IsSpriteCell(rows, w, p) && table[p] == rows[p.1][p.0]
  {
    start := (1, 1);
    table := map[];
    var y := 0;
    while y < |rows|
      invariant 0 <= y <= |rows|
      invariant start == StartAfter(rows, w, y)
      invariant forall p :: p in table <==> IsSpriteCell(rows, w, p) && p.1 < y
      invariant forall p :: p in table ==> IsSpriteCell(rows, w, p) && table[p] == rows[p.1][p.0]
    {
      start, table := ScanRow(rows, w, y, start, table);
      y := y + 1;
    }
  }

  /** One pass of the scan loop's inner loop: the cells of row y, left to
      right. */
  method ScanRow(rows: seq<string>, w: nat, y: int, start0: Cell, table0: map<Cell, char>)
    returns (start: Cell, table: map<Cell, char>)
    requires forall y :: 0 <= y < |rows| ==> w <= |rows[y]|
    requires 0 <= y < |rows| && start0 == StartAfter(rows, w, y)
    requires forall p :: p in table0 <==> IsSpriteCell(rows, w, p) && p.1 < y
    requires forall p :: p in table0 ==> IsSpriteCell(rows, w, p) && table0[p] == rows[p.1][p.0]
    ensures start == StartAfter(rows, w, y + 1)
    ensures forall p :: p in table <==> IsSpriteCell(rows, w, p) && p.1 < y + 1
    ensures forall p :: p in table ==> IsSpriteCell(rows, w, p) && table[p] == rows[p.1][p.0]
  {
    start, table := start0, table0;
    var line := rows[y];
    var x := 0;
    while x < w
      invariant 0 <= x <= w
      invariant start == match LastStartIn(line, x)
        case Some(sx) => (sx, y)
        case None => StartAfter(rows, w, y)
      invariant forall p :: p in table <==> IsSpriteCell(rows, w, p) && ScannedBefore(p, y, x)
      invariant forall p :: p in table ==> IsSpriteCell(rows, w, p) && table[p] == rows[p.1][p.0]
    {
      if line[x] == 's' {
        start := (x, y);
      } else if line[x] in "ght" {
        table := table[(x, y) := line[x]];
      }
      x := x + 1;
    }
  }

  /** The row loop of the constructors: append every row translated. */
  method TranslateRows(rows: seq<string>) returns (parsed: seq<seq<int>>)
    ensures |parsed| == |rows|
    ensures forall k :: 0 <= k < |rows| ==> parsed[k] == TranslateRow(rows[k])
  {
    parsed := [];
    var i := 0;
    while i < |rows|
      invariant 0 <= i <= |rows|
      invariant |parsed| == i
      invariant forall k :: 0 <= k < i ==> parsed[k] == TranslateRow(rows[k])
    {
      parsed := parsed + [TranslateRow(rows[i])];
      i := i + 1;
    }
  }

  /** The parsed map. The source builds it in its constructor by loops that
      fill the sprite table, overwrite the player start and append the
      translated rows; nothing changes it afterwards. */
  class Map {
    const width: int
    const height: int
    var playerStart: Cell
    var sprites: map<Cell, char>
    var walls: seq<seq<int>>

    /** The parse result: one row per text row, each at least `width`
        long; every wall code in [0, 9]; every sprite one of "ght". */
    ghost predicate Valid()
      reads this
    {
      |walls| == height &&
      (forall y :: 0 <= y < |walls| ==> width <= |walls[y]|) &&
      (forall y, x :: 0 <= y < |walls| && 0 <= x < |walls[y]| ==> 0 <= walls[y][x] <= 9) &&
      (forall p :: p in sprites ==> sprites[p] in "ght")
    }

    /** `Map.__init__` / the `WorldMap` initialiser: flip the rows, scan
        them for the start and the sprites, then translate every row. */
    constructor (mapdef: seq<string>)
      requires WellFormed(mapdef)
      ensures width == |mapdef[0]| && height == |mapdef|
      ensures walls == WallRows(mapdef)
      ensures playerStart == StartAfter(Reversed(mapdef), width, height)
      ensures forall p :: p in sprites <==> IsSpriteCell(Reversed(mapdef), width, p)
      ensures forall p :: p in sprites ==> IsSpriteCell(Reversed(mapdef), width, p) && sprites[p] == Reversed(mapdef)[p.1][p.0]
      ensures Valid()
    {
      var rows := Reversed(mapdef);
      var start, table := ScanCells(rows, |mapdef[0]|);
      var parsed := TranslateRows(rows);
      width := |mapdef[0]|;
      height := |mapdef|;
      playerStart := start;
      sprites := table;
      walls := parsed;
    }

    /** `get_wall(x, y)` of the Python engine. */
    function GetWall(x: int, y: int): (w: Option<int>)
      reads this
      requires Valid()
      ensures 0 <= y < height && 0 <= x < |walls[y]| ==> w == Some(walls[y][x])
      ensures w.Some? ==> 0 <= w.value <= 9
    {
      PyGetWall(walls, x, y)
    }

    /** `getWall(x, y)` of the Kotlin port. */
    function GetWallChecked(x: int, y: int): (w: Option<int>)
      reads this
      requires Valid()
      ensures w.Some? <==> 0 <= y < height && 0 <= x < |walls[y]|
      ensures w.Some? ==> w.value == walls[y][x] && 0 <= w.value <= 9
    {
      KtGetWall(walls, x, y)
    }
  }

  /** Python's IndexError (Kotlin's IndexOutOfBoundsException). */
  datatype MapError = IndexError

  /** Building a map as a call that can raise: `mapdef[0]` fails on a map
      text without rows, and `line[x]` for x below the width fails on a row
      shorter than the first; any other text builds the map. */
  method NewMap(mapdef: seq<string>) returns (r: Result<Map, MapError>)
    ensures r.Err? <==> |mapdef| == 0 || exists y :: 0 <= y < |mapdef| && |mapdef[y]| < |mapdef[0]|
    ensures r.Ok? ==>
      fresh(r.value) && r.value.Valid() && r.value.width == |mapdef[0]| &&
      r.value.height == |mapdef| && r.value.walls == WallRows(mapdef)
    ensures r.Ok? ==> r.value.playerStart == StartAfter(Reversed(mapdef), |mapdef[0]|, |mapdef|)
    ensures r.Ok? ==> forall p :: p in r.value.sprites <==> IsSpriteCell(Reversed(mapdef), |mapdef[0]|, p)
    ensures r.Ok? ==> forall p :: p in r.value.sprites ==>
      IsSpriteCell(Reversed(mapdef), |mapdef[0]|, p) && r.value.sprites[p] == Reversed(mapdef)[p.1][p.0]
  {
    if !WellFormed(mapdef) {
      return Err(IndexError);
    }
    var m := new Map(mapdef);
    return Ok(m);
  }

  /** The start of a parsed map that has an `s` is that `s` (the last one of
      the bottom-up scan), and its square is empty. */
  lemma StartSquareIsEmpty(mapdef: seq<string>)
    requires WellFormed(mapdef)
    requires StartAfter(Reversed(mapdef), |mapdef[0]|, |mapdef|) != (1, 1)
    ensures var p := StartAfter(Reversed(mapdef), |mapdef[0]|, |mapdef|);
      0 <= p.1 < |mapdef| && 0 <= p.0 < |mapdef[0]| &&
      Reversed(mapdef)[p.1][p.0] == 's' && PyGetWall(WallRows(mapdef), p.0, p.1) == Some(0)
  {
    var rows := Reversed(mapdef);
    var p := StartAfter(rows, |mapdef[0]|, |mapdef|);
    assert rows[p.1] == mapdef[|mapdef| - 1 - p.1];
  }
}
