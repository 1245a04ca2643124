/** The level file reader of the game (StageImporter.importStageFromFile) and
    the placement of the level's actors in the world (makeStageWorld).

    A level file is a sequence of lines: `width W`, `height H`,
    `tileSideLength L`, `wallHeight Z`, then W*H lines `tile N` (x outer,
    y inner), then `okuu X Y`, `goal X Y`, and any number of further lines,
    of which those starting with `zombie X Y` place a zombie fairy. The
    reader is modelled over the sequence of lines; a line read past the end
    of the file is null, and splitting it throws a NullReferenceException. */
module StageImporter {
  import opened Common
  import opened Text
  import Stages

  /** What the reader produces, with the tile grid as a sequence of columns:
      Tiles[x][y] is the material of tile (x, y). */
  datatype LevelFile = LevelFile(
    Width: int, Height: int, TileSideLength: int, WallHeight: int,
    Tiles: seq<seq<int>>, OkuuPosition: Vec2, GoalPosition: Vec2, ZombiePositions: seq<Vec2>)
  {
    /** The grid has Width columns of Height tiles each. */
    predicate Shaped()
    {
      Width >= 0 && Height >= 0 && |Tiles| == Width &&
      forall x :: 0 <= x < |Tiles| ==> |Tiles[x]| == Height
    }
  }

  /** The StageData struct, whose tile grid is a two-dimensional array. */
  datatype StageData = StageData(
    Width: int, Height: int, TileSideLength: int, WallHeight: int,
    Tiles: array2<int>, OkuuPosition: Vec2, GoalPosition: Vec2, ZombiePositions: seq<Vec2>)

  /** The struct holds exactly what the file describes. */
  ghost predicate Holds(d: StageData, f: LevelFile)
    reads d.Tiles
  {
    f.Shaped() &&
    d.Width == f.Width && d.Height == f.Height &&
    d.TileSideLength == f.TileSideLength && d.WallHeight == f.WallHeight &&
    d.OkuuPosition == f.OkuuPosition && d.GoalPosition == f.GoalPosition &&
    d.ZombiePositions == f.ZombiePositions &&
    d.Tiles.Length0 == f.Width && d.Tiles.Length1 == f.Height && Filled(d.Tiles, f.Tiles)
  }

  /** The pieces of line i, or a NullReferenceException past the end. */
  function Pieces(lines: seq<string>, i: int): (r: Result<seq<string>>)
    requires i >= 0
    ensures r.Ok? ==> i < |lines| && |r.value| >= 1
    ensures r.Err? <==> i >= |lines|
  {
    if i >= |lines| then Err(NullReference) else Ok(Split(lines[i], ' '))
  }

  /** Piece k as an Int32: the index is checked first (IndexOutOfRange),
      then the parse (FormatException). */
  function IntPiece(pieces: seq<string>, k: nat, what: string): (r: Result<int>)
    ensures r.Ok? ==> k < |pieces| && ParseInt(pieces[k]) == Some(r.value)
    ensures r.Err? ==> r.error == (if k >= |pieces| then IndexOutOfRange else FormatError(what))
  {
    if k >= |pieces| then Err(IndexOutOfRange)
    else match ParseInt(pieces[k])
      case None => Err(FormatError(what))
      case Some(n) => Ok(n)
  }

  /** A `key n` line, as the four header lines and the tile lines are read. */
  function KeyedInt(lines: seq<string>, i: int, key: string): (r: Result<int>)
    requires i >= 0
    ensures r.Ok? ==> i < |lines| && Split(lines[i], ' ')[0] == key && IsInt32(r.value)
    ensures i < |lines| && Split(lines[i], ' ')[0] != key ==> r == Err(FormatError(key))
    ensures i >= |lines| ==> r == Err(NullReference)
  {
    var p := Pieces(lines, i);
    if p.Err? then Err(p.error)
    else if p.value[0] != key then Err(FormatError(key))
    else IntPiece(p.value, 1, key)
  }

  /** A `key x y` line, as the okuu and goal lines are read. */
  function KeyedPair(lines: seq<string>, i: int, key: string): (r: Result<Vec2>)
    requires i >= 0
    ensures r.Ok? ==> i < |lines| && Split(lines[i], ' ')[0] == key
    ensures r.Ok? ==> exists x, y :: IsInt32(x) && IsInt32(y) && r.value == Vec2(x as real, y as real)
    ensures i >= |lines| ==> r == Err(NullReference)
  {
    var p := Pieces(lines, i);
    if p.Err? then Err(p.error)
    else if p.value[0] != key then Err(FormatError(key))
    else
      var x := IntPiece(p.value, 1, key);
      if x.Err? then Err(x.error)
      else
        var y := IntPiece(p.value, 2, key);
        if y.Err? then Err(y.error)
        else Ok(Vec2(x.value as real, y.value as real))
  }

  /** The first n tile lines from line `start` on, read in order: one column
      of the grid, or the error of its first bad line. */
  function ParseColumn(lines: seq<string>, start: nat, n: nat): (r: Result<seq<int>>)
    ensures r.Ok? ==> |r.value| == n
    decreases n
  {
    if n == 0 then Ok([])
    else
      var prev := ParseColumn(lines, start, n - 1);
      if prev.Err? then prev
      else
        var t := KeyedInt(lines, start + n - 1, "tile");
        if t.Err? then Err(t.error) else Ok(prev.value + [t.value])
  }

  /** One more tile line: the tiles so far, then the next one or its error. */
  lemma ColumnStep(lines: seq<string>, start: nat, n: nat, prev: seq<int>)
    requires ParseColumn(lines, start, n) == Ok(prev)
    ensures var t := KeyedInt(lines, start + n, "tile");
      ParseColumn(lines, start, n + 1) == if t.Err? then Err(t.error) else Ok(prev + [t.value])
  {
  }

  /** Once a line has failed, reading further lines does not change the
      error. */
  lemma {:induction false} ColumnErrorStays(lines: seq<string>, start: nat, n: nat, m: nat)
    requires n <= m && ParseColumn(lines, start, n).Err?
    ensures ParseColumn(lines, start, m) == ParseColumn(lines, start, n)
    decreases m
  {
    if m > n {
      ColumnErrorStays(lines, start, n, m - 1);
    }
  }

  /** The line after w columns of h tile lines that begin at `start`. */
  function ColumnsEnd(start: nat, w: nat, h: nat): (next: nat)
    ensures next >= start
    decreases w
  {
    if w == 0 then start else ColumnsEnd(start, w - 1, h) + h
  }

  lemma {:induction false} ColumnsEndValue(start: nat, w: nat, h: nat)
    ensures ColumnsEnd(start, w, h) == start + w * h
    decreases w
  {
    if w > 0 {
      ColumnsEndValue(start, w - 1, h);
      assert start + w * h == start + (w - 1) * h + h;
    }
  }

  /** The first w columns of h tile lines each, from line `start` on. */
  function ParseColumns(lines: seq<string>, start: nat, w: nat, h: nat): (r: Result<seq<seq<int>>>)
    ensures r.Ok? ==> |r.value| == w && forall x :: 0 <= x < w ==> |r.value[x]| == h
    decreases w
  {
    if w == 0 then Ok([])
    else
      var prev := ParseColumns(lines, start, w - 1, h);
      if prev.Err? then prev
      else
        var c := ParseColumn(lines, ColumnsEnd(start, w - 1, h), h);
        if c.Err? then Err(c.error) else Ok(prev.value + [c.value])
  }

  /** One more column: the columns so far, then the next one or its error. */
  lemma ColumnsStep(lines: seq<string>, start: nat, w: nat, h: nat, prev: seq<seq<int>>)
    requires ParseColumns(lines, start, w, h) == Ok(prev)
    ensures var c := ParseColumn(lines, ColumnsEnd(start, w, h), h);
      ParseColumns(lines, start, w + 1, h) == if c.Err? then Err(c.error) else Ok(prev + [c.value])
  {
  }

  lemma {:induction false} ColumnsErrorStays(lines: seq<string>, start: nat, w: nat, m: nat, h: nat)
    requires w <= m && ParseColumns(lines, start, w, h).Err?
    ensures ParseColumns(lines, start, m, h) == ParseColumns(lines, start, w, h)
    decreases m
  {
    if m > w {
      ColumnsErrorStays(lines, start, w, m - 1, h);
    }
  }

  function ZombieLine(pieces: seq<string>): (r: Result<Vec2>)
    requires |pieces| >= 1
    ensures r.Ok? ==> |pieces| >= 3 && ParseReal(pieces[1]) == Some(r.value.x) && ParseReal(pieces[2]) == Some(r.value.y)
  {
    if |pieces| < 2 then Err(IndexOutOfRange)
    else match ParseReal(pieces[1])
      case None => Err(FormatError("zombie"))
      case Some(x) =>
        if |pieces| < 3 then Err(IndexOutOfRange)
        else match ParseReal(pieces[2])
          case None => Err(FormatError("zombie"))
          case Some(y) => Ok(Vec2(x, y))
  }

  /** What one line after the goal adds to the zombie list: nothing when its
      first piece is not `zombie`, else the position its two floats give. */
  function ZombieEntry(line: string): (r: Result<seq<Vec2>>)
    ensures r.Ok? ==> |r.value| <= 1
    ensures r.Ok? && |r.value| == 1 ==> Split(line, ' ')[0] == "zombie"
    ensures Split(line, ' ')[0] != "zombie" ==> r == Ok([])
  {
    var pieces := Split(line, ' ');
    if pieces[0] != "zombie" then Ok([])
    else
      var z := ZombieLine(pieces);
      if z.Err? then Err(z.error) else Ok([z.value])
  }

  /** The zombie fairy positions on lines start .. end-1, the first error
      ending the list. */
  function ParseZombies(lines: seq<string>, start: nat, end: nat): (r: Result<seq<Vec2>>)
    requires start <= end <= |lines|
    decreases end
  {
    if end == start then Ok([])
    else
      var prev := ParseZombies(lines, start, end - 1);
      if prev.Err? then prev
      else
        var e := ZombieEntry(lines[end - 1]);
        if e.Err? then Err(e.error) else Ok(prev.value + e.value)
  }

  /** One more line after the goal: the fairies so far, then what the line
      adds or its error. */
  lemma ZombiesStep(lines: seq<string>, start: nat, end: nat, prev: seq<Vec2>)
    requires start <= end < |lines| && ParseZombies(lines, start, end) == Ok(prev)
    ensures var e := ZombieEntry(lines[end]);
      ParseZombies(lines, start, end + 1) == if e.Err? then Err(e.error) else Ok(prev + e.value)
  {
  }

  lemma {:induction false} ZombiesErrorStay(lines: seq<string>, start: nat, end: nat, m: nat)
    requires start <= end <= m <= |lines| && ParseZombies(lines, start, end).Err?
    ensures ParseZombies(lines, start, m) == ParseZombies(lines, start, end)
    decreases m
  {
    if m > end {
      ZombiesErrorStay(lines, start, end, m - 1);
    }
  }

  /** The four header lines, in this order. */
  datatype Header = Header(Width: int, Height: int, TileSideLength: int, WallHeight: int)

  function ParseHeader(lines: seq<string>): (r: Result<Header>)
    ensures r.Ok? ==> |lines| >= 4
    ensures r.Ok? ==> Split(lines[0], ' ')[0] == "width" && Split(lines[1], ' ')[0] == "height" &&
                      Split(lines[2], ' ')[0] == "tileSideLength" && Split(lines[3], ' ')[0] == "wallHeight"
  {
    var width := KeyedInt(lines, 0, "width");
    if width.Err? then Err(width.error) else
    var height := KeyedInt(lines, 1, "height");
    if height.Err? then Err(height.error) else
    var side := KeyedInt(lines, 2, "tileSideLength");
    if side.Err? then Err(side.error) else
    var wall := KeyedInt(lines, 3, "wallHeight");
    if wall.Err? then Err(wall.error) else
    Ok(Header(width.value, height.value, side.value, wall.value))
  }

  /** What follows the tiles: Okuu's and the goal's tile, and the zombies. */
  datatype Actors = Actors(OkuuPosition: Vec2, GoalPosition: Vec2, ZombiePositions: seq<Vec2>)

  function ParseActors(lines: seq<string>, next: nat): (r: Result<Actors>)
    ensures r.Ok? ==> |lines| >= next + 2
    ensures next >= |lines| ==> r == Err(NullReference)
  {
    var okuu := KeyedPair(lines, next, "okuu");
    if okuu.Err? then Err(okuu.error) else
    var goal := KeyedPair(lines, next + 1, "goal");
    if goal.Err? then Err(goal.error) else
    var zombies := ParseZombies(lines, next + 2, |lines|);
    if zombies.Err? then Err(zombies.error) else
    Ok(Actors(okuu.value, goal.value, zombies.value))
  }

  /** importStageFromFile: the first error in file order, or the level. A
      negative width or height makes the array allocation throw an
      OverflowException. */
  function ParseLevel(lines: seq<string>): (r: Result<LevelFile>)
    ensures r.Ok? ==> r.value.Shaped()
  {
    var h := ParseHeader(lines);
    if h.Err? then Err(h.error) else
    var hd := h.value;
    if hd.Width < 0 || hd.Height < 0 then Err(Overflow) else
    var tiles := ParseColumns(lines, 4, hd.Width, hd.Height);
    if tiles.Err? then Err(tiles.error) else
    var actors := ParseActors(lines, ColumnsEnd(4, hd.Width, hd.Height));
    if actors.Err? then Err(actors.error) else
    var a := actors.value;
    Ok(LevelFile(hd.Width, hd.Height, hd.TileSideLength, hd.WallHeight, tiles.value,
                 a.OkuuPosition, a.GoalPosition, a.ZombiePositions))
  }

  /** A level that is read in full has its header keys in order, and the
      file has room for all its tiles and the okuu and goal lines. */
  lemma ParsedLevelShape(lines: seq<string>)
    requires ParseLevel(lines).Ok?
    ensures var f := ParseLevel(lines).value;
      |lines| >= 6 + f.Width * f.Height &&
      Split(lines[0], ' ')[0] == "width" && Split(lines[1], ' ')[0] == "height" &&
      Split(lines[2], ' ')[0] == "tileSideLength" && Split(lines[3], ' ')[0] == "wallHeight"
  {
    var hd := ParseHeader(lines).value;
    assert ParseActors(lines, ColumnsEnd(4, hd.Width, hd.Height)).Ok?;
    ColumnsEndValue(4, hd.Width, hd.Height);
  }

  /** A file cut short before its goal line fails with a
      NullReferenceException. */
  lemma TruncatedFileFails(lines: seq<string>, n: nat)
    requires ParseLevel(lines).Ok?
    requires n == 5 + ParseLevel(lines).value.Width * ParseLevel(lines).value.Height
    ensures n <= |lines| && ParseLevel(lines[..n]) == Err(NullReference)
  {
    var hd := ParseHeader(lines).value;
    var next := ColumnsEnd(4, hd.Width, hd.Height);
    assert ParseActors(lines, next).Ok?;
    ColumnsEndValue(4, hd.Width, hd.Height);
    assert n == next + 1;
    TruncatedAfterOkuu(lines, lines[..n], hd, next);
  }

  lemma TruncatedAfterOkuu(lines: seq<string>, short: seq<string>, hd: Header, next: nat)
    requires ParseHeader(lines) == Ok(hd) && hd.Width >= 0 && hd.Height >= 0
    requires ParseColumns(lines, 4, hd.Width, hd.Height).Ok?
    requires next == ColumnsEnd(4, hd.Width, hd.Height) && ParseActors(lines, next).Ok?
    requires short == lines[..next + 1]
    ensures ParseLevel(short) == Err(NullReference)
  {
    HeaderPrefix(lines, short);
    ColumnsPrefix(lines, short, 4, hd.Width, hd.Height);
    KeyedPairPrefix(lines, short, next, "okuu");
    assert KeyedPair(short, next + 1, "goal") == Err(NullReference);
    assert ParseActors(short, next) == Err(NullReference);
  }

  lemma HeaderPrefix(lines: seq<string>, short: seq<string>)
    requires short <= lines && 4 <= |short|
    ensures ParseHeader(short) == ParseHeader(lines)
  {
    KeyedIntPrefix(lines, short, 0, "width");
    KeyedIntPrefix(lines, short, 1, "height");
    KeyedIntPrefix(lines, short, 2, "tileSideLength");
    KeyedIntPrefix(lines, short, 3, "wallHeight");
  }

  lemma KeyedIntPrefix(lines: seq<string>, short: seq<string>, i: nat, key: string)
    requires short <= lines && i < |short|
    ensures KeyedInt(short, i, key) == KeyedInt(lines, i, key)
  {
    assert short[i] == lines[i];
  }

  lemma KeyedPairPrefix(lines: seq<string>, short: seq<string>, i: nat, key: string)
    requires short <= lines && i < |short|
    ensures KeyedPair(short, i, key) == KeyedPair(lines, i, key)
  {
    assert short[i] == lines[i];
  }

  lemma {:induction false} ColumnPrefix(lines: seq<string>, short: seq<string>, start: nat, h: nat)
    requires short <= lines && start + h <= |short|
    ensures ParseColumn(short, start, h) == ParseColumn(lines, start, h)
    decreases h
  {
    if h > 0 {
      ColumnPrefix(lines, short, start, h - 1);
      KeyedIntPrefix(lines, short, start + h - 1, "tile");
    }
  }

  lemma {:induction false} ColumnsPrefix(lines: seq<string>, short: seq<string>, start: nat, w: nat, h: nat)
    requires short <= lines && ColumnsEnd(start, w, h) <= |short|
    ensures ParseColumns(short, start, w, h) == ParseColumns(lines, start, w, h)
    decreases w
  {
    if w > 0 {
      ColumnsPrefix(lines, short, start, w - 1, h);
      ColumnPrefix(lines, short, ColumnsEnd(start, w - 1, h), h);
    }
  }

  // ------------------------------------------------------------ the reader

  /** The first |columns| columns of the grid hold the given values. */
  ghost predicate Filled(tiles: array2<int>, columns: seq<seq<int>>)
    reads tiles
  {
    |columns| <= tiles.Length0 &&
    (forall i :: 0 <= i < |columns| ==> |columns[i]| == tiles.Length1) &&
    forall i, j :: 0 <= i < |columns| && 0 <= j < tiles.Length1 ==> tiles[i, j] == columns[i][j]
  }

  lemma FilledExtend(tiles: array2<int>, columns: seq<seq<int>>, column: seq<int>)
    requires Filled(tiles, columns) && |columns| < tiles.Length0 && |column| == tiles.Length1
    requires forall j :: 0 <= j < tiles.Length1 ==> tiles[|columns|, j] == column[j]
    ensures Filled(tiles, columns + [column])
  {
    var cs := columns + [column];
    forall i, j | 0 <= i < |cs| && 0 <= j < tiles.Length1
      ensures j < |cs[i]| && tiles[i, j] == cs[i][j]
    {
      if i < |columns| {
        assert cs[i] == columns[i];
      } else {
        assert cs[i] == column;
      }
    }
  }

  /** The inner loop of importStageFromFile: reads column x of the grid
      from line `start` on, storing each value as it is read, and leaves
      the columns before x as they were. */
  method ReadColumn(lines: seq<string>, tiles: array2<int>, x: nat, start: nat, ghost columns: seq<seq<int>>)
      returns (err: Option<Error>)
    requires x < tiles.Length0 && |columns| == x && Filled(tiles, columns)
    modifies tiles
    ensures err == ParseColumn(lines, start, tiles.Length1).Failure()
    ensures err.None? ==> Filled(tiles, columns + [ParseColumn(lines, start, tiles.Length1).value])
  {
    ghost var column: seq<int> := [];
    var y := 0;
    while y < tiles.Length1
      invariant 0 <= y <= tiles.Length1
      invariant ParseColumn(lines, start, y) == Ok(column) && |column| == y
      invariant forall j :: 0 <= j < y ==> tiles[x, j] == column[j]
      invariant Filled(tiles, columns)
    {
      var t := KeyedInt(lines, start + y, "tile");
      ColumnStep(lines, start, y, column);
      if t.Err? {
        ColumnErrorStays(lines, start, y + 1, tiles.Length1);
        return Some(t.error);
      }
      tiles[x, y] := t.value;
      column := column + [t.value];
      y := y + 1;
    }
    FilledExtend(tiles, columns, column);
    return None;
  }

  /** One pass of the outer loop of importStageFromFile: column x, read
      from the line after the previous columns; an error here is the error
      of the whole grid. */
  method ReadNextColumn(lines: seq<string>, tiles: array2<int>, x: nat, next: nat, ghost columns: seq<seq<int>>)
      returns (err: Option<Error>, ghost columns': seq<seq<int>>)
    requires x < tiles.Length0 && next == ColumnsEnd(4, x, tiles.Length1)
    requires ParseColumns(lines, 4, x, tiles.Length1) == Ok(columns) && Filled(tiles, columns)
    modifies tiles
    ensures err.Some? ==> err == ParseColumns(lines, 4, tiles.Length0, tiles.Length1).Failure()
    ensures err.None? ==> ParseColumns(lines, 4, x + 1, tiles.Length1) == Ok(columns') && Filled(tiles, columns')
  {
    err := ReadColumn(lines, tiles, x, next, columns);
    ColumnsStep(lines, 4, x, tiles.Length1, columns);
    if err.Some? {
      columns' := columns;
      assert ParseColumns(lines, 4, x + 1, tiles.Length1) == Err(err.value);
      ColumnsErrorStays(lines, 4, x + 1, tiles.Length0, tiles.Length1);
    } else {
      columns' := columns + [ParseColumn(lines, next, tiles.Length1).value];
    }
  }

  /** The outer loop of importStageFromFile: reads the columns in order. */
  method ReadTiles(lines: seq<string>, tiles: array2<int>) returns (err: Option<Error>)
    modifies tiles
    ensures err == ParseColumns(lines, 4, tiles.Length0, tiles.Length1).Failure()
    ensures err.None? ==> Filled(tiles, ParseColumns(lines, 4, tiles.Length0, tiles.Length1).value)
  {
    ghost var columns: seq<seq<int>> := [];
    var next: nat := 4;
    var x := 0;
    while x < tiles.Length0
      invariant 0 <= x <= tiles.Length0 && next == ColumnsEnd(4, x, tiles.Length1)
      invariant ParseColumns(lines, 4, x, tiles.Length1) == Ok(columns)
      invariant Filled(tiles, columns)
    {
      var e;
      e, columns := ReadNextColumn(lines, tiles, x, next, columns);
      if e.Some? {
        return e;
      }
      next := next + tiles.Length1;
      x := x + 1;
    }
    return None;
  }

  /** The while loop of importStageFromFile over the remaining lines. */
  method ReadZombies(lines: seq<string>, start: nat) returns (r: Result<seq<Vec2>>)
    requires start <= |lines|
    ensures r == ParseZombies(lines, start, |lines|)
  {
    var zombies: seq<Vec2> := [];
    var i := start;
    while i < |lines|
      invariant start <= i <= |lines|
      invariant ParseZombies(lines, start, i) == Ok(zombies)
    {
      var e := ZombieEntry(lines[i]);
      if e.Err? {
        ZombiesErrorStay(lines, start, i + 1, |lines|);
        return Err(e.error);
      }
      zombies := zombies + e.value;
      i := i + 1;
    }
    return Ok(zombies);
  }

  /** importStageFromFile: fails exactly when the file is malformed, with the
      exception the first bad line raises, and otherwise returns the level
      the file describes, its grid in a new array. */
  method ImportStageFromFile(lines: seq<string>) returns (r: Result<StageData>)
    ensures r.Err? <==> ParseLevel(lines).Err?
    ensures r.Err? ==> r.error == ParseLevel(lines).error
    ensures r.Ok? ==> fresh(r.value.Tiles) && Holds(r.value, ParseLevel(lines).value)
  {
    var h := ParseHeader(lines);
    if h.Err? {
      return Err(h.error);
    }
    var hd := h.value;
    if hd.Width < 0 || hd.Height < 0 {
      return Err(Overflow);
    }
    var tiles := new int[hd.Width, hd.Height];
    var e := ReadTiles(lines, tiles);
    if e.Some? {
      return Err(e.value);
    }
    var next := ColumnsEnd(4, hd.Width, hd.Height);
    var okuu := KeyedPair(lines, next, "okuu");
    if okuu.Err? {
      return Err(okuu.error);
    }
    var goal := KeyedPair(lines, next + 1, "goal");
    if goal.Err? {
      return Err(goal.error);
    }
    var zombies := ReadZombies(lines, next + 2);
    if zombies.Err? {
      return Err(zombies.error);
    }
    r := Ok(StageData(hd.Width, hd.Height, hd.TileSideLength, hd.WallHeight, tiles,
                      okuu.value, goal.value, zombies.value));
  }
}
