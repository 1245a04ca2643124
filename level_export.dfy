/** The level file writer of the level editor (LevelMap.exportToFile), as the
    sequence of lines it writes, and the round trip with the game's reader:
    reading what the editor wrote gives back the level.

    The writer formats its float values (the map's dimensions, Okuu's and the
    goal's tile, the fairies' positions) with Single.ToString; that
    formatting is a parameter here. The round trip needs only what .NET does
    on the values the editor produces: a whole number of at most seven
    digits is printed as an integer. */
module LevelExport {
  import opened Common
  import opened Text
  import opened StageImporter

  /** A whole number of at most seven digits. */
  predicate Printable(v: real)
  {
    v == v.Floor as real && -10000000.0 < v < 10000000.0
  }

  /** A float formatting that prints printable values as integers. */
  ghost predicate PrintsWholeAsInt(fmt: real -> string)
  {
    forall v :: Printable(v) ==> fmt(v) == IntToString(v.Floor)
  }

  /** A line "key value", as WriteLine("key {0}", value) writes it. */
  function KeyLine(key: string, value: string): string
  {
    key + " " + value
  }

  /** A line "key a b", as WriteLine("key {0} {1}", a, b) writes it. */
  function PairLine(key: string, a: string, b: string): string
  {
    key + " " + a + " " + b
  }

  /** The `tile` lines of one column, y ascending. */
  function ColumnLines(column: seq<int>): (ls: seq<string>)
    ensures |ls| == |column|
  {
    seq(|column|, y requires 0 <= y < |column| => KeyLine("tile", IntToString(column[y])))
  }

  /** The `tile` lines of the grid, x outer and y inner. */
  function TileLines(grid: seq<seq<int>>): seq<string>
    decreases |grid|
  {
    if grid == [] then [] else TileLines(grid[..|grid| - 1]) + ColumnLines(grid[|grid| - 1])
  }

  /** The `zombie` lines, in list order. */
  function ZombieLines(zombies: seq<Vec2>, fmt: real -> string): (ls: seq<string>)
    ensures |ls| == |zombies|
  {
    seq(|zombies|, i requires 0 <= i < |zombies| => PairLine("zombie", fmt(zombies[i].x), fmt(zombies[i].y)))
  }

  /** Everything exportToFile writes, line by line. */
  function LevelLines(dimensions: Vec2, side: int, wall: int, grid: seq<seq<int>>,
                      okuu: Vec2, goal: Vec2, zombies: seq<Vec2>, fmt: real -> string): seq<string>
  {
    [KeyLine("width", fmt(dimensions.x)), KeyLine("height", fmt(dimensions.y)),
     KeyLine("tileSideLength", IntToString(side)), KeyLine("wallHeight", IntToString(wall))]
    + TileLines(grid)
    + [PairLine("okuu", fmt(okuu.x), fmt(okuu.y)), PairLine("goal", fmt(goal.x), fmt(goal.y))]
    + ZombieLines(zombies, fmt)
  }

  /** Writing one more tile adds its line after the column's lines. */
  lemma ColumnLinesSnoc(column: seq<int>, v: int)
    ensures ColumnLines(column + [v]) == ColumnLines(column) + [KeyLine("tile", IntToString(v))]
  {
    var c := column + [v];
    assert forall y :: 0 <= y < |column| ==> c[y] == column[y];
  }

  /** Writing one more column adds its lines after the grid's lines. */
  lemma TileLinesSnoc(grid: seq<seq<int>>, column: seq<int>)
    ensures TileLines(grid + [column]) == TileLines(grid) + ColumnLines(column)
  {
    assert (grid + [column])[..|grid|] == grid;
  }

  /** Writing one more fairy adds its line after the others. */
  lemma ZombieLinesSnoc(zombies: seq<Vec2>, z: Vec2, fmt: real -> string)
    ensures ZombieLines(zombies + [z], fmt) == ZombieLines(zombies, fmt) + [PairLine("zombie", fmt(z.x), fmt(z.y))]
  {
    var zs := zombies + [z];
    assert forall i :: 0 <= i < |zombies| ==> zs[i] == zombies[i];
  }

  /** The grid has w columns of h tiles each. */
  predicate GridShaped(grid: seq<seq<int>>, w: int, h: int)
  {
    |grid| == w && forall x :: 0 <= x < |grid| ==> |grid[x]| == h
  }

  lemma {:induction false} TileLinesLength(grid: seq<seq<int>>, h: nat)
    requires GridShaped(grid, |grid|, h)
    ensures |TileLines(grid)| == |grid| * h
    decreases |grid|
  {
    if grid != [] {
      var n := |grid| - 1;
      TileLinesLength(grid[..n], h);
      assert (n + 1) * h == n * h + h;
    }
  }

  /** The file has the four header lines, one line per tile, the okuu and
      goal lines and one line per fairy. */
  lemma LevelLinesCount(dimensions: Vec2, side: int, wall: int, grid: seq<seq<int>>,
                        okuu: Vec2, goal: Vec2, zombies: seq<Vec2>, fmt: real -> string, w: nat, h: nat)
    requires GridShaped(grid, w, h)
    ensures |LevelLines(dimensions, side, wall, grid, okuu, goal, zombies, fmt)| == 6 + w * h + |zombies|
  {
    TileLinesLength(grid, h);
  }

  // ------------------------------------------------------- reading it back

  lemma SplitKeyLine(key: string, value: string)
    requires ' ' !in key && ' ' !in value
    ensures Split(KeyLine(key, value), ' ') == [key, value]
  {
    var parts := [key, value];
    assert Join(parts[1..], ' ') == value;
    assert Join(parts, ' ') == KeyLine(key, value);
    SplitJoin(parts, ' ');
  }

  lemma SplitPairLine(key: string, a: string, b: string)
    requires ' ' !in key && ' ' !in a && ' ' !in b
    ensures Split(PairLine(key, a, b), ' ') == [key, a, b]
  {
    var parts := [key, a, b];
    assert Join(parts[2..], ' ') == b;
    assert Join(parts[1..], ' ') == a + " " + b;
    assert Join(parts, ' ') == PairLine(key, a, b);
    SplitJoin(parts, ' ');
  }

  /** A written `key n` line reads back as n. */
  lemma KeyedIntOfLine(lines: seq<string>, i: nat, key: string, n: int)
    requires i < |lines| && lines[i] == KeyLine(key, IntToString(n))
    requires ' ' !in key && IsInt32(n)
    ensures KeyedInt(lines, i, key) == Ok(n)
  {
    IntToStringNoSpace(n);
    SplitKeyLine(key, IntToString(n));
    ParseIntToString(n);
  }

  /** A written `key a b` line reads back as (a, b). */
  lemma KeyedPairOfLine(lines: seq<string>, i: nat, key: string, a: int, b: int)
    requires i < |lines| && lines[i] == PairLine(key, IntToString(a), IntToString(b))
    requires ' ' !in key && IsInt32(a) && IsInt32(b)
    ensures KeyedPair(lines, i, key) == Ok(Vec2(a as real, b as real))
  {
    IntToStringNoSpace(a);
    IntToStringNoSpace(b);
    SplitPairLine(key, IntToString(a), IntToString(b));
    ParseIntToString(a);
    ParseIntToString(b);
  }

  /** A written `zombie x y` line reads back as one fairy at (x, y). */
  lemma ZombieEntryOfLine(a: int, b: int)
    ensures ZombieEntry(PairLine("zombie", IntToString(a), IntToString(b))) == Ok([Vec2(a as real, b as real)])
  {
    IntToStringNoSpace(a);
    IntToStringNoSpace(b);
    SplitPairLine("zombie", IntToString(a), IntToString(b));
    ParseRealOfIntString(a);
    ParseRealOfIntString(b);
  }

  predicate AllInt32(column: seq<int>)
  {
    forall y :: 0 <= y < |column| ==> IsInt32(column[y])
  }

  /** Line start + y is the `tile n` line written for the 32-bit tile
      column[y]. */
  predicate TileLineAt(lines: seq<string>, start: nat, column: seq<int>, y: nat)
  {
    y < |column| && start + y < |lines| &&
    lines[start + y] == KeyLine("tile", IntToString(column[y])) && IsInt32(column[y])
  }

  lemma TileLineReads(lines: seq<string>, start: nat, column: seq<int>, y: nat)
    requires TileLineAt(lines, start, column, y)
    ensures KeyedInt(lines, start + y, "tile") == Ok(column[y])
  {
    KeyedIntOfLine(lines, start + y, "tile", column[y]);
  }

  /** The first k tile lines of a written column read back as its first k
      tiles. */
  lemma {:induction false} ColumnReadBack(lines: seq<string>, start: nat, column: seq<int>, k: nat)
    requires k <= |column|
    requires forall y :: 0 <= y < k ==> TileLineAt(lines, start, column, y)
    ensures ParseColumn(lines, start, k) == Ok(column[..k])
    decreases k
  {
    if k > 0 {
      var n := k - 1;
      var prev, v := column[..n], column[n];
      ColumnReadBack(lines, start, column, n);
      ColumnStep(lines, start, n, prev);
      TileLineReads(lines, start, column, n);
      assert ParseColumn(lines, start, k) == Ok(prev + [v]);
      TakeOneMore(column, k);
    }
  }

  /** Tile y of column x of the grid is on its line, the columns starting
      at line start and taking h lines each. */
  predicate GridLineAt(lines: seq<string>, start: nat, grid: seq<seq<int>>, h: nat, x: nat, y: nat)
  {
    x < |grid| && TileLineAt(lines, ColumnsEnd(start, x, h), grid[x], y)
  }

  /** Column x of a written grid reads back as that column. */
  lemma ColumnOfGrid(lines: seq<string>, start: nat, grid: seq<seq<int>>, h: nat, x: nat)
    requires x < |grid| && |grid[x]| == h
    requires forall y :: 0 <= y < h ==> GridLineAt(lines, start, grid, h, x, y)
    ensures ParseColumn(lines, ColumnsEnd(start, x, h), h) == Ok(grid[x])
  {
    var column := grid[x];
    var at := ColumnsEnd(start, x, h);
    forall y | 0 <= y < h
      ensures TileLineAt(lines, at, column, y)
    {
      assert GridLineAt(lines, start, grid, h, x, y);
    }
    ColumnReadBack(lines, at, column, h);
    assert column[..h] == column;
  }

  /** The first k written columns read back as the first k columns of the
      grid. */
  lemma {:induction false} ColumnsReadBack(lines: seq<string>, start: nat, grid: seq<seq<int>>, h: nat, k: nat)
    requires k <= |grid| && forall x :: 0 <= x < |grid| ==> |grid[x]| == h
    requires forall x, y :: 0 <= x < k && 0 <= y < h ==> GridLineAt(lines, start, grid, h, x, y)
    ensures ParseColumns(lines, start, k, h) == Ok(grid[..k])
    decreases k
  {
    if k == 0 {
      assert grid[..k] == [];
    } else {
      var x := k - 1;
      var prev, column := grid[..x], grid[x];
      ColumnsReadBack(lines, start, grid, h, x);
      ColumnsStep(lines, start, x, h, prev);
      ColumnOfGrid(lines, start, grid, h, x);
      assert ParseColumns(lines, start, k, h) == Ok(prev + [column]);
      TakeOneMore(grid, k);
    }
  }

  /** Tile y of column x is written on line x * h + y of the tile lines. */
  lemma {:induction false} TileLinesIndex(grid: seq<seq<int>>, h: nat, x: nat, y: nat)
    requires GridShaped(grid, |grid|, h) && x < |grid| && y < h
    ensures ColumnsEnd(0, x, h) + y < |TileLines(grid)|
    ensures TileLines(grid)[ColumnsEnd(0, x, h) + y] == KeyLine("tile", IntToString(grid[x][y]))
    decreases |grid|
  {
    var n := |grid| - 1;
    var init := grid[..n];
    var before, column := TileLines(init), ColumnLines(grid[n]);
    assert TileLines(grid) == before + column;
    if x < n {
      assert init[x] == grid[x];
      TileLinesIndex(init, h, x, y);
      assert (before + column)[ColumnsEnd(0, x, h) + y] == before[ColumnsEnd(0, x, h) + y];
    } else {
      TileLinesLength(init, h);
      ColumnsEndValue(0, n, h);
      assert ColumnsEnd(0, x, h) + y == |before| + y;
      assert (before + column)[|before| + y] == column[y];
    }
  }

  /** The columns end the same distance after wherever they start. */
  lemma {:induction false} ColumnsEndFrom(start: nat, x: nat, h: nat)
    ensures ColumnsEnd(start, x, h) == start + ColumnsEnd(0, x, h)
    decreases x
  {
    if x > 0 {
      ColumnsEndFrom(start, x - 1, h);
    }
  }

  /** A tile line of the middle part of header + middle + rest, with a
      header of four lines, is the same tile line four lines further on in
      the whole. */
  lemma TileLineAfterHeader(lines: seq<string>, header: seq<string>, middle: seq<string>, rest: seq<string>,
                            at: nat, column: seq<int>, y: nat, shifted: nat)
    requires |header| == 4 && lines == header + middle + rest && shifted == 4 + at
    requires TileLineAt(middle, at, column, y)
    ensures TileLineAt(lines, shifted, column, y)
  {
    assert (header + middle)[shifted + y] == middle[at + y];
  }

  /** Tile y of column x sits at its grid line in any lines that carry the
      tile lines right after four header lines. */
  lemma TileAfterHeader(lines: seq<string>, header: seq<string>, rest: seq<string>,
                        grid: seq<seq<int>>, h: nat, x: nat, y: nat)
    requires GridShaped(grid, |grid|, h) && x < |grid| && y < h && AllInt32(grid[x])
    requires |header| == 4 && lines == header + TileLines(grid) + rest
    ensures GridLineAt(lines, 4, grid, h, x, y)
  {
    TileLinesIndex(grid, h, x, y);
    assert TileLineAt(TileLines(grid), ColumnsEnd(0, x, h), grid[x], y);
    ColumnsEndFrom(4, x, h);
    TileLineAfterHeader(lines, header, TileLines(grid), rest, ColumnsEnd(0, x, h), grid[x], y, ColumnsEnd(4, x, h));
  }

  /** Line i after the four header lines of a written level is tile line i. */
  lemma LevelLinesTiles(dimensions: Vec2, side: int, wall: int, grid: seq<seq<int>>,
                        okuu: Vec2, goal: Vec2, zombies: seq<Vec2>, fmt: real -> string, h: nat)
    requires GridShaped(grid, |grid|, h) && forall x :: 0 <= x < |grid| ==> AllInt32(grid[x])
    ensures forall x, y :: 0 <= x < |grid| && 0 <= y < h ==>
      GridLineAt(LevelLines(dimensions, side, wall, grid, okuu, goal, zombies, fmt), 4, grid, h, x, y)
  {
    var lines := LevelLines(dimensions, side, wall, grid, okuu, goal, zombies, fmt);
    var header := [KeyLine("width", fmt(dimensions.x)), KeyLine("height", fmt(dimensions.y)),
      KeyLine("tileSideLength", IntToString(side)), KeyLine("wallHeight", IntToString(wall))];
    var rest := [PairLine("okuu", fmt(okuu.x), fmt(okuu.y)), PairLine("goal", fmt(goal.x), fmt(goal.y))] + ZombieLines(zombies, fmt);
    assert lines == header + TileLines(grid) + rest;
    forall x, y | 0 <= x < |grid| && 0 <= y < h
      ensures GridLineAt(lines, 4, grid, h, x, y)
    {
      TileAfterHeader(lines, header, rest, grid, h, x, y);
    }
  }

  predicate ZombieLineAt(lines: seq<string>, start: nat, zombies: seq<Vec2>, i: nat)
  {
    i < |zombies| && start + i < |lines| &&
    Printable(zombies[i].x) && Printable(zombies[i].y) &&
    lines[start + i] == PairLine("zombie", IntToString(zombies[i].x.Floor), IntToString(zombies[i].y.Floor))
  }

  lemma ZombieLineReads(lines: seq<string>, start: nat, zombies: seq<Vec2>, i: nat)
    requires ZombieLineAt(lines, start, zombies, i)
    ensures ZombieEntry(lines[start + i]) == Ok([zombies[i]])
  {
    var z := zombies[i];
    ZombieEntryOfLine(z.x.Floor, z.y.Floor);
    assert Vec2(z.x.Floor as real, z.y.Floor as real) == z;
  }

  /** The first k written fairy lines read back as the first k fairies. */
  lemma {:induction false} ZombiesReadBack(lines: seq<string>, start: nat, zombies: seq<Vec2>, k: nat)
    requires k <= |zombies| && start + k <= |lines|
    requires forall i :: 0 <= i < k ==> ZombieLineAt(lines, start, zombies, i)
    ensures ParseZombies(lines, start, start + k) == Ok(zombies[..k])
    decreases k
  {
    if k > 0 {
      var i := k - 1;
      var prev, z := zombies[..i], zombies[i];
      ZombiesReadBack(lines, start, zombies, i);
      ZombiesStep(lines, start, start + i, prev);
      ZombieLineReads(lines, start, zombies, i);
      assert ParseZombies(lines, start, start + k) == Ok(prev + [z]);
      TakeOneMore(zombies, k);
    }
  }

  /** A printable value is printed as the integer it is. */
  lemma Prints(fmt: real -> string, v: real)
    requires PrintsWholeAsInt(fmt) && Printable(v)
    ensures fmt(v) == IntToString(v.Floor) && IsInt32(v.Floor) && v.Floor as real == v
  {
  }

  /** The four header lines read back as the dimensions, the tile side and
      the wall height. */
  lemma HeaderReadBack(lines: seq<string>, dimensions: Vec2, side: int, wall: int, fmt: real -> string)
    requires PrintsWholeAsInt(fmt) && Printable(dimensions.x) && Printable(dimensions.y)
    requires IsInt32(side) && IsInt32(wall)
    requires 4 <= |lines| && lines[..4] == [KeyLine("width", fmt(dimensions.x)), KeyLine("height", fmt(dimensions.y)),
      KeyLine("tileSideLength", IntToString(side)), KeyLine("wallHeight", IntToString(wall))]
    ensures ParseHeader(lines) == Ok(Header(dimensions.x.Floor, dimensions.y.Floor, side, wall))
  {
    Prints(fmt, dimensions.x);
    Prints(fmt, dimensions.y);
    assert lines[0] == lines[..4][0] && lines[1] == lines[..4][1];
    assert lines[2] == lines[..4][2] && lines[3] == lines[..4][3];
    KeyedIntOfLine(lines, 0, "width", dimensions.x.Floor);
    KeyedIntOfLine(lines, 1, "height", dimensions.y.Floor);
    KeyedIntOfLine(lines, 2, "tileSideLength", side);
    KeyedIntOfLine(lines, 3, "wallHeight", wall);
  }

  /** Fairy i's written line, its coordinates printed as integers. */
  lemma ZombieLinesAt(zombies: seq<Vec2>, fmt: real -> string, i: nat)
    requires PrintsWholeAsInt(fmt) && i < |zombies| && Printable(zombies[i].x) && Printable(zombies[i].y)
    ensures ZombieLines(zombies, fmt)[i] == PairLine("zombie", IntToString(zombies[i].x.Floor), IntToString(zombies[i].y.Floor))
  {
    Prints(fmt, zombies[i].x);
    Prints(fmt, zombies[i].y);
  }

  /** Fairy i's line, in lines that end with the written fairy lines. */
  lemma ZombieLineWritten(lines: seq<string>, first: nat, zombies: seq<Vec2>, fmt: real -> string, i: nat)
    requires PrintsWholeAsInt(fmt) && i < |zombies| && Printable(zombies[i].x) && Printable(zombies[i].y)
    requires first <= |lines| && lines[first..] == ZombieLines(zombies, fmt)
    ensures ZombieLineAt(lines, first, zombies, i)
  {
    assert lines[first + i] == lines[first..][i];
    ZombieLinesAt(zombies, fmt, i);
  }

  /** Every fairy's line, in lines that end with the written fairy lines. */
  lemma ZombieLinesWritten(lines: seq<string>, first: nat, zombies: seq<Vec2>, fmt: real -> string)
    requires PrintsWholeAsInt(fmt)
    requires forall i :: 0 <= i < |zombies| ==> Printable(zombies[i].x) && Printable(zombies[i].y)
    requires first <= |lines| && lines[first..] == ZombieLines(zombies, fmt)
    ensures forall i :: 0 <= i < |zombies| ==> ZombieLineAt(lines, first, zombies, i)
  {
    forall i | 0 <= i < |zombies|
      ensures ZombieLineAt(lines, first, zombies, i)
    {
      ZombieLineWritten(lines, first, zombies, fmt, i);
    }
  }

  /** The written fairy lines, to the end of the file, read back as the
      fairies in order. */
  lemma ZombieLinesReadBack(lines: seq<string>, first: nat, zombies: seq<Vec2>, fmt: real -> string)
    requires PrintsWholeAsInt(fmt)
    requires forall i :: 0 <= i < |zombies| ==> Printable(zombies[i].x) && Printable(zombies[i].y)
    requires first <= |lines| && lines[first..] == ZombieLines(zombies, fmt)
    ensures ParseZombies(lines, first, |lines|) == Ok(zombies)
  {
    var n := |zombies|;
    assert forall i :: 0 <= i < n ==> ZombieLineAt(lines, first, zombies, i) by {
      ZombieLinesWritten(lines, first, zombies, fmt);
    }
    ZombiesReadBack(lines, first, zombies, n);
    assert first + n == |lines|;
    assert zombies[..n] == zombies;
  }

  /** The okuu, goal and zombie lines read back as Okuu's and the goal's
      tile and the fairies in order. */
  lemma ActorsReadBack(lines: seq<string>, next: nat, okuu: Vec2, goal: Vec2, zombies: seq<Vec2>, fmt: real -> string)
    requires PrintsWholeAsInt(fmt)
    requires Printable(okuu.x) && Printable(okuu.y) && Printable(goal.x) && Printable(goal.y)
    requires forall i :: 0 <= i < |zombies| ==> Printable(zombies[i].x) && Printable(zombies[i].y)
    requires next <= |lines| && lines[next..] ==
      [PairLine("okuu", fmt(okuu.x), fmt(okuu.y)), PairLine("goal", fmt(goal.x), fmt(goal.y))] + ZombieLines(zombies, fmt)
    ensures ParseActors(lines, next) == Ok(Actors(okuu, goal, zombies))
  {
    var rest := lines[next..];
    Prints(fmt, okuu.x);
    Prints(fmt, okuu.y);
    Prints(fmt, goal.x);
    Prints(fmt, goal.y);
    assert lines[next] == rest[0] && lines[next + 1] == rest[1];
    KeyedPairOfLine(lines, next, "okuu", okuu.x.Floor, okuu.y.Floor);
    KeyedPairOfLine(lines, next + 1, "goal", goal.x.Floor, goal.y.Floor);
    assert lines[next + 2..] == rest[2..];
    ZombieLinesReadBack(lines, next + 2, zombies, fmt);
  }

  /** A written level's first four lines read back as its header. */
  lemma LevelHeaderReadBack(dimensions: Vec2, side: int, wall: int, grid: seq<seq<int>>,
                            okuu: Vec2, goal: Vec2, zombies: seq<Vec2>, fmt: real -> string)
    requires PrintsWholeAsInt(fmt) && Printable(dimensions.x) && Printable(dimensions.y)
    requires IsInt32(side) && IsInt32(wall)
    ensures ParseHeader(LevelLines(dimensions, side, wall, grid, okuu, goal, zombies, fmt)) ==
      Ok(Header(dimensions.x.Floor, dimensions.y.Floor, side, wall))
  {
    var lines := LevelLines(dimensions, side, wall, grid, okuu, goal, zombies, fmt);
    assert lines[..4] == [KeyLine("width", fmt(dimensions.x)), KeyLine("height", fmt(dimensions.y)),
      KeyLine("tileSideLength", IntToString(side)), KeyLine("wallHeight", IntToString(wall))];
    HeaderReadBack(lines, dimensions, side, wall, fmt);
  }

  /** A written level's tile lines read back as its grid. */
  lemma LevelColumnsReadBack(dimensions: Vec2, side: int, wall: int, grid: seq<seq<int>>,
                             okuu: Vec2, goal: Vec2, zombies: seq<Vec2>, fmt: real -> string, w: nat, h: nat)
    requires GridShaped(grid, w, h) && forall x :: 0 <= x < |grid| ==> AllInt32(grid[x])
    ensures ParseColumns(LevelLines(dimensions, side, wall, grid, okuu, goal, zombies, fmt), 4, w, h) == Ok(grid)
  {
    var lines := LevelLines(dimensions, side, wall, grid, okuu, goal, zombies, fmt);
    LevelLinesTiles(dimensions, side, wall, grid, okuu, goal, zombies, fmt, h);
    ColumnsReadBack(lines, 4, grid, h, w);
    assert grid[..w] == grid;
  }

  /** A written level's lines after the tiles read back as its actors. */
  lemma LevelActorsReadBack(dimensions: Vec2, side: int, wall: int, grid: seq<seq<int>>,
                            okuu: Vec2, goal: Vec2, zombies: seq<Vec2>, fmt: real -> string, w: nat, h: nat)
    requires PrintsWholeAsInt(fmt) && GridShaped(grid, w, h)
    requires Printable(okuu.x) && Printable(okuu.y) && Printable(goal.x) && Printable(goal.y)
    requires forall i :: 0 <= i < |zombies| ==> Printable(zombies[i].x) && Printable(zombies[i].y)
    ensures ParseActors(LevelLines(dimensions, side, wall, grid, okuu, goal, zombies, fmt), ColumnsEnd(4, w, h)) ==
      Ok(Actors(okuu, goal, zombies))
  {
    var lines := LevelLines(dimensions, side, wall, grid, okuu, goal, zombies, fmt);
    var actors := [PairLine("okuu", fmt(okuu.x), fmt(okuu.y)), PairLine("goal", fmt(goal.x), fmt(goal.y))] + ZombieLines(zombies, fmt);
    var prefix := [KeyLine("width", fmt(dimensions.x)), KeyLine("height", fmt(dimensions.y)),
      KeyLine("tileSideLength", IntToString(side)), KeyLine("wallHeight", IntToString(wall))] + TileLines(grid);
    assert lines == prefix + actors;
    var next := ColumnsEnd(4, w, h);
    assert |prefix| == next by {
      TileLinesLength(grid, h);
      ColumnsEndValue(4, w, h);
    }
    assert lines[next..] == actors;
    ActorsReadBack(lines, next, okuu, goal, zombies, fmt);
  }

  /** What the editor writes, the game reads back: the dimensions, the tile
      side and wall height, every tile in place, Okuu's and the goal's tile
      and the fairies in order. */
  lemma LevelRoundTrip(dimensions: Vec2, side: int, wall: int, grid: seq<seq<int>>,
                       okuu: Vec2, goal: Vec2, zombies: seq<Vec2>, fmt: real -> string)
    requires PrintsWholeAsInt(fmt)
    requires Printable(dimensions.x) && Printable(dimensions.y) && dimensions.x >= 0.0 && dimensions.y >= 0.0
    requires GridShaped(grid, dimensions.x.Floor, dimensions.y.Floor)
    requires forall x :: 0 <= x < |grid| ==> AllInt32(grid[x])
    requires IsInt32(side) && IsInt32(wall)
    requires Printable(okuu.x) && Printable(okuu.y) && Printable(goal.x) && Printable(goal.y)
    requires forall i :: 0 <= i < |zombies| ==> Printable(zombies[i].x) && Printable(zombies[i].y)
    ensures ParseLevel(LevelLines(dimensions, side, wall, grid, okuu, goal, zombies, fmt)) ==
      Ok(LevelFile(dimensions.x.Floor, dimensions.y.Floor, side, wall, grid, okuu, goal, zombies))
  {
    var w, h := dimensions.x.Floor, dimensions.y.Floor;
    LevelHeaderReadBack(dimensions, side, wall, grid, okuu, goal, zombies, fmt);
    LevelColumnsReadBack(dimensions, side, wall, grid, okuu, goal, zombies, fmt, w, h);
    LevelActorsReadBack(dimensions, side, wall, grid, okuu, goal, zombies, fmt, w, h);
  }
}
