/** The level editor's map (LevelMap, with its exportToFile): a grid of
    tile values edited in place, its texture, the positions of Okuu, the
    goal and the zombie fairies, the stage built from it and the level file
    written from it. The positions are used by exportToFile but not
    declared with the rest of LevelMap; here they are plain fields of the
    class. */
module LevelMaps {
  import opened Common
  import opened Text
  import opened StageImporter
  import opened LevelExport
  import opened MapTextures
  import Stages

  /** The tile side and wall height of every level the editor makes. */
  const TileSideLength := 20
  const WallHeight := 50

  /** The first n tiles of column x, y ascending. */
  function Column(tiles: array2<int>, x: int, n: nat): (c: seq<int>)
    requires 0 <= x < tiles.Length0 && n <= tiles.Length1
    reads tiles
    ensures |c| == n && forall y :: 0 <= y < n ==> c[y] == tiles[x, y]
  {
    if n == 0 then [] else Column(tiles, x, n - 1) + [tiles[x, n - 1]]
  }

  /** The first k columns of the grid, x ascending. */
  function Columns(tiles: array2<int>, k: nat): (g: seq<seq<int>>)
    requires k <= tiles.Length0
    reads tiles
    ensures |g| == k && forall x :: 0 <= x < k ==> g[x] == Column(tiles, x, tiles.Length1)
  {
    if k == 0 then [] else Columns(tiles, k - 1) + [Column(tiles, k - 1, tiles.Length1)]
  }

  /** The tile array as columns of tiles: tile (x, y) is Grid(tiles)[x][y]. */
  function Grid(tiles: array2<int>): seq<seq<int>>
    reads tiles
  {
    Columns(tiles, tiles.Length0)
  }

  lemma GridShape(tiles: array2<int>)
    ensures GridShaped(Grid(tiles), tiles.Length0, tiles.Length1)
    ensures forall x, y :: 0 <= x < tiles.Length0 && 0 <= y < tiles.Length1 ==> Grid(tiles)[x][y] == tiles[x, y]
  {
  }

  /** Every tile fits a C# int. */
  predicate TilesInt32(tiles: array2<int>)
    reads tiles
  {
    forall x, y :: 0 <= x < tiles.Length0 && 0 <= y < tiles.Length1 ==> IsInt32(tiles[x, y])
  }

  class LevelMap {
    const dimensions: Vec2
    const tiles: array2<int>
    const texture: MapTexture
    var okuuPosition: Vec2
    var goalPosition: Vec2
    var zombieFairies: seq<Vec2>

    /** The dimensions are the tile array's extents, and the texture is
        made for that array. */
    predicate Valid()
    {
      dimensions == Vec2(tiles.Length0 as real, tiles.Length1 as real) &&
      texture.Width == tiles.Length0 && texture.Height == tiles.Length1 && texture.Valid()
    }

    /** LevelMap(width, height): all tiles 0 except tile (0, 1), which is 1.
        The caller must leave room for tile (0, 1); NewLevelMap models the
        exceptions otherwise. */
    constructor (width: int, height: int)
      requires 1 <= width && 2 <= height
      ensures Valid() && fresh(tiles) && fresh(texture) && fresh(texture.data)
      ensures tiles.Length0 == width && tiles.Length1 == height
      ensures forall x, y :: 0 <= x < width && 0 <= y < height ==>
        tiles[x, y] == if x == 0 && y == 1 then 1 else 0
      ensures okuuPosition == Vec2(0.0, 0.0) && goalPosition == Vec2(0.0, 0.0) && zombieFairies == []
    {
      var t := new int[width, height]((_, _) => 0);
      var tex := new MapTexture(t);
      t[0, 1] := 1;
      tiles := t;
      dimensions := Vec2(width as real, height as real);
      texture := tex;
      okuuPosition := Vec2(0.0, 0.0);
      goalPosition := Vec2(0.0, 0.0);
      zombieFairies := [];
    }

    /** setRandomTile: every tile is redrawn as rand.Next(2); roll(x, y)
        is the draw made for tile (x, y). */
    method SetRandomTile(roll: (int, int) -> bool)
      requires Valid()
      modifies tiles
      ensures forall x, y :: 0 <= x < tiles.Length0 && 0 <= y < tiles.Length1 ==>
        tiles[x, y] == (if roll(x, y) then 1 else 0)
      ensures forall x, y :: 0 <= x < tiles.Length0 && 0 <= y < tiles.Length1 ==>
        tiles[x, y] == 0 || tiles[x, y] == 1
    {
      var i := 0;
      while (i as real) < dimensions.x
        invariant 0 <= i <= tiles.Length0
        invariant forall x, y :: 0 <= x < i && 0 <= y < tiles.Length1 ==> tiles[x, y] == (if roll(x, y) then 1 else 0)
        decreases tiles.Length0 - i
      {
        var j := 0;
        while (j as real) < dimensions.y
          invariant 0 <= j <= tiles.Length1
          invariant forall x, y :: 0 <= x < i && 0 <= y < tiles.Length1 ==> tiles[x, y] == (if roll(x, y) then 1 else 0)
          invariant forall y :: 0 <= y < j ==> tiles[i, y] == (if roll(i, y) then 1 else 0)
          decreases tiles.Length1 - j
        {
          tiles[i, j] := if roll(i, j) then 1 else 0;
          j := j + 1;
        }
        i := i + 1;
      }
    }

    /** setTile: a tile inside the map takes the new value; a position
        outside it changes nothing; no other tile changes. */
    method SetTile(x: int, y: int, newVal: int)
      requires Valid()
      modifies tiles
      ensures 0 <= x < tiles.Length0 && 0 <= y < tiles.Length1 ==> tiles[x, y] == newVal
      ensures forall i, j :: 0 <= i < tiles.Length0 && 0 <= j < tiles.Length1 && (i != x || j != y) ==>
        tiles[i, j] == old(tiles[i, j])
      ensures !(0 <= x < tiles.Length0 && 0 <= y < tiles.Length1) ==> unchanged(tiles)
    {
      if x >= 0 && (x as real) < dimensions.x && y >= 0 && (y as real) < dimensions.y {
        tiles[x, y] := newVal;
      }
    }

    /** constructStage: the game's stage for this map, with the editor's
        tile side and wall height. */
    method ConstructStage() returns (s: Stages.Stage)
      ensures fresh(s)
      ensures s.tiles == tiles && s.width == tiles.Length0 && s.height == tiles.Length1
      ensures s.stageElements == Stages.StageElements(tiles, TileSideLength, WallHeight)
    {
      s := new Stages.Stage(tiles, TileSideLength, WallHeight);
    }

    /** exportToFile: the lines of the level file, formatting floats with
        fmt: the four header lines, one `tile` line per tile, the okuu and
        goal lines and one `zombie` line per fairy. ExportRoundTrip shows
        that the game's reader gets the map back from them. */
    method ExportToFile(fmt: real -> string) returns (lines: seq<string>)
      requires Valid()
      ensures lines == LevelLines(dimensions, TileSideLength, WallHeight, Grid(tiles),
                                  okuuPosition, goalPosition, zombieFairies, fmt)
      ensures |lines| == 6 + tiles.Length0 * tiles.Length1 + |zombieFairies|
    {
      var header := [KeyLine("width", fmt(dimensions.x)), KeyLine("height", fmt(dimensions.y)),
                     KeyLine("tileSideLength", IntToString(TileSideLength)), KeyLine("wallHeight", IntToString(WallHeight))];
      var tileLines := WriteTiles(tiles, dimensions);
      var okuuLine := PairLine("okuu", fmt(okuuPosition.x), fmt(okuuPosition.y));
      var goalLine := PairLine("goal", fmt(goalPosition.x), fmt(goalPosition.y));
      var zombieLines := WriteZombies(zombieFairies, fmt);
      lines := header + tileLines + [okuuLine, goalLine] + zombieLines;
      GridShape(tiles);
      LevelLinesCount(dimensions, TileSideLength, WallHeight, Grid(tiles), okuuPosition, goalPosition, zombieFairies, fmt,
                      tiles.Length0, tiles.Length1);
    }
  }

  /** What exportToFile writes for a map, the game's reader turns back into
      that map: its size, tile side 20, wall height 50, every tile, Okuu's
      and the goal's tile and the fairies in order. This needs a float
      formatting that prints whole numbers as integers, whole dimensions
      and positions, and tiles that fit a C# int. */
  lemma ExportRoundTrip(tiles: array2<int>, dimensions: Vec2, okuu: Vec2, goal: Vec2, zombies: seq<Vec2>, fmt: real -> string)
    requires dimensions == Vec2(tiles.Length0 as real, tiles.Length1 as real)
    requires PrintsWholeAsInt(fmt) && Printable(dimensions.x) && Printable(dimensions.y) && TilesInt32(tiles)
    requires Printable(okuu.x) && Printable(okuu.y) && Printable(goal.x) && Printable(goal.y)
    requires forall i :: 0 <= i < |zombies| ==> Printable(zombies[i].x) && Printable(zombies[i].y)
    ensures ParseLevel(LevelLines(dimensions, TileSideLength, WallHeight, Grid(tiles), okuu, goal, zombies, fmt)) ==
      Ok(LevelFile(tiles.Length0, tiles.Length1, TileSideLength, WallHeight, Grid(tiles), okuu, goal, zombies))
  {
    var grid := Grid(tiles);
    GridShape(tiles);
    forall x | 0 <= x < |grid|
      ensures AllInt32(grid[x])
    {
      forall y | 0 <= y < |grid[x]|
        ensures IsInt32(grid[x][y])
      {
        assert grid[x][y] == tiles[x, y];
      }
    }
    LevelRoundTrip(dimensions, TileSideLength, WallHeight, grid, okuu, goal, zombies, fmt);
  }

  /** The tile loop of exportToFile: one `tile` line per tile, x outer and
      y inner. */
  method WriteTiles(tiles: array2<int>, dimensions: Vec2) returns (lines: seq<string>)
    requires dimensions == Vec2(tiles.Length0 as real, tiles.Length1 as real)
    ensures lines == TileLines(Grid(tiles))
  {
    lines := [];
    var x := 0;
    while (x as real) < dimensions.x
      invariant 0 <= x <= tiles.Length0
      invariant lines == TileLines(Columns(tiles, x))
      decreases tiles.Length0 - x
    {
      var columnLines := WriteColumn(tiles, dimensions, x);
      TileLinesSnoc(Columns(tiles, x), Column(tiles, x, tiles.Length1));
      lines := lines + columnLines;
      x := x + 1;
    }
  }

  /** The inner loop of the tile loop: the lines of column x, y ascending. */
  method WriteColumn(tiles: array2<int>, dimensions: Vec2, x: int) returns (lines: seq<string>)
    requires dimensions == Vec2(tiles.Length0 as real, tiles.Length1 as real) && 0 <= x < tiles.Length0
    ensures lines == ColumnLines(Column(tiles, x, tiles.Length1))
  {
    lines := [];
    var y := 0;
    ghost var column := [];
    while (y as real) < dimensions.y
      invariant 0 <= y <= tiles.Length1
      invariant column == Column(tiles, x, y)
      invariant lines == ColumnLines(column)
      decreases tiles.Length1 - y
    {
      var tile := tiles[x, y];
      ColumnLinesSnoc(column, tile);
      lines := lines + [KeyLine("tile", IntToString(tile))];
      column := column + [tile];
      y := y + 1;
    }
  }

  /** The fairy loop of exportToFile: one `zombie` line per fairy, in list
      order. */
  method WriteZombies(zombies: seq<Vec2>, fmt: real -> string) returns (lines: seq<string>)
    ensures lines == ZombieLines(zombies, fmt)
  {
    lines := [];
    for i := 0 to |zombies|
      invariant lines == ZombieLines(zombies[..i], fmt)
    {
      var loc := zombies[i];
      ZombieLinesSnoc(zombies[..i], loc, fmt);
      assert zombies[..i + 1] == zombies[..i] + [loc];
      lines := lines + [PairLine("zombie", fmt(loc.x), fmt(loc.y))];
    }
    assert zombies[..|zombies|] == zombies;
  }

  /** new LevelMap(width, height), with its exceptions: a negative size
      overflows the array allocation, and a map without a tile (0, 1)
      makes the constructor's write to it fail. */
  method NewLevelMap(width: int, height: int) returns (r: Result<LevelMap>)
    ensures width < 0 || height < 0 ==> r == Err(Overflow)
    ensures 0 <= width && 0 <= height && (width < 1 || height < 2) ==> r == Err(IndexOutOfRange)
    ensures r.Ok? <==> 1 <= width && 2 <= height
    ensures r.Ok? ==>
      fresh(r.value) && r.value.Valid() && r.value.tiles.Length0 == width && r.value.tiles.Length1 == height
    ensures r.Ok? ==> forall x, y :: 0 <= x < width && 0 <= y < height ==>
      r.value.tiles[x, y] == if x == 0 && y == 1 then 1 else 0
    ensures r.Ok? ==>
      r.value.okuuPosition == Vec2(0.0, 0.0) && r.value.goalPosition == Vec2(0.0, 0.0) && r.value.zombieFairies == []
  {
    if width < 0 || height < 0 {
      return Err(Overflow);
    }
    if width < 1 || height < 2 {
      return Err(IndexOutOfRange);
    }
    var m := new LevelMap(width, height);
    r := Ok(m);
  }
}
