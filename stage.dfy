/** Stage: the level geometry built from a grid of material IDs. Every
    non-empty tile becomes a floor quad, every side of a non-empty tile that
    borders an empty or out-of-grid tile becomes a wall quad, and the quads
    are grouped by material into vertex, normal, texture-coordinate, tangent
    and face lists, one scene node per material. A tile value of 0 is empty;
    positive values are material IDs. */
module Stages {
  import opened Common

  // ------------------------------------------------------------- the grid

  /** A neighbour that is out of the grid or holds 0: a floor next to it
      gets a wall on that side. */
  predicate IsEmpty(tiles: array2<int>, x: int, y: int)
    reads tiles
  {
    !(0 <= x < tiles.Length0 && 0 <= y < tiles.Length1) || tiles[x, y] == 0
  }

  /** The triangle list of one quad: two triangles over its four corners. */
  const Indices: seq<int> := [0, 1, 2, 1, 3, 2]

  /** The four corners of a quad with, per corner, a normal, a texture
      coordinate and a tangent. */
  datatype Quad = Quad(Vertices: seq<Vec3>, Normals: seq<Vec3>, TexCoords: seq<Vec2>, Tangents: seq<Vec4>)
  {
    predicate Valid()
    {
      |Vertices| == 4 && |Normals| == 4 && |TexCoords| == 4 && |Tangents| == 4
    }
  }

  /** The normal of the triangle (a, b, c), scaled by twice its area. */
  function FaceNormal(a: Vec3, b: Vec3, c: Vec3): Vec3
  {
    Cross(b.Minus(a), c.Minus(a))
  }

  // ------------------------------------------------------------- floors

  /** FloorTile: the floor quad of tile (X, Y). */
  datatype FloorTile = FloorTile(X: int, Y: int, MatID: int, TileSideLength: int)
  {
    /** Lower left, lower right, upper left, upper right corner of the tile. */
    function Vertices(): seq<Vec3>
    {
      var l := TileSideLength as real;
      [Vec3(X as real * l, Y as real * l, 0.0), Vec3((X + 1) as real * l, Y as real * l, 0.0),
       Vec3(X as real * l, (Y + 1) as real * l, 0.0), Vec3((X + 1) as real * l, (Y + 1) as real * l, 0.0)]
    }

    function TexCoords(): seq<Vec2>
    {
      var l := TileSideLength as real;
      [Vec2(0.0, 0.0), Vec2(l, 0.0), Vec2(0.0, l), Vec2(l, l)]
    }

    function ToQuad(): (q: Quad)
      ensures q.Valid()
    {
      var t := Vec4(1.0, 0.0, 0.0, 1.0);
      Quad(Vertices(), [Up, Up, Up, Up], TexCoords(), [t, t, t, t])
    }
  }

  /** The corners of the square of side l at (x0, y0), at height 0. */
  function Square(x0: real, y0: real, l: real): seq<Vec3>
  {
    [Vec3(x0, y0, 0.0), Vec3(x0 + l, y0, 0.0), Vec3(x0, y0 + l, 0.0), Vec3(x0 + l, y0 + l, 0.0)]
  }

  /** Each floor quad lies at height 0 on the corners of its tile's
      square, lower left, lower right, upper left, upper right. */
  lemma FloorCorners(f: FloorTile)
    ensures f.ToQuad().Vertices ==
      Square(f.X as real * f.TileSideLength as real, f.Y as real * f.TileSideLength as real, f.TileSideLength as real)
  {
    var l := f.TileSideLength as real;
    var x0, y0 := f.X as real * l, f.Y as real * l;
    assert (f.X + 1) as real * l == x0 + l;
    assert (f.Y + 1) as real * l == y0 + l;
    var v := f.ToQuad().Vertices;
    var w := Square(x0, y0, l);
    assert v[0] == w[0] && v[1] == w[1] && v[2] == w[2] && v[3] == w[3];
    assert |v| == |w| == 4;
    assert v == w;
    assert x0 == f.X as real * f.TileSideLength as real;
    assert y0 == f.Y as real * f.TileSideLength as real;
    assert l == f.TileSideLength as real;
    assert w == Square(x0, y0, l);
    assert Square(x0, y0, l) == Square(f.X as real * f.TileSideLength as real, y0, l);
    assert Square(x0, y0, l) == Square(x0, f.Y as real * f.TileSideLength as real, l);
  }

  /** Each floor quad faces up: its first triangle winds counter-clockwise
      seen from above, with twice its area equal to the tile's area. */
  lemma FloorFacesUp(f: FloorTile)
    ensures var v := f.ToQuad().Vertices;
      FaceNormal(v[0], v[1], v[2]) == Up.Scale(f.TileSideLength as real * f.TileSideLength as real)
  {
    FloorCorners(f);
    var l := f.TileSideLength as real;
    var v := f.ToQuad().Vertices;
    assert v[1].Minus(v[0]) == Vec3(l, 0.0, 0.0);
    assert v[2].Minus(v[0]) == Vec3(0.0, l, 0.0);
  }

  // ------------------------------------------------------------- walls

  /** WallTile: the wall between the floor tile (FloorX, FloorY) and its
      empty neighbour (EmptyX, EmptyY). */
  datatype WallTile = WallTile(EmptyX: int, EmptyY: int, FloorX: int, FloorY: int,
                               MatID: int, TileSideLength: int, WallHeight: int)
  {
    /** The two tiles share a side. */
    predicate Adjacent()
    {
      (FloorX == EmptyX && (FloorY - EmptyY == 1 || EmptyY - FloorY == 1)) ||
      (FloorY == EmptyY && (FloorX - EmptyX == 1 || EmptyX - FloorX == 1))
    }

    /** Points from the empty tile to the floor tile. */
    function Normal(): Vec3
    {
      Vec3((FloorX - EmptyX) as real, (FloorY - EmptyY) as real, 0.0)
    }

    /** UP x normal. The source then normalises it; for adjacent tiles it
        is a unit vector (WallFrame), so the normalisation is the
        identity on every wall the stage builds. */
    function Right(): Vec3
    {
      Cross(Up, Normal())
    }

    /** The lower-left corner of the wall as seen from the floor tile: the
        floor tile's upper-left corner for a north wall, lower-right for a
        south wall, upper-right for an east wall, lower-left for a west
        wall. */
    function LowerLeftCorner(): Vec3
    {
      var l := TileSideLength as real;
      if EmptyY > FloorY then Vec3(FloorX as real * l, (FloorY + 1) as real * l, 0.0)
      else if EmptyY < FloorY then Vec3((FloorX + 1) as real * l, FloorY as real * l, 0.0)
      else if EmptyX > FloorX then Vec3((FloorX + 1) as real * l, (FloorY + 1) as real * l, 0.0)
      else Vec3(FloorX as real * l, FloorY as real * l, 0.0)
    }

    function Vertices(): seq<Vec3>
    {
      var v0 := LowerLeftCorner();
      var v1 := v0.Plus(Right().Scale(TileSideLength as real));
      var lift := Up.Scale(WallHeight as real);
      [v0, v1, v0.Plus(lift), v1.Plus(lift)]
    }

    function TexCoords(): seq<Vec2>
    {
      var l, h := TileSideLength as real, WallHeight as real;
      [Vec2(0.0, h), Vec2(l, h), Vec2(0.0, 0.0), Vec2(l, 0.0)]
    }

    function ToQuad(): (q: Quad)
      ensures q.Valid()
    {
      var n, r := Normal(), Right();
      var hand := Vec4(r.x, r.y, r.z, 1.0);
      Quad(Vertices(), [n, n, n, n], TexCoords(), [hand, hand, hand, hand])
    }

    /** The floor tile this wall stands on. */
    function Floor(): FloorTile
    {
      FloorTile(FloorX, FloorY, MatID, TileSideLength)
    }
  }

  /** Per side, the normal and right vectors of a wall between adjacent
      tiles as literal axis vectors. */
  lemma WallAxes(w: WallTile)
    requires w.Adjacent()
    ensures w.EmptyY > w.FloorY ==> w.Normal() == Vec3(0.0, -1.0, 0.0) && w.Right() == Vec3(1.0, 0.0, 0.0)
    ensures w.EmptyY < w.FloorY ==> w.Normal() == Vec3(0.0, 1.0, 0.0) && w.Right() == Vec3(-1.0, 0.0, 0.0)
    ensures w.EmptyY == w.FloorY && w.EmptyX > w.FloorX ==>
      w.Normal() == Vec3(-1.0, 0.0, 0.0) && w.Right() == Vec3(0.0, -1.0, 0.0)
    ensures w.EmptyY == w.FloorY && w.EmptyX < w.FloorX ==>
      w.Normal() == Vec3(1.0, 0.0, 0.0) && w.Right() == Vec3(0.0, 1.0, 0.0)
    ensures w.EmptyY != w.FloorY ==> w.EmptyX == w.FloorX
    ensures w.EmptyY == w.FloorY ==> w.EmptyX != w.FloorX
  {
    var dx, dy := w.FloorX - w.EmptyX, w.FloorY - w.EmptyY;
    assert w.Normal() == Vec3(dx as real, dy as real, 0.0);
    assert w.Right() == Vec3(0.0 * 0.0 - 1.0 * (dy as real), 1.0 * (dx as real) - 0.0 * 0.0, 0.0 * (dy as real) - 0.0 * (dx as real));
  }

  /** The four horizontal unit vectors along the grid axes. */
  const AxisDirections: set<Vec3> :=
    {Vec3(1.0, 0.0, 0.0), Vec3(-1.0, 0.0, 0.0), Vec3(0.0, 1.0, 0.0), Vec3(0.0, -1.0, 0.0)}

  /** The normal and right vectors are horizontal axis directions, the
      right vector being the normal turned a quarter turn counter-clockwise
      about UP: perpendicular unit vectors, so normalising does nothing. */
  predicate WallFrame(w: WallTile)
  {
    w.Normal() in AxisDirections && w.Right() in AxisDirections &&
    w.Right() == Vec3(-w.Normal().y, w.Normal().x, 0.0)
  }

  /** Both bottom corners are corners of the floor quad on the edge the
      floor shares with the empty tile, and the top corners are WallHeight
      above them. */
  predicate WallOnSharedEdge(w: WallTile)
  {
    var v := w.Vertices();
    v[0] in w.Floor().ToQuad().Vertices && v[1] in w.Floor().ToQuad().Vertices &&
    (w.EmptyX == w.FloorX ==>
      var edge := (if w.EmptyY > w.FloorY then w.EmptyY else w.FloorY) as real * w.TileSideLength as real;
      v[0].y == edge && v[1].y == edge) &&
    (w.EmptyY == w.FloorY ==>
      var edge := (if w.EmptyX > w.FloorX then w.EmptyX else w.FloorX) as real * w.TileSideLength as real;
      v[0].x == edge && v[1].x == edge) &&
    v[2] == v[0].Plus(Up.Scale(w.WallHeight as real)) && v[3] == v[1].Plus(Up.Scale(w.WallHeight as real))
  }

  /** The first triangle faces the floor tile: its winding normal is the
      wall normal, scaled by the wall's area. */
  predicate WallFacesFloor(w: WallTile)
  {
    var v := w.Vertices();
    FaceNormal(v[0], v[1], v[2]) == w.Normal().Scale(w.TileSideLength as real * w.WallHeight as real)
  }

  /** The winding normal of a triangle spanned from p by a horizontal
      vector r scaled by l and by UP scaled by h. */
  lemma UprightFaceNormal(p: Vec3, r: Vec3, l: real, h: real)
    requires r.z == 0.0
    ensures FaceNormal(p, p.Plus(r.Scale(l)), p.Plus(Up.Scale(h))) == Vec3(r.y * (l * h), -(r.x * (l * h)), 0.0)
  {
    var d1, d2 := r.Scale(l), Up.Scale(h);
    assert p.Plus(d1).Minus(p) == d1 == Vec3(l * r.x, l * r.y, 0.0);
    assert p.Plus(d2).Minus(p) == d2 == Vec3(0.0, 0.0, h);
    assert Cross(d1, d2) == Vec3((l * r.y) * h, -((l * r.x) * h), 0.0);
  }

  /** Every wall's first triangle faces the floor tile: the right vector is
      the normal turned a quarter turn about UP, so right x UP is the normal. */
  lemma WallFacing(w: WallTile)
    ensures WallFacesFloor(w)
  {
    var p, n, r := w.LowerLeftCorner(), w.Normal(), w.Right();
    var l, h := w.TileSideLength as real, w.WallHeight as real;
    assert r == Vec3(-n.y, n.x, 0.0);
    UprightFaceNormal(p, r, l, h);
    var v := w.Vertices();
    assert v[0] == p && v[1] == p.Plus(r.Scale(l)) && v[2] == p.Plus(Up.Scale(h));
    assert n.z == 0.0;
  }

  /** The normal and right vector of a wall between adjacent tiles are
      perpendicular horizontal axis directions. */
  lemma WallFrameHolds(w: WallTile)
    requires w.Adjacent()
    ensures WallFrame(w)
  {
    WallAxes(w);
  }

  /** A north wall starts at the floor's upper-left corner and runs east. */
  lemma NorthWallEdge(w: WallTile)
    requires w.Adjacent() && w.EmptyY > w.FloorY
    ensures WallOnSharedEdge(w)
  {
    WallAxes(w);
    var l := w.TileSideLength as real;
    var x, y := w.FloorX as real, w.FloorY as real;
    var x1, y1 := (w.FloorX + 1) as real * l, (w.FloorY + 1) as real * l;
    assert x1 == x * l + l && y1 == y * l + l;
    assert w.Right().Scale(l) == Vec3(l, 0.0, 0.0);
    assert w.LowerLeftCorner() == Vec3(x * l, y1, 0.0);
    var v := w.Vertices();
    var fv := w.Floor().ToQuad().Vertices;
    assert v[0] == Vec3(x * l, y1, 0.0) == fv[2];
    assert v[1] == Vec3(x1, y1, 0.0) == fv[3];
  }

  /** A south wall starts at the floor's lower-right corner and runs west. */
  lemma SouthWallEdge(w: WallTile)
    requires w.Adjacent() && w.EmptyY < w.FloorY
    ensures WallOnSharedEdge(w)
  {
    WallAxes(w);
    var l := w.TileSideLength as real;
    var x, y := w.FloorX as real, w.FloorY as real;
    var x1, y1 := (w.FloorX + 1) as real * l, (w.FloorY + 1) as real * l;
    assert x1 == x * l + l && y1 == y * l + l;
    assert w.Right().Scale(l) == Vec3(-l, 0.0, 0.0);
    assert w.LowerLeftCorner() == Vec3(x1, y * l, 0.0);
    var v := w.Vertices();
    var fv := w.Floor().ToQuad().Vertices;
    assert v[0] == Vec3(x1, y * l, 0.0) == fv[1];
    assert v[1] == Vec3(x * l, y * l, 0.0) == fv[0];
  }

  /** An east wall starts at the floor's upper-right corner and runs south. */
  lemma EastWallEdge(w: WallTile)
    requires w.Adjacent() && w.EmptyY == w.FloorY && w.EmptyX > w.FloorX
    ensures WallOnSharedEdge(w)
  {
    WallAxes(w);
    var l := w.TileSideLength as real;
    var x, y := w.FloorX as real, w.FloorY as real;
    var x1, y1 := (w.FloorX + 1) as real * l, (w.FloorY + 1) as real * l;
    assert x1 == x * l + l && y1 == y * l + l;
    assert w.Right().Scale(l) == Vec3(0.0, -l, 0.0);
    assert w.LowerLeftCorner() == Vec3(x1, y1, 0.0);
    var v := w.Vertices();
    var fv := w.Floor().ToQuad().Vertices;
    assert v[0] == Vec3(x1, y1, 0.0) == fv[3];
    assert v[1] == Vec3(x1, y * l, 0.0) == fv[1];
  }

  /** A west wall starts at the floor's lower-left corner and runs north. */
  lemma WestWallEdge(w: WallTile)
    requires w.Adjacent() && w.EmptyY == w.FloorY && w.EmptyX < w.FloorX
    ensures WallOnSharedEdge(w)
  {
    WallAxes(w);
    var l := w.TileSideLength as real;
    var x, y := w.FloorX as real, w.FloorY as real;
    var x1, y1 := (w.FloorX + 1) as real * l, (w.FloorY + 1) as real * l;
    assert x1 == x * l + l && y1 == y * l + l;
    assert w.Right().Scale(l) == Vec3(0.0, l, 0.0);
    assert w.LowerLeftCorner() == Vec3(x * l, y * l, 0.0);
    var v := w.Vertices();
    var fv := w.Floor().ToQuad().Vertices;
    assert v[0] == Vec3(x * l, y * l, 0.0) == fv[0];
    assert v[1] == Vec3(x * l, y1, 0.0) == fv[2];
  }

  /** Every wall between adjacent tiles stands on the shared edge, faces
      the floor tile, and has a unit normal and right vector. */
  lemma WallGeometry(w: WallTile)
    requires w.Adjacent()
    ensures WallFrame(w) && WallOnSharedEdge(w) && WallFacesFloor(w)
  {
    WallFrameHolds(w);
    WallFacing(w);
    if w.EmptyY > w.FloorY {
      NorthWallEdge(w);
    } else if w.EmptyY < w.FloorY {
      SouthWallEdge(w);
    } else if w.EmptyX > w.FloorX {
      EastWallEdge(w);
    } else {
      WestWallEdge(w);
    }
  }

  // ------------------------------------------------------ scanning the grid

  /** The floor of tile (x, y), if the tile is non-empty. */
  function CellFloor(tiles: array2<int>, tileSideLength: int, x: int, y: int): seq<FloorTile>
    reads tiles
    requires 0 <= x < tiles.Length0 && 0 <= y < tiles.Length1
  {
    if tiles[x, y] > 0 then [FloorTile(x, y, tiles[x, y], tileSideLength)] else []
  }

  /** A wall from floor (fx, fy) towards (ex, ey), if (ex, ey) is empty. */
  function WallTowards(tiles: array2<int>, ex: int, ey: int, fx: int, fy: int,
                       matID: int, tileSideLength: int, wallHeight: int): seq<WallTile>
    reads tiles
  {
    if IsEmpty(tiles, ex, ey) then [WallTile(ex, ey, fx, fy, matID, tileSideLength, wallHeight)] else []
  }

  /** The walls of tile (x, y): north (y + 1), south, east (x + 1), west. */
  function CellWalls(tiles: array2<int>, tileSideLength: int, wallHeight: int, x: int, y: int): seq<WallTile>
    reads tiles
    requires 0 <= x < tiles.Length0 && 0 <= y < tiles.Length1
  {
    var m := tiles[x, y];
    if m > 0 then
      WallTowards(tiles, x, y + 1, x, y, m, tileSideLength, wallHeight) +
      WallTowards(tiles, x, y - 1, x, y, m, tileSideLength, wallHeight) +
      WallTowards(tiles, x + 1, y, x, y, m, tileSideLength, wallHeight) +
      WallTowards(tiles, x - 1, y, x, y, m, tileSideLength, wallHeight)
    else []
  }

  /** (x, y) is a position of the x-major scan: a tile position, the end of
      a column, or the end of the grid. */
  predicate ScanPoint(tiles: array2<int>, x: int, y: int)
  {
    (0 <= x < tiles.Length0 && 0 <= y <= tiles.Length1) || (x == tiles.Length0 && y == 0)
  }

  /** The floors of the tiles before (x, y) in scan order. */
  function FloorsBefore(tiles: array2<int>, tileSideLength: int, x: int, y: int): seq<FloorTile>
    reads tiles
    requires ScanPoint(tiles, x, y)
    decreases x, y
  {
    if y > 0 then FloorsBefore(tiles, tileSideLength, x, y - 1) + CellFloor(tiles, tileSideLength, x, y - 1)
    else if x > 0 then FloorsBefore(tiles, tileSideLength, x - 1, tiles.Length1)
    else []
  }

  /** The walls of the tiles before (x, y) in scan order. */
  function WallsBefore(tiles: array2<int>, tileSideLength: int, wallHeight: int, x: int, y: int): seq<WallTile>
    reads tiles
    requires ScanPoint(tiles, x, y)
    decreases x, y
  {
    if y > 0 then WallsBefore(tiles, tileSideLength, wallHeight, x, y - 1) + CellWalls(tiles, tileSideLength, wallHeight, x, y - 1)
    else if x > 0 then WallsBefore(tiles, tileSideLength, wallHeight, x - 1, tiles.Length1)
    else []
  }

  /** All floors of the grid, in scan order. */
  function StageFloors(tiles: array2<int>, tileSideLength: int): seq<FloorTile>
    reads tiles
  {
    FloorsBefore(tiles, tileSideLength, tiles.Length0, 0)
  }

  /** All walls of the grid, in scan order. */
  function StageWalls(tiles: array2<int>, tileSideLength: int, wallHeight: int): seq<WallTile>
    reads tiles
  {
    WallsBefore(tiles, tileSideLength, wallHeight, tiles.Length0, 0)
  }

  /** f is the floor of a non-empty tile, carrying the tile's value. */
  predicate IsFloorOf(tiles: array2<int>, tileSideLength: int, f: FloorTile)
    reads tiles
  {
    0 <= f.X < tiles.Length0 && 0 <= f.Y < tiles.Length1 && tiles[f.X, f.Y] > 0 &&
    f.MatID == tiles[f.X, f.Y] && f.TileSideLength == tileSideLength
  }

  /** w separates a non-empty tile from an adjacent empty or out-of-grid
      tile, and carries the floor tile's material. */
  predicate IsWallOf(tiles: array2<int>, tileSideLength: int, wallHeight: int, w: WallTile)
    reads tiles
  {
    0 <= w.FloorX < tiles.Length0 && 0 <= w.FloorY < tiles.Length1 && tiles[w.FloorX, w.FloorY] > 0 &&
    w.Adjacent() && IsEmpty(tiles, w.EmptyX, w.EmptyY) &&
    w.MatID == tiles[w.FloorX, w.FloorY] && w.TileSideLength == tileSideLength && w.WallHeight == wallHeight
  }

  /** Scan order: x-major, then y. */
  predicate Before(x1: int, y1: int, x2: int, y2: int)
  {
    x1 < x2 || (x1 == x2 && y1 < y2)
  }

  /** The floors are strictly in scan order, so no tile appears twice. */
  predicate FloorsInScanOrder(fs: seq<FloorTile>)
  {
    forall i, j :: 0 <= i < j < |fs| ==> Before(fs[i].X, fs[i].Y, fs[j].X, fs[j].Y)
  }


  /** Every floor collected before (x, y) belongs to a non-empty tile
      before (x, y). */
  lemma {:induction false} FloorBeforeSound(tiles: array2<int>, tileSideLength: int, x: int, y: int, i: int)
    requires ScanPoint(tiles, x, y)
    requires 0 <= i < |FloorsBefore(tiles, tileSideLength, x, y)|
    ensures var f := FloorsBefore(tiles, tileSideLength, x, y)[i];
      IsFloorOf(tiles, tileSideLength, f) && Before(f.X, f.Y, x, y)
    decreases x, y
  {
    var floors := FloorsBefore(tiles, tileSideLength, x, y);
    if y > 0 {
      var a := FloorsBefore(tiles, tileSideLength, x, y - 1);
      var c := CellFloor(tiles, tileSideLength, x, y - 1);
      assert floors == a + c;
      if i < |a| {
        FloorBeforeSound(tiles, tileSideLength, x, y - 1, i);
        assert floors[i] == a[i];
      } else {
        assert floors[i] == c[0];
      }
    } else if x > 0 {
      FloorBeforeSound(tiles, tileSideLength, x - 1, tiles.Length1, i);
    }
  }

  /** Every non-empty tile before (x, y) has its floor among those collected
      before (x, y). */
  lemma {:induction false} FloorBeforeIndex(tiles: array2<int>, tileSideLength: int, x: int, y: int, f: FloorTile)
      returns (i: nat)
    requires ScanPoint(tiles, x, y)
    requires IsFloorOf(tiles, tileSideLength, f) && Before(f.X, f.Y, x, y)
    ensures i < |FloorsBefore(tiles, tileSideLength, x, y)|
    ensures FloorsBefore(tiles, tileSideLength, x, y)[i] == f
    decreases x, y
  {
    var floors := FloorsBefore(tiles, tileSideLength, x, y);
    if y > 0 {
      var a := FloorsBefore(tiles, tileSideLength, x, y - 1);
      var c := CellFloor(tiles, tileSideLength, x, y - 1);
      assert floors == a + c;
      if Before(f.X, f.Y, x, y - 1) {
        i := FloorBeforeIndex(tiles, tileSideLength, x, y - 1, f);
        assert floors[i] == a[i];
      } else {
        i := |a|;
        assert floors[i] == c[0];
      }
    } else {
      i := FloorBeforeIndex(tiles, tileSideLength, x - 1, tiles.Length1, f);
    }
  }

  /** The floors come out strictly in scan order. */
  lemma {:induction false} FloorsBeforeOrdered(tiles: array2<int>, tileSideLength: int, x: int, y: int)
    requires ScanPoint(tiles, x, y)
    ensures FloorsInScanOrder(FloorsBefore(tiles, tileSideLength, x, y))
    decreases x, y
  {
    var fs := FloorsBefore(tiles, tileSideLength, x, y);
    if y > 0 {
      var a := FloorsBefore(tiles, tileSideLength, x, y - 1);
      var c := CellFloor(tiles, tileSideLength, x, y - 1);
      assert fs == a + c;
      FloorsBeforeOrdered(tiles, tileSideLength, x, y - 1);
      forall i, j | 0 <= i < j < |fs|
        ensures Before(fs[i].X, fs[i].Y, fs[j].X, fs[j].Y)
      {
        if j < |a| {
          assert fs[i] == a[i] && fs[j] == a[j];
        } else {
          FloorBeforeSound(tiles, tileSideLength, x, y - 1, i);
          assert fs[i] == a[i] && fs[j] == c[0];
        }
      }
    } else if x > 0 {
      FloorsBeforeOrdered(tiles, tileSideLength, x - 1, tiles.Length1);
    }
  }

  /** The floor list holds exactly one floor per non-empty tile, carrying
      the tile's value as its material, in x-major scan order. */
  lemma FloorsExact(tiles: array2<int>, tileSideLength: int)
    ensures forall f :: f in StageFloors(tiles, tileSideLength) <==> IsFloorOf(tiles, tileSideLength, f)
    ensures FloorsInScanOrder(StageFloors(tiles, tileSideLength))
  {
    var floors := StageFloors(tiles, tileSideLength);
    forall f ensures f in floors <==> IsFloorOf(tiles, tileSideLength, f)
    {
      if f in floors {
        var i :| 0 <= i < |floors| && floors[i] == f;
        FloorBeforeSound(tiles, tileSideLength, tiles.Length0, 0, i);
      }
      if IsFloorOf(tiles, tileSideLength, f) {
        var i := FloorBeforeIndex(tiles, tileSideLength, tiles.Length0, 0, f);
      }
    }
    FloorsBeforeOrdered(tiles, tileSideLength, tiles.Length0, 0);
  }

  lemma CellWallsExact(tiles: array2<int>, tileSideLength: int, wallHeight: int, x: int, y: int, w: WallTile)
    requires 0 <= x < tiles.Length0 && 0 <= y < tiles.Length1
    ensures w in CellWalls(tiles, tileSideLength, wallHeight, x, y) <==>
      IsWallOf(tiles, tileSideLength, wallHeight, w) && w.FloorX == x && w.FloorY == y
  {
    if IsWallOf(tiles, tileSideLength, wallHeight, w) && w.FloorX == x && w.FloorY == y {
      var m := tiles[x, y];
      var n := WallTowards(tiles, x, y + 1, x, y, m, tileSideLength, wallHeight);
      var s := WallTowards(tiles, x, y - 1, x, y, m, tileSideLength, wallHeight);
      var e := WallTowards(tiles, x + 1, y, x, y, m, tileSideLength, wallHeight);
      var v := WallTowards(tiles, x - 1, y, x, y, m, tileSideLength, wallHeight);
      assert CellWalls(tiles, tileSideLength, wallHeight, x, y) == n + s + e + v;
      if w.EmptyY == y + 1 { assert w in n; }
      else if w.EmptyY == y - 1 { assert w in s; }
      else if w.EmptyX == x + 1 { assert w in e; }
      else { assert w in v; }
    }
  }

  /** The position of a wall within the walls of its tile. */
  lemma CellWallIndex(tiles: array2<int>, tileSideLength: int, wallHeight: int, x: int, y: int, w: WallTile)
      returns (k: nat)
    requires 0 <= x < tiles.Length0 && 0 <= y < tiles.Length1
    requires IsWallOf(tiles, tileSideLength, wallHeight, w) && w.FloorX == x && w.FloorY == y
    ensures k < |CellWalls(tiles, tileSideLength, wallHeight, x, y)|
    ensures CellWalls(tiles, tileSideLength, wallHeight, x, y)[k] == w
  {
    var c := CellWalls(tiles, tileSideLength, wallHeight, x, y);
    CellWallsExact(tiles, tileSideLength, wallHeight, x, y, w);
    k :| 0 <= k < |c| && c[k] == w;
  }

  /** The walls of a tile are walls of the grid standing on that tile. */
  lemma CellWallSound(tiles: array2<int>, tileSideLength: int, wallHeight: int, x: int, y: int, k: int)
    requires 0 <= x < tiles.Length0 && 0 <= y < tiles.Length1
    requires 0 <= k < |CellWalls(tiles, tileSideLength, wallHeight, x, y)|
    ensures var w := CellWalls(tiles, tileSideLength, wallHeight, x, y)[k];
      IsWallOf(tiles, tileSideLength, wallHeight, w) && w.FloorX == x && w.FloorY == y
  {
    var c := CellWalls(tiles, tileSideLength, wallHeight, x, y);
    assert c[k] in c;
    CellWallsExact(tiles, tileSideLength, wallHeight, x, y, c[k]);
  }

  /** Extending the scan by tile (x, y - 1) keeps the walls collected so far
      at their positions. */
  lemma WallsBeforeLeft(tiles: array2<int>, tileSideLength: int, wallHeight: int, x: int, y: int, i: int)
    requires 0 <= x < tiles.Length0 && 0 < y <= tiles.Length1
    requires 0 <= i < |WallsBefore(tiles, tileSideLength, wallHeight, x, y - 1)|
    ensures i < |WallsBefore(tiles, tileSideLength, wallHeight, x, y)|
    ensures WallsBefore(tiles, tileSideLength, wallHeight, x, y)[i] == WallsBefore(tiles, tileSideLength, wallHeight, x, y - 1)[i]
  {
  }

  /** ... and puts the walls of tile (x, y - 1) after them. */
  lemma WallsBeforeRight(tiles: array2<int>, tileSideLength: int, wallHeight: int, x: int, y: int, k: int)
    requires 0 <= x < tiles.Length0 && 0 < y <= tiles.Length1
    requires 0 <= k < |CellWalls(tiles, tileSideLength, wallHeight, x, y - 1)|
    ensures |WallsBefore(tiles, tileSideLength, wallHeight, x, y - 1)| + k < |WallsBefore(tiles, tileSideLength, wallHeight, x, y)|
    ensures WallsBefore(tiles, tileSideLength, wallHeight, x, y)[|WallsBefore(tiles, tileSideLength, wallHeight, x, y - 1)| + k] ==
      CellWalls(tiles, tileSideLength, wallHeight, x, y - 1)[k]
  {
  }

  /** Every wall collected before (x, y) is one of the walls of a tile
      before (x, y). */
  lemma {:induction false} WallBeforeCell(tiles: array2<int>, tileSideLength: int, wallHeight: int, x: int, y: int, i: int)
      returns (cx: int, cy: int, k: int)
    requires ScanPoint(tiles, x, y)
    requires 0 <= i < |WallsBefore(tiles, tileSideLength, wallHeight, x, y)|
    ensures 0 <= cx < tiles.Length0 && 0 <= cy < tiles.Length1 && Before(cx, cy, x, y)
    ensures 0 <= k < |CellWalls(tiles, tileSideLength, wallHeight, cx, cy)|
    ensures WallsBefore(tiles, tileSideLength, wallHeight, x, y)[i] == CellWalls(tiles, tileSideLength, wallHeight, cx, cy)[k]
    decreases x, y
  {
    if y > 0 {
      var n := |WallsBefore(tiles, tileSideLength, wallHeight, x, y - 1)|;
      if i < n {
        cx, cy, k := WallBeforeCell(tiles, tileSideLength, wallHeight, x, y - 1, i);
        WallsBeforeLeft(tiles, tileSideLength, wallHeight, x, y, i);
      } else {
        cx, cy, k := x, y - 1, i - n;
        WallsBeforeRight(tiles, tileSideLength, wallHeight, x, y, k);
      }
    } else {
      cx, cy, k := WallBeforeCell(tiles, tileSideLength, wallHeight, x - 1, tiles.Length1, i);
    }
  }

  /** Every wall of a tile before (x, y) is among the walls collected
      before (x, y). */
  lemma {:induction false} WallBeforeIndex(tiles: array2<int>, tileSideLength: int, wallHeight: int, x: int, y: int, w: WallTile)
      returns (i: nat)
    requires ScanPoint(tiles, x, y)
    requires IsWallOf(tiles, tileSideLength, wallHeight, w) && Before(w.FloorX, w.FloorY, x, y)
    ensures i < |WallsBefore(tiles, tileSideLength, wallHeight, x, y)|
    ensures WallsBefore(tiles, tileSideLength, wallHeight, x, y)[i] == w
    decreases x, y
  {
    if y > 0 {
      if Before(w.FloorX, w.FloorY, x, y - 1) {
        i := WallBeforeIndex(tiles, tileSideLength, wallHeight, x, y - 1, w);
        WallsBeforeLeft(tiles, tileSideLength, wallHeight, x, y, i);
      } else {
        var k := CellWallIndex(tiles, tileSideLength, wallHeight, x, y - 1, w);
        WallsBeforeRight(tiles, tileSideLength, wallHeight, x, y, k);
        i := |WallsBefore(tiles, tileSideLength, wallHeight, x, y - 1)| + k;
      }
    } else {
      i := WallBeforeIndex(tiles, tileSideLength, wallHeight, x - 1, tiles.Length1, w);
    }
  }

  /** The wall list holds exactly the walls between a non-empty tile and an
      adjacent empty or out-of-grid tile, each with the floor's material. */
  lemma WallsExact(tiles: array2<int>, tileSideLength: int, wallHeight: int)
    ensures forall w :: w in StageWalls(tiles, tileSideLength, wallHeight) <==>
      IsWallOf(tiles, tileSideLength, wallHeight, w)
  {
    var walls := StageWalls(tiles, tileSideLength, wallHeight);
    forall w ensures w in walls <==> IsWallOf(tiles, tileSideLength, wallHeight, w)
    {
      if w in walls {
        var i :| 0 <= i < |walls| && walls[i] == w;
        var x, y, k := WallBeforeCell(tiles, tileSideLength, wallHeight, tiles.Length0, 0, i);
        CellWallSound(tiles, tileSideLength, wallHeight, x, y, k);
      }
      if IsWallOf(tiles, tileSideLength, wallHeight, w) {
        var i := WallBeforeIndex(tiles, tileSideLength, wallHeight, tiles.Length0, 0, w);
      }
    }
  }

  /** The nested loops of setUpStage that collect the floors and walls. */
  method CollectTiles(tiles: array2<int>, tileSideLength: int, wallHeight: int)
    returns (floors: seq<FloorTile>, walls: seq<WallTile>)
    ensures floors == StageFloors(tiles, tileSideLength)
    ensures walls == StageWalls(tiles, tileSideLength, wallHeight)
  {
    floors, walls := [], [];
    for x := 0 to tiles.Length0
      invariant floors == FloorsBefore(tiles, tileSideLength, x, 0)
      invariant walls == WallsBefore(tiles, tileSideLength, wallHeight, x, 0)
    {
      floors, walls := ScanColumn(tiles, tileSideLength, wallHeight, x, floors, walls);
    }
  }

  /** The inner loop of the scan: extends the lists collected before column
      x with the floors and walls of its tiles. */
  method ScanColumn(tiles: array2<int>, tileSideLength: int, wallHeight: int, x: int,
                    floorsSoFar: seq<FloorTile>, wallsSoFar: seq<WallTile>)
    returns (floors: seq<FloorTile>, walls: seq<WallTile>)
    requires 0 <= x < tiles.Length0
    requires floorsSoFar == FloorsBefore(tiles, tileSideLength, x, 0)
    requires wallsSoFar == WallsBefore(tiles, tileSideLength, wallHeight, x, 0)
    ensures floors == FloorsBefore(tiles, tileSideLength, x + 1, 0)
    ensures walls == WallsBefore(tiles, tileSideLength, wallHeight, x + 1, 0)
  {
    floors, walls := floorsSoFar, wallsSoFar;
    for y := 0 to tiles.Length1
      invariant floors == FloorsBefore(tiles, tileSideLength, x, y)
      invariant walls == WallsBefore(tiles, tileSideLength, wallHeight, x, y)
    {
      var floor, cell := ScanCell(tiles, tileSideLength, wallHeight, x, y);
      floors := floors + floor;
      walls := walls + cell;
    }
  }

  /** The body of the nested loops: a floor for a non-empty tile, and a wall
      towards each empty or out-of-grid neighbour, north, south, east,
      west. */
  method ScanCell(tiles: array2<int>, tileSideLength: int, wallHeight: int, x: int, y: int)
    returns (floor: seq<FloorTile>, cell: seq<WallTile>)
    requires 0 <= x < tiles.Length0 && 0 <= y < tiles.Length1
    ensures floor == CellFloor(tiles, tileSideLength, x, y)
    ensures cell == CellWalls(tiles, tileSideLength, wallHeight, x, y)
  {
    var width, height := tiles.Length0, tiles.Length1;
    floor, cell := [], [];
    if tiles[x, y] > 0 {
      var m := tiles[x, y];
      floor := [FloorTile(x, y, m, tileSideLength)];
      ghost var n := WallTowards(tiles, x, y + 1, x, y, m, tileSideLength, wallHeight);
      ghost var s := WallTowards(tiles, x, y - 1, x, y, m, tileSideLength, wallHeight);
      ghost var e := WallTowards(tiles, x + 1, y, x, y, m, tileSideLength, wallHeight);
      ghost var v := WallTowards(tiles, x - 1, y, x, y, m, tileSideLength, wallHeight);
      var northY := y + 1;
      if northY >= height || tiles[x, northY] == 0 {
        cell := cell + [WallTile(x, northY, x, y, m, tileSideLength, wallHeight)];
      }
      assert cell == n;
      var southY := y - 1;
      if southY < 0 || tiles[x, southY] == 0 {
        cell := cell + [WallTile(x, southY, x, y, m, tileSideLength, wallHeight)];
      }
      assert cell == n + s;
      var eastX := x + 1;
      if eastX >= width || tiles[eastX, y] == 0 {
        cell := cell + [WallTile(eastX, y, x, y, m, tileSideLength, wallHeight)];
      }
      assert cell == n + s + e;
      var westX := x - 1;
      if westX < 0 || tiles[westX, y] == 0 {
        cell := cell + [WallTile(westX, y, x, y, m, tileSideLength, wallHeight)];
      }
    }
  }

  // ------------------------------------------------- grouping by material

  /** MaterialTileCollection: the geometry of all quads of one material. */
  datatype Collection = Collection(Vertices: seq<Vec3>, Normals: seq<Vec3>, TexCoords: seq<Vec2>,
                                   Tangents: seq<Vec4>, Faces: seq<int>)

  const EmptyCollection := Collection([], [], [], [], [])

  /** The collection holds n quads: four entries per quad in each
      per-vertex list, six face indices per quad, each naming one of its
      vertices. */
  predicate HoldsQuads(c: Collection, n: nat)
  {
    |c.Vertices| == 4 * n && |c.Normals| == 4 * n && |c.TexCoords| == 4 * n && |c.Tangents| == 4 * n &&
    |c.Faces| == 6 * n && forall i :: 0 <= i < |c.Faces| ==> 0 <= c.Faces[i] < |c.Vertices|
  }

  function Offset(s: seq<int>, k: int): (r: seq<int>)
    ensures |r| == |s|
  {
    seq(|s|, i requires 0 <= i < |s| => s[i] + k)
  }

  /** Appends a quad's corners and its triangles, shifted past the
      vertices already in the collection. */
  function AddQuad(c: Collection, q: Quad): (r: Collection)
    requires q.Valid()
    ensures HoldsQuads(c, (|c.Vertices| / 4) as nat) ==> HoldsQuads(r, (|c.Vertices| / 4) as nat + 1)
    ensures forall i :: |c.Faces| <= i < |r.Faces| ==> |c.Vertices| <= r.Faces[i] < |r.Vertices|
  {
    Collection(c.Vertices + q.Vertices, c.Normals + q.Normals, c.TexCoords + q.TexCoords,
               c.Tangents + q.Tangents, c.Faces + Offset(Indices, |c.Vertices|))
  }

  /** A quad tagged with the material it is drawn with. */
  datatype TileQuad = TileQuad(MatID: int, Quad: Quad)

  function FloorQuads(fs: seq<FloorTile>): (r: seq<TileQuad>)
    ensures |r| == |fs|
    ensures forall i :: 0 <= i < |r| ==> r[i] == TileQuad(fs[i].MatID, fs[i].ToQuad())
  {
    if fs == [] then [] else FloorQuads(fs[..|fs| - 1]) + [TileQuad(fs[|fs| - 1].MatID, fs[|fs| - 1].ToQuad())]
  }

  function WallQuads(ws: seq<WallTile>): (r: seq<TileQuad>)
    ensures |r| == |ws|
    ensures forall i :: 0 <= i < |r| ==> r[i] == TileQuad(ws[i].MatID, ws[i].ToQuad())
  {
    if ws == [] then [] else WallQuads(ws[..|ws| - 1]) + [TileQuad(ws[|ws| - 1].MatID, ws[|ws| - 1].ToQuad())]
  }

  predicate AllValid(qs: seq<TileQuad>)
  {
    forall i :: 0 <= i < |qs| ==> qs[i].Quad.Valid()
  }

  /** geometryByMaterial, with its keys in the order they were added. */
  datatype Geometry = Geometry(Keys: seq<int>, ByMaterial: map<int, Collection>)
  {
    predicate KeysMatch()
    {
      (forall i :: 0 <= i < |Keys| ==> Keys[i] in ByMaterial) && (forall id :: id in ByMaterial ==> id in Keys)
    }
  }

  /** One quad added to its material's collection, creating the collection
      on the material's first quad. */
  function Insert(g: Geometry, t: TileQuad): (r: Geometry)
    requires t.Quad.Valid()
    ensures g.KeysMatch() ==> r.KeysMatch()
  {
    if t.MatID in g.ByMaterial then
      Geometry(g.Keys, g.ByMaterial[t.MatID := AddQuad(g.ByMaterial[t.MatID], t.Quad)])
    else
      Geometry(g.Keys + [t.MatID], g.ByMaterial[t.MatID := AddQuad(EmptyCollection, t.Quad)])
  }

  function Group(qs: seq<TileQuad>): (g: Geometry)
    requires AllValid(qs)
    ensures g.KeysMatch()
  {
    if qs == [] then Geometry([], map[]) else Insert(Group(qs[..|qs| - 1]), qs[|qs| - 1])
  }

  /** The number of quads of material id. */
  function Count(qs: seq<TileQuad>, id: int): nat
  {
    if qs == [] then 0 else Count(qs[..|qs| - 1], id) + (if qs[|qs| - 1].MatID == id then 1 else 0)
  }

  predicate Distinct(s: seq<int>)
  {
    forall i, j :: 0 <= i < j < |s| ==> s[i] != s[j]
  }

  /** The grouping has one collection per distinct material, each holding
      exactly that material's quads with in-range face indices, and every
      material is listed once. */
  lemma GroupFacts(qs: seq<TileQuad>)
    requires AllValid(qs)
    ensures Distinct(Group(qs).Keys)
    ensures forall id :: id in Group(qs).ByMaterial <==> exists i :: 0 <= i < |qs| && qs[i].MatID == id
    ensures forall id :: id in Group(qs).ByMaterial ==> HoldsQuads(Group(qs).ByMaterial[id], Count(qs, id))
    ensures forall id :: id !in Group(qs).ByMaterial ==> Count(qs, id) == 0
  {
    GroupKeys(qs);
    GroupCounts(qs);
  }

  lemma {:induction false} GroupKeys(qs: seq<TileQuad>)
    requires AllValid(qs)
    ensures Distinct(Group(qs).Keys)
    ensures forall id :: id in Group(qs).ByMaterial <==> exists i :: 0 <= i < |qs| && qs[i].MatID == id
  {
    if qs != [] {
      var p := qs[..|qs| - 1];
      GroupKeys(p);
      var g := Group(p);
      forall id ensures id in Group(qs).ByMaterial <==> exists i :: 0 <= i < |qs| && qs[i].MatID == id
      {
        if id in g.ByMaterial {
          var i :| 0 <= i < |p| && p[i].MatID == id;
          assert qs[i] == p[i];
        }
        if exists i :: 0 <= i < |qs| && qs[i].MatID == id {
          var i :| 0 <= i < |qs| && qs[i].MatID == id;
          if i < |p| {
            assert p[i] == qs[i];
          }
        }
      }
    }
  }

  lemma {:induction false} GroupCounts(qs: seq<TileQuad>)
    requires AllValid(qs)
    ensures forall id :: id in Group(qs).ByMaterial ==> HoldsQuads(Group(qs).ByMaterial[id], Count(qs, id))
    ensures forall id :: id !in Group(qs).ByMaterial ==> Count(qs, id) == 0
  {
    if qs != [] {
      var p := qs[..|qs| - 1];
      var t := qs[|qs| - 1];
      GroupCounts(p);
      var g := Group(p);
      forall id | id in Group(qs).ByMaterial
        ensures HoldsQuads(Group(qs).ByMaterial[id], Count(qs, id))
      {
        if id == t.MatID {
          var c := if id in g.ByMaterial then g.ByMaterial[id] else EmptyCollection;
          assert HoldsQuads(c, Count(p, id));
          assert (|c.Vertices| / 4) as nat == Count(p, id);
        }
      }
    }
  }

  /** One step of the foreach loops in setUpStage: TryGetValue, creating
      the collection when it is missing, then the two copy loops. */
  method InsertQuad(g: Geometry, t: TileQuad) returns (r: Geometry)
    requires t.Quad.Valid()
    ensures r == Insert(g, t)
  {
    var tileData: Collection;
    var keys := g.Keys;
    if t.MatID in g.ByMaterial {
      tileData := g.ByMaterial[t.MatID];
    } else {
      tileData := EmptyCollection;
      keys := keys + [t.MatID];
    }
    var startIndex := |tileData.Vertices|;
    var c := tileData;
    for i := 0 to 4
      invariant c.Vertices == tileData.Vertices + t.Quad.Vertices[..i]
      invariant c.Normals == tileData.Normals + t.Quad.Normals[..i]
      invariant c.TexCoords == tileData.TexCoords + t.Quad.TexCoords[..i]
      invariant c.Tangents == tileData.Tangents + t.Quad.Tangents[..i]
      invariant c.Faces == tileData.Faces
    {
      c := c.(Vertices := c.Vertices + [t.Quad.Vertices[i]], Normals := c.Normals + [t.Quad.Normals[i]],
              TexCoords := c.TexCoords + [t.Quad.TexCoords[i]], Tangents := c.Tangents + [t.Quad.Tangents[i]]);
      assert t.Quad.Vertices[..i + 1] == t.Quad.Vertices[..i] + [t.Quad.Vertices[i]];
      assert t.Quad.Normals[..i + 1] == t.Quad.Normals[..i] + [t.Quad.Normals[i]];
      assert t.Quad.TexCoords[..i + 1] == t.Quad.TexCoords[..i] + [t.Quad.TexCoords[i]];
      assert t.Quad.Tangents[..i + 1] == t.Quad.Tangents[..i] + [t.Quad.Tangents[i]];
    }
    assert t.Quad.Vertices[..4] == t.Quad.Vertices;
    assert t.Quad.Normals[..4] == t.Quad.Normals;
    assert t.Quad.TexCoords[..4] == t.Quad.TexCoords;
    assert t.Quad.Tangents[..4] == t.Quad.Tangents;
    for i := 0 to 6
      invariant c.Vertices == tileData.Vertices + t.Quad.Vertices
      invariant c.Normals == tileData.Normals + t.Quad.Normals
      invariant c.TexCoords == tileData.TexCoords + t.Quad.TexCoords
      invariant c.Tangents == tileData.Tangents + t.Quad.Tangents
      invariant c.Faces == tileData.Faces + Offset(Indices[..i], startIndex)
    {
      c := c.(Faces := c.Faces + [Indices[i] + startIndex]);
      assert Offset(Indices[..i + 1], startIndex) == Offset(Indices[..i], startIndex) + [Indices[i] + startIndex];
    }
    assert Indices[..6] == Indices;
    r := Geometry(keys, g.ByMaterial[t.MatID := c]);
  }

  /** The floors, then the walls, each tagged with its material. */
  function StageQuads(floors: seq<FloorTile>, walls: seq<WallTile>): (qs: seq<TileQuad>)
    ensures AllValid(qs)
  {
    FloorQuads(floors) + WallQuads(walls)
  }

  /** The two foreach loops of setUpStage: all floors, then all walls. */
  method GroupByMaterial(floors: seq<FloorTile>, walls: seq<WallTile>) returns (g: Geometry)
    ensures g == Group(StageQuads(floors, walls))
  {
    g := GroupFloors(floors);
    g := GroupWalls(g, FloorQuads(floors), walls);
  }

  /** The foreach loop over the floors, starting from no materials. */
  method GroupFloors(floors: seq<FloorTile>) returns (g: Geometry)
    ensures g == Group(FloorQuads(floors))
  {
    g := Geometry([], map[]);
    for i := 0 to |floors|
      invariant g == Group(FloorQuads(floors[..i]))
    {
      g := InsertQuad(g, TileQuad(floors[i].MatID, floors[i].ToQuad()));
      var qs := FloorQuads(floors[..i + 1]);
      assert qs[..|qs| - 1] == FloorQuads(floors[..i]);
    }
    assert floors[..|floors|] == floors;
  }

  /** The foreach loop over the walls, continuing the floors' grouping. */
  method GroupWalls(g0: Geometry, before: seq<TileQuad>, walls: seq<WallTile>) returns (g: Geometry)
    requires AllValid(before) && g0 == Group(before)
    ensures g == Group(before + WallQuads(walls))
  {
    g := g0;
    assert before + WallQuads(walls[..0]) == before;
    for j := 0 to |walls|
      invariant g == Group(before + WallQuads(walls[..j]))
    {
      g := InsertQuad(g, TileQuad(walls[j].MatID, walls[j].ToQuad()));
      GroupNextWall(before, walls, j);
    }
    assert walls[..|walls|] == walls;
  }

  lemma GroupNextWall(before: seq<TileQuad>, walls: seq<WallTile>, j: int)
    requires AllValid(before) && 0 <= j < |walls|
    ensures Group(before + WallQuads(walls[..j + 1])) ==
      Insert(Group(before + WallQuads(walls[..j])), TileQuad(walls[j].MatID, walls[j].ToQuad()))
  {
    var t := TileQuad(walls[j].MatID, walls[j].ToQuad());
    var p := before + WallQuads(walls[..j]);
    assert walls[..j + 1][..j] == walls[..j];
    assert WallQuads(walls[..j + 1]) == WallQuads(walls[..j]) + [t];
    assert before + WallQuads(walls[..j + 1]) == p + [t];
    assert (p + [t])[..|p|] == p;
  }

  // ----------------------------------------------------- the scene nodes

  /** The material every stage node is drawn with: stageMaterialOfID has
      only its default case, a white Lambertian material over one texture. */
  datatype Material = LambertianMaterial(Color: Vec4, TexturePath: string, A: int, B: int)

  const StageMaterial := LambertianMaterial(Vec4(1.0, 1.0, 1.0, 1.0), "data/texture/edv.png", 10, 10)

  /** StageTilesNode: a scene node drawing one material's geometry. */
  datatype StageTilesNode = StageTilesNode(Vertices: seq<Vec3>, Faces: seq<int>, Normals: seq<Vec3>,
                                           TexCoords: seq<Vec2>, Tangents: seq<Vec4>, Material: Material)

  /** The lists become the node's arrays; the material ID only selects the
      (single, default) material. */
  function StageMaterialOfID(id: int, matTiles: Collection): StageTilesNode
  {
    StageTilesNode(matTiles.Vertices, matTiles.Faces, matTiles.Normals, matTiles.TexCoords, matTiles.Tangents, StageMaterial)
  }

  /** The nodes of the first k materials, in key order. */
  function NodesOf(g: Geometry, k: int): (r: seq<StageTilesNode>)
    requires g.KeysMatch() && 0 <= k <= |g.Keys|
    ensures |r| == k
    decreases k
  {
    if k == 0 then []
    else NodesOf(g, k - 1) + [StageMaterialOfID(g.Keys[k - 1], g.ByMaterial[g.Keys[k - 1]])]
  }

  /** The stage elements that setUpStage produces for a grid. */
  function StageElements(tiles: array2<int>, tileSideLength: int, wallHeight: int): seq<StageTilesNode>
    reads tiles
  {
    var g := StageGeometry(tiles, tileSideLength, wallHeight);
    NodesOf(g, |g.Keys|)
  }

  /** A node whose per-vertex arrays have equal lengths and whose face
      indices all name one of its vertices, in whole quads. */
  predicate WellFormed(n: StageTilesNode)
  {
    |n.Normals| == |n.Vertices| && |n.TexCoords| == |n.Vertices| && |n.Tangents| == |n.Vertices| &&
    |n.Vertices| % 4 == 0 && |n.Faces| == 6 * (|n.Vertices| / 4) &&
    forall i :: 0 <= i < |n.Faces| ==> 0 <= n.Faces[i] < |n.Vertices|
  }

  /** The grouped geometry of a grid: its floors, then its walls. */
  function StageGeometry(tiles: array2<int>, tileSideLength: int, wallHeight: int): (g: Geometry)
    reads tiles
    ensures g.KeysMatch()
  {
    Group(StageQuads(StageFloors(tiles, tileSideLength),
                     StageWalls(tiles, tileSideLength, wallHeight)))
  }

  predicate IsTileValue(tiles: array2<int>, id: int)
    reads tiles
  {
    exists x, y :: 0 <= x < tiles.Length0 && 0 <= y < tiles.Length1 && tiles[x, y] == id
  }

  /** The materials of the grouped geometry are exactly the values of the
      non-empty tiles (walls take their floor's material). */
  lemma MaterialsAreTileValues(tiles: array2<int>, tileSideLength: int, wallHeight: int)
    ensures forall id :: id in StageGeometry(tiles, tileSideLength, wallHeight).ByMaterial <==>
      id > 0 && IsTileValue(tiles, id)
  {
    var floors := StageFloors(tiles, tileSideLength);
    var walls := StageWalls(tiles, tileSideLength, wallHeight);
    var qs := StageQuads(floors, walls);
    GroupFacts(qs);
    forall id ensures id in Group(qs).ByMaterial <==> id > 0 && IsTileValue(tiles, id)
    {
      if id in Group(qs).ByMaterial {
        var i :| 0 <= i < |qs| && qs[i].MatID == id;
        MaterialOfQuad(tiles, tileSideLength, wallHeight, i);
      }
      if id > 0 && IsTileValue(tiles, id) {
        var i := TileValueHasFloor(tiles, tileSideLength, id);
        assert qs[i].MatID == id;
      }
    }
  }

  /** Every quad of the stage carries the value of a non-empty tile. */
  lemma MaterialOfQuad(tiles: array2<int>, tileSideLength: int, wallHeight: int, i: int)
    requires 0 <= i < |StageQuads(StageFloors(tiles, tileSideLength),
                                  StageWalls(tiles, tileSideLength, wallHeight))|
    ensures var qs := StageQuads(StageFloors(tiles, tileSideLength),
                                 StageWalls(tiles, tileSideLength, wallHeight));
      qs[i].MatID > 0 && IsTileValue(tiles, qs[i].MatID)
  {
    var floors := StageFloors(tiles, tileSideLength);
    var walls := StageWalls(tiles, tileSideLength, wallHeight);
    var qs := StageQuads(floors, walls);
    if i < |floors| {
      FloorsExact(tiles, tileSideLength);
      assert qs[i].MatID == floors[i].MatID;
      assert floors[i] in floors;
      assert tiles[floors[i].X, floors[i].Y] == qs[i].MatID;
    } else {
      WallsExact(tiles, tileSideLength, wallHeight);
      var w := walls[i - |floors|];
      assert qs[i].MatID == w.MatID;
      assert w in walls;
      assert tiles[w.FloorX, w.FloorY] == qs[i].MatID;
    }
  }

  /** Every non-empty tile value is the material of some floor. */
  lemma TileValueHasFloor(tiles: array2<int>, tileSideLength: int, id: int) returns (i: nat)
    requires id > 0 && IsTileValue(tiles, id)
    ensures i < |StageFloors(tiles, tileSideLength)|
    ensures StageFloors(tiles, tileSideLength)[i].MatID == id
  {
    var floors := StageFloors(tiles, tileSideLength);
    FloorsExact(tiles, tileSideLength);
    var x, y :| 0 <= x < tiles.Length0 && 0 <= y < tiles.Length1 && tiles[x, y] == id;
    var f := FloorTile(x, y, id, tileSideLength);
    assert IsFloorOf(tiles, tileSideLength, f);
    assert f in floors;
    i :| 0 <= i < |floors| && floors[i] == f;
  }

  /** setUpStage yields one well-formed node per material, in order of the
      materials' first appearance, all drawn with the stage material. */
  lemma StageElementsWellFormed(tiles: array2<int>, tileSideLength: int, wallHeight: int)
    ensures var g := StageGeometry(tiles, tileSideLength, wallHeight);
      |StageElements(tiles, tileSideLength, wallHeight)| == |g.Keys| && Distinct(g.Keys)
    ensures forall n :: n in StageElements(tiles, tileSideLength, wallHeight) ==> WellFormed(n) && n.Material == StageMaterial
  {
    var qs := StageQuads(StageFloors(tiles, tileSideLength),
                         StageWalls(tiles, tileSideLength, wallHeight));
    var g := Group(qs);
    GroupFacts(qs);
    NodesWellFormed(g, |g.Keys|);
  }

  lemma {:induction false} NodesWellFormed(g: Geometry, k: int)
    requires g.KeysMatch() && 0 <= k <= |g.Keys|
    requires forall id :: id in g.ByMaterial ==> exists n: nat :: HoldsQuads(g.ByMaterial[id], n)
    ensures forall n :: n in NodesOf(g, k) ==> WellFormed(n) && n.Material == StageMaterial
    decreases k
  {
    if k > 0 {
      NodesWellFormed(g, k - 1);
      var c := g.ByMaterial[g.Keys[k - 1]];
      var q: nat :| HoldsQuads(c, q);
      assert |c.Vertices| / 4 == q;
    }
  }

  // ------------------------------------------------------------ the stage

  class Stage {
    const tiles: array2<int>
    var width: int
    var height: int
    var stageElements: seq<StageTilesNode>
    var toWorldMatrix: Matrix
    var toParentMatrix: Matrix

    /** Stage(tiles, tileSideLength, wallHeight): the grid's dimensions,
        the nodes of setUpStage, and identity transforms. */
    constructor (tiles: array2<int>, tileSideLength: int, wallHeight: int)
      ensures this.tiles == tiles
      ensures width == tiles.Length0 && height == tiles.Length1
      ensures stageElements == StageElements(tiles, tileSideLength, wallHeight)
      ensures toWorldMatrix == Identity && toParentMatrix == Identity
    {
      this.tiles := tiles;
      width := tiles.Length0;
      height := tiles.Length1;
      var elements := SetUpStage(tiles, tileSideLength, wallHeight);
      stageElements := [] + elements;
      toWorldMatrix := Identity;
      toParentMatrix := Identity;
    }

    /** update: a stage has nothing to animate. */
    method Update(delta: real, parentToWorldMatrix: Matrix)
      ensures unchanged(this) && unchanged(tiles)
    {
    }
  }

  /** setUpStage: collect floors and walls, group them by material, and
      make one node per material. */
  method SetUpStage(tiles: array2<int>, tileSideLength: int, wallHeight: int) returns (elements: seq<StageTilesNode>)
    ensures elements == StageElements(tiles, tileSideLength, wallHeight)
  {
    var floors, walls := CollectTiles(tiles, tileSideLength, wallHeight);
    var g := GroupByMaterial(floors, walls);
    elements := [];
    for k := 0 to |g.Keys|
      invariant elements == NodesOf(g, k)
    {
      var matID := g.Keys[k];
      elements := elements + [StageMaterialOfID(matID, g.ByMaterial[matID])];
    }
  }
}
