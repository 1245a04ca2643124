/** The level editor's map texture (MapTexture): one texel per tile, laid
    out as a rectangle texture whose rows are the map's y axis. The upload
    to OpenGL is not modelled; what is modelled is the texel array the
    upload sends. */
module MapTextures {
  import opened Common

  /** The colour a tile is drawn in: red 0.2 and green 0.9 per unit of tile
      value, no blue, opaque. */
  function Texel(tile: int): Vec4
  {
    Vec4(tile as real * 0.2, tile as real * 0.9, 0.0, 1.0)
  }

  /** The tile value a texel shows, read from its red channel. */
  function TileShown(texel: Vec4): int
  {
    (texel.x * 5.0).Floor
  }

  /** Every tile value can be read back from its texel, so two different
      tiles never look alike. */
  lemma TexelShowsTile(tile: int)
    ensures TileShown(Texel(tile)) == tile
  {
    assert Texel(tile).x * 5.0 == tile as real;
  }

  lemma TexelInjective(a: int, b: int)
    ensures Texel(a) == Texel(b) <==> a == b
  {
    if Texel(a) == Texel(b) {
      TexelShowsTile(a);
      TexelShowsTile(b);
    }
  }

  class MapTexture {
    const Width: int
    const Height: int
    /** Addressed [row, column], that is [y, x]. */
    const data: array2<Vec4>

    predicate Valid()
    {
      data.Length0 == Height && data.Length1 == Width
    }

    /** MapTexture(tiles): the width and height are the tile array's
        extents, and the texel array is Height rows of Width texels, all
        zero as a new C# array is. */
    constructor (tiles: array2<int>)
      ensures Width == tiles.Length0 && Height == tiles.Length1 && Valid()
      ensures fresh(data)
      ensures forall j, i :: 0 <= j < Height && 0 <= i < Width ==> data[j, i] == Vec4(0.0, 0.0, 0.0, 0.0)
    {
      Width := tiles.Length0;
      Height := tiles.Length1;
      data := new Vec4[tiles.Length1, tiles.Length0]((_, _) => Vec4(0.0, 0.0, 0.0, 0.0));
    }

    /** setData: texel (row j, column i) shows tile (i, j), for every one of
        the Width * Height texels. */
    method SetData(tiles: array2<int>)
      requires Valid() && Width <= tiles.Length0 && Height <= tiles.Length1
      modifies data
      ensures forall j, i :: 0 <= j < Height && 0 <= i < Width ==> data[j, i] == Texel(tiles[i, j])
    {
      for i := 0 to Width
        invariant forall j, i' :: 0 <= j < Height && 0 <= i' < i ==> data[j, i'] == Texel(tiles[i', j])
      {
        for j := 0 to Height
          invariant forall j', i' :: 0 <= j' < Height && 0 <= i' < i ==> data[j', i'] == Texel(tiles[i', j'])
          invariant forall j' :: 0 <= j' < j ==> data[j', i] == Texel(tiles[i, j'])
        {
          data[j, i] := Vec4(tiles[i, j] as real * 0.2, tiles[i, j] as real * 0.9, 0.0, 1.0);
        }
      }
    }

    /** setTextureData: the texels are refreshed from the tiles before the
        upload, so the texture shows exactly the tiles: the tile at (x, y)
        can be read back from texel [y, x]. */
    method SetTextureData(tiles: array2<int>)
      requires Valid() && Width <= tiles.Length0 && Height <= tiles.Length1
      modifies data
      ensures forall x, y :: 0 <= x < Width && 0 <= y < Height ==> TileShown(data[y, x]) == tiles[x, y]
    {
      SetData(tiles);
      forall x, y | 0 <= x < Width && 0 <= y < Height
        ensures TileShown(data[y, x]) == tiles[x, y]
      {
        TexelShowsTile(tiles[x, y]);
      }
    }
  }
}
