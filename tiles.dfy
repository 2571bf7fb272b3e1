/**
 * Tile geometry and tile composition: the tile size derived from the matrix
 * size, the builder of one tile, and the grid cells the four tiles request.
 */
module Tiles {
  import opened Wrappers
  import opened Composition

  /**
   * `TILE_WIDTH = MATRIX_WIDTH // TILE_COLS` (and the same for heights).
   * Python's `//` floors; for a positive divisor Dafny's `/` does the same.
   * The result is the largest size of which `tiles` copies fit in `matrixSize`.
   */
  function TileSize(matrixSize: int, tiles: int): (size: int)
    requires tiles > 0
    ensures tiles * size <= matrixSize < tiles * (size + 1)
  {
    matrixSize / tiles
  }

  /** The floor property determines the tile size: no other size satisfies it. */
  lemma TileSizeUnique(matrixSize: int, tiles: int, size: int)
    requires tiles > 0
    requires tiles * size <= matrixSize < tiles * (size + 1)
    ensures size == TileSize(matrixSize, tiles)
  {
  }

  /** With the default 64 x 64 matrix and a 2 x 2 grid each tile is 32 x 32. */
  lemma DefaultTileSize()
    ensures TileSize(64, 2) == 32
  {
  }

  /** The background of a tile: a rounded rectangle at the tile origin, of the tile's size. */
  function Background(width: int, height: int, radius: int, fill: int, outline: Option<int>): RoundRect {
    RoundRect(0, 0, width, height, radius, fill, outline)
  }

  /**
   * `build_tile`: a new `GridGroup` of the tile size holding, in order, the
   * background and the given label.
   */
  method BuildTile(content: Label, tileWidth: int, tileHeight: int,
                   radius: int := 2, backgroundColor: int := 0, outlineColor: Option<int> := None)
    returns (group: Group)
    ensures fresh(group) && group.size == Some((tileWidth, tileHeight))
    ensures group.children == [Rect(Background(tileWidth, tileHeight, radius, backgroundColor, outlineColor)), Text(content)]
  {
    group := new Group.GridGroup(tileWidth, tileHeight);
    var rect := Background(tileWidth, tileHeight, radius, backgroundColor, outlineColor);
    group.Append(Rect(rect));
    group.Append(Text(content));
  }

  // --------------------------------------------------------------- placement

  /** A grid position and a cell span, both as (column, row). */
  datatype Placement = Placement(position: (int, int), cellSize: (int, int))

  function PlacementOf(b: Binding): Placement {
    Placement(b.position, b.cellSize)
  }

  function Placements(bs: seq<Binding>): (ps: seq<Placement>)
    ensures |ps| == |bs|
    ensures forall i :: 0 <= i < |bs| ==> ps[i] == PlacementOf(bs[i])
  {
    if bs == [] then [] else [PlacementOf(bs[0])] + Placements(bs[1..])
  }

  /** Does placement `p` claim the cell (`col`, `row`)? */
  predicate Covers(p: Placement, col: int, row: int) {
    p.position.0 <= col < p.position.0 + p.cellSize.0 &&
    p.position.1 <= row < p.position.1 + p.cellSize.1
  }

  /** `p` spans at least one cell and lies inside a grid of `gridSize` cells. */
  predicate InGrid(gridSize: (int, int), p: Placement) {
    0 <= p.position.0 && 0 <= p.position.1 &&
    1 <= p.cellSize.0 && 1 <= p.cellSize.1 &&
    p.position.0 + p.cellSize.0 <= gridSize.0 &&
    p.position.1 + p.cellSize.1 <= gridSize.1
  }

  /** Some placement of `ps` claims the cell (`col`, `row`). */
  predicate Claimed(ps: seq<Placement>, col: int, row: int) {
    exists i :: 0 <= i < |ps| && Covers(ps[i], col, row)
  }

  /** Two placements claim no cell in common. */
  predicate Disjoint(p: Placement, q: Placement) {
    p.position.0 + p.cellSize.0 <= q.position.0 || q.position.0 + q.cellSize.0 <= p.position.0 ||
    p.position.1 + p.cellSize.1 <= q.position.1 || q.position.1 + q.cellSize.1 <= p.position.1
  }

  lemma DisjointMeansNoSharedCell(p: Placement, q: Placement, col: int, row: int)
    requires Disjoint(p, q)
    ensures !(Covers(p, col, row) && Covers(q, col, row))
  {
  }

  /** The cells the application requests, in the order of its `add_content` calls. */
  const Requested: seq<Placement> := [
    Placement((0, 0), (1, 1)),
    Placement((1, 0), (1, 1)),
    Placement((0, 1), (1, 1)),
    Placement((1, 1), (1, 1))]

  /**
   * The four requests fit the 2 x 2 grid, overlap pairwise nowhere, and
   * together claim every cell, so each cell holds exactly one tile.
   */
  lemma RequestedTilesGrid()
    ensures forall i :: 0 <= i < |Requested| ==> InGrid((2, 2), Requested[i])
    ensures forall i, j :: 0 <= i < j < |Requested| ==> Disjoint(Requested[i], Requested[j])
    ensures forall col, row :: 0 <= col < 2 && 0 <= row < 2 ==> Claimed(Requested, col, row)
  {
    forall col, row | 0 <= col < 2 && 0 <= row < 2
      ensures Claimed(Requested, col, row)
    {
      var i := col + 2 * row;
      assert Covers(Requested[i], col, row);
    }
  }
}
