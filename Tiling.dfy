/** sdl10: a fixed row of bricks along the bottom of the window, drawn by a counting
    loop, and eight birds at given places, each drawn with one of the four cells of
    the bird atlas chosen from its number. */
module Tiling {
  import opened Screen
  import Camera

  /** The sdl10 brick loop: one brick per tile while the tile starts inside the
      window, atlas cell (i % 4). */
  method BrickRow() returns (row: seq<Blit>)
    ensures row == Camera.BrickRow(0)
    ensures |row| == 7
  {
    var i: nat := 0;
    row := [];
    while i * TILE_SIZE < CAM_W
      invariant i <= 7
      invariant row == Camera.BrickRow(0)[..i]
    {
      var src := Tile((i % 4) * TILE_SIZE, 0);
      var pos := Tile(i * TILE_SIZE, CAM_H - TILE_SIZE);
      row := row + [Blit(src, pos)];
      i := i + 1;
    }
  }

  /** Brick i of the static row sits at (100 i, 380) with atlas cell i mod 4; the
      bricks are adjacent and together span [0, 700), which covers the window. */
  lemma StaticRowLayout(i: int)
    requires 0 <= i < 7
    ensures |Camera.BrickRow(0)| == 7
    ensures Camera.BrickRow(0)[i] == Blit(Tile((i % 4) * TILE_SIZE, 0), Tile(i * TILE_SIZE, CAM_H - TILE_SIZE))
    ensures i < 6 ==> Camera.BrickRow(0)[i + 1].dst.x == Camera.BrickRow(0)[i].dst.x + Camera.BrickRow(0)[i].dst.w
    ensures Camera.BrickRow(0)[0].dst.x == 0 && Camera.BrickRow(0)[6].dst.x + TILE_SIZE == 700
  {
  }

  /** The atlas cell of bird i: column i mod 2, row (i mod 4) / 2. */
  function BirdCell(i: int): (src: Rect)
    ensures src.w == TILE_SIZE && src.h == TILE_SIZE
    ensures i >= 0 ==> (src.x == 0 || src.x == TILE_SIZE) && (src.y == 0 || src.y == TILE_SIZE)
  {
    Tile(RustRem(i, 2) * TILE_SIZE, RustDiv(RustRem(i, 4), 2) * TILE_SIZE)
  }

  /** The cell of bird i is determined by i mod 4, one cell per residue. */
  lemma BirdCellByResidue(i: int)
    requires i >= 0
    ensures var r := i % 4;
      BirdCell(i) == Tile((r % 2) * TILE_SIZE, (r / 2) * TILE_SIZE)
  {
    var q, r := i / 4, i % 4;
    assert i == 4 * q + r;
    var h := 2 * q + r / 2;
    assert i == 2 * h + r % 2;
    assert i % 2 == r % 2 by {
      var h', b' := i / 2, i % 2;
      assert i == 2 * h' + b';
      assert 2 * (h - h') == b' - r % 2;
    }
  }

  /** Birds share a cell exactly when their numbers agree modulo 4: the four cells
      are all used, and the pattern repeats every four birds. */
  lemma BirdCellsRepeat(i: int, j: int)
    requires i >= 0 && j >= 0
    ensures BirdCell(i) == BirdCell(j) <==> i % 4 == j % 4
  {
    BirdCellByResidue(i);
    BirdCellByResidue(j);
  }

  /** The sdl10 bird loop: bird i is drawn at its place with cell BirdCell(i). */
  method DrawBirds(locs: seq<Rect>) returns (blits: seq<Blit>)
    ensures |blits| == |locs|
    ensures forall i :: 0 <= i < |locs| ==> blits[i].dst == locs[i] && blits[i].src == BirdCell(i)
  {
    blits := [];
    var i := 0;
    while i < |locs|
      invariant i <= |locs| && |blits| == i
      invariant forall k :: 0 <= k < i ==> blits[k].dst == locs[k] && blits[k].src == BirdCell(k)
    {
      var src := Tile(RustRem(i, 2) * TILE_SIZE, RustDiv(RustRem(i, 4), 2) * TILE_SIZE);
      blits := blits + [Blit(src, locs[i])];
      i := i + 1;
    }
  }

  /** A bird place as sdl10 samples it: a tile with x in [0, 540) and y in [0, 280). */
  predicate Sampled(loc: Rect)
  {
    && 0 <= loc.x < CAM_W - TILE_SIZE && 0 <= loc.y < CAM_H - 2 * TILE_SIZE
    && loc.w == TILE_SIZE && loc.h == TILE_SIZE
  }

  /** A sampled bird lies inside the window and overlaps no brick of the row. */
  lemma BirdsClearOfBricks(loc: Rect, k: int)
    requires Sampled(loc) && 0 <= k < |Camera.BrickRow(0)|
    ensures 0 <= loc.x && loc.x + loc.w <= CAM_W && 0 <= loc.y && loc.y + loc.h <= CAM_H
    ensures !Overlaps(loc, Camera.BrickRow(0)[k].dst)
  {
  }
}
