/** sdl11: the sdl10 scene rebuilt from drawable values. Birds and bricks carry a
    number and a place; each kind computes its own atlas cell; the frame draws all
    bricks, then all birds. */
module DrawableTiling {
  import opened Screen
  import Camera
  import Tiling

  /** A drawable thing of the scene. */
  datatype Drawable = Bird(num: int, pos: Rect) | Brick(num: int, pos: Rect) {

    /** `Drawable::src`: a bird uses column num mod 2 and row (num mod 4) / 2 of the
        bird atlas; a brick uses column num mod 4 of the brick strip. */
    function Src(): (r: Rect)
      ensures r.w == TILE_SIZE && r.h == TILE_SIZE
      ensures Brick? ==> r.y == 0
    {
      match this
      case Bird(num, _) => Tile(RustRem(num, 2) * TILE_SIZE, RustDiv(RustRem(num, 4), 2) * TILE_SIZE)
      case Brick(num, _) => Tile(RustRem(num, 4) * TILE_SIZE, 0)
    }

    /** `Drawable::pos`: the place given at construction. */
    function Pos(): Rect
    {
      pos
    }
  }

  /** Bird i of the list is given number i and the i-th place. */
  function MakeBirds(locs: seq<Rect>): seq<Drawable>
  {
    seq(|locs|, i requires 0 <= i < |locs| => Bird(i, locs[i]))
  }

  /** Bricks 0 through CAM_W / TILE_SIZE (inclusive), one per tile along the bottom. */
  function MakeBricks(): seq<Drawable>
  {
    seq(CAM_W / TILE_SIZE + 1, i => Brick(i, Tile(i * TILE_SIZE, CAM_H - TILE_SIZE)))
  }

  /** The drawing order: the bricks, then the birds. */
  function DrawList(locs: seq<Rect>): seq<Drawable>
  {
    MakeBricks() + MakeBirds(locs)
  }

  /** The texture copies a list of drawables makes. */
  function Blits(ds: seq<Drawable>): seq<Blit>
  {
    seq(|ds|, i requires 0 <= i < |ds| => Blit(ds[i].Src(), ds[i].Pos()))
  }

  /** The order of the frame: seven bricks numbered 0 to 6, then the birds numbered in
      the order of their places, each at the place it was built with. */
  lemma DrawOrder(locs: seq<Rect>)
    ensures |DrawList(locs)| == 7 + |locs|
    ensures forall k :: 0 <= k < 7 ==> DrawList(locs)[k] == Brick(k, Tile(k * TILE_SIZE, CAM_H - TILE_SIZE))
    ensures forall k :: 7 <= k < |DrawList(locs)| ==> DrawList(locs)[k] == Bird(k - 7, locs[k - 7])
  {
  }

  /** A bird's cell is the one sdl10 computes for its number. */
  lemma BirdSrcAgrees(num: int, pos: Rect)
    ensures Bird(num, pos).Src() == Tiling.BirdCell(num)
  {
  }

  /** sdl11 draws exactly what sdl10 draws: the static brick row, then bird i with cell
      BirdCell(i) at the i-th place. */
  lemma SameAsTiling(locs: seq<Rect>)
    ensures Blits(DrawList(locs)) == Camera.BrickRow(0) + seq(|locs|, i requires 0 <= i < |locs| => Blit(Tiling.BirdCell(i), locs[i]))
  {
    var lhs := Blits(DrawList(locs));
    var rhs := Camera.BrickRow(0) + seq(|locs|, i requires 0 <= i < |locs| => Blit(Tiling.BirdCell(i), locs[i]));
    assert |lhs| == |rhs|;
    forall k | 0 <= k < |lhs| ensures lhs[k] == rhs[k] {
      if k < 7 {
        assert DrawList(locs)[k] == Brick(k, Tile(k * TILE_SIZE, CAM_H - TILE_SIZE));
      } else {
        assert DrawList(locs)[k] == Bird(k - 7, locs[k - 7]);
      }
    }
  }

  /** With the eight birds of sdl11, bird i shares its cell with no bird but i + 4 or
      i - 4: each of the four cells is used exactly twice. */
  lemma EachCellTwice(locs: seq<Rect>, i: int, j: int)
    requires |locs| == 8 && 0 <= i < 8 && 0 <= j < 8
    ensures MakeBirds(locs)[i].Src() == MakeBirds(locs)[j].Src() <==> (j == i || j == i + 4 || i == j + 4)
  {
    Tiling.BirdCellsRepeat(i, j);
  }
}
