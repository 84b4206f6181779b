/** The player sprite of sdl12 and sdl13: a position on the screen (sdl12) or in the
    level (sdl13) that `update_pos` changes in place, and a fixed 100x100 cell of the
    bird atlas chosen by the player type. */
module Sprites {
  import opened Screen
  import opened Kinematics

  datatype PlayerType = Bird | Plane | UFO | Chopper

  /** The atlas cell of each player type, a 2x2 grid of TILE_SIZE cells. */
  function PlayerSrc(t: PlayerType): (src: Rect)
    ensures src.w == TILE_SIZE && src.h == TILE_SIZE
    ensures src.x == 0 || src.x == TILE_SIZE
    ensures src.y == 0 || src.y == TILE_SIZE
  {
    match t
    case Bird => Tile(0, 0)
    case Plane => Tile(TILE_SIZE, 0)
    case UFO => Tile(0, TILE_SIZE)
    case Chopper => Tile(TILE_SIZE, TILE_SIZE)
  }

  /** The four player types use four different cells. */
  lemma PlayerSrcDistinct(t: PlayerType, u: PlayerType)
    ensures PlayerSrc(t) == PlayerSrc(u) <==> t == u
  {
    if t != u {
      assert PlayerSrc(t).x != PlayerSrc(u).x || PlayerSrc(t).y != PlayerSrc(u).y;
    }
  }

  class Player {
    var pos: Rect
    const src: Rect

    /** `Player::new`: keeps the given position and picks the cell of the type. */
    constructor (t: PlayerType, pos: Rect)
      ensures this.pos == pos && src == PlayerSrc(t)
    {
      this.pos := pos;
      src := PlayerSrc(t);
    }

    function X(): int
      reads this
    {
      pos.x
    }

    function Y(): int
      reads this
    {
      pos.y
    }

    /** `update_pos`: each coordinate moves by its velocity and is clamped to its
        bounds (Rust's clamp, which needs lower <= upper); the size is unchanged. */
    method UpdatePos(vel: (int, int), xBounds: (int, int), yBounds: (int, int))
      requires xBounds.0 <= xBounds.1 && yBounds.0 <= yBounds.1
      modifies this
      ensures pos == old(pos).(x := Clamp(old(pos).x + vel.0, xBounds.0, xBounds.1),
                               y := Clamp(old(pos).y + vel.1, yBounds.0, yBounds.1))
      ensures xBounds.0 <= pos.x <= xBounds.1 && yBounds.0 <= pos.y <= yBounds.1
    {
      pos := pos.(x := Clamp(pos.x + vel.0, xBounds.0, xBounds.1));
      pos := pos.(y := Clamp(pos.y + vel.1, yBounds.0, yBounds.1));
    }
  }
}
