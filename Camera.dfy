/** The side-scrolling camera shared by sdl13, sdl15 and sdl17: a dead-zone update of
    `scroll_offset`, the two background copies placed at `-(scroll % CAM_W)`, and the
    row of bricks drawn from `-(scroll % TILE_SIZE)` with atlas cells that stay
    attached to the level as it scrolls. */
module Camera {
  import opened Screen
  import opened Kinematics

  /** Left edge of the dead zone on screen: 640 / 3 - 50 = 163. */
  const LTHIRD: int := (CAM_W as int) / 3 - (TILE_SIZE as int) / 2

  /** Right edge of the dead zone on screen: 640 * 2 / 3 - 50 = 376. */
  const RTHIRD: int := (CAM_W as int) * 2 / 3 - (TILE_SIZE as int) / 2

  /** The largest scroll offset, LEVEL_LEN - CAM_W = 1360. */
  const MAX_SCROLL: int := LEVEL_LEN - CAM_W

  /** The rightmost player position in the level, LEVEL_LEN - TILE_SIZE = 1900. */
  const MAX_PLAYER_X: int := LEVEL_LEN - TILE_SIZE

  /** The dead-zone camera: the offset follows the player only when the player leaves
      the screen band [LTHIRD, RTHIRD], and then so that the player sits on the band's
      edge, unless the level end stops the camera. */
  function ScrollStep(px: int, scroll: int): (r: int)
  {
    if px > scroll + RTHIRD then Clamp(px - RTHIRD, 0, MAX_SCROLL)
    else if px < scroll + LTHIRD then Clamp(px - LTHIRD, 0, MAX_SCROLL)
    else scroll
  }

  /** What the camera update promises: it stays inside the level, it does not move
      while the player is inside the band, it puts the player exactly on the band edge
      the player crossed when the level allows it, it moves only toward the player,
      and it keeps a player inside the level entirely on screen. */
  lemma DeadZone(px: int, scroll: int)
    ensures var r := ScrollStep(px, scroll);
      && (0 <= scroll <= MAX_SCROLL ==> 0 <= r <= MAX_SCROLL)
      && (scroll + LTHIRD <= px <= scroll + RTHIRD ==> r == scroll)
      && (px > scroll + RTHIRD && 0 <= px - RTHIRD <= MAX_SCROLL ==> px - r == RTHIRD)
      && (px < scroll + LTHIRD && 0 <= px - LTHIRD <= MAX_SCROLL ==> px - r == LTHIRD)
      && (0 <= scroll <= MAX_SCROLL && px > scroll + RTHIRD ==> scroll <= r)
      && (0 <= scroll <= MAX_SCROLL && px < scroll + LTHIRD ==> r <= scroll)
      && (0 <= scroll <= MAX_SCROLL && 0 <= px <= MAX_PLAYER_X ==> 0 <= px - r <= CAM_W - TILE_SIZE)
  {
  }

  /** Where the first of the two background copies is drawn. */
  function BgOffset(scroll: int): (b: int)
    ensures scroll >= 0 ==> -(CAM_W as int) < b <= 0
  {
    -RustRem(scroll, CAM_W)
  }

  /** The background texture column seen at screen column sx when the copies are
      drawn at b and b + CAM_W. */
  function BgColumn(b: int, sx: int): int
  {
    if sx < b + CAM_W then sx - b else sx - b - CAM_W
  }

  /** Two copies drawn at b and b + CAM_W, with b in [-CAM_W, 0], cover every screen
      column, and each column shows a column of the texture. */
  lemma CopiesCover(b: int, sx: int)
    requires -(CAM_W as int) <= b <= 0 && 0 <= sx < CAM_W
    ensures b <= sx < b + 2 * CAM_W
    ensures 0 <= BgColumn(b, sx) < CAM_W
  {
  }

  /** The background scrolls with the level: at scroll offset s, screen column sx shows
      texture column (s + sx) mod CAM_W, so the two copies join without a seam. */
  lemma {:induction false} BackgroundSeamless(scroll: int, sx: int)
    requires scroll >= 0 && 0 <= sx < CAM_W
    ensures BgOffset(scroll) <= sx < BgOffset(scroll) + 2 * CAM_W
    ensures BgColumn(BgOffset(scroll), sx) == (scroll + sx) % CAM_W
  {
    var q, m := scroll / CAM_W, scroll % CAM_W;
    assert scroll == CAM_W * q + m;
    if sx + m < CAM_W {
      RemUnique(scroll + sx, q, sx + m, CAM_W);
    } else {
      RemUnique(scroll + sx, q + 1, sx + m - CAM_W, CAM_W);
    }
  }

  /** The row of bricks sits at the bottom of the screen. */
  const BRICK_Y: int := CAM_H - TILE_SIZE

  /** Screen x of the first brick drawn. */
  function BrickOffset(scroll: int): (off: int)
    ensures scroll >= 0 ==> -(TILE_SIZE as int) < off <= 0
  {
    -RustRem(scroll, TILE_SIZE)
  }

  /** Atlas index of the first brick drawn: `(scroll % (TILE_SIZE * 4)) / TILE_SIZE`. */
  function BrickStartIndex(scroll: int): (i: int)
    ensures scroll >= 0 ==> 0 <= i < 4
  {
    RustDiv(RustRem(scroll, 4 * TILE_SIZE), TILE_SIZE)
  }

  /** How many bricks the loop draws: those starting left of the right screen edge. */
  function BrickCount(scroll: int): nat
  {
    (CAM_W - BrickOffset(scroll) + TILE_SIZE - 1) / TILE_SIZE
  }

  /** The k-th brick drawn: atlas cell (i % 4) for the running index i, screen x one
      tile further right per brick. */
  function BrickBlit(scroll: int, k: int): Blit
  {
    Blit(Tile(RustRem(BrickStartIndex(scroll) + k, 4) * TILE_SIZE, 0),
         Tile(BrickOffset(scroll) + k * TILE_SIZE, BRICK_Y))
  }

  /** The bricks of one frame in drawing order, in closed form. */
  function BrickRow(scroll: int): seq<Blit>
  {
    seq(BrickCount(scroll), k => BrickBlit(scroll, k))
  }

  /** The brick loop of sdl13, sdl15 and sdl17 for one frame. */
  method DrawBricks(scroll: int) returns (row: seq<Blit>)
    ensures row == BrickRow(scroll)
  {
    var brickOffset := -RustRem(scroll, TILE_SIZE);
    var i := RustDiv(RustRem(scroll, TILE_SIZE * 4), TILE_SIZE);
    row := [];
    while brickOffset < CAM_W
      invariant brickOffset == BrickOffset(scroll) + |row| * TILE_SIZE
      invariant i == BrickStartIndex(scroll) + |row|
      invariant |row| <= BrickCount(scroll)
      invariant row == BrickRow(scroll)[..|row|]
      decreases CAM_W - brickOffset
    {
      var src := Tile(RustRem(i, 4) * TILE_SIZE, 0);
      var pos := Tile(brickOffset, CAM_H - TILE_SIZE);
      row := row + [Blit(src, pos)];
      i := i + 1;
      brickOffset := brickOffset + TILE_SIZE;
    }
  }

  /** Seven bricks when the first one shows at least 40 pixels, eight otherwise. */
  lemma BrickRowLength(scroll: int)
    requires scroll >= 0
    ensures |BrickRow(scroll)| == if scroll % TILE_SIZE <= 60 then 7 else 8
  {
  }

  /** Every screen column lies on the brick the column's offset from the first brick
      selects, and every brick drawn overlaps the screen. */
  lemma BricksCoverScreen(scroll: int, sx: int)
    requires scroll >= 0 && 0 <= sx < CAM_W
    ensures var k := (sx - BrickOffset(scroll)) / TILE_SIZE;
      0 <= k < |BrickRow(scroll)| &&
      BrickRow(scroll)[k].dst.x <= sx < BrickRow(scroll)[k].dst.x + TILE_SIZE
    ensures forall k :: 0 <= k < |BrickRow(scroll)| ==>
      BrickRow(scroll)[k].dst.x < CAM_W && 0 < BrickRow(scroll)[k].dst.x + TILE_SIZE
  {
  }

  /** The start index is the level tile number of the first brick, modulo 4. */
  lemma StartIndexIsTileMod4(scroll: int)
    requires scroll >= 0
    ensures BrickStartIndex(scroll) == (scroll / TILE_SIZE) % 4
  {
    var q, r := scroll / 400, scroll % 400;
    var a, b := r / 100, r % 100;
    assert scroll == 100 * (4 * q + a) + b;
    assert scroll / 100 == 4 * q + a;
  }

  /** The brick drawn k-th is level tile n = scroll / TILE_SIZE + k, and it is drawn at
      that tile's place with atlas cell n mod 4, so each tile keeps its cell while the
      level scrolls. */
  lemma BrickAtlasContinuity(scroll: int, k: int)
    requires scroll >= 0 && 0 <= k < |BrickRow(scroll)|
    ensures var n := scroll / TILE_SIZE + k;
      BrickRow(scroll)[k].dst.x + scroll == n * TILE_SIZE &&
      BrickRow(scroll)[k].src.x == (n % 4) * TILE_SIZE &&
      BrickRow(scroll)[k].src.y == 0 && BrickRow(scroll)[k].dst.y == BRICK_Y
  {
    StartIndexIsTileMod4(scroll);
    var q := scroll / TILE_SIZE;
    assert scroll == TILE_SIZE * q + scroll % TILE_SIZE;
    var blit := BrickBlit(scroll, k);
    assert BrickRow(scroll)[k] == blit;
    assert blit.dst.x + scroll == (q + k) * TILE_SIZE;
    ModShift(q, k, 4);
  }
}
