/** sdl13: a bird steered with W/A/S/D through a level LEVEL_LEN pixels wide, followed by
    the dead-zone camera, over a scrolling background and a row of bricks. */
module SideScroll {
  import opened Screen
  import opened Kinematics
  import opened Sprites
  import opened Camera

  /** The lowest player position: two tiles above the bottom, clear of the bricks. */
  const MAX_Y: int := CAM_H - 2 * TILE_SIZE

  /** What the sdl13 game loop carries between frames: the player position in the
      level, the velocity and the scroll offset. */
  datatype State = State(x: int, y: int, xVel: int, yVel: int, scroll: int)

  /** The bird starts at (270, 190) in the level, at rest, with the camera at 0. */
  const Start: State := State(CAM_W / 2 - TILE_SIZE / 2, CAM_H / 2 - TILE_SIZE / 2, 0, 0, 0)

  /** The player is inside the level, within the speed limit, the camera is inside the
      level, and the player is drawn entirely on screen. */
  predicate Inv(s: State)
  {
    && 0 <= s.x <= MAX_PLAYER_X && 0 <= s.y <= MAX_Y
    && Abs(s.xVel) <= SPEED_LIMIT && Abs(s.yVel) <= SPEED_LIMIT
    && 0 <= s.scroll <= MAX_SCROLL
    && 0 <= s.x - s.scroll <= CAM_W - TILE_SIZE
  }

  /** One frame: velocities, the move clamped to the level, then the camera. */
  function Step(s: State, keys: Keys): State
  {
    var xVel := NextVelocity(s.xVel, InputDelta(keys.a, keys.d));
    var yVel := NextVelocity(s.yVel, InputDelta(keys.w, keys.s));
    var x := Clamp(s.x + xVel, 0, MAX_PLAYER_X);
    var y := Clamp(s.y + yVel, 0, MAX_Y);
    State(x, y, xVel, yVel, ScrollStep(x, s.scroll))
  }

  /** One frame keeps the invariant. */
  lemma StepInv(s: State, keys: Keys)
    requires Inv(s)
    ensures Inv(Step(s, keys))
  {
    var xVel := NextVelocity(s.xVel, InputDelta(keys.a, keys.d));
    DeadZone(Clamp(s.x + xVel, 0, MAX_PLAYER_X), s.scroll);
  }

  function Simulate(s: State, inputs: seq<Keys>): State
  {
    if inputs == [] then s else Step(Simulate(s, inputs[..|inputs| - 1]), inputs[|inputs| - 1])
  }

  /** Every state the game loop reaches satisfies the invariant. */
  lemma {:induction false} SimulateInv(inputs: seq<Keys>)
    ensures Inv(Simulate(Start, inputs))
  {
    if inputs != [] {
      SimulateInv(inputs[..|inputs| - 1]);
      StepInv(Simulate(Start, inputs[..|inputs| - 1]), inputs[|inputs| - 1]);
    }
  }

  /** One pass of the sdl13 game loop body on the player object and the loop locals;
      it also returns what the frame draws: the background offset, the bricks and the
      player's screen rectangle. */
  method Frame(p: Player, xVel0: int, yVel0: int, scroll0: int, keys: Keys)
    returns (xVel: int, yVel: int, scroll: int, bgOffset: int, bricks: seq<Blit>, playerDst: Rect)
    modifies p
    ensures State(p.X(), p.Y(), xVel, yVel, scroll) == Step(State(old(p.X()), old(p.Y()), xVel0, yVel0, scroll0), keys)
    ensures bgOffset == BgOffset(scroll) && bricks == BrickRow(scroll)
    ensures playerDst == Tile(p.X() - scroll, p.Y())
  {
    ghost var before := State(p.X(), p.Y(), xVel0, yVel0, scroll0);
    var xDeltav := 0;
    var yDeltav := 0;
    if keys.w { yDeltav := yDeltav - ACCEL_RATE; }
    if keys.a { xDeltav := xDeltav - ACCEL_RATE; }
    if keys.s { yDeltav := yDeltav + ACCEL_RATE; }
    if keys.d { xDeltav := xDeltav + ACCEL_RATE; }
    xDeltav := Resist(xVel0, xDeltav);
    yDeltav := Resist(yVel0, yDeltav);
    xVel := Clamp(xVel0 + xDeltav, -SPEED_LIMIT, SPEED_LIMIT);
    yVel := Clamp(yVel0 + yDeltav, -SPEED_LIMIT, SPEED_LIMIT);
    assert xVel == NextVelocity(before.xVel, InputDelta(keys.a, keys.d));
    assert yVel == NextVelocity(before.yVel, InputDelta(keys.w, keys.s));

    p.UpdatePos((xVel, yVel), (0, LEVEL_LEN - TILE_SIZE), (0, CAM_H - 2 * TILE_SIZE));

    scroll := if p.X() > scroll0 + RTHIRD then
        Clamp(p.X() - RTHIRD, 0, LEVEL_LEN - CAM_W)
      else if p.X() < scroll0 + LTHIRD then
        Clamp(p.X() - LTHIRD, 0, LEVEL_LEN - CAM_W)
      else
        scroll0;

    bgOffset := -RustRem(scroll, CAM_W);
    bricks := DrawBricks(scroll);
    playerDst := Tile(p.X() - scroll, p.Y());
  }

  /** The game loop of sdl13 over the keys held in successive frames. Each frame's
      drawing is what Frame returns for it; the loop keeps only the state. */
  method Run(inputs: seq<Keys>) returns (s: State)
    ensures s == Simulate(Start, inputs)
    ensures Inv(s)
  {
    var scroll := 0;
    var p := new Player(Bird, Rect(CAM_W / 2 - TILE_SIZE / 2, CAM_H / 2 - TILE_SIZE / 2, TILE_SIZE, TILE_SIZE));
    var xVel := 0;
    var yVel := 0;
    var i := 0;
    while i < |inputs|
      invariant i <= |inputs|
      invariant State(p.X(), p.Y(), xVel, yVel, scroll) == Simulate(Start, inputs[..i])
    {
      var bgOffset, bricks, playerDst;
      xVel, yVel, scroll, bgOffset, bricks, playerDst := Frame(p, xVel, yVel, scroll, inputs[i]);
      assert inputs[..i + 1][..i] == inputs[..i];
      i := i + 1;
    }
    assert inputs[..i] == inputs;
    s := State(p.X(), p.Y(), xVel, yVel, scroll);
    SimulateInv(inputs);
  }
}
