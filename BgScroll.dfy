/** sdl12: a plane steered with W/A/S/D inside the window while the background scrolls
    left by one pixel every frame, whatever the player does. */
module BgScroll {
  import opened Screen
  import opened Kinematics
  import opened Sprites
  import Camera

  /** One frame of the background counter: down by one, and back to -1 once it has
      passed -CAM_W. */
  function BgStep(b: int): (r: int)
    ensures -(CAM_W as int) <= b <= 0 ==> -(CAM_W as int) <= r <= -1
    ensures r == b - 1 || (b - 1 < -(CAM_W as int) && r == -1)
  {
    if b - 1 < -(CAM_W as int) then -1 else b - 1
  }

  /** The background counter after n frames from b. */
  function BgIter(b: int, n: nat): int
  {
    if n == 0 then b else BgStep(BgIter(b, n - 1))
  }

  /** From 0 the counter runs -1, -2, ..., -CAM_W and then starts again at -1. */
  lemma {:induction false} BgClosedForm(n: nat)
    requires n >= 1
    ensures BgIter(0, n) == -1 - (n - 1) % CAM_W
  {
    if n > 1 {
      BgClosedForm(n - 1);
      var q, m := (n - 2) / CAM_W, (n - 2) % CAM_W;
      assert n - 2 == CAM_W * q + m;
      if m == CAM_W - 1 {
        RemUnique(n - 1, q + 1, 0, CAM_W);
      } else {
        RemUnique(n - 1, q, m + 1, CAM_W);
      }
    }
  }

  /** The counter repeats with period CAM_W. */
  lemma BgPeriodic(n: nat)
    requires n >= 1
    ensures BgIter(0, n + CAM_W) == BgIter(0, n)
  {
    BgClosedForm(n);
    BgClosedForm(n + CAM_W);
    var q, m := (n - 1) / CAM_W, (n - 1) % CAM_W;
    assert n - 1 == CAM_W * q + m;
    RemUnique(n + CAM_W - 1, q + 1, m, CAM_W);
  }

  /** After n frames screen column sx shows texture column (sx + n) mod CAM_W: the two
      copies always cover the window and the picture moves left one column per frame. */
  lemma BackgroundAdvances(n: nat, sx: int)
    requires 0 <= sx < CAM_W
    ensures var b := BgIter(0, n);
      b <= sx < b + 2 * CAM_W && Camera.BgColumn(b, sx) == (sx + n) % CAM_W
  {
    if n >= 1 {
      var q, m := (n - 1) / CAM_W, (n - 1) % CAM_W;
      assert n - 1 == CAM_W * q + m;
      var b := BgIter(0, n);
      assert b == -1 - m by { BgClosedForm(n); }
      if sx + m + 1 < CAM_W {
        assert Camera.BgColumn(b, sx) == (sx + n) % CAM_W by {
          RemUnique(sx + n, q, sx + m + 1, CAM_W);
        }
      } else {
        assert Camera.BgColumn(b, sx) == (sx + n) % CAM_W by {
          RemUnique(sx + n, q + 1, sx + m + 1 - CAM_W, CAM_W);
        }
      }
    }
  }

  /** The right and bottom limits of the player in sdl12: the window minus one tile. */
  const MAX_X: int := CAM_W - TILE_SIZE
  const MAX_Y: int := CAM_H - TILE_SIZE

  /** What the sdl12 game loop carries between frames. */
  datatype State = State(x: int, y: int, xVel: int, yVel: int, bg: int)

  /** The plane starts centred, at rest, with the background at offset 0. */
  const Start: State := State(CAM_W / 2 - TILE_SIZE / 2, CAM_H / 2 - TILE_SIZE / 2, 0, 0, 0)

  /** The player is inside the window, within the speed limit, and the counter lies in
      [-CAM_W, 0]. */
  predicate Inv(s: State)
  {
    && 0 <= s.x <= MAX_X && 0 <= s.y <= MAX_Y
    && Abs(s.xVel) <= SPEED_LIMIT && Abs(s.yVel) <= SPEED_LIMIT
    && -(CAM_W as int) <= s.bg <= 0
  }

  /** One frame: velocities, the clamped move, the background counter. */
  function Step(s: State, keys: Keys): State
  {
    var xVel := NextVelocity(s.xVel, InputDelta(keys.a, keys.d));
    var yVel := NextVelocity(s.yVel, InputDelta(keys.w, keys.s));
    State(Clamp(s.x + xVel, 0, MAX_X), Clamp(s.y + yVel, 0, MAX_Y), xVel, yVel, BgStep(s.bg))
  }

  /** One frame keeps the invariant, leaves the counter negative, and moves the plane
      at most SPEED_LIMIT pixels along each axis. */
  lemma StepInv(s: State, keys: Keys)
    requires Inv(s)
    ensures var t := Step(s, keys);
      Inv(t) && t.bg <= -1 && Abs(t.x - s.x) <= SPEED_LIMIT && Abs(t.y - s.y) <= SPEED_LIMIT
  {
  }

  function Simulate(s: State, inputs: seq<Keys>): State
  {
    if inputs == [] then s else Step(Simulate(s, inputs[..|inputs| - 1]), inputs[|inputs| - 1])
  }

  /** Every state the game loop reaches satisfies the invariant, and after the first
      frame the counter is negative. */
  lemma {:induction false} SimulateInv(inputs: seq<Keys>)
    ensures Inv(Simulate(Start, inputs))
    ensures inputs != [] ==> Simulate(Start, inputs).bg <= -1
  {
    if inputs != [] {
      SimulateInv(inputs[..|inputs| - 1]);
      StepInv(Simulate(Start, inputs[..|inputs| - 1]), inputs[|inputs| - 1]);
    }
  }

  /** The counter is independent of the keys: after n frames it is BgIter(0, n). */
  lemma {:induction false} SimulateBg(inputs: seq<Keys>)
    ensures Simulate(Start, inputs).bg == BgIter(0, |inputs|)
  {
    if inputs != [] {
      SimulateBg(inputs[..|inputs| - 1]);
    }
  }

  /** One pass of the sdl12 game loop body on the player object and the loop locals. */
  method Frame(p: Player, xVel0: int, yVel0: int, bgOffset0: int, keys: Keys)
    returns (xVel: int, yVel: int, bgOffset: int)
    modifies p
    ensures State(p.X(), p.Y(), xVel, yVel, bgOffset) == Step(State(old(p.X()), old(p.Y()), xVel0, yVel0, bgOffset0), keys)
  {
    ghost var before := State(p.X(), p.Y(), xVel0, yVel0, bgOffset0);
    var xDeltav := 0;
    var yDeltav := 0;
    if keys.w { yDeltav := yDeltav - ACCEL_RATE; }
    if keys.a { xDeltav := xDeltav - ACCEL_RATE; }
    if keys.s { yDeltav := yDeltav + ACCEL_RATE; }
    if keys.d { xDeltav := xDeltav + ACCEL_RATE; }
    xDeltav := Resist(xVel0, xDeltav);
    yDeltav := Resist(yVel0, yDeltav);
    xVel := Clamp(xVel0 + xDeltav, -SPEED_LIMIT, SPEED_LIMIT);
    yVel := Clamp(yVel0 + yDeltav, -SPEED_LIMIT, SPEED_LIMIT);
    assert xVel == NextVelocity(before.xVel, InputDelta(keys.a, keys.d));
    assert yVel == NextVelocity(before.yVel, InputDelta(keys.w, keys.s));

    p.UpdatePos((xVel, yVel), (0, CAM_W - TILE_SIZE), (0, CAM_H - TILE_SIZE));

    bgOffset := bgOffset0 - 1;
    if bgOffset < -(CAM_W as int) {
      bgOffset := -1;
    }
  }

  /** The game loop of sdl12 over the keys held in successive frames. */
  method Run(inputs: seq<Keys>) returns (s: State)
    ensures s == Simulate(Start, inputs)
    ensures Inv(s)
    ensures inputs != [] ==> s.bg <= -1
  {
    var bgOffset := 0;
    var p := new Player(Plane, Rect(CAM_W / 2 - TILE_SIZE / 2, CAM_H / 2 - TILE_SIZE / 2, TILE_SIZE, TILE_SIZE));
    var xVel := 0;
    var yVel := 0;
    var i := 0;
    while i < |inputs|
      invariant i <= |inputs|
      invariant State(p.X(), p.Y(), xVel, yVel, bgOffset) == Simulate(Start, inputs[..i])
    {
      xVel, yVel, bgOffset := Frame(p, xVel, yVel, bgOffset, inputs[i]);
      assert inputs[..i + 1][..i] == inputs[..i];
      i := i + 1;
    }
    assert inputs[..i] == inputs;
    s := State(p.X(), p.Y(), xVel, yVel, bgOffset);
    SimulateInv(inputs);
  }
}
