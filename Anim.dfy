/** sdl15: a walker that moves horizontally only, followed by the dead-zone camera, with
    a four-pose walk cycle that advances on moving frames and a sprite that faces the
    way it last moved. */
module Anim {
  import opened Screen
  import opened Kinematics
  import opened Camera

  /** The redesigned player of sdl15: a position that `update_pos` moves horizontally. */
  class Player {
    var pos: Rect

    constructor (pos: Rect)
      ensures this.pos == pos
    {
      this.pos := pos;
    }

    function X(): int
      reads this
    {
      pos.x
    }

    function Y(): int
      reads this
    {
      pos.y
    }

    /** `update_pos`: x moves by vel and is clamped to the bounds; y never changes. */
    method UpdatePos(vel: int, xBounds: (int, int))
      requires xBounds.0 <= xBounds.1
      modifies this
      ensures pos == old(pos).(x := Clamp(old(pos).x + vel, xBounds.0, xBounds.1))
      ensures xBounds.0 <= pos.x <= xBounds.1 && pos.y == old(pos.y)
    {
      pos := pos.(x := Clamp(pos.x + vel, xBounds.0, xBounds.1));
    }
  }

  /** Number of values the animation counter takes before it wraps. */
  const CYCLE: nat := 24

  /** Number of moving frames each pose is shown for. */
  const POSE_FRAMES: nat := 6

  /** The facing update: moving right faces right (no flip), moving left flips, and
      standing still keeps the last facing. */
  function FlipStep(xVel: int, flip: bool): (f: bool)
    ensures xVel > 0 ==> !f
    ensures xVel < 0 ==> f
    ensures xVel == 0 ==> f == flip
  {
    if xVel > 0 && flip then false
    else if xVel < 0 && !flip then true
    else flip
  }

  /** The counter update of a moving frame: `if (frames + 1) / 6 > 3 { 0 } else { frames + 1 }`,
      which is a count modulo 24. */
  function NextFrame(frames: int): (f: int)
    ensures 0 <= frames ==> 0 <= f < CYCLE
    ensures 0 <= frames < CYCLE ==> f == (frames + 1) % CYCLE
  {
    if RustDiv(frames + 1, POSE_FRAMES) > 3 then 0 else frames + 1
  }

  /** The atlas x of the pose shown for a counter value. */
  function SrcX(frames: int): (x: int)
    ensures 0 <= frames < CYCLE ==> x == 0 || x == 100 || x == 200 || x == 300
  {
    RustDiv(frames, POSE_FRAMES) * TILE_SIZE
  }

  /** The counter after n moving frames. */
  function NextFrameIter(frames: int, n: nat): int
  {
    if n == 0 then frames else NextFrame(NextFrameIter(frames, n - 1))
  }

  /** The counter step in arithmetic terms: a counter that held f0 + m modulo the
      cycle and then advanced on a moving frame holds f0 + m + 1 modulo the cycle. */
  lemma CountStep(f0: int, m: nat, total: nat, before: int, after: int, moving: bool)
    requires f0 >= 0 && before == (f0 + m) % CYCLE
    requires after == if moving then (before + 1) % CYCLE else before
    requires total == m + (if moving then 1 else 0)
    ensures after == (f0 + total) % CYCLE
  {
    if moving {
      ModShift(f0 + m, 1, CYCLE);
    }
  }

  /** n moving frames add n to the counter, modulo 24. */
  lemma {:induction false} FramesAfter(frames: int, n: nat)
    requires 0 <= frames < CYCLE
    ensures NextFrameIter(frames, n) == (frames + n) % CYCLE
  {
    if n > 0 {
      FramesAfter(frames, n - 1);
      ModShift(frames + n - 1, 1, CYCLE);
    }
  }

  /** After any multiple of 24 moving frames the counter, and so the pose, is back
      where it started. */
  lemma WalkCycle(frames: int, n: nat)
    requires 0 <= frames < CYCLE && n % CYCLE == 0
    ensures NextFrameIter(frames, n) == frames
  {
    FramesAfter(frames, n);
    var q := n / CYCLE;
    assert n == CYCLE * q;
    RemUnique(frames + n, q, frames, CYCLE);
  }

  /** Counter value 6j + r, for j in [0, 4) and r in [0, 6), shows pose j. */
  lemma PoseOfCounter(j: int, r: int)
    requires 0 <= j < 4 && 0 <= r < POSE_FRAMES
    ensures SrcX(POSE_FRAMES * j + r) == j * TILE_SIZE
  {
  }

  /** Starting on the first frame of pose k, the pose after n moving frames is
      k + n / 6 modulo 4: each pose is held for six moving frames, in cycle order. */
  lemma PoseHeld(k: int, n: nat)
    requires 0 <= k < 4
    ensures SrcX(NextFrameIter(POSE_FRAMES * k, n)) == ((k + n / POSE_FRAMES) % 4) * TILE_SIZE
  {
    var start := POSE_FRAMES * k;
    var j, r := k + n / POSE_FRAMES, n % POSE_FRAMES;
    var q, jm := j / 4, j % 4;
    var b := POSE_FRAMES * jm + r;
    assert NextFrameIter(start, n) == b by {
      FramesAfter(start, n);
      assert start + n == CYCLE * q + b;
      RemUnique(start + n, q, b, CYCLE);
    }
    assert SrcX(b) == jm * TILE_SIZE by {
      PoseOfCounter(jm, r);
    }
  }

  /** What the sdl15 game loop carries between frames. */
  datatype State = State(x: int, y: int, xVel: int, scroll: int, flip: bool, frames: int, srcX: int)

  /** The walker starts one tile from the left, two tiles above the bottom, at rest,
      facing right, on pose 0. */
  const Start: State := State(TILE_SIZE, CAM_H - 2 * TILE_SIZE, 0, 0, false, 0, 0)

  /** Position and camera inside the level, walker on screen, speed within the limit,
      counter in [0, 24) and the pose the one the counter selects. */
  predicate Inv(s: State)
  {
    && 0 <= s.x <= MAX_PLAYER_X
    && Abs(s.xVel) <= SPEED_LIMIT
    && 0 <= s.scroll <= MAX_SCROLL
    && 0 <= s.x - s.scroll <= CAM_W - TILE_SIZE
    && 0 <= s.frames < CYCLE
    && s.srcX == SrcX(s.frames)
  }

  /** The animation update of one frame: the counter and pose advance only when the
      walker moves. */
  function Animate(xVel: int, frames: int, srcX: int): (int, int)
  {
    if xVel != 0 then
      var f := NextFrame(frames);
      (f, SrcX(f))
    else
      (frames, srcX)
  }

  /** One frame: velocity from A and D, the clamped horizontal move, the camera, the
      facing and the animation. */
  function Step(s: State, keys: Keys): State
  {
    var xVel := NextVelocity(s.xVel, InputDelta(keys.a, keys.d));
    var x := Clamp(s.x + xVel, 0, MAX_PLAYER_X);
    var anim := Animate(xVel, s.frames, s.srcX);
    State(x, s.y, xVel, ScrollStep(x, s.scroll), FlipStep(xVel, s.flip), anim.0, anim.1)
  }

  /** One frame keeps the invariant and never changes y. */
  lemma StepInv(s: State, keys: Keys)
    requires Inv(s)
    ensures Inv(Step(s, keys)) && Step(s, keys).y == s.y
  {
    var xVel := NextVelocity(s.xVel, InputDelta(keys.a, keys.d));
    DeadZone(Clamp(s.x + xVel, 0, MAX_PLAYER_X), s.scroll);
  }

  function Simulate(s: State, inputs: seq<Keys>): State
  {
    if inputs == [] then s else Step(Simulate(s, inputs[..|inputs| - 1]), inputs[|inputs| - 1])
  }

  /** Every state the game loop reaches satisfies the invariant, and y never changes. */
  lemma {:induction false} SimulateInv(s: State, inputs: seq<Keys>)
    requires Inv(s)
    ensures Inv(Simulate(s, inputs)) && Simulate(s, inputs).y == s.y
  {
    if inputs != [] {
      SimulateInv(s, inputs[..|inputs| - 1]);
      StepInv(Simulate(s, inputs[..|inputs| - 1]), inputs[|inputs| - 1]);
    }
  }

  /** The number of frames, among the given ones, after which the walker was moving. */
  function MovingFrames(s: State, inputs: seq<Keys>): nat
  {
    if inputs == [] then 0
    else MovingFrames(s, inputs[..|inputs| - 1]) + (if Simulate(s, inputs).xVel != 0 then 1 else 0)
  }

  /** One frame advances the counter by one, modulo 24, and shows the pose of the new
      counter if the walker moves after it, and leaves both alone otherwise. */
  lemma StepFrames(s: State, keys: Keys)
    requires 0 <= s.frames < CYCLE
    ensures var t := Step(s, keys);
      t.frames == (if t.xVel != 0 then (s.frames + 1) % CYCLE else s.frames)
    ensures var t := Step(s, keys);
      t.srcX == (if t.xVel != 0 then SrcX(t.frames) else s.srcX)
  {
  }

  /** The counter counts moving frames modulo 24; standing still freezes it, and with
      it the pose, which the invariant ties to the counter. */
  lemma {:induction false} SimulateFrames(s: State, inputs: seq<Keys>)
    requires 0 <= s.frames < CYCLE
    ensures Simulate(s, inputs).frames == (s.frames + MovingFrames(s, inputs)) % CYCLE
  {
    if inputs != [] {
      var init, last := inputs[..|inputs| - 1], inputs[|inputs| - 1];
      var prev := Simulate(s, init);
      var t := Step(prev, last);
      assert Simulate(s, inputs) == t;
      SimulateFrames(s, init);
      StepFrames(prev, last);
      CountStep(s.frames, MovingFrames(s, init), MovingFrames(s, inputs), prev.frames, t.frames, t.xVel != 0);
    }
  }

  /** The velocity of the last frame after which the walker was moving, or 0 if it
      never moved. */
  function LastMove(s: State, inputs: seq<Keys>): int
  {
    if inputs == [] then 0
    else if Simulate(s, inputs).xVel != 0 then Simulate(s, inputs).xVel
    else LastMove(s, inputs[..|inputs| - 1])
  }

  /** The sprite faces the way the walker last moved: flipped exactly when that move
      was to the left, and as at the start if it never moved. */
  lemma {:induction false} FlipFollowsLastMove(s: State, inputs: seq<Keys>)
    ensures Simulate(s, inputs).flip == if LastMove(s, inputs) == 0 then s.flip else LastMove(s, inputs) < 0
  {
    if inputs != [] {
      FlipFollowsLastMove(s, inputs[..|inputs| - 1]);
    }
  }

  /** One pass of the sdl15 game loop body on the player object and the loop locals; it
      also returns what the frame draws: background offset, bricks, and the walker's
      atlas cell, screen rectangle and flip flag. */
  method Frame(p: Player, xVel0: int, scroll0: int, flip0: bool, frames0: int, srcX0: int, keys: Keys)
    returns (xVel: int, scroll: int, flip: bool, frames: int, srcX: int,
             bgOffset: int, bricks: seq<Blit>, playerSrc: Rect, playerDst: Rect)
    modifies p
    ensures State(p.X(), p.Y(), xVel, scroll, flip, frames, srcX)
      == Step(State(old(p.X()), old(p.Y()), xVel0, scroll0, flip0, frames0, srcX0), keys)
    ensures bgOffset == BgOffset(scroll) && bricks == BrickRow(scroll)
    ensures playerSrc == Tile(srcX, 0) && playerDst == Tile(p.X() - scroll, p.Y())
  {
    ghost var before := State(p.X(), p.Y(), xVel0, scroll0, flip0, frames0, srcX0);
    var xDeltav := 0;
    if keys.a { xDeltav := xDeltav - ACCEL_RATE; }
    if keys.d { xDeltav := xDeltav + ACCEL_RATE; }
    xDeltav := Resist(xVel0, xDeltav);
    xVel := Clamp(xVel0 + xDeltav, -SPEED_LIMIT, SPEED_LIMIT);
    assert xVel == NextVelocity(before.xVel, InputDelta(keys.a, keys.d));

    p.UpdatePos(xVel, (0, LEVEL_LEN - TILE_SIZE));

    scroll := if p.X() > scroll0 + RTHIRD then
        Clamp(p.X() - RTHIRD, 0, LEVEL_LEN - CAM_W)
      else if p.X() < scroll0 + LTHIRD then
        Clamp(p.X() - LTHIRD, 0, LEVEL_LEN - CAM_W)
      else
        scroll0;

    assert scroll == ScrollStep(p.X(), scroll0);
    bgOffset := -RustRem(scroll, CAM_W);

    flip := if xVel > 0 && flip0 then false
      else if xVel < 0 && !flip0 then true
      else flip0;

    frames := frames0;
    if xVel != 0 {
      frames := if RustDiv(frames + 1, 6) > 3 then 0 else frames + 1;
      srcX := RustDiv(frames, 6) * TILE_SIZE;
    } else {
      srcX := srcX0;
    }
    assert (frames, srcX) == Animate(xVel, frames0, srcX0);

    bricks := DrawBricks(scroll);
    playerSrc := Tile(srcX, 0);
    playerDst := Tile(p.X() - scroll, p.Y());
  }

  /** The game loop of sdl15 over the keys held in successive frames. */
  method Run(inputs: seq<Keys>) returns (s: State)
    ensures s == Simulate(Start, inputs)
    ensures Inv(s) && s.y == Start.y
  {
    var scroll := 0;
    var p := new Player(Rect(TILE_SIZE, CAM_H - TILE_SIZE * 2, TILE_SIZE, TILE_SIZE));
    var frames := 0;
    var srcX := 0;
    var flip := false;
    var xVel := 0;
    var i := 0;
    while i < |inputs|
      invariant i <= |inputs|
      invariant State(p.X(), p.Y(), xVel, scroll, flip, frames, srcX) == Simulate(Start, inputs[..i])
    {
      var bgOffset, bricks, playerSrc, playerDst;
      xVel, scroll, flip, frames, srcX, bgOffset, bricks, playerSrc, playerDst :=
        Frame(p, xVel, scroll, flip, frames, srcX, inputs[i]);
      assert inputs[..i + 1][..i] == inputs[..i];
      i := i + 1;
    }
    assert inputs[..i] == inputs;
    s := State(p.X(), p.Y(), xVel, scroll, flip, frames, srcX);
    SimulateInv(Start, inputs);
  }
}
