/** sdl17: the sdl15 walker with a frame counter that closes a measurement window once
    more than five seconds have passed since the window opened. Only the integer
    counter is modelled; the time since the window opened is an input of each frame. */
module Fps {
  import opened Screen
  import opened Kinematics
  import Anim
  import Camera

  /** Five seconds, in nanoseconds: a window closes when strictly more has elapsed. */
  const WINDOW_NANOS: nat := 5_000_000_000

  /** One frame's input: the keys held, and the time elapsed since the window opened. */
  datatype Input = Input(keys: Keys, elapsed: nat)

  /** The frame counter at the end of a frame, and the frame count of the window that
      frame closed, if it closed one (the numerator of the average it reports). */
  function CountFrame(allFrames: nat, elapsed: nat): (r: (nat, Option<nat>))
    ensures elapsed > WINDOW_NANOS <==> r.1.Some?
    ensures r.1.Some? ==> r.0 == 0 && r.1.value == allFrames + 1
    ensures r.1.None? ==> r.0 == allFrames + 1
  {
    var n: nat := allFrames + 1;
    if elapsed > WINDOW_NANOS then (0, Some(n)) else (n, None)
  }

  /** What the sdl17 game loop carries between frames. */
  datatype State = State(walker: Anim.State, allFrames: nat)

  const Start: State := State(Anim.Start, 0)

  /** One frame: the sdl15 step, then the counter. */
  function Step(s: State, input: Input): State
  {
    State(Anim.Step(s.walker, input.keys), CountFrame(s.allFrames, input.elapsed).0)
  }

  function Simulate(s: State, inputs: seq<Input>): State
  {
    if inputs == [] then s else Step(Simulate(s, inputs[..|inputs| - 1]), inputs[|inputs| - 1])
  }

  /** The frame counts of the windows closed so far, in order. */
  function Reports(s: State, inputs: seq<Input>): seq<nat>
  {
    if inputs == [] then []
    else
      var prev := Simulate(s, inputs[..|inputs| - 1]);
      match CountFrame(prev.allFrames, inputs[|inputs| - 1].elapsed).1
      case Some(n) => Reports(s, inputs[..|inputs| - 1]) + [n]
      case None => Reports(s, inputs[..|inputs| - 1])
  }

  function Sum(xs: seq<nat>): nat
  {
    if xs == [] then 0 else Sum(xs[..|xs| - 1]) + xs[|xs| - 1]
  }

  /** No frame is lost or counted twice: the frames reported by the closed windows
      plus the frames of the open window are all the frames run. */
  lemma {:induction false} FramesConserved(inputs: seq<Input>)
    ensures Sum(Reports(Start, inputs)) + Simulate(Start, inputs).allFrames == |inputs|
  {
    if inputs != [] {
      var init := inputs[..|inputs| - 1];
      FramesConserved(init);
      var rs := Reports(Start, init);
      if CountFrame(Simulate(Start, init).allFrames, inputs[|inputs| - 1].elapsed).1.Some? {
        assert (rs + [Simulate(Start, init).allFrames + 1])[..|rs|] == rs;
      }
    }
  }

  /** The walker part of sdl17 is exactly sdl15: the counter never affects it. */
  lemma {:induction false} WalkerIsAnim(inputs: seq<Input>)
    ensures Simulate(Start, inputs).walker == Anim.Simulate(Anim.Start, seq(|inputs|, i requires 0 <= i < |inputs| => inputs[i].keys))
  {
    if inputs != [] {
      var init := inputs[..|inputs| - 1];
      WalkerIsAnim(init);
      var keys := seq(|inputs|, i requires 0 <= i < |inputs| => inputs[i].keys);
      assert keys[..|keys| - 1] == seq(|init|, i requires 0 <= i < |init| => init[i].keys);
    }
  }

  /** Every state the sdl17 loop reaches satisfies the sdl15 invariant. */
  lemma SimulateInv(inputs: seq<Input>)
    ensures Anim.Inv(Simulate(Start, inputs).walker)
  {
    WalkerIsAnim(inputs);
    Anim.SimulateInv(Anim.Start, seq(|inputs|, i requires 0 <= i < |inputs| => inputs[i].keys));
  }

  /** One pass of the sdl17 loop body: the sdl15 frame on the walker object, with its
      drawing, then the counter code, which may close a window and report its count. */
  method Frame(p: Anim.Player, xVel0: int, scroll0: int, flip0: bool, frames0: int, srcX0: int,
               allFrames0: nat, input: Input)
    returns (xVel: int, scroll: int, flip: bool, frames: int, srcX: int, allFrames: nat,
             report: Option<nat>, bgOffset: int, bricks: seq<Blit>, playerSrc: Rect, playerDst: Rect)
    modifies p
    ensures State(Anim.State(p.X(), p.Y(), xVel, scroll, flip, frames, srcX), allFrames)
      == Step(State(Anim.State(old(p.X()), old(p.Y()), xVel0, scroll0, flip0, frames0, srcX0), allFrames0), input)
    ensures report == CountFrame(allFrames0, input.elapsed).1
    ensures bgOffset == Camera.BgOffset(scroll) && bricks == Camera.BrickRow(scroll)
    ensures playerSrc == Tile(srcX, 0) && playerDst == Tile(p.X() - scroll, p.Y())
  {
    xVel, scroll, flip, frames, srcX, bgOffset, bricks, playerSrc, playerDst :=
      Anim.Frame(p, xVel0, scroll0, flip0, frames0, srcX0, input.keys);
    allFrames := allFrames0 + 1;
    report := None;
    if input.elapsed > WINDOW_NANOS {
      report := Some(allFrames);
      allFrames := 0;
    }
  }

  /** The game loop of sdl17 over successive frames: the sdl15 frame, then the counter
      code. It returns the final state and the frame counts of the closed windows. */
  method Run(inputs: seq<Input>) returns (s: State, reports: seq<nat>)
    ensures s == Simulate(Start, inputs) && reports == Reports(Start, inputs)
    ensures Anim.Inv(s.walker)
    ensures Sum(reports) + s.allFrames == |inputs|
  {
    var scroll := 0;
    var p := new Anim.Player(Rect(TILE_SIZE, CAM_H - TILE_SIZE * 2, TILE_SIZE, TILE_SIZE));
    var frames := 0;
    var srcX := 0;
    var flip := false;
    var xVel := 0;
    var allFrames: nat := 0;
    reports := [];
    var i := 0;
    while i < |inputs|
      invariant i <= |inputs|
      invariant State(Anim.State(p.X(), p.Y(), xVel, scroll, flip, frames, srcX), allFrames) == Simulate(Start, inputs[..i])
      invariant reports == Reports(Start, inputs[..i])
    {
      var report, bgOffset, bricks, playerSrc, playerDst;
      xVel, scroll, flip, frames, srcX, allFrames, report, bgOffset, bricks, playerSrc, playerDst :=
        Frame(p, xVel, scroll, flip, frames, srcX, allFrames, inputs[i]);
      if report.Some? {
        reports := reports + [report.value];
      }
      assert inputs[..i + 1][..i] == inputs[..i];
      i := i + 1;
    }
    assert inputs[..i] == inputs;
    s := State(Anim.State(p.X(), p.Y(), xVel, scroll, flip, frames, srcX), allFrames);
    assert Anim.Inv(s.walker) by { SimulateInv(inputs); }
    assert Sum(reports) + s.allFrames == |inputs| by { FramesConserved(inputs); }
  }
}
