/** sdl06: a square whose velocity changes by one unit on each W/A/S/D key press
    event and whose position advances by its velocity every frame, with no drag, no
    speed cap and no bounds. */
module Motion {
  import opened Screen

  datatype Keycode = W | A | S | D | Escape | OtherKey

  /** The events the game loop distinguishes. */
  datatype Event = Quit | KeyDown(keycode: Option<Keycode>) | OtherEvent

  /** The side length of the square. */
  const SQUARE_W: nat := 25

  /** Position and velocity of the square. */
  datatype Square = Square(xPos: int, yPos: int, xVel: int, yVel: int)

  /** The square starts centred in the window, at rest. */
  const Start: Square := Square(CAM_W / 2 - SQUARE_W / 2, CAM_H / 2 - SQUARE_W / 2, 0, 0)

  /** Quit, or the Escape key, breaks out of the game loop. */
  predicate EndsLoop(e: Event)
  {
    e == Quit || e == KeyDown(Some(Escape))
  }

  /** The velocity change one event causes: W, A, S and D change one axis by one
      unit; every other event changes nothing. */
  function KeyEffect(e: Event): (dv: (int, int))
    ensures EndsLoop(e) ==> dv == (0, 0)
    ensures Abs(dv.0) + Abs(dv.1) <= 1
    ensures dv.0 == -1 <==> e == KeyDown(Some(A))
    ensures dv.0 == 1 <==> e == KeyDown(Some(D))
    ensures dv.1 == -1 <==> e == KeyDown(Some(W))
    ensures dv.1 == 1 <==> e == KeyDown(Some(S))
  {
    match e
    case KeyDown(Some(W)) => (0, -1)
    case KeyDown(Some(A)) => (-1, 0)
    case KeyDown(Some(S)) => (0, 1)
    case KeyDown(Some(D)) => (1, 0)
    case _ => (0, 0)
  }

  /** The outcome of polling one frame's events: whether the loop was left, and the
      velocity at that point. */
  datatype PollResult = PollResult(quit: bool, xVel: int, yVel: int)

  /** The event loop of one frame, in order, stopping at the first event that ends
      the game loop. */
  function Poll(evs: seq<Event>, xVel: int, yVel: int): PollResult
  {
    if evs == [] then PollResult(false, xVel, yVel)
    else if EndsLoop(evs[0]) then PollResult(true, xVel, yVel)
    else Poll(evs[1..], xVel + KeyEffect(evs[0]).0, yVel + KeyEffect(evs[0]).1)
  }

  /** The position step of one frame, with the velocity the events left. */
  function Advance(sq: Square, xVel: int, yVel: int): (r: Square)
    ensures r.xVel == xVel && r.yVel == yVel
    ensures r.xPos - sq.xPos == xVel && r.yPos - sq.yPos == yVel
  {
    Square(sq.xPos + xVel, sq.yPos + yVel, xVel, yVel)
  }

  /** The game loop over a sequence of frames: the final square and the number of
      frames completed before the loop was left (or the input ran out). */
  function Simulate(sq: Square, frames: seq<seq<Event>>): (r: (Square, nat))
    ensures r.1 <= |frames|
    decreases |frames|
  {
    if frames == [] then (sq, 0)
    else
      var p := Poll(frames[0], sq.xVel, sq.yVel);
      if p.quit then (sq.(xVel := p.xVel, yVel := p.yVel), 0)
      else
        var rest := Simulate(Advance(sq, p.xVel, p.yVel), frames[1..]);
        (rest.0, rest.1 + 1)
  }

  /** The summed velocity change of a list of events. */
  function Sum(evs: seq<Event>): (int, int)
  {
    if evs == [] then (0, 0)
    else (KeyEffect(evs[0]).0 + Sum(evs[1..]).0, KeyEffect(evs[0]).1 + Sum(evs[1..]).1)
  }

  lemma {:induction false} SumAppend(a: seq<Event>, b: seq<Event>)
    ensures Sum(a + b) == (Sum(a).0 + Sum(b).0, Sum(a).1 + Sum(b).1)
  {
    if a == [] {
      assert a + b == b;
    } else {
      assert (a + b)[1..] == a[1..] + b;
      SumAppend(a[1..], b);
    }
  }

  /** When no event ends the loop, a frame's events add up: the velocity afterwards is
      the velocity before plus the sum of the key effects. */
  lemma {:induction false} PollAdds(evs: seq<Event>, xVel: int, yVel: int)
    requires forall i :: 0 <= i < |evs| ==> !EndsLoop(evs[i])
    ensures Poll(evs, xVel, yVel) == PollResult(false, xVel + Sum(evs).0, yVel + Sum(evs).1)
  {
    if evs != [] {
      PollAdds(evs[1..], xVel + KeyEffect(evs[0]).0, yVel + KeyEffect(evs[0]).1);
    }
  }

  /** Two key presses in opposite directions undo each other wherever they occur in a
      frame, e.g. A followed by D restores x_vel. */
  lemma OppositeKeysCancel(pre: seq<Event>, post: seq<Event>, k1: Keycode, k2: Keycode, xVel: int, yVel: int)
    requires (k1, k2) in {(A, D), (D, A), (W, S), (S, W)}
    requires forall i :: 0 <= i < |pre| ==> !EndsLoop(pre[i])
    requires forall i :: 0 <= i < |post| ==> !EndsLoop(post[i])
    ensures Poll(pre + [KeyDown(Some(k1)), KeyDown(Some(k2))] + post, xVel, yVel) == Poll(pre + post, xVel, yVel)
  {
    var pair := [KeyDown(Some(k1)), KeyDown(Some(k2))];
    var long := pre + pair + post;
    assert forall i :: 0 <= i < |long| ==> !EndsLoop(long[i]) by {
      forall i | 0 <= i < |long| ensures !EndsLoop(long[i]) {
        if i < |pre| { assert long[i] == pre[i]; }
        else if i < |pre| + 2 { assert long[i] == pair[i - |pre|]; }
        else { assert long[i] == post[i - |pre| - 2]; }
      }
    }
    assert forall i :: 0 <= i < |pre + post| ==> !EndsLoop((pre + post)[i]) by {
      forall i | 0 <= i < |pre + post| ensures !EndsLoop((pre + post)[i]) {
        if i < |pre| { assert (pre + post)[i] == pre[i]; }
        else { assert (pre + post)[i] == post[i - |pre|]; }
      }
    }
    PollAdds(long, xVel, yVel);
    PollAdds(pre + post, xVel, yVel);
    SumAppend(pre + pair, post);
    SumAppend(pre, pair);
    SumAppend(pre, post);
    assert pair[1..] == [KeyDown(Some(k2))] && pair[1..][1..] == [];
    var e1, e2 := KeyEffect(pair[0]), KeyEffect(pair[1]);
    assert Sum(pair[1..][1..]) == (0, 0);
    assert Sum(pair[1..]) == (e2.0, e2.1);
    assert Sum(pair) == (e1.0 + e2.0, e1.1 + e2.1);
    assert (k1 == A && k2 == D) || (k1 == D && k2 == A) || (k1 == W && k2 == S) || (k1 == S && k2 == W);
  }

  /** The event loop of one sdl06 frame: W, A, S and D adjust the velocity, and Quit
      or Escape stop the polling and report that the game loop is to be left. */
  method PollEvents(evs: seq<Event>, xVel0: int, yVel0: int) returns (quit: bool, xVel: int, yVel: int)
    ensures PollResult(quit, xVel, yVel) == Poll(evs, xVel0, yVel0)
  {
    xVel, yVel := xVel0, yVel0;
    var j := 0;
    while j < |evs|
      invariant j <= |evs|
      invariant Poll(evs, xVel0, yVel0) == Poll(evs[j..], xVel, yVel)
    {
      assert evs[j..][1..] == evs[j + 1..];
      match evs[j] {
        case Quit =>
          return true, xVel, yVel;
        case KeyDown(Some(Escape)) =>
          return true, xVel, yVel;
        case KeyDown(Some(k)) =>
          match k {
            case W => yVel := yVel - 1;
            case A => xVel := xVel - 1;
            case S => yVel := yVel + 1;
            case D => xVel := xVel + 1;
            case _ =>
          }
        case _ =>
      }
      j := j + 1;
    }
    quit := false;
  }

  /** The game loop of sdl06 run over the events of successive frames. */
  method Run(frames: seq<seq<Event>>) returns (sq: Square, ticks: nat)
    ensures (sq, ticks) == Simulate(Start, frames)
  {
    var w := SQUARE_W;
    var xPos := CAM_W / 2 - w / 2;
    var yPos := CAM_H / 2 - w / 2;
    var xVel := 0;
    var yVel := 0;
    ticks := 0;
    while ticks < |frames|
      invariant ticks <= |frames|
      invariant Simulate(Start, frames).0 == Simulate(Square(xPos, yPos, xVel, yVel), frames[ticks..]).0
      invariant Simulate(Start, frames).1 == Simulate(Square(xPos, yPos, xVel, yVel), frames[ticks..]).1 + ticks
    {
      assert frames[ticks..][0] == frames[ticks] && frames[ticks..][1..] == frames[ticks + 1..];
      var quit;
      quit, xVel, yVel := PollEvents(frames[ticks], xVel, yVel);
      if quit {
        sq := Square(xPos, yPos, xVel, yVel);
        return;
      }
      xPos := xPos + xVel;
      yPos := yPos + yVel;
      ticks := ticks + 1;
    }
    sq := Square(xPos, yPos, xVel, yVel);
  }
}
