/** sdl09: a player disc steered with W/A/S/D against a static disc of the same radius,
    inside the window. Collision is a strict squared-distance test, and resolution is
    "go back": move along x, undo the x move on any violation, then the same along y. */
module CircCollision {
  import opened Screen
  import opened Kinematics

  datatype Point = Point(x: int, y: int)

  /** NOTSDL_Circ: a disc of radius r centred at (x, y), with its bounding box. */
  datatype Circ = Circ(x: int, y: int, r: nat) {

    function Left(): int { x - r }

    function Right(): int { x + r }

    function Top(): int { y - r }

    function Bottom(): int { y + r }

    /** `get_points`: the pixels drawn for the disc, column by column. */
    function GetPoints(): (ps: seq<Point>)
      ensures forall p :: p in ps <==> Rastered(this, p)
      ensures Ascending(ps)
      ensures forall a, b :: 0 <= a < b < |ps| ==> ps[a] != ps[b]
      ensures forall p :: p in ps ==> Left() <= p.x < Right() && Top() <= p.y < Bottom()
    {
      var rad: int := r;
      Columns(this, -rad)
    }
  }

  function Sq(v: int): int
  {
    v * v
  }

  /** The pixel test of `get_points`: the offset (i, j) from the centre, with i and j
      in [-r, r), is drawn when i*i + j*j < r*r. */
  predicate Rastered(c: Circ, p: Point)
  {
    var rad: int := c.r;
    && -rad <= p.x - c.x < rad
    && -rad <= p.y - c.y < rad
    && Sq(p.x - c.x) + Sq(p.y - c.y) < Sq(rad)
  }

  /** Column-major order: by x, then by y. */
  predicate Before(p: Point, q: Point)
  {
    p.x < q.x || (p.x == q.x && p.y < q.y)
  }

  predicate Ascending(s: seq<Point>)
  {
    forall a, b :: 0 <= a < b < |s| ==> Before(s[a], s[b])
  }

  lemma AscendingConcat(s: seq<Point>, t: seq<Point>)
    requires Ascending(s) && Ascending(t)
    requires forall p, q :: p in s && q in t ==> Before(p, q)
    ensures Ascending(s + t)
  {
    forall a, b | 0 <= a < b < |s + t| ensures Before((s + t)[a], (s + t)[b]) {
      if b < |s| {
        assert (s + t)[a] == s[a] && (s + t)[b] == s[b];
      } else if a >= |s| {
        assert (s + t)[a] == t[a - |s|] && (s + t)[b] == t[b - |s|];
      } else {
        assert (s + t)[a] == s[a] && (s + t)[b] == t[b - |s|];
        assert s[a] in s && t[b - |s|] in t;
      }
    }
  }

  /** The filtered points of column offset i, for row offsets j up to r - 1. */
  function Column(c: Circ, i: int, j: int): (ps: seq<Point>)
    decreases c.r - j
    ensures forall p :: p in ps <==>
      p.x == c.x + i && j <= p.y - c.y < c.r && Sq(i) + Sq(p.y - c.y) < Sq(c.r)
    ensures Ascending(ps)
  {
    if j >= c.r then []
    else
      var rest := Column(c, i, j + 1);
      if Sq(i) + Sq(j) < Sq(c.r) then
        var p := Point(c.x + i, c.y + j);
        assert forall q :: q in rest ==> Before(p, q);
        AscendingConcat([p], rest);
        [p] + rest
      else
        rest
  }

  /** The filtered points of column offsets i up to r - 1, each column in turn: the
      `flat_map` over i of the `map` over j, with the filter applied per column. */
  function Columns(c: Circ, i: int): (ps: seq<Point>)
    requires -(c.r as int) <= i
    decreases c.r - i
    ensures forall p :: p in ps <==> i <= p.x - c.x && Rastered(c, p)
    ensures Ascending(ps)
  {
    if i >= c.r then []
    else
      var col := Column(c, i, -(c.r as int));
      var rest := Columns(c, i + 1);
      assert forall p, q :: p in col && q in rest ==> Before(p, q);
      AscendingConcat(col, rest);
      col + rest
  }

  /** `check_collision`: the squared centre distance is below the squared radius sum. */
  function CheckCollision(a: Circ, b: Circ): (hit: bool)
  {
    var radsum := a.r + b.r;
    var distsq := Sq(a.x - b.x) + Sq(a.y - b.y);
    distsq < Sq(radsum)
  }

  /** A squared component below the squared radius sum bounds the component. */
  lemma SqBelow(u: int, rest: int, s: int)
    requires s >= 0
    requires rest >= 0 && Sq(u) + rest < Sq(s)
    ensures -s < u < s
  {
    if u >= s {
      assert Sq(u) >= Sq(s) by { MulMono(u, s); }
    } else if u <= -s {
      assert Sq(u) == Sq(-u);
      MulMono(-u, s);
    }
  }

  lemma MulMono(u: int, s: int)
    requires 0 <= s <= u
    ensures Sq(s) <= Sq(u)
  {
    assert s * s <= s * u <= u * u;
  }

  /** Colliding discs have overlapping bounding boxes on both axes. */
  lemma CollisionNeedsBoxOverlap(a: Circ, b: Circ)
    requires CheckCollision(a, b)
    ensures a.Left() < b.Right() && b.Left() < a.Right()
    ensures a.Top() < b.Bottom() && b.Top() < a.Bottom()
  {
    assert Sq(a.x - b.x) >= 0 && Sq(a.y - b.y) >= 0;
    SqBelow(a.x - b.x, Sq(a.y - b.y), a.r + b.r);
    SqBelow(a.y - b.y, Sq(a.x - b.x), a.r + b.r);
  }

  /** The test does not depend on the order of its arguments. */
  lemma CollisionSymmetric(a: Circ, b: Circ)
    ensures CheckCollision(a, b) == CheckCollision(b, a)
  {
    assert Sq(a.x - b.x) == Sq(b.x - a.x);
    assert Sq(a.y - b.y) == Sq(b.y - a.y);
  }

  /** The test is strict: circles that touch do not collide. */
  lemma TangentNoCollision(a: Circ, b: Circ)
    requires Sq(a.x - b.x) + Sq(a.y - b.y) == Sq(a.r + b.r)
    ensures !CheckCollision(a, b)
  {
  }

  /** The radius of both discs. */
  const RADIUS: nat := 12

  /** The static disc sits two radii to the right of the window centre. */
  const StaticDot: Circ := Circ(CAM_W / 2 + 2 * RADIUS, CAM_H / 2, RADIUS)

  /** The player starts at the window centre, exactly touching the static disc. */
  const StartDot: Circ := Circ(CAM_W / 2, CAM_H / 2, RADIUS)

  /** The player disc neither overlaps the obstacle nor leaves the window. */
  predicate Safe(p: Circ, obstacle: Circ)
  {
    && !CheckCollision(p, obstacle)
    && 0 <= p.Left() && p.Right() <= CAM_W
    && 0 <= p.Top() && p.Bottom() <= CAM_H
  }

  lemma StartIsSafe()
    ensures Safe(StartDot, StaticDot)
  {
    TangentNoCollision(StartDot, StaticDot);
  }

  /** The horizontal go-back step: move by vx, and move back to where it was if the
      disc then overlaps the obstacle or leaves the window horizontally. */
  function TryX(p: Circ, vx: int, obstacle: Circ): (q: Circ)
    ensures q.y == p.y && q.r == p.r
    ensures q == p || (q == p.(x := p.x + vx) && !CheckCollision(q, obstacle) && 0 <= q.Left() && q.Right() <= CAM_W)
    ensures !CheckCollision(p.(x := p.x + vx), obstacle) && 0 <= p.x + vx - p.r && p.x + vx + p.r <= CAM_W
      ==> q.x == p.x + vx
  {
    var moved := p.(x := p.x + vx);
    if CheckCollision(moved, obstacle) || moved.Left() < 0 || moved.Right() > CAM_W then p else moved
  }

  /** The vertical go-back step, the same test against the top and bottom edges. */
  function TryY(p: Circ, vy: int, obstacle: Circ): (q: Circ)
    ensures q.x == p.x && q.r == p.r
    ensures q == p || (q == p.(y := p.y + vy) && !CheckCollision(q, obstacle) && 0 <= q.Top() && q.Bottom() <= CAM_H)
    ensures !CheckCollision(p.(y := p.y + vy), obstacle) && 0 <= p.y + vy - p.r && p.y + vy + p.r <= CAM_H
      ==> q.y == p.y + vy
  {
    var moved := p.(y := p.y + vy);
    if CheckCollision(moved, obstacle) || moved.Top() < 0 || moved.Bottom() > CAM_H then p else moved
  }

  /** The state the game loop carries from frame to frame. */
  datatype DotState = DotState(player: Circ, xVel: int, yVel: int)

  /** One frame: velocities from the keys (with drag and the speed limit), then the x
      step, then the y step. The velocity is kept even when a step is undone. */
  function Step(s: DotState, keys: Keys): DotState
  {
    var xVel := NextVelocity(s.xVel, InputDelta(keys.a, keys.d));
    var yVel := NextVelocity(s.yVel, InputDelta(keys.w, keys.s));
    DotState(TryY(TryX(s.player, xVel, StaticDot), yVel, StaticDot), xVel, yVel)
  }

  /** One frame keeps the speed limit and a safe player safe, and on each axis the
      player either stays or moves by exactly the new velocity. The new velocity is the
      integrator's, whether or not the move was undone. */
  lemma StepSafe(s: DotState, keys: Keys)
    ensures var t := Step(s, keys);
      && t.xVel == NextVelocity(s.xVel, InputDelta(keys.a, keys.d))
      && t.yVel == NextVelocity(s.yVel, InputDelta(keys.w, keys.s))
      && Abs(t.xVel) <= SPEED_LIMIT && Abs(t.yVel) <= SPEED_LIMIT
      && (Safe(s.player, StaticDot) ==> Safe(t.player, StaticDot))
      && (t.player.x == s.player.x || t.player.x == s.player.x + t.xVel)
      && (t.player.y == s.player.y || t.player.y == s.player.y + t.yVel)
  {
  }

  /** The game loop over the keys held in successive frames. */
  function Simulate(s: DotState, inputs: seq<Keys>): DotState
  {
    if inputs == [] then s else Step(Simulate(s, inputs[..|inputs| - 1]), inputs[|inputs| - 1])
  }

  /** A player that starts safe stays safe after any sequence of frames. */
  lemma {:induction false} SimulateSafe(s: DotState, inputs: seq<Keys>)
    requires Safe(s.player, StaticDot)
    ensures Safe(Simulate(s, inputs).player, StaticDot)
  {
    if inputs != [] {
      SimulateSafe(s, inputs[..|inputs| - 1]);
      StepSafe(Simulate(s, inputs[..|inputs| - 1]), inputs[|inputs| - 1]);
    }
  }

  /** One pass of the sdl09 game loop body, as the source writes it: key deltas,
      `resist`, the clamp, then the x move with its go-back and the y move with its
      go-back. */
  method Frame(player0: Circ, xVel0: int, yVel0: int, keys: Keys, staticDot: Circ)
    returns (player: Circ, xVel: int, yVel: int)
    requires staticDot == StaticDot
    ensures DotState(player, xVel, yVel) == Step(DotState(player0, xVel0, yVel0), keys)
  {
    var xDeltav := 0;
    var yDeltav := 0;
    if keys.w { yDeltav := yDeltav - ACCEL_RATE; }
    if keys.a { xDeltav := xDeltav - ACCEL_RATE; }
    if keys.s { yDeltav := yDeltav + ACCEL_RATE; }
    if keys.d { xDeltav := xDeltav + ACCEL_RATE; }

    xDeltav := Resist(xVel0, xDeltav);
    yDeltav := Resist(yVel0, yDeltav);

    xVel := Clamp(xVel0 + xDeltav, -SPEED_LIMIT, SPEED_LIMIT);
    yVel := Clamp(yVel0 + yDeltav, -SPEED_LIMIT, SPEED_LIMIT);
    assert xVel == NextVelocity(xVel0, InputDelta(keys.a, keys.d));
    assert yVel == NextVelocity(yVel0, InputDelta(keys.w, keys.s));

    player := player0.(x := player0.x + xVel);
    if CheckCollision(player, staticDot) || player.Left() < 0 || player.Right() > CAM_W {
      player := player.(x := player.x - xVel);
      assert player == player0;
    }
    assert player == TryX(player0, xVel, StaticDot);
    ghost var afterX := player;

    player := player.(y := player.y + yVel);
    if CheckCollision(player, staticDot) || player.Top() < 0 || player.Bottom() > CAM_H {
      player := player.(y := player.y - yVel);
      assert player == afterX;
    }
    assert player == TryY(afterX, yVel, StaticDot);
  }

  /** The game loop of sdl09 run over the keys held in successive frames. */
  method Run(inputs: seq<Keys>) returns (player: Circ, xVel: int, yVel: int)
    ensures DotState(player, xVel, yVel) == Simulate(DotState(StartDot, 0, 0), inputs)
    ensures Safe(player, StaticDot)
    ensures Abs(xVel) <= SPEED_LIMIT && Abs(yVel) <= SPEED_LIMIT
  {
    var r := RADIUS;
    var staticDot := Circ(CAM_W / 2 + 2 * r, CAM_H / 2, r);
    player := Circ(CAM_W / 2, CAM_H / 2, r);
    xVel, yVel := 0, 0;
    var i := 0;
    while i < |inputs|
      invariant i <= |inputs|
      invariant DotState(player, xVel, yVel) == Simulate(DotState(StartDot, 0, 0), inputs[..i])
    {
      player, xVel, yVel := Frame(player, xVel, yVel, inputs[i], staticDot);
      assert inputs[..i + 1][..i] == inputs[..i];
      i := i + 1;
    }
    assert inputs[..i] == inputs;
    StartIsSafe();
    SimulateSafe(DotState(StartDot, 0, 0), inputs);
    if inputs != [] {
      StepSafe(Simulate(DotState(StartDot, 0, 0), inputs[..|inputs| - 1]), inputs[|inputs| - 1]);
    }
  }
}
