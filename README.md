# SDL demo frame-step core, modelled in Dafny

The SDL examples of the course repository are small games built around one game loop. Each
frame the loop reads the keyboard, integrates a velocity, moves a sprite, updates a camera or
an animation counter, and computes the rectangles it copies to the screen. Everything between
reading the input and issuing the draw calls is integer arithmetic. This project models that
arithmetic exactly and proves what the games rely on: speed limits, bounds, the camera's dead
zone, seamless scrolling, brick atlas continuity, the walk cycle, collision-free movement and
the frame counter.

Modules, one per component:

- `Screen`: the constants every demo declares (`CAM_W` 640, `CAM_H` 480, `TILE_SIZE` 100,
  `LEVEL_LEN` 2000, `SPEED_LIMIT` 5, `ACCEL_RATE` 1), the SDL rectangle, one texture copy
  (`Blit`), Rust's truncating `%` and `/`, and two facts about remainders the other
  modules use for the moduli 4, 24 and 640.
- `Kinematics`: the velocity integrator, i.e. the key deltas, `resist` and the clamp to
  ±`SPEED_LIMIT`. `resist` is textually the same function in
  sdl/examples/sdl09_circ_collision.rs:97-112, sdl/examples/sdl12_simple_bg_scroll.rs:73-88,
  sdl/examples/sdl13_side_scroll.rs:83-98, sdl/examples/sdl15_anim.rs:63-78 and
  sdl/examples/sdl17_fps.rs:62-77. So is the clamp line that follows it in every game loop.
  `Kinematics` is the one definition all of their models use.
- `Motion` (sdl06): key-press events change the velocity by one unit. There is no drag and no
  cap, and the position advances by the velocity.
- `CircCollision` (sdl09): the disc type with its bounds and rasteriser, the strict collision
  test, and the "go back" step that moves along x and then along y.
- `Sprites` (sdl12, sdl13): the player object with its atlas cell and the in-place
  `update_pos`.
- `Camera` (sdl13, sdl15, sdl17): the dead-zone scroll update, the two background copies,
  and the brick loop.
- `BgScroll` (sdl12), `SideScroll` (sdl13), `Anim` (sdl15) and `Fps` (sdl17): the game loops.
- `Tiling` (sdl10) and `DrawableTiling` (sdl11): the static brick row and the bird atlas.

Each game loop is a method `Run` with a `while` loop over the frames' inputs. Its locals are
the source's loop-carried variables, and the player is a heap object the loop body updates in
place. The body of one pass is a method `Frame` (in sdl06, `PollEvents` for the event loop).
`Run` is proved equal to `Simulate`, a fold of a pure `Step` function. The invariants are
proved about `Step` and `Simulate` as lemmas. The brick loop and the sdl10 loops are methods
proved against closed-form functions.

Two facts about the code are worth knowing:

- The dead zone's edges are `640 / 3 - 50 = 163` and `640 * 2 / 3 - 50 = 376` on screen.
- The scrolling brick loop draws 7 bricks when the first one shows at least 40 pixels
  (`scroll % 100 <= 60`) and 8 otherwise (`Camera.BrickRowLength`). Either way the bricks
  cover the window. Only the static rows of sdl10 and sdl11 always have exactly 7.

## Model

| member | source | states |
|---|---|---|
| Screen.RustRem | sdl/examples/sdl13_side_scroll.rs:182-183 | Rust's `%`: for a non-negative dividend it is the mathematical remainder, and it always lies strictly between -b and b |
| Screen.RustDiv | sdl/examples/sdl15_anim.rs:177-184 | Rust's `/`: for a non-negative dividend it is the floor quotient |
| Screen.TruncatedDivision | sdl/examples/sdl13_side_scroll.rs:194 | the quotient and remainder satisfy b*q + r == a, and the remainder has the sign of the dividend |
| Kinematics.InputDelta | sdl/examples/sdl13_side_scroll.rs:150-163 | holding both opposite keys (or neither) requests 0; one key requests ∓ACCEL_RATE |
| Kinematics.Resist | sdl/examples/sdl09_circ_collision.rs:97-112 | a nonzero request is returned unchanged; with no request a moving body gets one unit toward rest and a body at rest gets 0 |
| Kinematics.Clamp | sdl/examples/sdl09_circ_collision.rs:167-168 | the result lies in [lo, hi], equals v when v is inside, and is the nearer bound otherwise |
| Kinematics.NextVelocity | sdl/examples/sdl09_circ_collision.rs:163-168 | the new speed is at most SPEED_LIMIT; a request within the limit is added exactly, and one past it saturates at ±SPEED_LIMIT on the side it pushes toward; without a request a moving body within the limit slows by exactly one, one beyond it drops to ±SPEED_LIMIT, and a body at rest stays at rest |
| Kinematics.CoastSettles | sdl/examples/sdl09_circ_collision.rs:163-168 | with no key held, any velocity is 0 after \|v\| frames and stays 0 |
| Kinematics.CoastCountsDown | sdl/examples/sdl09_circ_collision.rs:163-168 | with no key held, a velocity within the limit loses exactly one unit of speed per frame, so it does not reach 0 before \|v\| frames |
| Motion.KeyEffect | sdl/examples/sdl06_motion.rs:35-46 | W, A, S and D change y by -1, x by -1, y by +1 and x by +1, respectively, and those are the only events that change anything |
| Motion.Advance | sdl/examples/sdl06_motion.rs:50-51 | the position advances by exactly the velocity, with no cap and no bounds |
| Motion.Simulate | sdl/examples/sdl06_motion.rs:33-51 | the loop completes at most one frame per input frame |
| Motion.Poll | sdl/examples/sdl06_motion.rs:34-46 | no contract of its own: the event loop of one frame as a function; PollAdds and OppositeKeysCancel state its effect and PollEvents proves the written loop equal to it |
| Motion.PollAdds | sdl/examples/sdl06_motion.rs:34-46 | without Quit or Escape, a frame's velocity is the old velocity plus the sum of its key effects |
| Motion.OppositeKeysCancel | sdl/examples/sdl06_motion.rs:39-43 | a press of A followed by D (or D then A, W then S, S then W) anywhere in a frame leaves the velocity as if neither had been pressed |
| Motion.PollEvents | sdl/examples/sdl06_motion.rs:34-46 | the event loop of one frame computes exactly Poll: the velocity after the events, and whether Quit or Escape ended the game loop |
| Motion.Run | sdl/examples/sdl06_motion.rs:26-51 | the game loop, starting at (308, 228) at rest, ends in the square and frame count Simulate gives |
| CircCollision.Circ.GetPoints | sdl/examples/sdl09_circ_collision.rs:70-87 | the points are exactly the (x+i, y+j) with i, j in [-r, r) and i²+j² < r²; each appears once, ordered by column then row, inside the bounding box |
| CircCollision.Columns | sdl/examples/sdl09_circ_collision.rs:74-86 | the columns from offset i onward hold exactly the rastered points right of x+i, in ascending order |
| CircCollision.Circ.Left | sdl/examples/sdl09_circ_collision.rs:54-56 | no contract of its own: x - r, the left edge that TryX tests against 0 and CollisionNeedsBoxOverlap compares |
| CircCollision.Circ.Right | sdl/examples/sdl09_circ_collision.rs:58-60 | no contract of its own: x + r, the right edge that TryX tests against 640 and CollisionNeedsBoxOverlap compares |
| CircCollision.Circ.Top | sdl/examples/sdl09_circ_collision.rs:62-64 | no contract of its own: y - r, the top edge that TryY tests against 0 and CollisionNeedsBoxOverlap compares |
| CircCollision.Circ.Bottom | sdl/examples/sdl09_circ_collision.rs:66-68 | no contract of its own: y + r, the bottom edge that TryY tests against 480 and CollisionNeedsBoxOverlap compares |
| CircCollision.CheckCollision | sdl/examples/sdl09_circ_collision.rs:90-95 | no contract of its own: its properties (box overlap, symmetry, strictness) are the lemmas CollisionNeedsBoxOverlap, CollisionSymmetric and TangentNoCollision |
| CircCollision.CollisionNeedsBoxOverlap | sdl/examples/sdl09_circ_collision.rs:90-95 | colliding discs have overlapping `left`/`right` and `top`/`bottom` ranges |
| CircCollision.CollisionSymmetric | sdl/examples/sdl09_circ_collision.rs:90-95 | the test does not depend on the argument order |
| CircCollision.TangentNoCollision | sdl/examples/sdl09_circ_collision.rs:90-95 | the test is strict: discs at exactly the radius sum do not collide |
| CircCollision.StartIsSafe | sdl/examples/sdl09_circ_collision.rs:125-128 | the start placement, centres 24 apart with r = 12, is tangent, so it does not collide, and lies inside the window |
| CircCollision.TryX | sdl/examples/sdl09_circ_collision.rs:170-178 | after the horizontal step x is either the old x or exactly old x + x_vel, never a partial value; it is old x + x_vel whenever that position neither collides nor leaves [0, 640], and a moved disc is always collision-free and inside; y and r are untouched |
| CircCollision.TryY | sdl/examples/sdl09_circ_collision.rs:180-187 | the same for y against [0, 480], run after the x step, leaving x untouched |
| CircCollision.Step | sdl/examples/sdl09_circ_collision.rs:147-187 | no contract of its own: the loop body as a function; StepSafe states what one frame does and Frame proves the written body equal to it |
| CircCollision.StepSafe | sdl/examples/sdl09_circ_collision.rs:147-187 | after a frame the velocities are the integrator's NextVelocity of the keys whether or not a move was undone, so the go-back never zeroes them; both are within the limit; a safe player stays safe; and on each axis the player stays or moves by exactly the new velocity |
| CircCollision.SimulateSafe | sdl/examples/sdl09_circ_collision.rs:133-187 | a player that starts collision-free inside the window stays so after any sequence of frames |
| CircCollision.Frame | sdl/examples/sdl09_circ_collision.rs:147-187 | one pass of the loop body, as written with set_x/set_y and the undo, computes exactly Step |
| CircCollision.Run | sdl/examples/sdl09_circ_collision.rs:124-187 | the game loop computes Simulate from the start placement, ends safe, and keeps both speeds within the limit |
| Sprites.PlayerSrc | sdl/examples/sdl12_simple_bg_scroll.rs:39-53 | each player type gets a 100×100 cell at x, y ∈ {0, 100} |
| Sprites.PlayerSrcDistinct | sdl/examples/sdl12_simple_bg_scroll.rs:40-45 | the four types get four different cells |
| Sprites.Player.constructor | sdl/examples/sdl12_simple_bg_scroll.rs:39-53 | `Player::new` keeps the position and selects the type's cell |
| Sprites.Player.X | sdl/examples/sdl13_side_scroll.rs:61-63 | no contract of its own: the stored position's x |
| Sprites.Player.Y | sdl/examples/sdl13_side_scroll.rs:65-67 | no contract of its own: the stored position's y |
| Sprites.Player.UpdatePos | sdl/examples/sdl12_simple_bg_scroll.rs:59-62 | each coordinate moves by its velocity and is clamped to its bounds; the size is unchanged |
| Camera.ScrollStep | sdl/examples/sdl13_side_scroll.rs:172-180 | no contract of its own: the dead-zone update, whose properties are stated by Camera.DeadZone |
| Camera.DeadZone | sdl/examples/sdl13_side_scroll.rs:172-180 | the offset stays in [0, 1360]; it does not move while the player is inside [scroll+163, scroll+376]; when the clamp does not bind, the player's screen x becomes exactly 376 (or 163); it moves only toward the player; and a player in the level stays fully on screen |
| Camera.BgOffset | sdl/examples/sdl13_side_scroll.rs:182 | for a non-negative scroll the first background copy starts in (-640, 0] |
| Camera.CopiesCover | sdl/examples/sdl13_side_scroll.rs:189-190 | two copies at b and b + 640, with b in [-640, 0], cover every screen column |
| Camera.BackgroundSeamless | sdl/examples/sdl13_side_scroll.rs:182-190 | at scroll s, screen column sx shows texture column (s + sx) mod 640, so the copies join without a seam |
| Camera.BrickOffset | sdl/examples/sdl13_side_scroll.rs:183 | for a non-negative scroll the first brick starts in (-100, 0] |
| Camera.BrickStartIndex | sdl/examples/sdl13_side_scroll.rs:194 | for a non-negative scroll the first atlas index is in [0, 4); StartIndexIsTileMod4 gives its value |
| Camera.BrickRow | sdl/examples/sdl13_side_scroll.rs:196-204 | no contract of its own: the closed form of the brick loop, proved equal to it by DrawBricks, with its length, coverage and atlas columns stated by BrickRowLength, BricksCoverScreen and BrickAtlasContinuity |
| Camera.DrawBricks | sdl/examples/sdl13_side_scroll.rs:192-204 | the brick loop terminates and draws exactly BrickRow(scroll) |
| Camera.BrickRowLength | sdl/examples/sdl13_side_scroll.rs:196-204 | the loop draws 7 bricks when scroll % 100 <= 60 and 8 otherwise |
| Camera.BricksCoverScreen | sdl/examples/sdl13_side_scroll.rs:196-204 | every screen column lies on a drawn brick, and every drawn brick overlaps the screen |
| Camera.StartIndexIsTileMod4 | sdl/examples/sdl13_side_scroll.rs:194 | the start index (scroll % 400) / 100 equals (scroll / 100) mod 4 |
| Camera.BrickAtlasContinuity | sdl/examples/sdl13_side_scroll.rs:194-204 | the k-th brick drawn is level tile n = scroll/100 + k, drawn at world x 100n with atlas column (n mod 4)·100, on the bottom row |
| BgScroll.BgStep | sdl/examples/sdl12_simple_bg_scroll.rs:160-163 | the counter drops by one, or wraps to -1 once it passes -640; from [-640, 0] it lands in [-640, -1] |
| BgScroll.BgClosedForm | sdl/examples/sdl12_simple_bg_scroll.rs:160-163 | from 0, after n ≥ 1 frames the counter is -1 - (n-1) mod 640 |
| BgScroll.BgPeriodic | sdl/examples/sdl12_simple_bg_scroll.rs:160-163 | the counter sequence repeats with period 640 |
| BgScroll.BackgroundAdvances | sdl/examples/sdl12_simple_bg_scroll.rs:169-170 | after n frames the two copies cover the window and screen column sx shows texture column (sx + n) mod 640 |
| BgScroll.Step | sdl/examples/sdl12_simple_bg_scroll.rs:138-163 | no contract of its own: the loop body as a function; StepInv states what one frame keeps and Frame proves the written body equal to it |
| BgScroll.StepInv | sdl/examples/sdl12_simple_bg_scroll.rs:138-163 | a frame keeps the plane in [0, 540]×[0, 380] with both speeds within the limit, makes the counter negative, and moves the plane at most 5 pixels per axis |
| BgScroll.SimulateInv | sdl/examples/sdl12_simple_bg_scroll.rs:124-163 | every reachable state satisfies the invariant, and after the first frame the counter is in [-640, -1] |
| BgScroll.SimulateBg | sdl/examples/sdl12_simple_bg_scroll.rs:160-163 | the counter does not depend on the keys: after n frames it is BgIter(0, n) |
| BgScroll.Frame | sdl/examples/sdl12_simple_bg_scroll.rs:138-163 | one pass of the loop body on the player object computes exactly Step |
| BgScroll.Run | sdl/examples/sdl12_simple_bg_scroll.rs:100-176 | the game loop computes Simulate, ends in the invariant, and the counter is negative after any frame |
| SideScroll.Step | sdl/examples/sdl13_side_scroll.rs:150-180 | no contract of its own: the loop body as a function; StepInv states what one frame keeps and Frame proves the written body equal to it |
| SideScroll.StepInv | sdl/examples/sdl13_side_scroll.rs:150-180 | a frame keeps x in [0, 1900], y in [0, 280], both speeds within the limit, the scroll in [0, 1360] and the player on screen |
| SideScroll.SimulateInv | sdl/examples/sdl13_side_scroll.rs:135-180 | every state reachable from the start satisfies that invariant |
| SideScroll.Frame | sdl/examples/sdl13_side_scroll.rs:150-207 | one pass of the loop body computes exactly Step, and draws the background at BgOffset, the bricks of BrickRow and the player at its screen position |
| SideScroll.Run | sdl/examples/sdl13_side_scroll.rs:110-210 | the game loop computes Simulate and ends in the invariant |
| Anim.Player.constructor | sdl/examples/sdl15_anim.rs:38-43 | the redesigned `Player::new` keeps the position |
| Anim.Player.X | sdl/examples/sdl15_anim.rs:45-47 | no contract of its own: the stored position's x |
| Anim.Player.Y | sdl/examples/sdl15_anim.rs:49-51 | no contract of its own: the stored position's y |
| Anim.Player.UpdatePos | sdl/examples/sdl15_anim.rs:53-56 | x moves by the velocity and is clamped to its bounds; y never changes |
| Anim.FlipStep | sdl/examples/sdl15_anim.rs:161-169 | moving right clears the flag, moving left sets it, standing still keeps it |
| Anim.NextFrame | sdl/examples/sdl15_anim.rs:177-182 | the counter stays in [0, 23] and one moving frame sets it to (frames + 1) mod 24 |
| Anim.SrcX | sdl/examples/sdl15_anim.rs:184 | for a counter in [0, 23] the pose is one of 0, 100, 200, 300 |
| Anim.FramesAfter | sdl/examples/sdl15_anim.rs:171-182 | n moving frames add n to the counter, modulo 24 |
| Anim.WalkCycle | sdl/examples/sdl15_anim.rs:171-184 | after any multiple of 24 moving frames the counter, and so the pose, is back at its start |
| Anim.PoseOfCounter | sdl/examples/sdl15_anim.rs:184 | counter value 6j + r, for r in [0, 6), shows pose j |
| Anim.PoseHeld | sdl/examples/sdl15_anim.rs:171-184 | from the first frame of pose k, the pose after n moving frames is (k + n/6) mod 4, so each pose is held for six moving frames, in order |
| Anim.Animate | sdl/examples/sdl15_anim.rs:171-188 | no contract of its own: the `src_x` update; StepFrames states that a moving frame advances the counter and shows its pose and a still frame keeps both |
| Anim.Step | sdl/examples/sdl15_anim.rs:134-188 | no contract of its own: the loop body as a function; StepInv and StepFrames state what one frame does and Frame proves the written body equal to it |
| Anim.StepInv | sdl/examples/sdl15_anim.rs:134-188 | a frame keeps x in [0, 1900], the speed within the limit, the scroll in [0, 1360], the walker on screen, the counter in [0, 23] with its pose, and y unchanged |
| Anim.SimulateInv | sdl/examples/sdl15_anim.rs:120-188 | every reachable state satisfies that invariant, and y never changes |
| Anim.StepFrames | sdl/examples/sdl15_anim.rs:171-188 | a moving frame advances the counter by one modulo 24 and shows its pose; a frame with x_vel == 0 leaves the counter and the pose unchanged |
| Anim.SimulateFrames | sdl/examples/sdl15_anim.rs:171-188 | the counter equals its start plus the number of moving frames, modulo 24 |
| Anim.FlipFollowsLastMove | sdl/examples/sdl15_anim.rs:161-169 | the flag is set exactly when the last nonzero velocity was negative, and is as at the start if there was none |
| Anim.Frame | sdl/examples/sdl15_anim.rs:134-219 | one pass of the loop body computes exactly Step, and draws the background, the bricks and the walker's pose at its screen position |
| Anim.Run | sdl/examples/sdl15_anim.rs:100-222 | the game loop computes Simulate, ends in the invariant, and keeps y at 280 |
| Fps.CountFrame | sdl/examples/sdl17_fps.rs:216-225 | the counter grows by one per frame; a window closes, reporting the count including this frame, iff more than 5 s have elapsed, and then the counter restarts at 0 |
| Fps.Step | sdl/examples/sdl17_fps.rs:135-225 | no contract of its own: the sdl15 step and the counter; WalkerIsAnim and FramesConserved state what it does |
| Fps.FramesConserved | sdl/examples/sdl17_fps.rs:216-225 | the frames reported by the closed windows plus those of the open window are exactly the frames run |
| Fps.WalkerIsAnim | sdl/examples/sdl17_fps.rs:136-182 | the walker of sdl17 behaves exactly as sdl15's, whatever the counter does |
| Fps.SimulateInv | sdl/examples/sdl17_fps.rs:136-182 | every reachable walker state satisfies the sdl15 invariant |
| Fps.Frame | sdl/examples/sdl17_fps.rs:135-225 | one pass of the loop body computes exactly Step, reports the count of the window it closes, if any, and draws the background, the bricks and the walker |
| Fps.Run | sdl/examples/sdl17_fps.rs:92-226 | the game loop computes Simulate and Reports, keeps the walker invariant, and conserves frames |
| Tiling.BrickRow | sdl/examples/sdl10_tiling.rs:63-72 | the loop runs for i = 0..6 and draws the scroll-0 brick row, 7 bricks |
| Tiling.StaticRowLayout | sdl/examples/sdl10_tiling.rs:64-72 | brick i is at (100i, 380) with atlas column (i mod 4)·100; the bricks are adjacent and span [0, 700) |
| Tiling.BirdCell | sdl/examples/sdl10_tiling.rs:76-81 | a bird cell is 100×100 at x, y ∈ {0, 100} |
| Tiling.BirdCellByResidue | sdl/examples/sdl10_tiling.rs:76-81 | the cell of bird i is ((i mod 4) mod 2, (i mod 4) / 2) tiles |
| Tiling.BirdCellsRepeat | sdl/examples/sdl10_tiling.rs:76-81 | two birds share a cell iff their numbers agree modulo 4 |
| Tiling.DrawBirds | sdl/examples/sdl10_tiling.rs:74-83 | bird i is drawn at its i-th place with cell BirdCell(i) |
| Tiling.BirdsClearOfBricks | sdl/examples/sdl10_tiling.rs:41-50 | a bird placed in the sampled ranges lies inside the window and overlaps no brick |
| DrawableTiling.Drawable.Src | sdl/examples/sdl11_overengineered_tiling.rs:62-82 | every cell is 100×100, and brick cells lie on the top row of the strip |
| DrawableTiling.Drawable.Pos | sdl/examples/sdl11_overengineered_tiling.rs:69-71 | no contract of its own: the stored place (the same getter for bricks at lines 84-86), which DrawOrder and SameAsTiling show is where each copy lands |
| DrawableTiling.MakeBirds | sdl/examples/sdl11_overengineered_tiling.rs:110-123 | no contract of its own: bird i at the i-th sampled place; DrawOrder and EachCellTwice state its content |
| DrawableTiling.MakeBricks | sdl/examples/sdl11_overengineered_tiling.rs:125-138 | no contract of its own: bricks 0..6 on the bottom row; DrawOrder and SameAsTiling state its content |
| DrawableTiling.DrawList | sdl/examples/sdl11_overengineered_tiling.rs:148-161 | no contract of its own: the `chain` of bricks then birds, whose order DrawOrder states |
| DrawableTiling.DrawOrder | sdl/examples/sdl11_overengineered_tiling.rs:125-161 | the draw list is bricks 0..6 at (100i, 380), then the birds in the order built, each at its own place |
| DrawableTiling.BirdSrcAgrees | sdl/examples/sdl11_overengineered_tiling.rs:63-67 | a bird's cell is sdl10's cell for its number |
| DrawableTiling.SameAsTiling | sdl/examples/sdl11_overengineered_tiling.rs:110-161 | sdl11 makes exactly the copies sdl10 makes: the static brick row, then bird i with its cell at its place |
| DrawableTiling.EachCellTwice | sdl/examples/sdl11_overengineered_tiling.rs:110-123 | of the eight birds, bird i shares its cell only with bird i ± 4, so each cell is used exactly twice |

## Left out

- SDL itself is not modelled: window and texture creation, `copy`/`copy_ex`, `present`,
  colours and the event pump. Keyboard state is an input per frame, and drawing is the
  rectangles computed for it.
- Quit and Escape are the end of the input sequence in every loop except sdl06, where key
  events drive the velocity and so are modelled.
- The random bird places of sdl10 and sdl11 are inputs. `Tiling.Sampled` states the sampled
  ranges.
- The FPS average of sdl17 (an `f64` division and `println!`) and the real clock are not
  modelled. The time elapsed since the window opened is an input of each frame.
- The drawing of a frame (background offset, bricks, player rectangles) is returned and
  stated by `SideScroll.Frame`, `Anim.Frame` and `Fps.Frame`, and `Run` does not keep it.
  `BgScroll.Frame` returns the counter but not the two background rectangles or the
  plane's `pos()`, and `CircCollision.Frame` returns the moved disc but not the
  `get_points` drawing, whose points `CircCollision.Circ.GetPoints` states.
- The disc type of sdl09 is modelled as a value. `set_x`/`set_y` reassign a local the loop
  alone owns, so there is no aliasing to capture.
- `get_points` filters the whole flattened sequence; the model filters each column. Since the
  filter keeps order, the resulting sequence is the same.
- `i32` overflow is not modelled: all arithmetic is on unbounded integers. In sdl06 the
  velocity and position have no bound, so in Rust a long enough key sequence would overflow
  `i32`, which the model does not capture. Every other loop keeps its values within a few
  thousand.
- Motion.Simulate: its own contract states only the frame-count bound. The game loop's
  behaviour is stated by `Motion.Run`, `Motion.PollEvents` and the lemmas about `Poll`.
- sdl02, sdl03, sdl04, sdl05 and sdl16 have no game-state arithmetic (window setup, fixed
  drawing, a key-to-colour table and sleeping), so they are not modelled.
