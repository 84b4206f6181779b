/** The velocity integrator shared by the keyboard-driven demos: key input becomes a
    per-axis velocity request, `resist` turns "no request" into one unit of drag toward
    rest, and the result is clamped to the speed limit. The `resist` function and the
    clamp line are textually identical in sdl09, sdl12, sdl13, sdl15 and sdl17; this
    module is the one definition all of their models use. */
module Kinematics {
  import opened Screen

  /** The direction keys held during one frame: W up, A left, S down, D right. */
  datatype Keys = Keys(w: bool, a: bool, s: bool, d: bool)

  /** The velocity change requested on one axis: the key toward negative subtracts
      ACCEL_RATE and the key toward positive adds it, so holding both cancels out. */
  function InputDelta(neg: bool, pos: bool): (d: int)
    ensures neg == pos ==> d == 0
    ensures neg && !pos ==> d == -ACCEL_RATE
    ensures pos && !neg ==> d == ACCEL_RATE
  {
    (if neg then -ACCEL_RATE else 0) + (if pos then ACCEL_RATE else 0)
  }

  /** `resist`: an explicit request is used unchanged; without one, a moving body
      receives one unit of drag toward zero and a body at rest stays at rest. */
  function Resist(vel: int, deltav: int): (r: int)
    ensures deltav != 0 ==> r == deltav
    ensures deltav == 0 && vel == 0 ==> r == 0
    ensures deltav == 0 && vel != 0 ==> (r == 1 || r == -1) && Abs(vel + r) == Abs(vel) - 1
  {
    if deltav == 0 then
      if vel > 0 then -1
      else if vel < 0 then 1
      else deltav
    else
      deltav
  }

  /** Rust's `Ord::clamp`, which panics unless lo <= hi. */
  function Clamp(v: int, lo: int, hi: int): (r: int)
    requires lo <= hi
    ensures lo <= r <= hi
    ensures lo <= v <= hi ==> r == v
    ensures v < lo ==> r == lo
    ensures v > hi ==> r == hi
  {
    if v < lo then lo else if v > hi then hi else v
  }

  /** The velocity after one frame: `(vel + resist(vel, deltav)).clamp(-SPEED_LIMIT, SPEED_LIMIT)`. */
  function NextVelocity(vel: int, deltav: int): (r: int)
    ensures Abs(r) <= SPEED_LIMIT
    ensures deltav != 0 && Abs(vel + deltav) <= SPEED_LIMIT ==> r == vel + deltav
    ensures deltav != 0 && vel + deltav > SPEED_LIMIT ==> r == SPEED_LIMIT
    ensures deltav != 0 && vel + deltav < -SPEED_LIMIT ==> r == -SPEED_LIMIT
    ensures deltav == 0 && vel == 0 ==> r == 0
    ensures deltav == 0 && vel != 0 ==> Abs(r) < Abs(vel)
    ensures deltav == 0 && Abs(vel) <= SPEED_LIMIT && vel != 0 ==> r == (if vel > 0 then vel - 1 else vel + 1)
    ensures deltav == 0 && vel > SPEED_LIMIT ==> r == SPEED_LIMIT
    ensures deltav == 0 && vel < -SPEED_LIMIT ==> r == -SPEED_LIMIT
  {
    Clamp(vel + Resist(vel, deltav), -SPEED_LIMIT, SPEED_LIMIT)
  }

  /** The velocity after `n` frames with no direction key held. */
  function Coast(vel: int, n: nat): int
    decreases n
  {
    if n == 0 then vel else Coast(NextVelocity(vel, 0), n - 1)
  }

  /** With no key held, any velocity is exactly 0 after |vel| frames, and stays 0. */
  lemma {:induction false} CoastSettles(vel: int, n: nat)
    requires n >= Abs(vel)
    ensures Coast(vel, n) == 0
    decreases n
  {
    if n > 0 {
      CoastSettles(NextVelocity(vel, 0), n - 1);
    }
  }

  /** Within the speed limit, drag takes exactly one unit per frame off the speed, so
      the velocity does not reach 0 before |vel| frames. */
  lemma {:induction false} CoastCountsDown(vel: int, n: nat)
    requires Abs(vel) <= SPEED_LIMIT && n <= Abs(vel)
    ensures Coast(vel, n) == (if vel >= 0 then vel - n else vel + n)
    decreases n
  {
    if n > 0 {
      CoastCountsDown(NextVelocity(vel, 0), n - 1);
    }
  }
}
