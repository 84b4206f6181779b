/** Window size, tile size and the other constants every demo declares identically,
    the SDL rectangle type, and Rust's truncating integer division. */
module Screen {

  const CAM_W: nat := 640
  const CAM_H: nat := 480
  const TILE_SIZE: nat := 100
  const LEVEL_LEN: nat := 2000
  const SPEED_LIMIT: int := 5
  const ACCEL_RATE: int := 1

  datatype Option<T> = None | Some(value: T)

  /** An SDL rectangle: top-left corner and size. */
  datatype Rect = Rect(x: int, y: int, w: nat, h: nat)

  /** One texture copy: the atlas sub-rectangle and where it lands on the screen. */
  datatype Blit = Blit(src: Rect, dst: Rect)

  /** A TILE_SIZE square at (x, y). */
  function Tile(x: int, y: int): Rect
  {
    Rect(x, y, TILE_SIZE, TILE_SIZE)
  }

  /** Two rectangles share at least one pixel. */
  predicate Overlaps(a: Rect, b: Rect)
  {
    a.x < b.x + b.w && b.x < a.x + a.w && a.y < b.y + b.h && b.y < a.y + a.h
  }

  function Abs(v: int): nat
  {
    if v < 0 then -v else v
  }

  /** Rust's `%` on integers: the remainder takes the sign of the dividend. */
  function RustRem(a: int, b: int): (r: int)
    requires b > 0
    ensures a >= 0 ==> r == a % b
    ensures -b < r < b
  {
    if a >= 0 then a % b else -((-a) % b)
  }

  /** Rust's `/` on integers: the quotient is truncated toward zero. */
  function RustDiv(a: int, b: int): (q: int)
    requires b > 0
    ensures a >= 0 ==> q == a / b
  {
    if a >= 0 then a / b else -((-a) / b)
  }

  /** Rust's quotient and remainder satisfy the division identity and the remainder has
      the sign of the dividend; with |remainder| < b this characterises truncation. */
  lemma TruncatedDivision(a: int, b: int)
    requires b > 0
    ensures b * RustDiv(a, b) + RustRem(a, b) == a
    ensures a >= 0 ==> RustRem(a, b) >= 0
    ensures a < 0 ==> RustRem(a, b) <= 0
  {
    if a < 0 {
      var q, r := (-a) / b, (-a) % b;
      assert -a == b * q + r;
      assert RustDiv(a, b) == -q && RustRem(a, b) == -r;
      assert b * RustDiv(a, b) == -(b * q);
    }
  }

  /** The remainder modulo m is the unique one: a value m * q + b with b in [0, m)
      leaves remainder b. */
  lemma RemUnique(a: int, q: int, b: int, m: int)
    requires m > 0 && a == m * q + b && 0 <= b < m
    ensures a % m == b
  {
    var q', b' := a / m, a % m;
    assert a == m * q' + b';
    assert m * (q - q') == b' - b;
    MultipleSize(m, q - q');
  }

  /** A nonzero multiple of m is at least m in size. */
  lemma MultipleSize(m: int, d: int)
    requires m > 0
    ensures d >= 1 ==> m * d >= m
    ensures d <= -1 ==> m * d <= -m
  {
    assert m * d == m * (d - 1) + m;
    assert m * d == m * (d + 1) - m;
  }

  /** Reducing modulo m before adding k does not change the remainder. */
  lemma ModShift(a: int, k: int, m: int)
    requires a >= 0 && k >= 0 && m > 0
    ensures (a % m + k) % m == (a + k) % m
  {
    var q, r := a / m, a % m;
    var c := r + k;
    var qc, rc := c / m, c % m;
    assert c == m * qc + rc;
    assert a + k == m * (q + qc) + rc;
    RemUnique(a + k, q + qc, rc, m);
  }
}
