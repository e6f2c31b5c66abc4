/** Axis-aligned rectangles with integer coordinates, as pygame's Rect holds them,
    and the conversion of a fractional coordinate back to an integer. */
module Geometry {

  const ScreenWidth: int := 1200
  const ScreenHeight: int := 700

  /** A rectangle: left edge x, top edge y, width w, height h (y grows downwards). */
  datatype Rect = Rect(x: int, y: int, w: int, h: int) {
    function Right(): int { x + w }
    function Bottom(): int { y + h }

    /** pygame's centre uses C integer division; for w, h >= 0 that is Dafny's `/`. */
    function CenterX(): int
      requires w >= 0
    {
      x + w / 2
    }

    function CenterY(): int
      requires h >= 0
    {
      y + h / 2
    }
  }

  /** Rect.colliderect for rectangles of positive size: the open interiors intersect,
      so rectangles that only touch along an edge do not collide. */
  predicate Overlaps(a: Rect, b: Rect) {
    a.x < b.x + b.w && b.x < a.x + a.w && a.y < b.y + b.h && b.y < a.y + a.h
  }

  /** Half of n rounded toward zero, as C's `n / 2`. */
  function HalfTowardZero(n: int): (r: int)
    ensures 2 * r == n || 2 * r == n - 1 || 2 * r == n + 1
    ensures n >= 0 ==> 0 <= r <= n
    ensures n < 0 ==> n <= r <= 0
  {
    if n >= 0 then n / 2 else -((-n) / 2)
  }

  /** Rect.inflate(dx, dy): grow by dx and dy in total, keeping the centre. */
  function Inflate(r: Rect, dx: int, dy: int): Rect {
    Rect(r.x - HalfTowardZero(dx), r.y - HalfTowardZero(dy), r.w + dx, r.h + dy)
  }

  /** Inflating by a non-negative amount only ever makes more rectangles collide. */
  lemma InflateKeepsOverlap(a: Rect, b: Rect, d: int)
    requires d >= 0 && Overlaps(a, b)
    ensures Overlaps(Inflate(a, d, d), b)
  {
  }

  /** Assigning a real to a Rect coordinate keeps the integer part (truncation toward
      zero, as a C `(int)` cast). This is an assumption about pygame's conversion. */
  function Trunc(r: real): (n: int)
    ensures r >= 0.0 ==> n as real <= r < n as real + 1.0
    ensures r < 0.0 ==> n as real - 1.0 < r <= n as real
  {
    if r >= 0.0 then r.Floor else -((-r).Floor)
  }

  /** A whole-numbered value is kept exactly. */
  lemma TruncWhole(n: int)
    ensures Trunc(n as real) == n
  {
  }

  /** A non-negative value half way between two whole numbers loses its half. */
  lemma TruncHalf(n: nat)
    ensures Trunc(n as real + 0.5) == n
  {
  }

  /** Truncation never leaves an integer interval that contains the real value. */
  lemma TruncBetween(r: real, lo: int, hi: int)
    requires lo as real <= r <= hi as real
    ensures lo <= Trunc(r) <= hi
  {
  }

  /** A horizontal heading. `direction` is only ever 1 or -1 in the source, so the
      product `speed * direction` is the signed offset `Along(speed)`. */
  datatype Dir = Right | Left {
    function Flip(): Dir { if this == Right then Left else Right }

    function Along(amount: real): real { if this == Right then amount else -amount }
  }

  function Abs(n: int): nat { if n < 0 then -n else n }

  function AbsReal(r: real): real { if r < 0.0 then -r else r }
}
