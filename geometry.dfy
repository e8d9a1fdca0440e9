/**
 * The fixed 5x5 coordinate system of the game: grid bounds, `clamp`,
 * rounding of continuous positions to pixels, truncation as done by
 * Python's `int(...)`, and the pixels-per-second to pixels-per-millisecond
 * conversion.  Positions are modelled as exact reals.
 */
module Geometry {

  const MinX: int := 0
  const MinY: int := 0
  const MaxX: int := 4
  const MaxY: int := 4
  const CenterY: int := 2

  function Abs(x: real): real { if x < 0.0 then -x else x }

  function Min(a: real, b: real): real { if a <= b then a else b }

  function Max(a: real, b: real): real { if a >= b then a else b }

  /**
   * `clamp(x, lo, hi) = max(min(x, hi), lo)`.  With `lo <= hi` the result
   * lies in `[lo, hi]` and an `x` already inside is returned unchanged;
   * with `lo > hi` the lower bound wins.
   */
  function Clamp(x: real, lo: real, hi: real): (r: real)
    ensures lo <= hi ==> lo <= r <= hi
    ensures lo <= x <= hi ==> r == x
    ensures x < lo ==> r == lo
    ensures lo <= hi < x ==> r == hi
    ensures hi < lo ==> r == lo
  {
    Max(Min(x, hi), lo)
  }

  /** `clamp` on integers: the same function as `Clamp`, restricted to integers. */
  function ClampInt(x: int, lo: int, hi: int): (r: int)
    ensures r as real == Clamp(x as real, lo as real, hi as real)
  {
    if x <= hi then (if x >= lo then x else lo)
    else (if hi >= lo then hi else lo)
  }

  /** Clamping a clamped value again changes nothing. */
  lemma ClampIdempotent(x: real, lo: real, hi: real)
    requires lo <= hi
    ensures Clamp(Clamp(x, lo, hi), lo, hi) == Clamp(x, lo, hi)
  {
  }

  /**
   * Python's `round` on a float: the nearest integer, ties going to the
   * even neighbour (`round(0.5) == 0`, `round(1.5) == 2`, `round(-0.5) == 0`).
   */
  function Round(x: real): (r: int)
    ensures x - 0.5 <= r as real <= x + 0.5
    ensures x - (x.Floor as real) == 0.5 ==> r % 2 == 0
  {
    var f := x.Floor;
    var d := x - f as real;
    if d < 0.5 then f
    else if d > 0.5 then f + 1
    else if f % 2 == 0 then f
    else f + 1
  }

  /** `Round` picks a nearest integer: no integer is strictly closer to `x`. */
  lemma RoundIsNearest(x: real, n: int)
    ensures Abs(Round(x) as real - x) <= Abs(n as real - x)
  {
    var r := Round(x);
    if n < r {
      assert n as real <= r as real - 1.0;
    } else if n > r {
      assert n as real >= r as real + 1.0;
    }
  }

  /** An integral position rounds to itself. */
  lemma RoundOfInteger(n: int)
    ensures Round(n as real) == n
  {
  }

  /** Rounding is monotone. */
  lemma RoundMonotone(x: real, y: real)
    requires x <= y
    ensures Round(x) <= Round(y)
  {
  }

  /** Python's `int(x)` on a float: truncation toward zero. */
  function Trunc(x: real): (r: int)
    ensures x >= 0.0 ==> r == x.Floor
    ensures Abs(x - r as real) < 1.0
    ensures Abs(r as real) <= Abs(x)
  {
    if x >= 0.0 then x.Floor else -((-x).Floor)
  }

  /**
   * `CoordinateSystem.to_x` / `to_y`: the pixel a continuous coordinate
   * lands on, the integer nearest to it.
   */
  function ToPixel(p: real): (px: int)
    ensures p - 0.5 <= px as real <= p + 0.5
  {
    Round(p)
  }

  /** `CoordinateSystem.clip_x`: the coordinate clamped into the columns 0..4. */
  function ClipX(x: real): (r: real)
    ensures MinX as real <= r <= MaxX as real
  {
    Clamp(x, MinX as real, MaxX as real)
  }

  /** `CoordinateSystem.clip_y`: the coordinate clamped into the rows 0..4. */
  function ClipY(y: real): (r: real)
    ensures MinY as real <= r <= MaxY as real
  {
    Clamp(y, MinY as real, MaxY as real)
  }

  /** True when both coordinates lie inside the grid bounds. */
  predicate InGrid(x: real, y: real)
  {
    MinX as real <= x <= MaxX as real && MinY as real <= y <= MaxY as real
  }

  /** True when a pixel address is one of the 25 cells. */
  predicate OnGrid(px: int, py: int)
  {
    MinX <= px <= MaxX && MinY <= py <= MaxY
  }

  /** A position inside the grid bounds rounds to a pixel of the grid. */
  lemma {:induction false} InGridRoundsOnGrid(x: real, y: real)
    requires InGrid(x, y)
    ensures OnGrid(ToPixel(x), ToPixel(y))
  {
    RoundMonotone(0.0, x);
    RoundMonotone(x, 4.0);
    RoundMonotone(0.0, y);
    RoundMonotone(y, 4.0);
    RoundOfInteger(0);
    RoundOfInteger(4);
  }

  /** `CoordinateSystem.to_speed`: pixels per second to pixels per millisecond. */
  function ToSpeed(pxPerSecond: real): (r: real)
    ensures r * 1000.0 == pxPerSecond
  {
    pxPerSecond / 1000.0
  }
}
