/** Positions: 0 is fully closed, 100 fully open, always an integer. */
module Position {

  /**
   * Python's `round(x)` on a number: the nearest integer, ties going to the
   * even neighbour.
   */
  function RoundHalfEven(x: real): (r: int)
    ensures r as real - 0.5 <= x <= r as real + 0.5
    ensures x - r as real == 0.5 || r as real - x == 0.5 ==> r % 2 == 0
  {
    var f := x.Floor;
    var frac := x - f as real;
    if frac < 0.5 then f
    else if frac > 0.5 then f + 1
    else if f % 2 == 0 then f else f + 1
  }

  /** `_clamp_position`: `max(0, min(100, int(round(value))))`. */
  function Clamp(value: real): (r: int)
    ensures 0 <= r <= 100
    ensures value <= 0.0 ==> r == 0
    ensures value >= 100.0 ==> r == 100
    ensures 0.0 <= value <= 100.0 ==> r == RoundHalfEven(value)
    ensures 0.0 <= value <= 100.0 ==> r as real - 0.5 <= value <= r as real + 0.5
  {
    var n := RoundHalfEven(value);
    if n < 0 then 0 else if n > 100 then 100 else n
  }

  /** Rounding an integer gives that integer back. */
  lemma RoundOfInteger(n: int)
    ensures RoundHalfEven(n as real) == n
  {
  }

  /** An integer already in range is returned unchanged. */
  lemma ClampKeepsPositions(n: int)
    requires 0 <= n <= 100
    ensures Clamp(n as real) == n
  {
    RoundOfInteger(n);
  }

  /** Clamping twice is clamping once. */
  lemma ClampIdempotent(value: real)
    ensures Clamp(Clamp(value) as real) == Clamp(value)
  {
    ClampKeepsPositions(Clamp(value));
  }

  /** Rounding half to even never reverses the order of two numbers. */
  lemma RoundMonotone(x: real, y: real)
    requires x <= y
    ensures RoundHalfEven(x) <= RoundHalfEven(y)
  {
    // Were the order reversed, both inputs would sit on one tie between two
    // neighbours of different parity, and ties go to the even one.
  }

  /** Clamping keeps the order of its inputs. */
  lemma ClampMonotone(x: real, y: real)
    requires x <= y
    ensures Clamp(x) <= Clamp(y)
  {
    RoundMonotone(x, y);
  }
}
