/** Python's `round`: to the nearest integer, halves to the even neighbour. */
module Rounding {

  function Round(x: real): (r: int)
    ensures x - 0.5 <= r as real <= x + 0.5
    ensures r as real - x == 0.5 || x - r as real == 0.5 ==> r % 2 == 0
  {
    var low := x.Floor;
    var rest := x - low as real;
    if rest < 0.5 then low
    else if rest > 0.5 then low + 1
    else if low % 2 == 0 then low
    else low + 1
  }

  lemma RoundOfInt(n: int)
    ensures Round(n as real) == n
  {
  }

  lemma RoundIsMonotone(x: real, y: real)
    requires x <= y
    ensures Round(x) <= Round(y)
  {
    if x.Floor == y.Floor {
      assert x - x.Floor as real <= y - y.Floor as real;
    } else {
      assert x.Floor + 1 <= y.Floor;
    }
  }

  /** Growing by less than one moves the rounded value by at most one. */
  lemma RoundGrowsSlowly(x: real, y: real)
    requires x <= y < x + 1.0
    ensures Round(y) <= Round(x) + 1
  {
    assert x.Floor <= y.Floor <= x.Floor + 1;
  }

  lemma FloorIsMonotone(x: real, y: real)
    requires x <= y
    ensures x.Floor <= y.Floor
  {
  }

  /** The product, as a term of its own so that proofs can speak of it. */
  function Times(x: real, y: real): real {
    x * y
  }

  lemma TimesOne(x: real)
    ensures Times(x, 1.0) == x
  {
  }

  lemma TimesInOrder(x: real, y: real, a: real, b: real)
    requires 0.0 <= x <= y && 0.0 <= a <= b
    ensures Times(x, a) <= Times(y, b)
  {
    assert x * a <= y * a;
    assert a * y <= b * y;
  }

  function Max(x: int, y: int): (r: int)
    ensures x <= r && y <= r && (r == x || r == y)
  {
    if x >= y then x else y
  }

  function Min(x: int, y: int): (r: int)
    ensures r <= x && r <= y && (r == x || r == y)
  {
    if x <= y then x else y
  }

  function MaxReal(x: real, y: real): real {
    if x >= y then x else y
  }

  function MinReal(x: real, y: real): real {
    if x <= y then x else y
  }

  /** `x` kept within `[low, high]`, the lower bound winning. */
  function Clamp(low: real, x: real, high: real): (r: real)
    ensures low <= high ==> low <= r <= high && (low <= x <= high ==> r == x) && (x < low ==> r == low) && (x > high ==> r == high)
  {
    MaxReal(low, MinReal(high, x))
  }
}
