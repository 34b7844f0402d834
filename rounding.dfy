/**
 * Python's `round` on exact reals.
 *
 * `round(x)` returns the nearest integer and breaks ties towards the even
 * neighbour; `round(x, 2)` does the same on the grid of hundredths. The model
 * works on exact reals, so binary floating-point artefacts are not modelled.
 */
module Rounding {

  /** True when `x` is a whole number of hundredths. */
  predicate OnCents(x: real) {
    (x * 100.0).Floor as real == x * 100.0
  }

  /** Nearest integer to `x`, ties to even (Python's `round(x)`). */
  function RoundHalfEven(x: real): (r: int)
    ensures x - 0.5 <= r as real <= x + 0.5
    ensures r as real - x == 0.5 || x - r as real == 0.5 ==> r % 2 == 0
  {
    var f := x.Floor;
    var d := x - f as real;
    if d < 0.5 then f
    else if d > 0.5 then f + 1
    else if f % 2 == 0 then f
    else f + 1
  }

  /** `round(x)`: a whole amount. */
  function Round0(x: real): (r: int)
    ensures x - 0.5 <= r as real <= x + 0.5
    ensures r as real - x == 0.5 || x - r as real == 0.5 ==> r % 2 == 0
  {
    RoundHalfEven(x)
  }

  /** `round(x, 2)`: an amount in hundredths. */
  function Round2(x: real): (r: real)
    ensures x - 0.005 <= r <= x + 0.005
    ensures OnCents(r)
    ensures r - x == 0.005 || x - r == 0.005 ==> (r * 100.0).Floor % 2 == 0
  {
    var n := RoundHalfEven(x * 100.0);
    assert (n as real / 100.0) * 100.0 == n as real;
    n as real / 100.0
  }

  /** Rounding to a whole number never reverses the order of two values. */
  lemma Round0Monotone(x: real, y: real)
    requires x <= y
    ensures Round0(x) <= Round0(y)
  {
  }

  /** Rounding to hundredths never reverses the order of two values. */
  lemma Round2Monotone(x: real, y: real)
    requires x <= y
    ensures Round2(x) <= Round2(y)
  {
    Round0Monotone(x * 100.0, y * 100.0);
  }

  /** A whole number of hundredths is left unchanged by `round(_, 2)`. */
  lemma Round2OnCents(x: real)
    requires OnCents(x)
    ensures Round2(x) == x
  {
    var k := (x * 100.0).Floor;
    assert k as real == x * 100.0;
    assert RoundHalfEven(x * 100.0) == k;
  }

  /** Rounding twice to hundredths is the same as rounding once. */
  lemma Round2Idempotent(x: real)
    ensures Round2(Round2(x)) == Round2(x)
  {
    Round2OnCents(Round2(x));
  }

  /** A whole number is left unchanged by `round`. */
  lemma Round0OfInt(n: int)
    ensures Round0(n as real) == n
  {
    assert (n as real).Floor == n;
  }

  /** Rounding a non-negative value gives a non-negative value. */
  lemma Round2NonNegative(x: real)
    requires x >= 0.0
    ensures Round2(x) >= 0.0
  {
    Round2Monotone(0.0, x);
    Round2OnCents(0.0);
  }

  /** Two whole numbers of hundredths add up to a whole number of hundredths. */
  lemma OnCentsAdd(x: real, y: real)
    requires OnCents(x) && OnCents(y)
    ensures OnCents(x + y)
  {
    var a, b := (x * 100.0).Floor, (y * 100.0).Floor;
    assert (x + y) * 100.0 == (a + b) as real;
  }
}
