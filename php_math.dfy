/**
 * PHP's `round`, on exact reals: half-way cases go away from zero. The
 * binary floating point the interpreter actually uses is not modelled.
 */
module PhpMath {

  /** `round($x)`: the nearest integer, ties away from zero. */
  function Round(x: real): (r: int)
    ensures r as real - x <= 0.5 && x - r as real <= 0.5
    ensures r as real - x == 0.5 ==> x > 0.0
    ensures x - r as real == 0.5 ==> x < 0.0
  {
    if x >= 0.0 then (x + 0.5).Floor else -((-x + 0.5).Floor)
  }

  /** An integer-valued input is returned unchanged. */
  lemma RoundOfInteger(n: int)
    ensures Round(n as real) == n
  {
  }

  /** Any integer strictly closer than one half to `x` is what `Round` gives. */
  lemma RoundUnique(x: real, n: int)
    requires n as real - x < 0.5 && x - n as real < 0.5
    ensures Round(x) == n
  {
  }

  /**
   * `round($x, 3)`: `x` rounded to three decimal places. The result is a
   * whole number of thousandths, and a tie goes away from zero.
   */
  function Round3(x: real): (r: real)
    ensures (r * 1000.0).Floor as real == r * 1000.0
    ensures r - x <= 0.0005 && x - r <= 0.0005
    ensures r - x == 0.0005 ==> x > 0.0
    ensures x - r == 0.0005 ==> x < 0.0
    ensures x >= 0.0 ==> r >= 0.0
  {
    Round(x * 1000.0) as real / 1000.0
  }

  /**
   * The reference characterisation of `round($x, 3)`: a whole number of
   * thousandths strictly closer than 0.0005 to `x` is what `Round3` gives.
   */
  lemma Round3Unique(x: real, n: int)
    requires n as real / 1000.0 - x < 0.0005 && x - n as real / 1000.0 < 0.0005
    ensures Round3(x) == n as real / 1000.0
  {
    RoundUnique(x * 1000.0, n);
  }

  /** A value that already has at most three decimals is unchanged by `Round3`. */
  lemma Round3OfThousandths(n: int)
    ensures Round3(n as real / 1000.0) == n as real / 1000.0
  {
    assert (n as real / 1000.0) * 1000.0 == n as real;
    RoundOfInteger(n);
  }

  /** `round($s * 1000000)`: seconds since the epoch converted to whole microseconds. */
  function MicrosFromSeconds(s: real): (us: int)
    ensures us as real - s * 1000000.0 <= 0.5 && s * 1000000.0 - us as real <= 0.5
    ensures us as real - s * 1000000.0 == 0.5 ==> s > 0.0
    ensures s * 1000000.0 - us as real == 0.5 ==> s < 0.0
  {
    Round(s * 1000000.0)
  }

  /** A start time with microsecond precision converts exactly. */
  lemma MicrosFromSecondsExact(us: int)
    ensures MicrosFromSeconds(us as real / 1000000.0) == us
  {
  }
}
