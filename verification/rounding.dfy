/**
 * Python's `round(x, n)` on quantities, modelled on reals as rounding half up
 * to `n` decimal places.
 */
module Rounding {

  /** 10 to the power `n`. */
  function Pow10(n: nat): (p: nat)
    ensures p >= 1
  {
    if n == 0 then 1 else 10 * Pow10(n - 1)
  }

  /** The nearest multiple of `1/p` to `x`, halves rounded up. */
  function RoundToMultiple(x: real, p: real): real
    requires p > 0.0
  {
    (x * p + 0.5).Floor as real / p
  }

  /** `round(x, places)`: the multiple of 10^-places nearest to `x`. */
  function RoundTo(x: real, places: nat): real {
    RoundToMultiple(x, Pow10(places) as real)
  }

  /** Half a unit in the last kept place. */
  function HalfUnit(places: nat): (h: real)
    ensures h > 0.0
  {
    0.5 / Pow10(places) as real
  }

  lemma RoundToMultipleBound(x: real, p: real)
    requires p > 0.0
    ensures x - 0.5 / p < RoundToMultiple(x, p) <= x + 0.5 / p
  {
    var y := x * p + 0.5;
    var f := y.Floor as real;
    assert f <= y < f + 1.0;
    DivMonotonic(x * p - 0.5, f, p);
    DivMonotonic(f, x * p + 0.5, p);
    assert (x * p - 0.5) / p != f / p;
    assert (x * p - 0.5) / p == x - 0.5 / p;
    assert (x * p + 0.5) / p == x + 0.5 / p;
  }

  /** Rounding moves a value by at most half a unit in the last kept place. */
  lemma RoundToBound(x: real, places: nat)
    ensures x - HalfUnit(places) < RoundTo(x, places) <= x + HalfUnit(places)
  {
    RoundToMultipleBound(x, Pow10(places) as real);
  }

  lemma DivMonotonic(a: real, b: real, p: real)
    requires p > 0.0 && a <= b
    ensures a / p <= b / p
  {
    assert b / p - a / p == (b - a) / p;
  }

  /** A value that already has at most `places` decimals is left as it is. */
  lemma RoundToExact(x: real, places: nat, n: int)
    requires x * Pow10(places) as real == n as real
    ensures RoundTo(x, places) == x
  {
    RoundToMultipleExact(x, Pow10(places) as real, n);
  }

  lemma RoundToMultipleExact(x: real, p: real, n: int)
    requires p > 0.0 && x * p == n as real
    ensures RoundToMultiple(x, p) == x
  {
    assert (x * p + 0.5).Floor == n;
    assert x == (x * p) / p;
  }

  /** `v` has at most `places` decimals: rounding it to that many places changes nothing. */
  predicate HasDecimals(v: real, places: nat) {
    RoundTo(v, places) == v
  }

  /** A rounded value has at most the requested number of decimals. */
  lemma RoundToIdempotent(x: real, places: nat)
    ensures HasDecimals(RoundTo(x, places), places)
  {
    var p := Pow10(places) as real;
    RoundToMultipleScaled(x, p);
    RoundToMultipleExact(RoundToMultiple(x, p), p, (x * p + 0.5).Floor);
  }

  lemma RoundToMultipleScaled(x: real, p: real)
    requires p > 0.0
    ensures RoundToMultiple(x, p) * p == (x * p + 0.5).Floor as real
  {
    DivMulCancel((x * p + 0.5).Floor as real, p);
  }

  lemma DivMulCancel(a: real, p: real)
    requires p > 0.0
    ensures (a / p) * p == a
  {
  }
}
