/**
 * JavaScript numbers as the engine sees them. A numeric field that went through
 * `parseFloat` or `Number` is either a number or NaN (missing, blank or
 * non-numeric input); the idioms `x || 0` and `x || 1` are the explicit
 * normalisation steps below. Arithmetic is exact (`real`), not IEEE-754.
 */
module Numbers {

  datatype Num = Num(v: real) | NaN

  /** `parseFloat(x) || 0`: NaN and zero are both falsy, so both give 0. */
  function OrZero(n: Num): real
  {
    match n
    case Num(v) => v
    case NaN => 0.0
  }

  /** `parseFloat(x) || 1`: NaN and zero are both falsy, so both give 1. */
  function OrOne(n: Num): real
  {
    if n.Num? && n.v != 0.0 then n.v else 1.0
  }

  /** `a + b` on JavaScript numbers: NaN absorbs. */
  function NumAdd(a: Num, b: Num): (r: Num)
    ensures r.NaN? <==> a.NaN? || b.NaN?
    ensures r.Num? ==> r.v == a.v + b.v
  {
    if a.NaN? || b.NaN? then NaN else Num(a.v + b.v)
  }

  function Max(a: real, b: real): real
  {
    if a >= b then a else b
  }

  function Abs(a: real): real
  {
    if a >= 0.0 then a else -a
  }

  /** True when `x` is a whole number of cents. */
  predicate IsCents(x: real)
  {
    (x * 100.0).Floor as real == x * 100.0
  }

  /** Cents of a non-negative amount, halves rounded up. */
  function HalfUpCents(y: real): int
  {
    (y * 100.0 + 0.5).Floor
  }

  lemma HalfUpCentsBounds(y: real)
    ensures -0.5 < HalfUpCents(y) as real - y * 100.0 <= 0.5
  {
  }

  /** A whole number of cents, written in units, is whole cents. */
  lemma CentsAreCents(k: int)
    ensures IsCents(k as real / 100.0)
  {
    assert (k as real / 100.0) * 100.0 == k as real;
  }

  /** Cents within half a cent of `100 * x`, written in units, are within 0.005 of `x`. */
  lemma NearCents(k: int, x: real)
    requires -0.5 <= k as real - x * 100.0 <= 0.5
    ensures Abs(k as real / 100.0 - x) <= 0.005
  {
  }

  /**
   * `parseFloat(x.toFixed(2))`: rounding to two decimals, halves away from
   * zero, on the exact value.
   */
  function RoundCents(x: real): (r: real)
    ensures IsCents(r)
    ensures Abs(r - x) <= 0.005
  {
    var y := if x >= 0.0 then x else -x;
    HalfUpCentsBounds(y);
    var k := if x >= 0.0 then HalfUpCents(y) else -HalfUpCents(y);
    CentsAreCents(k);
    NearCents(k, x);
    k as real / 100.0
  }

  /** Rounding a value that already is whole cents gives it back. */
  lemma RoundCentsIdempotent(x: real)
    ensures RoundCents(RoundCents(x)) == RoundCents(x)
  {
    var r := RoundCents(x);
    var k := (r * 100.0).Floor;
    assert r * 100.0 == k as real;
    if r >= 0.0 {
      assert (r * 100.0 + 0.5).Floor == k;
    } else {
      assert ((-r) * 100.0 + 0.5).Floor == -k;
    }
  }
}
