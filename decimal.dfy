/**
 * BigDecimal rounding to a fixed number of decimal places with
 * RoundingMode.HALF_UP: round to the nearest multiple of 10^-scale, a tie going
 * away from zero. Prices are exact reals, so every BigDecimal quotient and
 * product in the core is computed exactly and then rounded by this function.
 */
module Decimal {
  import opened Wrappers

  /** A BigDecimal that is non-null and compares above zero. */
  predicate Positive(d: Option<real>) {
    d.Some? && d.value > 0.0
  }

  function Pow10(n: nat): (r: nat)
    ensures r >= 1
  {
    if n == 0 then 1 else 10 * Pow10(n - 1)
  }

  /** The number of units of the last place in one: 10^scale as a real. */
  function Scale(scale: nat): (p: real)
    ensures p >= 1.0
  {
    Pow10(scale) as real
  }

  function Abs(x: real): real {
    if x < 0.0 then -x else x
  }

  /** HALF_UP on the scaled value: the nearest integer, a tie going away from zero. */
  function RoundToInt(y: real): int {
    if y >= 0.0 then (y + 0.5).Floor else -((-y + 0.5).Floor)
  }

  /** `x.divide(..., scale, HALF_UP)` / `x.setScale(scale, HALF_UP)` on the exact value `x`. */
  function RoundHalfUp(x: real, scale: nat): real {
    RoundToInt(x * Scale(scale)) as real / Scale(scale)
  }

  /**
   * The reference meaning of rounding `y` HALF_UP to an integer `n`: no integer
   * is nearer, and of two equally near ones the one farther from zero is taken.
   */
  ghost predicate IsHalfUpInt(y: real, n: int) {
    && -0.5 <= n as real - y <= 0.5
    && (Abs(n as real - y) == 0.5 ==> Abs(n as real) > Abs(y))
  }

  /**
   * The reference meaning of rounding `x` to `scale` places: `r` is `n` units
   * of 10^-scale, and `n` is the HALF UP rounding of `x` counted in those units.
   */
  ghost predicate IsHalfUp(x: real, scale: nat, r: real, n: int) {
    r == n as real / Scale(scale) && IsHalfUpInt(x * Scale(scale), n)
  }

  lemma RoundToIntIsHalfUp(y: real)
    ensures IsHalfUpInt(y, RoundToInt(y))
  {
    var n := RoundToInt(y);
    if y >= 0.0 {
      assert n as real <= y + 0.5 < n as real + 1.0;
    } else {
      assert -(n as real) <= -y + 0.5 < -(n as real) + 1.0;
    }
  }

  /** At most one integer is the HALF_UP rounding of `y`. */
  lemma HalfUpIntUnique(y: real, n: int, m: int)
    requires IsHalfUpInt(y, n) && IsHalfUpInt(y, m)
    ensures n == m
  {
  }

  lemma RoundToIntNegate(y: real)
    ensures RoundToInt(-y) == -RoundToInt(y)
  {
    if y == 0.0 {
      assert RoundToInt(-y) == 0;
    }
  }

  lemma MulDivCancel(a: real, p: real)
    requires p > 0.0
    ensures (a * p) / p == a
  {
  }

  lemma DivMono(a: real, b: real, p: real)
    requires p > 0.0 && a <= b
    ensures a / p <= b / p
  {
  }

  lemma DivSub(a: real, b: real, p: real)
    requires p > 0.0
    ensures a / p - b / p == (a - b) / p
  {
  }

  lemma NegMul(a: real, p: real)
    ensures (-a) * p == -(a * p)
  {
  }

  lemma NegDiv(a: real, p: real)
    requires p > 0.0
    ensures (-a) / p == -(a / p)
  {
  }

  /** RoundHalfUp meets the reference meaning ... */
  lemma RoundHalfUpCorrect(x: real, scale: nat)
    ensures IsHalfUp(x, scale, RoundHalfUp(x, scale), RoundToInt(x * Scale(scale)))
  {
    RoundToIntIsHalfUp(x * Scale(scale));
  }

  /** ... and is the only value that does. */
  lemma RoundHalfUpUnique(x: real, scale: nat, r: real, n: int)
    requires IsHalfUp(x, scale, r, n)
    ensures r == RoundHalfUp(x, scale)
  {
    var y := x * Scale(scale);
    RoundToIntIsHalfUp(y);
    HalfUpIntUnique(y, n, RoundToInt(y));
  }

  lemma ErrorAt(x: real, p: real, n: int)
    requires p > 0.0 && IsHalfUpInt(x * p, n)
    ensures -0.5 / p <= n as real / p - x <= 0.5 / p
  {
    MulDivCancel(x, p);
    DivSub(n as real, x * p, p);
    DivMono(-0.5, n as real - x * p, p);
    DivMono(n as real - x * p, 0.5, p);
  }

  /** The rounding error is at most half a unit in the last place. */
  lemma RoundHalfUpError(x: real, scale: nat)
    ensures -0.5 / Scale(scale) <= RoundHalfUp(x, scale) - x <= 0.5 / Scale(scale)
  {
    RoundToIntIsHalfUp(x * Scale(scale));
    ErrorAt(x, Scale(scale), RoundToInt(x * Scale(scale)));
  }

  /** HALF_UP is symmetric about zero: a negative margin rounds like its magnitude, negated. */
  lemma RoundHalfUpNegate(x: real, scale: nat)
    ensures RoundHalfUp(-x, scale) == -RoundHalfUp(x, scale)
  {
    NegMul(x, Scale(scale));
    RoundToIntNegate(x * Scale(scale));
    NegDiv(RoundToInt(x * Scale(scale)) as real, Scale(scale));
  }

  lemma RoundToIntMono(a: real, b: real)
    requires a <= b
    ensures RoundToInt(a) <= RoundToInt(b)
  {
    if a < 0.0 && b >= 0.0 {
      assert RoundToInt(a) <= 0 <= RoundToInt(b);
    }
  }

  lemma MulMono(a: real, b: real, p: real)
    requires p > 0.0 && a <= b
    ensures a * p <= b * p
  {
  }

  lemma ScaledMono(x: real, y: real, scale: nat)
    requires x <= y
    ensures RoundToInt(x * Scale(scale)) <= RoundToInt(y * Scale(scale))
  {
    MulMono(x, y, Scale(scale));
    RoundToIntMono(x * Scale(scale), y * Scale(scale));
  }

  lemma UnitsMono(a: int, b: int, scale: nat)
    requires a <= b
    ensures a as real / Scale(scale) <= b as real / Scale(scale)
  {
    DivMono(a as real, b as real, Scale(scale));
  }

  /** Rounding preserves order: a larger exact value never rounds to a smaller one. */
  lemma RoundHalfUpMono(x: real, y: real, scale: nat)
    requires x <= y
    ensures RoundHalfUp(x, scale) <= RoundHalfUp(y, scale)
  {
    ScaledMono(x, y, scale);
    UnitsMono(RoundToInt(x * Scale(scale)), RoundToInt(y * Scale(scale)), scale);
  }
}
