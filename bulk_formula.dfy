/** The drag-coefficient formulas of class `BulkFormula` (windeval/processing.py).

    Each formula maps the absolute wind speed at 10 m height (and, for Kara et al.
    2000, the sea-surface and air temperature) to a dimensionless drag coefficient.
    Quantities are exact reals: the constants of every formula are finite decimals,
    so the model computes the mathematical value that the floating-point code
    approximates. A formula that raises `ValueError` outside its interval returns
    `Err` carrying the exact message text instead.
 */
module BulkFormula {

  /** The outcome of a formula that may raise `ValueError`. */
  datatype Result = Ok(cd: real) | Err(msg: string)

  const OutsideIntervalPrefix: string := "Bulk-formula is not defined for values outside of the "

  /** Message raised by Large and Pond 1981 outside [4, 25]. */
  const LargeAndPondMessage: string := OutsideIntervalPrefix + "interval I = [4, 25]"

  /** Message raised by Yelland and Taylor 1996 outside [3, 26]. */
  const YellandAndTaylorMessage: string := OutsideIntervalPrefix + "interval I = [3, 26]"

  /** Message raised by Large and Yeager 2004 at calm wind. */
  const LargeAndYeagerMessage: string := "Bulk-formula is not defined for U = 0"

  // ---------------------------------------------------------------------------
  // NCEP/NCAR, after Koehl and Heimbach 2007

  /** The constant drag coefficient NCEP/NCAR used as of 2007. */
  function NcepNcar2007(): (cd: real)
    ensures cd == 0.0013
  {
    1.3 * 1e-3
  }

  // ---------------------------------------------------------------------------
  // Large and Pond 1981

  /** Large and Pond 1981: constant on [4, 11), linear in U on [11, 25], raises elsewhere. */
  function LargeAndPond1981(u: real): (r: Result)
    ensures r.Ok? <==> 4.0 <= u <= 25.0
    ensures r.Err? ==> r.msg == LargeAndPondMessage
    ensures r.Ok? ==> 1.2e-3 <= r.cd <= 2.115e-3
  {
    if 4.0 <= u && u < 11.0 then
      Ok(1.2 * 1e-3)
    else if 11.0 <= u && u <= 25.0 then
      Ok((0.49 + 0.065 * u) * 1e-3)
    else
      Err(LargeAndPondMessage)
  }

  /** On its domain the coefficient never decreases as the wind strengthens. */
  lemma LargeAndPond1981Monotone(a: real, b: real)
    requires 4.0 <= a <= b <= 25.0
    ensures LargeAndPond1981(a).cd <= LargeAndPond1981(b).cd
  {
  }

  /** Above 11 m/s, Large and Pond 1981 and Trenberth et al. 1990 share one linear law. */
  lemma LargeAndPondAgreesWithTrenberth(u: real)
    requires 11.0 <= u <= 25.0
    ensures LargeAndPond1981(u) == Ok(Trenberth1990(u))
  {
  }

  // ---------------------------------------------------------------------------
  // Yelland and Taylor 1996

  /** Yelland and Taylor 1996: rational in U on [3, 6), linear on [6, 26], raises elsewhere. */
  function YellandAndTaylor1996(u: real): (r: Result)
    ensures r.Ok? <==> 3.0 <= u <= 26.0
    ensures r.Err? ==> r.msg == YellandAndTaylorMessage
    ensures r.Ok? ==> 1.02e-3 <= r.cd <= 2.42e-3
  {
    if 3.0 <= u && u < 6.0 then
      YellandAndTaylorLowWindBounds(u);
      Ok((0.29 + 3.1 / u + 7.7 / (u * u)) * 1e-3)
    else if 6.0 <= u && u <= 26.0 then
      Ok((0.6 + 0.07 * u) * 1e-3)
    else
      Err(YellandAndTaylorMessage)
  }

  /** The low-wind branch is bounded by its values at 6 (excluded) and 3. */
  lemma YellandAndTaylorLowWindBounds(u: real)
    requires 3.0 <= u < 6.0
    ensures 1.02 < 0.29 + 3.1 / u + 7.7 / (u * u) <= 0.29 + 3.1 / 3.0 + 7.7 / 9.0
  {
    ReciprocalBetween(u, 3.0, 6.0, 3.1);
    ReciprocalBetween(u * u, 9.0, 36.0, 7.7);
  }

  /** For lo <= x <= hi, c / x lies in [c / hi, c / lo]. */
  lemma ReciprocalBetween(x: real, lo: real, hi: real, c: real)
    requires 0.0 < lo <= x <= hi
    requires 0.0 < c
    ensures c / hi <= c / x <= c / lo
  {
    assert c / x * x == c;
    assert c / hi * hi == c;
    assert c / lo * lo == c;
  }

  // ---------------------------------------------------------------------------
  // Kara et al. 2000

  /** The wind speed Kara et al. 2000 actually use: V_a clamped to [2.5, 32.5]. */
  function KaraWindSpeed(v: real): (vh: real)
    ensures 2.5 <= vh <= 32.5
    ensures 2.5 <= v <= 32.5 ==> vh == v
    ensures v <= 2.5 ==> vh == 2.5
    ensures v >= 32.5 ==> vh == 32.5
  {
    var inner := if 32.5 <= v then 32.5 else v;
    if 2.5 <= inner then inner else 2.5
  }

  /** C_d0, the neutral part of the coefficient. Over the clamp range it lies between
      its values at 2.5 and at 32.5. */
  function KaraNeutral(vh: real): (cd0: real)
    ensures 2.5 <= vh <= 32.5 ==> 1.0764375e-3 <= cd0 <= 2.7819375e-3
  {
    NeutralQuadraticBounds(vh);
    (0.862 + 0.088 * vh - 0.00089 * (vh * vh)) * 1e-3
  }

  /** C_d1, the weight of the sea-air temperature difference, with the sign of its
      quadratic term as in the code (plus), not as in the docstring (minus). With that
      sign it is positive at every wind speed. */
  function KaraStability(vh: real): (cd1: real)
    ensures cd1 > 0.0
  {
    StabilityQuadraticPositive(vh);
    (0.1034 - 0.00678 * vh + 0.0001147 * (vh * vh)) * 1e-3
  }

  /** Kara et al. 2000: C_d0 + C_d1 (T_s - T_a) at the clamped wind speed. It is total;
      a sea warmer than the air raises it above C_d0, a cooler one lowers it, and at
      equal temperatures it lies between its values at 2.5 and 32.5 m/s. */
  function Kara2000(v: real, ts: real, ta: real): (cd: real)
    ensures ts >= ta ==> cd >= KaraNeutral(KaraWindSpeed(v))
    ensures ts <= ta ==> cd <= KaraNeutral(KaraWindSpeed(v))
    ensures ts == ta ==> 1.0764375e-3 <= cd <= 2.7819375e-3
  {
    var vh := KaraWindSpeed(v);
    ProductNonNegative(KaraStability(vh), ts - ta);
    ProductNonNegative(KaraStability(vh), ta - ts);
    KaraNeutral(vh) + KaraStability(vh) * (ts - ta)
  }

  /** 0.862 + 0.088 V - 0.00089 V^2 rises on [2.5, 32.5] (its vertex is near 49.4). */
  lemma {:induction false} NeutralQuadraticBounds(vh: real)
    ensures 2.5 <= vh <= 32.5 ==> 1.0764375 <= 0.862 + 0.088 * vh - 0.00089 * (vh * vh) <= 2.7819375
  {
    if !(2.5 <= vh <= 32.5) { return; }
    var p := 0.862 + 0.088 * vh - 0.00089 * (vh * vh);
    ProductNonNegative(vh - 2.5, 0.088 - 0.00089 * (vh + 2.5));
    assert p - 1.0764375 == (vh - 2.5) * (0.088 - 0.00089 * (vh + 2.5));
    ProductNonNegative(32.5 - vh, 0.088 - 0.00089 * (32.5 + vh));
    assert 2.7819375 - p == (32.5 - vh) * (0.088 - 0.00089 * (32.5 + vh));
  }

  /** 0.1034 - 0.00678 V + 0.0001147 V^2 has no real root, so it is positive. */
  lemma {:induction false} StabilityQuadraticPositive(vh: real)
    ensures 0.1034 - 0.00678 * vh + 0.0001147 * (vh * vh) > 0.0
  {
    var c := 0.00678 / 0.0002294;
    assert 0.0001147 * (vh - c) * (vh - c) >= 0.0;
    assert 0.0001147 * (vh * vh) - 0.00678 * vh + 0.1034
        == 0.0001147 * (vh - c) * (vh - c) + (0.1034 - 0.0001147 * c * c);
  }

  /** Below 2.5 m/s the input wind speed no longer matters. */
  lemma Kara2000ClampLow(v: real, ts: real, ta: real)
    requires v <= 2.5
    ensures Kara2000(v, ts, ta) == Kara2000(2.5, ts, ta)
  {
  }

  /** Above 32.5 m/s the input wind speed no longer matters. */
  lemma Kara2000ClampHigh(v: real, ts: real, ta: real)
    requires v >= 32.5
    ensures Kara2000(v, ts, ta) == Kara2000(32.5, ts, ta)
  {
  }

  /** C_d0 grows with the wind over the whole clamp range. */
  lemma {:induction false} KaraNeutralMonotone(a: real, b: real)
    requires 2.5 <= a <= b <= 32.5
    ensures KaraNeutral(a) <= KaraNeutral(b)
  {
    var d, k := b - a, 0.088 - 0.00089 * (b + a);
    assert b * b - a * a == d * (b + a);
    assert k > 0.0;
    ProductNonNegative(d, k);
    assert KaraNeutral(b) - KaraNeutral(a) == d * k * 1e-3;
  }

  /** The product of two non-negative reals is non-negative. */
  lemma ProductNonNegative(x: real, y: real)
    ensures x >= 0.0 && y >= 0.0 ==> x * y >= 0.0
  {
  }

  /** With equal temperatures the correction vanishes: the result is C_d0 of the clamped
      speed, between its values at 2.5 and 32.5. */
  lemma Kara2000EqualTemperatures(v: real, t: real)
    ensures Kara2000(v, t, t) == KaraNeutral(KaraWindSpeed(v))
    ensures 1.0764375e-3 <= Kara2000(v, t, t) <= 2.7819375e-3
  {
  }

  /** A sea warmer than the air never lowers the coefficient: Kara et al. 2000 is
      non-decreasing in T_s - T_a at every wind speed. */
  lemma {:induction false} Kara2000MonotoneInTemperatureDifference(v: real, ts1: real, ta1: real, ts2: real, ta2: real)
    requires ts1 - ta1 <= ts2 - ta2
    ensures Kara2000(v, ts1, ta1) <= Kara2000(v, ts2, ta2)
  {
    var vh := KaraWindSpeed(v);
    ProductNonNegative(KaraStability(vh), (ts2 - ta2) - (ts1 - ta1));
    assert KaraStability(vh) * (ts2 - ta2) - KaraStability(vh) * (ts1 - ta1)
        == KaraStability(vh) * ((ts2 - ta2) - (ts1 - ta1));
  }

  // ---------------------------------------------------------------------------
  // Trenberth, Large and Olson 1990

  /** Trenberth et al. 1990: four branches covering every real U; it never raises. */
  function Trenberth1990(u: real): (cd: real)
    ensures cd >= 1.14e-3
    ensures u <= 10.0 ==> cd <= 2.18e-3
  {
    if u <= 1.0 then
      2.18 * 1e-3
    else if 1.0 < u && u <= 3.0 then
      ReciprocalBetween(u, 1.0, 3.0, 1.56);
      (0.62 + 1.56 / u) * 1e-3
    else if 3.0 < u && u < 10.0 then
      1.14 * 1e-3
    else
      (0.49 + 0.065 * u) * 1e-3
  }

  /** Neighbouring branches meet at 1, 3 and 10, so the coefficient falls
      without a jump up to 10 m/s and then rises. */
  lemma {:induction false} Trenberth1990Shape(a: real, b: real)
    requires a <= b
    ensures b <= 10.0 ==> Trenberth1990(b) <= Trenberth1990(a)
    ensures 10.0 <= a ==> Trenberth1990(a) <= Trenberth1990(b)
  {
    if 1.0 < a <= b <= 3.0 {
      ReciprocalBetween(a, a, b, 1.56);
    }
  }

  // ---------------------------------------------------------------------------
  // Large and Yeager 2004

  /** Large and Yeager 2004: raises exactly at U = 0, else (0.142 + 0.076 U + 2.7 / U) 10^-3;
      for a positive wind speed the coefficient stays above 1.04 10^-3. */
  function LargeAndYeager2004(u: real): (r: Result)
    ensures r.Err? <==> u == 0.0
    ensures r.Err? ==> r.msg == LargeAndYeagerMessage
    ensures r.Ok? && u > 0.0 ==> r.cd > 1.04e-3
  {
    if u == 0.0 then
      Err(LargeAndYeagerMessage)
    else
      LargeAndYeagerPositiveBound(u);
      Ok((0.142 + 0.076 * u + 2.7 / u) * 1e-3)
  }

  /** 0.076 U + 2.7 / U > 0.898 for U > 0, since 0.076 U^2 - 0.898 U + 2.7 has no real root. */
  lemma {:induction false} LargeAndYeagerPositiveBound(u: real)
    requires u != 0.0
    ensures u > 0.0 ==> 0.142 + 0.076 * u + 2.7 / u > 1.04
  {
    if u < 0.0 { return; }
    var c := 0.898 / 0.152;
    var q := 2.7 / u;
    assert q * u == 2.7;
    assert 0.076 * (u - c) * (u - c) >= 0.0;
    assert 0.076 * (u * u) - 0.898 * u + 2.7 == 0.076 * (u - c) * (u - c) + (2.7 - 0.076 * c * c);
    var d := 0.076 * u + q - 0.898;
    assert d * u == 0.076 * (u * u) - 0.898 * u + 2.7;
    assert d * u > 0.0;
    assert d > 0.0;
  }
}
