/** The static helpers of MathUtils: interpolation, rate and day-count
    conversions, the forward rate, and the no-carry Black-Scholes price and vega.
    Its private copies of erf, normalCDF and normalPDF are the expressions of
    module NormalDistribution. */
module MathUtils {
  import opened Elementary
  import opened NormalDistribution
  import opened BlackScholes

  /** The 1e-10 below which two abscissae or two times count as equal. */
  const Tolerance: real := 0.0000000001

  /** linearInterpolate: the midpoint of y0 and y1 when x0 and x1 (nearly)
      coincide, otherwise the line through (x0, y0) and (x1, y1) at x. */
  function LinearInterpolate(x: real, x0: real, x1: real, y0: real, y1: real): (r: real)
    ensures Abs(x1 - x0) < Tolerance ==> r == (y0 + y1) / 2.0
    ensures Abs(x1 - x0) >= Tolerance && x == x0 ==> r == y0
    ensures Abs(x1 - x0) >= Tolerance && x == x1 ==> r == y1
  {
    if Abs(x1 - x0) < Tolerance then (y0 + y1) / 2.0
    else
      var r := y0 + (x - x0) * (y1 - y0) / (x1 - x0);
      DivCancel(y1 - y0, x1 - x0);
      r
  }

  /** Between distinct abscissae the interpolated value lies between y0 and y1. */
  lemma LinearInterpolateBetween(x: real, x0: real, x1: real, y0: real, y1: real)
    requires x1 - x0 >= Tolerance && x0 <= x <= x1
    ensures y0 <= y1 ==> y0 <= LinearInterpolate(x, x0, x1, y0, y1) <= y1
    ensures y1 <= y0 ==> y1 <= LinearInterpolate(x, x0, x1, y0, y1) <= y0
  {
    var w := (x - x0) / (x1 - x0);
    UnitFraction(x - x0, x1 - x0);
    DivMul(x - x0, y1 - y0, x1 - x0);
    var c := y1 - y0;
    ScaleWithin(w, c);
    assert LinearInterpolate(x, x0, x1, y0, y1) == y0 + w * c;
    assert y0 + c == y1;
  }

  /** annualToContinuous: f ln(1 + a/f) for compounding frequency f. A zero
      frequency, or a rate with 1 + a/f <= 0, leaves the logarithm without a
      finite value. */
  function AnnualToContinuous(m: Transcendentals, annualRate: real, frequency: int): (r: Double)
    ensures r.NotFinite? <==> frequency == 0 || 1.0 + annualRate / frequency as real <= 0.0
  {
    if frequency == 0 then NotFinite
    else
      var growth := 1.0 + annualRate / frequency as real;
      if growth <= 0.0 then NotFinite
      else Finite(frequency as real * m.ln(growth))
  }

  /** continuousToAnnual: f (e^{c/f} - 1). With f = 0 the quotient c/f is
      -infinity for c < 0, so the result is (-)0; otherwise it is NaN. */
  function ContinuousToAnnual(m: Transcendentals, continuousRate: real, frequency: int): (r: Double)
    ensures frequency == 0 ==> (r == Finite(0.0) <==> continuousRate < 0.0)
    ensures frequency != 0 ==> r.Finite?
  {
    if frequency == 0 then
      if continuousRate < 0.0 then Finite(0.0) else NotFinite
    else Finite(frequency as real * (m.exp(continuousRate / frequency as real) - 1.0))
  }

  /** Converting an annual rate to a continuous one and back returns the rate. */
  lemma AnnualRoundTrip(m: Transcendentals, annualRate: real, frequency: int)
    requires Lawful(m) && LogInvertsExp(m)
    requires frequency != 0 && 1.0 + annualRate / frequency as real > 0.0
    ensures AnnualToContinuous(m, annualRate, frequency).Finite?
    ensures ContinuousToAnnual(m, AnnualToContinuous(m, annualRate, frequency).value, frequency)
            == Finite(annualRate)
  {
    var f := frequency as real;
    var growth := 1.0 + annualRate / f;
    var c := AnnualToContinuous(m, annualRate, frequency).value;
    DivOfMultiple(c, f, m.ln(growth));
    assert m.exp(c / f) == growth;
    DivCancel(annualRate, f);
    assert ContinuousToAnnual(m, c, frequency) == Finite(f * (m.exp(c / f) - 1.0));
  }

  /** Converting a continuous rate to an annual one and back returns the rate. */
  lemma ContinuousRoundTrip(m: Transcendentals, continuousRate: real, frequency: int)
    requires Lawful(m) && LogInvertsExp(m)
    requires frequency != 0
    ensures ContinuousToAnnual(m, continuousRate, frequency).Finite?
    ensures AnnualToContinuous(m, ContinuousToAnnual(m, continuousRate, frequency).value, frequency)
            == Finite(continuousRate)
  {
    var f := frequency as real;
    var e := m.exp(continuousRate / f);
    assert m.ln(e) == continuousRate / f;
    var a := ContinuousToAnnual(m, continuousRate, frequency).value;
    DivOfMultiple(a, f, e - 1.0);
    DivCancel(continuousRate, f);
    assert AnnualToContinuous(m, a, frequency) == Finite(f * m.ln(1.0 + a / f));
  }

  /** dayCountFraction360: Actual/360 (ISDA 2006 Definitions, section 4.16(e));
      the day difference is Java int subtraction. */
  function DayCountFraction360(startDate: int, endDate: int): real
    requires IntMin <= startDate <= IntMax && IntMin <= endDate <= IntMax
  {
    JavaIntWrap(endDate - startDate) as real / 360.0
  }

  /** dayCountFraction365: Actual/365 (Fixed) (ISDA 2006 Definitions, section
      4.16(d)); the day difference is Java int subtraction. */
  function DayCountFraction365(startDate: int, endDate: int): real
    requires IntMin <= startDate <= IntMax && IntMin <= endDate <= IntMax
  {
    JavaIntWrap(endDate - startDate) as real / 365.0
  }

  /** Without overflow the fractions are the day difference over the basis:
      zero on equal dates, negated when the dates swap, and additive over an
      intermediate date. */
  lemma DayCountFractions(a: int, b: int, c: int)
    requires IntMin <= a <= IntMax && IntMin <= b <= IntMax && IntMin <= c <= IntMax
    requires IntMin <= b - a <= IntMax && IntMin <= c - b <= IntMax && IntMin <= c - a <= IntMax
    requires IntMin <= a - b <= IntMax
    ensures DayCountFraction360(a, b) * 360.0 == (b - a) as real
    ensures DayCountFraction365(a, b) * 365.0 == (b - a) as real
    ensures DayCountFraction360(a, a) == 0.0 && DayCountFraction365(a, a) == 0.0
    ensures DayCountFraction360(b, a) == -DayCountFraction360(a, b)
    ensures DayCountFraction365(b, a) == -DayCountFraction365(a, b)
    ensures DayCountFraction360(a, b) + DayCountFraction360(b, c) == DayCountFraction360(a, c)
    ensures DayCountFraction365(a, b) + DayCountFraction365(b, c) == DayCountFraction365(a, c)
  {
  }

  /** The int subtraction overflows for dates far apart: from the smallest to the
      largest int the Actual/360 fraction is -1/360, negative although the end
      date is later. */
  lemma DayCountOverflow()
    ensures DayCountFraction360(IntMin, IntMax) == -1.0 / 360.0
  {
    assert JavaIntWrap(IntMax - IntMin) == -1;
  }

  /** calculateForwardRate: rate1 for (nearly) equal times; otherwise the rate f
      that compounds rate1 over time1 into rate2 over time2. */
  function ForwardRate(rate1: real, time1: real, rate2: real, time2: real): (f: real)
    ensures Abs(time2 - time1) < Tolerance ==> f == rate1
    ensures Abs(time2 - time1) >= Tolerance ==> rate1 * time1 + f * (time2 - time1) == rate2 * time2
  {
    if Abs(time2 - time1) < Tolerance then rate1
    else (rate2 * time2 - rate1 * time1) / (time2 - time1)
  }

  /** The option fields of blackScholesPrice: the cost of carry is the rate. */
  function NoCarryTerms(spot: real, strike: real, rate: real, vol: real, maturity: real): (t: Terms)
    ensures t.carry == t.rate
  {
    Terms(spot, strike, rate, rate, vol, maturity)
  }

  /** blackScholesPrice: d1 and d2 as in OptionInstrument with b = r (the
      source repeats their formulas), and no carry factor on the spot leg. */
  function BlackScholesPrice(m: Transcendentals, phi: real -> real, spot: real, strike: real, rate: real,
                             vol: real, maturity: real, isCall: bool): real
    requires Lawful(m) && InDomain(NoCarryTerms(spot, strike, rate, vol, maturity))
  {
    var t := NoCarryTerms(spot, strike, rate, vol, maturity);
    var d1 := D1(m, t);
    var d2 := D2(m, t);
    if isCall then spot * phi(d1) - strike * Discount(m, t) * phi(d2)
    else strike * Discount(m, t) * phi(-d2) - spot * phi(-d1)
  }

  /** blackScholesPrice is PlainVanillaOption's price with b = r and M = 1. */
  lemma BlackScholesPriceIsVanilla(m: Transcendentals, phi: real -> real, spot: real, strike: real,
                                   rate: real, vol: real, maturity: real, isCall: bool)
    requires Lawful(m) && InDomain(NoCarryTerms(spot, strike, rate, vol, maturity))
    ensures BlackScholesPrice(m, phi, spot, strike, rate, vol, maturity, isCall)
            == Price(m, phi, NoCarryTerms(spot, strike, rate, vol, maturity), isCall, 1.0)
  {
    var t := NoCarryTerms(spot, strike, rate, vol, maturity);
    assert CarryExponent(t) == 0.0;
    assert CarryFactor(m, t) == 1.0;
    assert t.spot * CarryFactor(m, t) == spot;
  }

  /** Put-call parity of blackScholesPrice: call - put = S - K e^{-rT} whenever
      d1 and d2 are nonzero. */
  lemma BlackScholesPriceParity(m: Transcendentals, phi: real -> real, spot: real, strike: real,
                                rate: real, vol: real, maturity: real)
    requires IsCdf(m, phi) && InDomain(NoCarryTerms(spot, strike, rate, vol, maturity))
    requires D1(m, NoCarryTerms(spot, strike, rate, vol, maturity)) != 0.0
    requires D2(m, NoCarryTerms(spot, strike, rate, vol, maturity)) != 0.0
    ensures BlackScholesPrice(m, phi, spot, strike, rate, vol, maturity, true)
            - BlackScholesPrice(m, phi, spot, strike, rate, vol, maturity, false)
            == spot - strike * Discount(m, NoCarryTerms(spot, strike, rate, vol, maturity))
  {
    var t := NoCarryTerms(spot, strike, rate, vol, maturity);
    BlackScholesPriceIsVanilla(m, phi, spot, strike, rate, vol, maturity, true);
    BlackScholesPriceIsVanilla(m, phi, spot, strike, rate, vol, maturity, false);
    PutCallParityNoCarry(m, phi, t, 1.0);
  }

  /** blackScholesVega: S sqrt(T) normalPDF(d1); positive, and equal to
      PlainVanillaOption's vega with b = r. */
  function BlackScholesVega(m: Transcendentals, spot: real, strike: real, rate: real,
                            vol: real, maturity: real): (v: real)
    requires Lawful(m) && InDomain(NoCarryTerms(spot, strike, rate, vol, maturity))
    ensures v > 0.0
  {
    var d1 := D1(m, NoCarryTerms(spot, strike, rate, vol, maturity));
    assert spot * m.sqrt(maturity) > 0.0;
    spot * m.sqrt(maturity) * Pdf(m, d1)
  }

  lemma BlackScholesVegaIsVanilla(m: Transcendentals, spot: real, strike: real, rate: real,
                                  vol: real, maturity: real)
    requires Lawful(m) && InDomain(NoCarryTerms(spot, strike, rate, vol, maturity))
    ensures BlackScholesVega(m, spot, strike, rate, vol, maturity)
            == Vega(m, NoCarryTerms(spot, strike, rate, vol, maturity))
  {
    var t := NoCarryTerms(spot, strike, rate, vol, maturity);
    assert CarryExponent(t) == 0.0;
    assert CarryFactor(m, t) == 1.0;
  }
}
