/** The generalized Black-Scholes closed forms shared by the option classes:
    d1 and d2 (OptionInstrument), the price and the Greeks (PlainVanillaOption).

    The source rejects none of S <= 0, K <= 0, sigma <= 0, T <= 0 (it divides by
    sigma*sqrt(T) and takes log(S/K)); here they are the precondition `InDomain`.
    Every formula reads normalCDF through a function `phi`; the members that
    model a call of normalCDF require `IsCdf(m, phi)`. */
module BlackScholes {
  import opened Elementary
  import opened NormalDistribution

  /** The fields of an option that the closed forms read: spot S, strike K,
      domestic rate r, cost of carry b, volatility sigma, maturity T (years). */
  datatype Terms = Terms(spot: real, strike: real, rate: real, carry: real, vol: real, maturity: real)

  /** The inputs for which d1 is defined. */
  predicate InDomain(t: Terms) {
    t.spot > 0.0 && t.strike > 0.0 && t.vol > 0.0 && t.maturity > 0.0
  }

  /** sigma * sqrt(T), the denominator of d1. */
  function VolRoot(m: Transcendentals, t: Terms): (r: real)
    requires Lawful(m) && InDomain(t)
    ensures r > 0.0
  {
    t.vol * m.sqrt(t.maturity)
  }

  /** d1 = (ln(S/K) + (b + sigma^2/2) T) / (sigma sqrt T); the drift is the cost
      of carry, not the domestic rate. */
  function D1(m: Transcendentals, t: Terms): real
    requires Lawful(m) && InDomain(t)
  {
    (m.ln(t.spot / t.strike) + (t.carry + 0.5 * t.vol * t.vol) * t.maturity) / VolRoot(m, t)
  }

  function D2(m: Transcendentals, t: Terms): real
    requires Lawful(m) && InDomain(t)
  {
    D1(m, t) - VolRoot(m, t)
  }

  /** (b-r)T, the exponent of the carry adjustment. */
  function CarryExponent(t: Terms): real {
    (t.carry - t.rate) * t.maturity
  }

  /** e^{(b-r)T}, the carry adjustment of the spot leg. */
  function CarryFactor(m: Transcendentals, t: Terms): real {
    m.exp(CarryExponent(t))
  }

  /** e^{-rT}, the discount of the strike leg. */
  function Discount(m: Transcendentals, t: Terms): real {
    m.exp(-t.rate * t.maturity)
  }

  /** PlainVanillaOption.calculatePrice (and BarrierOption's vanilla price). */
  function Price(m: Transcendentals, phi: real -> real, t: Terms, isCall: bool, multiplier: real): real
    requires Lawful(m) && InDomain(t)
  {
    var d1 := D1(m, t);
    var d2 := D2(m, t);
    if isCall then
      multiplier * (t.spot * CarryFactor(m, t) * phi(d1) - t.strike * Discount(m, t) * phi(d2))
    else
      multiplier * (t.strike * Discount(m, t) * phi(-d2) - t.spot * CarryFactor(m, t) * phi(-d1))
  }

  function Delta(m: Transcendentals, phi: real -> real, t: Terms, isCall: bool): real
    requires Lawful(m) && InDomain(t)
  {
    var adjustment := CarryFactor(m, t);
    if isCall then adjustment * phi(D1(m, t)) else adjustment * (phi(D1(m, t)) - 1.0)
  }

  /** Gamma reads no call/put flag, so calls and puts share it; it is positive. */
  function Gamma(m: Transcendentals, t: Terms): (r: real)
    requires Lawful(m) && InDomain(t)
    ensures r > 0.0
  {
    (Pdf(m, D1(m, t)) * CarryFactor(m, t)) / (t.spot * t.vol * m.sqrt(t.maturity))
  }

  /** Vega reads no call/put flag, so calls and puts share it; it is positive. */
  function Vega(m: Transcendentals, t: Terms): (r: real)
    requires Lawful(m) && InDomain(t)
    ensures r > 0.0
  {
    var r := t.spot * CarryFactor(m, t) * Pdf(m, D1(m, t)) * m.sqrt(t.maturity);
    assert t.spot * CarryFactor(m, t) > 0.0;
    assert t.spot * CarryFactor(m, t) * Pdf(m, D1(m, t)) > 0.0;
    r
  }

  function Theta(m: Transcendentals, phi: real -> real, t: Terms, isCall: bool): real
    requires Lawful(m) && InDomain(t)
  {
    var d1 := D1(m, t);
    var d2 := D2(m, t);
    var adjustment := CarryFactor(m, t);
    var term1 := -(t.spot * t.vol * adjustment * Pdf(m, d1)) / (2.0 * m.sqrt(t.maturity));
    var term2 := -(t.carry - t.rate) * t.spot * adjustment * phi(if isCall then d1 else -d1);
    var term3 := t.rate * t.strike * Discount(m, t) * phi(if isCall then d2 else -d2);
    if isCall then term1 + term2 - term3 else term1 + term2 + term3
  }

  function Rho(m: Transcendentals, phi: real -> real, t: Terms, isCall: bool): real
    requires Lawful(m) && InDomain(t)
  {
    var d2 := D2(m, t);
    (if isCall then 1.0 else -1.0) * t.strike * t.maturity * Discount(m, t) * phi(if isCall then d2 else -d2)
  }

  /** d2 lies strictly below d1, by sigma sqrt T. */
  lemma D2BelowD1(m: Transcendentals, t: Terms)
    requires Lawful(m) && InDomain(t)
    ensures D2(m, t) < D1(m, t)
    ensures D1(m, t) - D2(m, t) == t.vol * m.sqrt(t.maturity)
  {
  }

  /** d1 and d2 do not read the domestic rate: only the cost of carry drifts them. */
  lemma D1IgnoresRate(m: Transcendentals, t: Terms, otherRate: real)
    requires Lawful(m) && InDomain(t)
    ensures D1(m, t.(rate := otherRate)) == D1(m, t)
    ensures D2(m, t.(rate := otherRate)) == D2(m, t)
  {
  }

  /** Put-call parity with cost of carry:
      call - put = M (S e^{(b-r)T} - K e^{-rT}) whenever d1 and d2 are nonzero
      (where the approximated distribution function is exactly symmetric). */
  lemma PutCallParity(m: Transcendentals, phi: real -> real, t: Terms, multiplier: real)
    requires IsCdf(m, phi) && InDomain(t)
    requires D1(m, t) != 0.0 && D2(m, t) != 0.0
    ensures Price(m, phi, t, true, multiplier) - Price(m, phi, t, false, multiplier)
            == multiplier * (t.spot * CarryFactor(m, t) - t.strike * Discount(m, t))
  {
    var d1, d2 := D1(m, t), D2(m, t);
    PhiSymmetric(m, phi, d1);
    PhiSymmetric(m, phi, d2);
    ComplementaryLegs(multiplier, t.spot * CarryFactor(m, t), t.strike * Discount(m, t),
                      phi(d1), phi(d2), phi(-d1), phi(-d2));
  }

  /** The algebra behind parity: with complementary probabilities the two legs
      of a call and a put differ by the forward value of the legs. */
  lemma ComplementaryLegs(k: real, sa: real, kd: real, n1: real, n2: real, m1: real, m2: real)
    requires n1 + m1 == 1.0 && n2 + m2 == 1.0
    ensures k * (sa * n1 - kd * n2) - k * (kd * m2 - sa * m1) == k * (sa - kd)
  {
    assert sa * n1 + sa * m1 == sa * (n1 + m1) == sa;
    assert kd * n2 + kd * m2 == kd * (n2 + m2) == kd;
    assert (sa * n1 - kd * n2) - (kd * m2 - sa * m1) == sa - kd;
  }

  /** With b = r the carry factor is 1 and parity is the textbook
      call - put = M (S - K e^{-rT}). */
  lemma PutCallParityNoCarry(m: Transcendentals, phi: real -> real, t: Terms, multiplier: real)
    requires IsCdf(m, phi) && InDomain(t) && t.carry == t.rate
    requires D1(m, t) != 0.0 && D2(m, t) != 0.0
    ensures Price(m, phi, t, true, multiplier) - Price(m, phi, t, false, multiplier)
            == multiplier * (t.spot - t.strike * Discount(m, t))
  {
    assert CarryExponent(t) == 0.0;
    PutCallParity(m, phi, t, multiplier);
  }

  /** Put delta is call delta minus the carry factor e^{(b-r)T}. */
  lemma DeltaPutCall(m: Transcendentals, phi: real -> real, t: Terms)
    requires Lawful(m) && InDomain(t)
    ensures Delta(m, phi, t, false) == Delta(m, phi, t, true) - CarryFactor(m, t)
  {
  }

  /** Call rho minus put rho is K T e^{-rT} whenever d2 is nonzero. */
  lemma RhoCallMinusPut(m: Transcendentals, phi: real -> real, t: Terms)
    requires IsCdf(m, phi) && InDomain(t)
    requires D2(m, t) != 0.0
    ensures Rho(m, phi, t, true) - Rho(m, phi, t, false) == t.strike * t.maturity * Discount(m, t)
  {
    var d2 := D2(m, t);
    PhiSymmetric(m, phi, d2);
    var c := t.strike * t.maturity * Discount(m, t);
    assert c * phi(d2) + c * phi(-d2) == c * (phi(d2) + phi(-d2));
  }

  /** Call theta minus put theta is -(b-r) S e^{(b-r)T} (2 Phi(d1) - 1) - r K e^{-rT}
      whenever d1 and d2 are nonzero; the first term vanishes when b = r. */
  lemma ThetaCallMinusPut(m: Transcendentals, phi: real -> real, t: Terms)
    requires IsCdf(m, phi) && InDomain(t)
    requires D1(m, t) != 0.0 && D2(m, t) != 0.0
    ensures Theta(m, phi, t, true) - Theta(m, phi, t, false)
            == -(t.carry - t.rate) * t.spot * CarryFactor(m, t) * (2.0 * phi(D1(m, t)) - 1.0)
               - t.rate * t.strike * Discount(m, t)
  {
    var d1, d2 := D1(m, t), D2(m, t);
    PhiSymmetric(m, phi, d1);
    PhiSymmetric(m, phi, d2);
    var adjustment := CarryFactor(m, t);
    var term1 := -(t.spot * t.vol * adjustment * Pdf(m, d1)) / (2.0 * m.sqrt(t.maturity));
    ThetaAlgebra(term1, -(t.carry - t.rate) * t.spot * adjustment, t.rate * t.strike * Discount(m, t),
                 phi(d1), phi(d2), phi(-d1), phi(-d2));
  }

  /** The algebra behind the theta relation. */
  lemma ThetaAlgebra(a: real, g: real, h: real, n1: real, n2: real, m1: real, m2: real)
    requires n1 + m1 == 1.0 && n2 + m2 == 1.0
    ensures (a + g * n1 - h * n2) - (a + g * m1 + h * m2) == g * (2.0 * n1 - 1.0) - h
  {
    assert g * m1 == g * (1.0 - n1) == g - g * n1;
    assert h * n2 + h * m2 == h * (n2 + m2) == h;
  }
}
