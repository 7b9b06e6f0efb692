/** The present values SwapInstrument and InterestRateSwap compute by loops,
    as sums over the first n payment dates: the fixed leg, the floating leg,
    the annuity behind the par rate and the weighted sum behind the duration.
    Payment i accrues over the period from the previous date (0 for the first)
    to date i and is discounted at e^{-r d_i}. */
module SwapLegs {
  import opened Elementary

  /** calculateDiscountFactor. */
  function DiscountFactor(m: Transcendentals, rate: real, date: real): real {
    m.exp(-rate * date)
  }

  /** The discount factor is positive and equals 1 at date 0. */
  lemma DiscountFactorFacts(m: Transcendentals, rate: real, date: real)
    requires Lawful(m)
    ensures DiscountFactor(m, rate, date) > 0.0
    ensures date == 0.0 ==> DiscountFactor(m, rate, date) == 1.0
  {
    if date == 0.0 {
      assert -rate * date == 0.0;
    }
  }

  /** The accrual period of payment i. */
  function Period(dates: seq<real>, i: nat): real
    requires i < |dates|
  {
    dates[i] - if i == 0 then 0.0 else dates[i - 1]
  }

  /** The fixed leg over the first n payments. */
  function FixedLeg(m: Transcendentals, rate: real, notional: real, fixedRate: real, dates: seq<real>, n: nat): real
    requires n <= |dates|
  {
    if n == 0 then 0.0
    else FixedLeg(m, rate, notional, fixedRate, dates, n - 1)
         + notional * fixedRate * (Period(dates, n - 1) / 1.0) * DiscountFactor(m, rate, dates[n - 1])
  }

  /** The floating leg over the first n payments, payment i at rates[i]. */
  function FloatingLeg(m: Transcendentals, rate: real, notional: real, rates: seq<real>, dates: seq<real>, n: nat): real
    requires n <= |dates| && n <= |rates|
  {
    if n == 0 then 0.0
    else FloatingLeg(m, rate, notional, rates, dates, n - 1)
         + notional * rates[n - 1] * (Period(dates, n - 1) / 1.0) * DiscountFactor(m, rate, dates[n - 1])
  }

  /** The annuity factor: discounted accrual periods. */
  function Annuity(m: Transcendentals, rate: real, dates: seq<real>, n: nat): real
    requires n <= |dates|
  {
    if n == 0 then 0.0
    else Annuity(m, rate, dates, n - 1) + DiscountFactor(m, rate, dates[n - 1]) * Period(dates, n - 1)
  }

  /** The weighted cash-flow sum of the duration: date times net cash flow
      times discount factor. */
  function WeightedSum(m: Transcendentals, rate: real, notional: real, fixedRate: real, rates: seq<real>,
                       dates: seq<real>, n: nat): real
    requires n <= |dates| && n <= |rates|
  {
    if n == 0 then 0.0
    else WeightedSum(m, rate, notional, fixedRate, rates, dates, n - 1)
         + dates[n - 1] * (notional * (fixedRate - rates[n - 1])) * DiscountFactor(m, rate, dates[n - 1])
  }

  /** The fixed leg is notional times fixed rate times the annuity, so it is
      linear in the fixed rate. */
  lemma {:induction false} FixedLegIsAnnuity(m: Transcendentals, rate: real, notional: real, fixedRate: real,
                                             dates: seq<real>, n: nat)
    requires n <= |dates|
    ensures FixedLeg(m, rate, notional, fixedRate, dates, n) == notional * fixedRate * Annuity(m, rate, dates, n)
  {
    if n > 0 {
      FixedLegIsAnnuity(m, rate, notional, fixedRate, dates, n - 1);
      var k := notional * fixedRate;
      var df := DiscountFactor(m, rate, dates[n - 1]);
      var p := Period(dates, n - 1);
      assert k * (p / 1.0) * df == k * (df * p);
      assert k * Annuity(m, rate, dates, n - 1) + k * (df * p) == k * (Annuity(m, rate, dates, n - 1) + df * p);
    }
  }

  /** When every floating rate equals the fixed rate the two legs agree. */
  lemma {:induction false} FlatLegsAgree(m: Transcendentals, rate: real, notional: real, fixedRate: real,
                                         rates: seq<real>, dates: seq<real>, n: nat)
    requires n <= |dates| && n <= |rates|
    requires forall i :: 0 <= i < n ==> rates[i] == fixedRate
    ensures FloatingLeg(m, rate, notional, rates, dates, n) == FixedLeg(m, rate, notional, fixedRate, dates, n)
  {
    if n > 0 {
      FlatLegsAgree(m, rate, notional, fixedRate, rates, dates, n - 1);
    }
  }

  /** At flat rates every net cash flow is 0, and so is the weighted sum. */
  lemma {:induction false} FlatWeightedSumIsZero(m: Transcendentals, rate: real, notional: real, fixedRate: real,
                                                 rates: seq<real>, dates: seq<real>, n: nat)
    requires n <= |dates| && n <= |rates|
    requires forall i :: 0 <= i < n ==> rates[i] == fixedRate
    ensures WeightedSum(m, rate, notional, fixedRate, rates, dates, n) == 0.0
  {
    if n > 0 {
      FlatWeightedSumIsZero(m, rate, notional, fixedRate, rates, dates, n - 1);
      assert fixedRate - rates[n - 1] == 0.0;
    }
  }

  /** The par rate: floating leg over notional times annuity; a zero
      denominator gives a non-finite double. */
  function ParRate(m: Transcendentals, rate: real, notional: real, rates: seq<real>, dates: seq<real>, n: nat): Double
    requires n <= |dates| && n <= |rates|
  {
    var denominator := notional * Annuity(m, rate, dates, n);
    if denominator == 0.0 then NotFinite
    else Finite(FloatingLeg(m, rate, notional, rates, dates, n) / denominator)
  }

  /** The par rate is the fixed rate at which the fixed leg equals the
      floating leg, so the swap is worth 0 there. */
  lemma ParRateBalancesLegs(m: Transcendentals, rate: real, notional: real, rates: seq<real>, dates: seq<real>,
                            n: nat, par: real)
    requires n <= |dates| && n <= |rates|
    requires ParRate(m, rate, notional, rates, dates, n) == Finite(par)
    ensures FixedLeg(m, rate, notional, par, dates, n) == FloatingLeg(m, rate, notional, rates, dates, n)
  {
    var f := FloatingLeg(m, rate, notional, rates, dates, n);
    var a := Annuity(m, rate, dates, n);
    FixedLegIsAnnuity(m, rate, notional, par, dates, n);
    DivCancel(f, notional * a);
    assert notional * par * a == (notional * a) * par;
  }
}
