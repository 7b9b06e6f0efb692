/** SwapInstrument and InterestRateSwap: a fixed-for-floating swap over arrays
    of floating rates and payment dates, its leg loops, par rate, duration and
    the market-risk protocol that swaps in the previous fixed rate and the
    previous floating-rate array.

    The arrays are shared the way the source shares them: the constructor keeps
    the caller's floating-rate and payment-date arrays, while the previous
    floating rates are always a private copy. */
module Swaps {
  import opened Elementary
  import opened SwapLegs

  /** double[].clone(): a fresh array with the same contents. */
  method Clone(a: array<real>) returns (b: array<real>)
    ensures fresh(b) && b[..] == a[..]
  {
    b := new real[a.Length](i reads a requires 0 <= i < a.Length => a[i]);
  }

  /** The tolerance below which calculateDuration treats the price as 0. */
  const PriceTolerance: real := 0.0000000001

  class InterestRateSwap {
    // Fields inherited from SwapInstrument.
    const notional: real
    var fixedRate: real
    var floatingRates: array<real>
    const paymentDates: array<real>
    var helperExchangeRate: real
    const baseValue: real
    var currentIndex: real
    var baseIndex: real
    var proRataIndex: real
    const domesticRate: real

    // The previous rates.
    var previousFloatingRates: array<real>
    var previousFixedRate: real

    /** The constructor keeps the caller's arrays (the floating rates are
        shared with the caller) and snapshots the rates, the floating ones as a
        private copy. The helper exchange rate and the three indices start at 1
        and the base value at the notional. */
    constructor (notional: real, fixedRate: real, floatingRates: array<real>, paymentDates: array<real>,
                 domesticRate: real)
      ensures this.notional == notional && this.fixedRate == fixedRate && this.domesticRate == domesticRate
      ensures this.floatingRates == floatingRates && this.paymentDates == paymentDates
      ensures helperExchangeRate == 1.0 && baseValue == notional
      ensures currentIndex == 1.0 && baseIndex == 1.0 && proRataIndex == 1.0
      ensures previousFixedRate == fixedRate
      ensures fresh(previousFloatingRates) && previousFloatingRates[..] == floatingRates[..]
      ensures UpdateBaseValue() == Finite(notional)
    {
      this.notional, this.fixedRate, this.domesticRate := notional, fixedRate, domesticRate;
      this.floatingRates, this.paymentDates := floatingRates, paymentDates;
      this.helperExchangeRate := 1.0;
      this.baseValue := notional;
      this.currentIndex, this.baseIndex, this.proRataIndex := 1.0, 1.0, 1.0;
      this.previousFixedRate := fixedRate;
      new;
      previousFloatingRates := Clone(floatingRates);
      UpdateBaseValueAtBaseIndex(this);
    }

    /** calculatePrice as a value: fixed leg minus floating leg at the given
        rates, times the helper exchange rate. */
    function PriceWith(m: Transcendentals, fixed: real, rates: seq<real>): real
      requires paymentDates.Length <= |rates|
      reads this, paymentDates
    {
      var dates, n := paymentDates[..], paymentDates.Length;
      Scaled(FixedLeg(m, domesticRate, notional, fixed, dates, n)
             - FloatingLeg(m, domesticRate, notional, rates, dates, n), helperExchangeRate)
    }

    /** calculateFixedLegPV. */
    method CalculateFixedLegPV(m: Transcendentals) returns (pv: real)
      ensures pv == FixedLeg(m, domesticRate, notional, fixedRate, paymentDates[..], paymentDates.Length)
    {
      pv := 0.0;
      var previousDate := 0.0;
      var i := 0;
      while i < paymentDates.Length
        invariant 0 <= i <= paymentDates.Length
        invariant previousDate == if i == 0 then 0.0 else paymentDates[i - 1]
        invariant pv == FixedLeg(m, domesticRate, notional, fixedRate, paymentDates[..], i)
      {
        var paymentDate := paymentDates[i];
        var discountFactor := DiscountFactor(m, domesticRate, paymentDate);
        var period := paymentDate - previousDate;
        pv := pv + notional * fixedRate * (period / 1.0) * discountFactor;
        previousDate := paymentDate;
        i := i + 1;
      }
    }

    /** calculateFloatingLegPV; every payment date needs a floating rate. */
    method CalculateFloatingLegPV(m: Transcendentals) returns (pv: real)
      requires paymentDates.Length <= floatingRates.Length
      ensures pv == FloatingLeg(m, domesticRate, notional, floatingRates[..], paymentDates[..], paymentDates.Length)
    {
      pv := 0.0;
      var previousDate := 0.0;
      var i := 0;
      while i < paymentDates.Length
        invariant 0 <= i <= paymentDates.Length
        invariant previousDate == if i == 0 then 0.0 else paymentDates[i - 1]
        invariant pv == FloatingLeg(m, domesticRate, notional, floatingRates[..], paymentDates[..], i)
      {
        var discountFactor := DiscountFactor(m, domesticRate, paymentDates[i]);
        var period := paymentDates[i] - previousDate;
        pv := pv + notional * floatingRates[i] * (period / 1.0) * discountFactor;
        previousDate := paymentDates[i];
        i := i + 1;
      }
    }

    /** calculatePrice. */
    method CalculatePrice(m: Transcendentals) returns (price: real)
      requires paymentDates.Length <= floatingRates.Length
      ensures price == PriceWith(m, fixedRate, floatingRates[..])
    {
      var fixedLeg := CalculateFixedLegPV(m);
      var floatingLeg := CalculateFloatingLegPV(m);
      price := Scaled(fixedLeg - floatingLeg, helperExchangeRate);
    }

    /** The market risk between two sets of rates: the price change times the
        helper exchange rate, which the price already carries once. */
    function RiskBetween(m: Transcendentals, fixed: real, rates: seq<real>, previousFixed: real,
                         previousRates: seq<real>): real
      requires paymentDates.Length <= |rates| && paymentDates.Length <= |previousRates|
      reads this, paymentDates
    {
      Scaled(PriceWith(m, fixed, rates) - PriceWith(m, previousFixed, previousRates), helperExchangeRate)
    }

    /** calculateMarketRisk: the risk between the current and the previous
        rates. The fixed rate and the floating-rate contents end where they
        started, but `floatingRates` now refers to a fresh copy; the snapshot
        catches up with the current rates as another fresh copy. */
    method CalculateMarketRisk(m: Transcendentals) returns (r: real)
      requires paymentDates.Length <= floatingRates.Length
      requires paymentDates.Length <= previousFloatingRates.Length
      modifies this`fixedRate, this`floatingRates, this`previousFixedRate, this`previousFloatingRates
      ensures r == RiskBetween(m, old(fixedRate), old(floatingRates[..]), old(previousFixedRate),
                               old(previousFloatingRates[..]))
      ensures fixedRate == old(fixedRate) && floatingRates[..] == old(floatingRates[..])
      ensures fresh(floatingRates)
      ensures previousFixedRate == fixedRate && previousFloatingRates[..] == floatingRates[..]
      ensures fresh(previousFloatingRates) && previousFloatingRates != floatingRates
    {
      var currentMtM := CalculatePrice(m);

      var tempFixed := fixedRate;
      var tempFloating := Clone(floatingRates);

      fixedRate := previousFixedRate;
      floatingRates := previousFloatingRates;
      var previousMtM := CalculatePrice(m);

      fixedRate := tempFixed;
      floatingRates := tempFloating;

      previousFixedRate := fixedRate;
      previousFloatingRates := Clone(floatingRates);

      r := Scaled(currentMtM - previousMtM, helperExchangeRate);
    }

    /** calculateParRate. */
    method CalculateParRate(m: Transcendentals) returns (r: Double)
      requires paymentDates.Length <= floatingRates.Length
      ensures r == ParRate(m, domesticRate, notional, floatingRates[..], paymentDates[..], paymentDates.Length)
    {
      var floatingLegPV := CalculateFloatingLegPV(m);
      var annuityFactor := 0.0;
      var previousDate := 0.0;
      var i := 0;
      while i < paymentDates.Length
        invariant 0 <= i <= paymentDates.Length
        invariant previousDate == if i == 0 then 0.0 else paymentDates[i - 1]
        invariant annuityFactor == Annuity(m, domesticRate, paymentDates[..], i)
      {
        var paymentDate := paymentDates[i];
        var period := paymentDate - previousDate;
        annuityFactor := annuityFactor + DiscountFactor(m, domesticRate, paymentDate) * period;
        previousDate := paymentDate;
        i := i + 1;
      }
      if notional * annuityFactor == 0.0 {
        r := NotFinite;
      } else {
        r := Finite(floatingLegPV / (notional * annuityFactor));
      }
    }

    /** calculateDuration: 0 for a price within 1e-10 of 0, otherwise the
        weighted cash-flow sum over the price. */
    method CalculateDuration(m: Transcendentals) returns (d: real)
      requires paymentDates.Length <= floatingRates.Length
      ensures var price := PriceWith(m, fixedRate, floatingRates[..]);
              d == if Abs(price) < PriceTolerance then 0.0
                   else WeightedSum(m, domesticRate, notional, fixedRate, floatingRates[..], paymentDates[..],
                                    paymentDates.Length) / price
    {
      var price := CalculatePrice(m);
      if Abs(price) < PriceTolerance {
        return 0.0;
      }
      var weightedSum := 0.0;
      var i := 0;
      while i < paymentDates.Length
        invariant 0 <= i <= paymentDates.Length
        invariant weightedSum == WeightedSum(m, domesticRate, notional, fixedRate, floatingRates[..], paymentDates[..], i)
      {
        var discountFactor := DiscountFactor(m, domesticRate, paymentDates[i]);
        var cashFlow := notional * (fixedRate - floatingRates[i]);
        weightedSum := weightedSum + paymentDates[i] * cashFlow * discountFactor;
        i := i + 1;
      }
      d := weightedSum / price;
    }

    /** updateBaseValue: V0 (S / S0) I; a zero base index gives a non-finite
        double. */
    function UpdateBaseValue(): (r: Double)
      reads this
      ensures r.NotFinite? <==> baseIndex == 0.0
    {
      if baseIndex == 0.0 then NotFinite
      else Finite(baseValue * (currentIndex / baseIndex) * proRataIndex)
    }

    /** setPreviousRates: the previous floating rates become a private copy of
        the argument, so later writes to the argument do not reach them. */
    method SetPreviousRates(fixedRate: real, floatingRates: array<real>)
      modifies this`previousFixedRate, this`previousFloatingRates
      ensures previousFixedRate == fixedRate
      ensures previousFloatingRates[..] == floatingRates[..]
      ensures fresh(previousFloatingRates)
    {
      previousFixedRate := fixedRate;
      previousFloatingRates := Clone(floatingRates);
    }

    /** setHelperExchangeRate. */
    method SetHelperExchangeRate(helperExchangeRate: real)
      modifies this`helperExchangeRate
      ensures this.helperExchangeRate == helperExchangeRate
    {
      this.helperExchangeRate := helperExchangeRate;
    }

    /** setCurrentIndex. */
    method SetCurrentIndex(currentIndex: real)
      modifies this`currentIndex
      ensures this.currentIndex == currentIndex
    {
      this.currentIndex := currentIndex;
    }

    /** setBaseIndex. */
    method SetBaseIndex(baseIndex: real)
      modifies this`baseIndex
      ensures this.baseIndex == baseIndex
    {
      this.baseIndex := baseIndex;
    }

    /** setProRataIndex. */
    method SetProRataIndex(proRataIndex: real)
      modifies this`proRataIndex
      ensures this.proRataIndex == proRataIndex
    {
      this.proRataIndex := proRataIndex;
    }
  }

  /** With the current index back at the base index the updated base value is
      the base value times the pro-rata index. */
  lemma UpdateBaseValueAtBaseIndex(s: InterestRateSwap)
    requires s.baseIndex != 0.0 && s.currentIndex == s.baseIndex
    ensures s.UpdateBaseValue() == Finite(s.baseValue * s.proRataIndex)
  {
    var ratio := s.currentIndex / s.baseIndex;
    assert ratio == 1.0;
    calc {
      s.UpdateBaseValue().value;
      s.baseValue * ratio * s.proRataIndex;
      s.baseValue * s.proRataIndex;
    }
  }

  /** An immediately repeated risk call, which finds the previous rates equal
      to the current ones, returns 0; so does the first call after construction. */
  lemma RepeatedRiskIsZero(m: Transcendentals, o: InterestRateSwap, fixed: real, rates: seq<real>)
    requires o.paymentDates.Length <= |rates|
    ensures o.RiskBetween(m, fixed, rates, fixed, rates) == 0.0
  {
  }

  /** A swap whose floating rates all equal its fixed rate is worth 0. */
  lemma FlatSwapIsWorthZero(m: Transcendentals, o: InterestRateSwap, fixed: real, rates: seq<real>)
    requires o.paymentDates.Length <= |rates|
    requires forall i :: 0 <= i < o.paymentDates.Length ==> rates[i] == fixed
    ensures o.PriceWith(m, fixed, rates) == 0.0
  {
    FlatLegsAgree(m, o.domesticRate, o.notional, fixed, rates, o.paymentDates[..], o.paymentDates.Length);
  }

  /** A swap whose fixed rate is its par rate is worth 0. */
  lemma ParSwapIsWorthZero(m: Transcendentals, o: InterestRateSwap, rates: seq<real>, par: real)
    requires o.paymentDates.Length <= |rates|
    requires ParRate(m, o.domesticRate, o.notional, rates, o.paymentDates[..], o.paymentDates.Length) == Finite(par)
    ensures o.PriceWith(m, par, rates) == 0.0
  {
    ParRateBalancesLegs(m, o.domesticRate, o.notional, rates, o.paymentDates[..], o.paymentDates.Length, par);
  }
}
