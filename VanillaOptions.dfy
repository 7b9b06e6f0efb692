/** PlainVanillaOption: a European option priced by the generalized
    Black-Scholes closed forms, with the market-risk protocol that snapshots
    spot, volatility, domestic rate and cost of carry.

    The class repeats the OptionInstrument fields, constructors and setters it
    inherits in the source. */
module VanillaOptions {
  import opened Elementary
  import opened NormalDistribution
  import opened BlackScholes

  class PlainVanillaOption {
    // Fields inherited from OptionInstrument.
    var spot: real
    const strike: real
    var rate: real
    var vol: real
    const maturity: real
    const isCall: bool
    const multiplier: real
    const helperExchangeRate: real
    var carry: real

    // The previous market values.
    var previousSpot: real
    var previousVol: real
    var previousRate: real
    var previousCarry: real

    /** The seven-argument constructor: a domestic option, so the helper
        exchange rate is 1 and the cost of carry is the domestic rate. */
    constructor (spot: real, strike: real, rate: real, vol: real, maturity: real, isCall: bool,
                 multiplier: real)
      ensures CurrentTerms() == Terms(spot, strike, rate, rate, vol, maturity)
      ensures this.isCall == isCall && this.multiplier == multiplier && helperExchangeRate == 1.0
      ensures PreviousTerms() == CurrentTerms()
    {
      this.spot, this.strike, this.rate, this.vol, this.maturity := spot, strike, rate, vol, maturity;
      this.isCall, this.multiplier := isCall, multiplier;
      this.helperExchangeRate := 1.0;
      this.carry := rate;
      new;
      InitializePreviousValues();
    }

    /** The nine-argument constructor: the helper exchange rate and the cost
        of carry are given. */
    constructor WithCarry(spot: real, strike: real, rate: real, vol: real, maturity: real, isCall: bool,
                          multiplier: real, helperExchangeRate: real, carry: real)
      ensures CurrentTerms() == Terms(spot, strike, rate, carry, vol, maturity)
      ensures this.isCall == isCall && this.multiplier == multiplier
      ensures this.helperExchangeRate == helperExchangeRate
      ensures PreviousTerms() == CurrentTerms()
    {
      this.spot, this.strike, this.rate, this.vol, this.maturity := spot, strike, rate, vol, maturity;
      this.isCall, this.multiplier := isCall, multiplier;
      this.helperExchangeRate := helperExchangeRate;
      this.carry := carry;
      new;
      InitializePreviousValues();
    }

    /** initializePreviousValues: the snapshot starts at the current values. */
    method InitializePreviousValues()
      modifies this`previousSpot, this`previousVol, this`previousRate, this`previousCarry
      ensures PreviousTerms() == CurrentTerms()
    {
      previousSpot := spot;
      previousVol := vol;
      previousRate := rate;
      previousCarry := carry;
    }

    /** The fields the closed forms read, at their current values. */
    function CurrentTerms(): Terms
      reads this
    {
      Terms(spot, strike, rate, carry, vol, maturity)
    }

    /** The same with the four snapshotted values in place. */
    function PreviousTerms(): Terms
      reads this
    {
      Terms(previousSpot, strike, previousRate, previousCarry, previousVol, maturity)
    }

    /** calculatePrice. */
    function CalculatePrice(m: Transcendentals, phi: real -> real): real
      requires IsCdf(m, phi) && InDomain(CurrentTerms())
      reads this
    {
      Price(m, phi, CurrentTerms(), isCall, multiplier)
    }

    /** The market risk between two sets of market fields: the price change,
        scaled by the helper exchange rate (not by the multiplier, which the
        price already carries). */
    function RiskBetween(m: Transcendentals, phi: real -> real, now: Terms, previous: Terms): real
      requires Lawful(m) && InDomain(now) && InDomain(previous)
    {
      Scaled(Price(m, phi, now, isCall, multiplier) - Price(m, phi, previous, isCall, multiplier), helperExchangeRate)
    }

    /** calculateMarketRisk: the risk between the current and the previous
        spot, volatility, rate and carry. The four fields end where they
        started and the snapshot catches up with them; strike, maturity, type,
        multiplier and helper exchange rate are never written. */
    method CalculateMarketRisk(m: Transcendentals, phi: real -> real) returns (r: real)
      requires IsCdf(m, phi) && InDomain(CurrentTerms()) && InDomain(PreviousTerms())
      modifies this`spot, this`vol, this`rate, this`carry
      modifies this`previousSpot, this`previousVol, this`previousRate, this`previousCarry
      ensures r == RiskBetween(m, phi, old(CurrentTerms()), old(PreviousTerms()))
      ensures CurrentTerms() == old(CurrentTerms())
      ensures PreviousTerms() == CurrentTerms()
    {
      var currentPrice := CalculatePrice(m, phi);

      var tempSpot, tempVol, tempRate, tempCarry := spot, vol, rate, carry;

      spot, vol, rate, carry := previousSpot, previousVol, previousRate, previousCarry;
      var previousPrice := CalculatePrice(m, phi);

      spot, vol, rate, carry := tempSpot, tempVol, tempRate, tempCarry;

      previousSpot, previousVol, previousRate, previousCarry := spot, vol, rate, carry;

      r := Scaled(currentPrice - previousPrice, helperExchangeRate);
    }

    /** calculateDelta. */
    function CalculateDelta(m: Transcendentals, phi: real -> real): real
      requires IsCdf(m, phi) && InDomain(CurrentTerms())
      reads this
    {
      Delta(m, phi, CurrentTerms(), isCall)
    }

    /** calculateGamma. */
    function CalculateGamma(m: Transcendentals): (r: real)
      requires Lawful(m) && InDomain(CurrentTerms())
      reads this
      ensures r > 0.0
    {
      Gamma(m, CurrentTerms())
    }

    /** calculateVega. */
    function CalculateVega(m: Transcendentals): (r: real)
      requires Lawful(m) && InDomain(CurrentTerms())
      reads this
      ensures r > 0.0
    {
      Vega(m, CurrentTerms())
    }

    /** calculateTheta. */
    function CalculateTheta(m: Transcendentals, phi: real -> real): real
      requires IsCdf(m, phi) && InDomain(CurrentTerms())
      reads this
    {
      Theta(m, phi, CurrentTerms(), isCall)
    }

    /** calculateRho. */
    function CalculateRho(m: Transcendentals, phi: real -> real): real
      requires IsCdf(m, phi) && InDomain(CurrentTerms())
      reads this
    {
      Rho(m, phi, CurrentTerms(), isCall)
    }

    /** setPreviousValues: overwrites the four snapshot fields and nothing else. */
    method SetPreviousValues(spot: real, vol: real, rate: real, carry: real)
      modifies this`previousSpot, this`previousVol, this`previousRate, this`previousCarry
      ensures previousSpot == spot && previousVol == vol && previousRate == rate && previousCarry == carry
    {
      previousSpot, previousVol, previousRate, previousCarry := spot, vol, rate, carry;
    }

    /** setSpotPrice. */
    method SetSpotPrice(spot: real)
      modifies this`spot
      ensures this.spot == spot
    {
      this.spot := spot;
    }

    /** setVolatility. */
    method SetVolatility(vol: real)
      modifies this`vol
      ensures this.vol == vol
    {
      this.vol := vol;
    }

    /** setDomesticRate. */
    method SetDomesticRate(rate: real)
      modifies this`rate
      ensures this.rate == rate
    {
      this.rate := rate;
    }

    /** setCostOfCarry. */
    method SetCostOfCarry(carry: real)
      modifies this`carry
      ensures this.carry == carry
    {
      this.carry := carry;
    }
  }

  /** An immediately repeated risk call, which finds the snapshot equal to the
      current fields, returns 0; so does the first call after construction. */
  lemma RepeatedRiskIsZero(m: Transcendentals, phi: real -> real, o: PlainVanillaOption, t: Terms)
    requires Lawful(m) && InDomain(t)
    ensures o.RiskBetween(m, phi, t, t) == 0.0
  {
  }

  /** Two options that differ only in call/put satisfy put-call parity:
      call - put = M (S e^{(b-r)T} - K e^{-rT}) whenever d1 and d2 are nonzero. */
  lemma OptionPutCallParity(m: Transcendentals, phi: real -> real, call: PlainVanillaOption, put: PlainVanillaOption)
    requires IsCdf(m, phi) && InDomain(call.CurrentTerms())
    requires call.CurrentTerms() == put.CurrentTerms() && call.multiplier == put.multiplier
    requires call.isCall && !put.isCall
    requires D1(m, call.CurrentTerms()) != 0.0 && D2(m, call.CurrentTerms()) != 0.0
    ensures call.CalculatePrice(m, phi) - put.CalculatePrice(m, phi)
            == call.multiplier * (call.spot * CarryFactor(m, call.CurrentTerms()) - call.strike * Discount(m, call.CurrentTerms()))
  {
    PutCallParity(m, phi, call.CurrentTerms(), call.multiplier);
  }

  /** Gamma and vega do not depend on call/put; delta differs by the carry factor. */
  lemma GreeksOfCallAndPut(m: Transcendentals, phi: real -> real, call: PlainVanillaOption, put: PlainVanillaOption)
    requires IsCdf(m, phi) && InDomain(call.CurrentTerms())
    requires call.CurrentTerms() == put.CurrentTerms()
    requires call.isCall && !put.isCall
    ensures call.CalculateGamma(m) == put.CalculateGamma(m)
    ensures call.CalculateVega(m) == put.CalculateVega(m)
    ensures put.CalculateDelta(m, phi) == call.CalculateDelta(m, phi) - CarryFactor(m, call.CurrentTerms())
  {
    DeltaPutCall(m, phi, call.CurrentTerms());
  }
}
