/** BarrierOption: an option whose fields are updated in place by the setters
    and by the market-risk protocol (snapshot the market fields, reprice at the
    previous values, restore, advance the previous values).

    The class repeats the OptionInstrument fields and setters it inherits in
    the source. Its own `multiplier` is a 32-bit int that hides the inherited
    double `optionMultiplier`; the vanilla price and the risk are scaled by the
    int one. */
module BarrierOptions {
  import opened Elementary
  import opened NormalDistribution
  import opened BlackScholes
  import opened BarrierRules
  import VanillaOptions

  /** The previous market fields of an option whose risk was never calculated:
      spot, rate, volatility and maturity all 0, with the (positive) strike and
      the current cost of carry. */
  predicate IsZeroSnapshot(t: Terms) {
    t.spot == 0.0 && t.rate == 0.0 && t.vol == 0.0 && t.maturity == 0.0 && t.strike > 0.0
  }

  class BarrierOption {
    // Fields inherited from OptionInstrument.
    var spot: real
    const strike: real
    var rate: real
    var vol: real
    var maturity: real
    const isCall: bool
    /** The inherited double multiplier, hidden by `multiplier` below. */
    const optionMultiplier: real
    const helperExchangeRate: real
    var carry: real

    // Fields of BarrierOption; the source writes the barrier levels and the
    // up/down indicator only in the constructors.
    const limitBarrier: real
    const knockInBarrier: real
    const knockOutBarrier: real
    const rebate: real
    const multiplier: int
    const isUpBarrier: bool
    const isUpAndIn: bool
    const upDownIndicator: int
    const barrierType: BarrierType

    // The previous market values; no constructor sets them, so they start at 0.
    var previousSpot: real
    var previousVol: real
    var previousRate: real
    var previousCarry: real
    var previousMaturity: real

    /** The constructor for one barrier: the type decides which level is set. */
    constructor Single(spot: real, strike: real, rate: real, vol: real, maturity: real, isCall: bool,
                       multiplier: int, barrier: real, rebate: real, upDownIndicator: int,
                       barrierType: BarrierType)
      requires IntMin <= multiplier <= IntMax
      ensures this.spot == spot && this.strike == strike && this.rate == rate && this.vol == vol
      ensures this.maturity == maturity && this.isCall == isCall
      ensures optionMultiplier == multiplier as real && this.multiplier == multiplier
      ensures helperExchangeRate == 1.0 && carry == rate
      ensures Levels() == SingleBarrierLevels(barrierType, barrier)
      ensures this.rebate == rebate && this.upDownIndicator == upDownIndicator
      ensures this.barrierType == barrierType
      ensures isUpBarrier == (barrier > spot) && isUpAndIn == (knockInBarrier > spot)
      ensures previousSpot == 0.0 && previousVol == 0.0 && previousRate == 0.0
      ensures previousCarry == 0.0 && previousMaturity == 0.0
    {
      this.spot, this.strike, this.rate, this.vol, this.maturity := spot, strike, rate, vol, maturity;
      this.isCall := isCall;
      this.optionMultiplier := multiplier as real;
      this.helperExchangeRate := 1.0;
      this.carry := rate;
      this.rebate := rebate;
      this.multiplier := multiplier;
      this.barrierType := barrierType;
      this.upDownIndicator := upDownIndicator;
      var levels := SingleBarrierLevels(barrierType, barrier);
      this.limitBarrier, this.knockInBarrier, this.knockOutBarrier := levels.limit, levels.knockIn, levels.knockOut;
      this.isUpBarrier := barrier > spot;
      this.isUpAndIn := levels.knockIn > spot;
      this.previousSpot, this.previousVol, this.previousRate := 0.0, 0.0, 0.0;
      this.previousCarry, this.previousMaturity := 0.0, 0.0;
    }

    /** The constructor for several barriers: the levels are stored as given,
        the type is always knock-in+knock-out and the double multiplier is
        narrowed by the Java (int) cast. */
    constructor Multiple(spot: real, strike: real, rate: real, vol: real, maturity: real, isCall: bool,
                         multiplier: real, limitBarrier: real, knockInBarrier: real,
                         knockOutBarrier: real, rebate: real, upDownIndicator: int)
      ensures this.spot == spot && this.strike == strike && this.rate == rate && this.vol == vol
      ensures this.maturity == maturity && this.isCall == isCall
      ensures optionMultiplier == multiplier && this.multiplier == JavaIntCast(multiplier)
      ensures helperExchangeRate == 1.0 && carry == rate
      ensures Levels() == Barriers(limitBarrier, knockInBarrier, knockOutBarrier)
      ensures this.rebate == rebate && this.upDownIndicator == upDownIndicator
      ensures barrierType == KnockInKnockOut
      ensures isUpBarrier == (knockOutBarrier > spot) && isUpAndIn == (knockInBarrier > spot)
      ensures previousSpot == 0.0 && previousVol == 0.0 && previousRate == 0.0
      ensures previousCarry == 0.0 && previousMaturity == 0.0
    {
      this.spot, this.strike, this.rate, this.vol, this.maturity := spot, strike, rate, vol, maturity;
      this.isCall := isCall;
      this.optionMultiplier := multiplier;
      this.helperExchangeRate := 1.0;
      this.carry := rate;
      this.limitBarrier, this.knockInBarrier, this.knockOutBarrier := limitBarrier, knockInBarrier, knockOutBarrier;
      this.rebate := rebate;
      this.upDownIndicator := upDownIndicator;
      this.multiplier := JavaIntCast(multiplier);
      this.barrierType := KnockInKnockOut;
      this.isUpBarrier := knockOutBarrier > spot;
      this.isUpAndIn := knockInBarrier > spot;
      this.previousSpot, this.previousVol, this.previousRate := 0.0, 0.0, 0.0;
      this.previousCarry, this.previousMaturity := 0.0, 0.0;
    }

    function Levels(): Barriers {
      Barriers(limitBarrier, knockInBarrier, knockOutBarrier)
    }

    /** The fields the closed forms read, at their current values. */
    function CurrentTerms(): Terms
      reads this
    {
      Terms(spot, strike, rate, carry, vol, maturity)
    }

    /** The same with the four snapshotted values in place; the cost of carry is
        never snapshotted, so the current one is used. */
    function PreviousTerms(): Terms
      reads this
    {
      Terms(previousSpot, strike, previousRate, carry, previousVol, previousMaturity)
    }

    /** What the barrier rules read when the option's market fields are `t`:
        the vanilla price uses the int multiplier, the rebate is discounted at
        e^{-rT}. The barrier type is not among them. */
    function MarketAt(m: Transcendentals, phi: real -> real, t: Terms): Market
      requires Lawful(m) && InDomain(t)
    {
      Market(upDownIndicator, t.spot, BlackScholes.Price(m, phi, t, isCall, multiplier as real),
             rebate * Discount(m, t), isUpBarrier, isUpAndIn)
    }

    /** calculatePrice with the market fields set to `t`. */
    function PriceAt(m: Transcendentals, phi: real -> real, t: Terms): (r: Result<real, PricingError>)
      requires Lawful(m) && InDomain(t)
      ensures r.Failure? <==> Classify(Levels()).Failure?
    {
      BarrierRules.Price(MarketAt(m, phi, t), Levels())
    }

    /** What the barrier rules read when calculatePrice runs on the zero
        snapshot the constructors leave in the previous fields. With K > 0,
        ln(0/K) = -infinity and sigma*sqrt(T) = 0, so d1 = d2 = -infinity, N(d1) = N(d2) = 0
        and N(-d1) = N(-d2) = 1. The call price M*(0*N(d1) - K*N(d2)) is then 0 and
        the put price M*(K*N(-d2) - 0*N(-d1)) is M*K. The discount e^{-0*0} = 1
        leaves the rebate undiscounted. The spot the breach tests read is 0. */
    function ZeroSnapshotMarket(): Market {
      Market(upDownIndicator, 0.0, if isCall then 0.0 else multiplier as real * strike,
             rebate, isUpBarrier, isUpAndIn)
    }

    /** calculatePrice with the market fields set to `t`, which is either in
        the pricing domain or the zero snapshot. */
    function RepriceAt(m: Transcendentals, phi: real -> real, t: Terms): (r: Result<real, PricingError>)
      requires Lawful(m) && (InDomain(t) || IsZeroSnapshot(t))
      ensures r.Failure? <==> Classify(Levels()).Failure?
    {
      if InDomain(t) then PriceAt(m, phi, t) else BarrierRules.Price(ZeroSnapshotMarket(), Levels())
    }

    /** calculatePrice. */
    function CalculatePrice(m: Transcendentals, phi: real -> real): (r: Result<real, PricingError>)
      requires IsCdf(m, phi) && InDomain(CurrentTerms())
      reads this
      ensures r.Failure? <==> Classify(Levels()).Failure?
    {
      PriceAt(m, phi, CurrentTerms())
    }

    /** The market risk between two sets of market fields: the price at `now`
        minus the price at `previous`, times the int multiplier; it fails as the
        price does, on an invalid barrier combination. `previous` may be the
        zero snapshot of an option whose risk was never calculated. */
    function RiskBetween(m: Transcendentals, phi: real -> real, now: Terms, previous: Terms): (r: Result<real, PricingError>)
      requires Lawful(m) && InDomain(now) && (InDomain(previous) || IsZeroSnapshot(previous))
      ensures r.Failure? <==> Classify(Levels()).Failure?
    {
      match PriceAt(m, phi, now)
      case Failure(e) => Failure(e)
      case Success(current) => Success(Scaled(current - RepriceAt(m, phi, previous).value, multiplier as real))
    }

    /** calculateMarketRisk: the risk between the current spot, volatility, rate
        and maturity and the previous ones. The four fields end where they
        started and the previous fields catch up with them (the cost of carry is
        neither swapped nor snapshotted). An invalid barrier combination throws
        before any field changes. The first call finds the zero snapshot. */
    method CalculateMarketRisk(m: Transcendentals, phi: real -> real) returns (r: Result<real, PricingError>)
      requires IsCdf(m, phi) && InDomain(CurrentTerms())
      requires InDomain(PreviousTerms()) || IsZeroSnapshot(PreviousTerms())
      modifies this`spot, this`vol, this`rate, this`maturity
      modifies this`previousSpot, this`previousVol, this`previousRate, this`previousMaturity
      ensures r == RiskBetween(m, phi, old(CurrentTerms()), old(PreviousTerms()))
      ensures spot == old(spot) && vol == old(vol) && rate == old(rate) && maturity == old(maturity)
      ensures r.Failure? ==> PreviousTerms() == old(PreviousTerms())
      ensures r.Success? ==> PreviousTerms() == CurrentTerms()
    {
      var currentPrice := PriceAt(m, phi, CurrentTerms());
      if currentPrice.Failure? {
        return Failure(currentPrice.error);
      }

      var tempSpot, tempVol, tempRate, tempTime := spot, vol, rate, maturity;

      spot, vol, rate, maturity := previousSpot, previousVol, previousRate, previousMaturity;
      var previousPrice := RepriceAt(m, phi, CurrentTerms());

      spot, vol, rate, maturity := tempSpot, tempVol, tempRate, tempTime;

      previousSpot, previousVol, previousRate, previousMaturity := spot, vol, rate, maturity;

      r := Success(Scaled(currentPrice.value - previousPrice.value, multiplier as real));
    }

    /** setSpotPrice. */
    method SetSpotPrice(spot: real)
      modifies this`spot
      ensures this.spot == spot
    {
      this.spot := spot;
    }

    /** setVolatility. */
    method SetVolatility(vol: real)
      modifies this`vol
      ensures this.vol == vol
    {
      this.vol := vol;
    }

    /** setDomesticRate. */
    method SetDomesticRate(rate: real)
      modifies this`rate
      ensures this.rate == rate
    {
      this.rate := rate;
    }

    /** setCostOfCarry. */
    method SetCostOfCarry(carry: real)
      modifies this`carry
      ensures this.carry == carry
    {
      this.carry := carry;
    }
  }

  /** An immediately repeated risk call, which finds the previous fields equal
      to the current ones, returns 0. */
  lemma RepeatedRiskIsZero(m: Transcendentals, phi: real -> real, o: BarrierOption, t: Terms)
    requires Lawful(m) && InDomain(t)
    requires o.RiskBetween(m, phi, t, t).Success?
    ensures o.RiskBetween(m, phi, t, t).value == 0.0
  {
  }

  /** The barrier price never reads the barrier type: two options that agree on
      everything the rules read price alike, whatever their types. */
  lemma PriceIgnoresBarrierType(m: Transcendentals, phi: real -> real, a: BarrierOption, b: BarrierOption)
    requires IsCdf(m, phi) && InDomain(a.CurrentTerms())
    requires a.CurrentTerms() == b.CurrentTerms() && a.Levels() == b.Levels()
    requires a.isCall == b.isCall && a.multiplier == b.multiplier && a.rebate == b.rebate
    requires a.upDownIndicator == b.upDownIndicator
    requires a.isUpBarrier == b.isUpBarrier && a.isUpAndIn == b.isUpAndIn
    ensures a.CalculatePrice(m, phi) == b.CalculatePrice(m, phi)
  {
    var t := a.CurrentTerms();
    assert a.MarketAt(m, phi, t) == b.MarketAt(m, phi, t);
  }

  /** The vanilla price the barrier rules start from is the plain vanilla
      option's price on the same market fields, with the barrier option's int
      multiplier in place of the inherited double one. */
  lemma BarrierVanillaIsPlainVanilla(m: Transcendentals, phi: real -> real, b: BarrierOption,
                                     v: VanillaOptions.PlainVanillaOption)
    requires IsCdf(m, phi) && InDomain(b.CurrentTerms())
    requires v.CurrentTerms() == b.CurrentTerms() && v.isCall == b.isCall
    requires v.multiplier == b.multiplier as real
    ensures b.MarketAt(m, phi, b.CurrentTerms()).vanilla == v.CalculatePrice(m, phi)
  {
  }

  /** A freshly constructed option with a positive strike meets the risk
      precondition on its previous fields, and its first risk call prices the
      zero snapshot within the barrier bounds: with a nonnegative multiplier
      and rebate, between 0 and the larger of the rebate and the degenerate
      vanilla price (0 for a call, M*K for a put). */
  lemma ZeroSnapshotPriceBounds(o: BarrierOption)
    requires o.previousSpot == 0.0 && o.previousVol == 0.0 && o.previousRate == 0.0
    requires o.previousMaturity == 0.0 && o.strike > 0.0
    requires o.multiplier >= 0 && o.rebate >= 0.0
    requires BarrierRules.Price(o.ZeroSnapshotMarket(), o.Levels()).Success?
    ensures IsZeroSnapshot(o.PreviousTerms())
    ensures 0.0 <= BarrierRules.Price(o.ZeroSnapshotMarket(), o.Levels()).value
              <= Max(if o.isCall then 0.0 else o.multiplier as real * o.strike, o.rebate)
  {
    PriceBounds(o.ZeroSnapshotMarket(), o.Levels());
  }
}
