/** FutureInstrument and FXFuture: a future priced by the cost-of-carry model
    F = S e^{(r - c) T} M with T = days / 360, and the FX future's market-risk
    protocol that snapshots spot, domestic rate and cost of carry. */
module Futures {
  import opened Elementary

  /** The market fields a future's price reads. */
  datatype FutureMarket = FutureMarket(spot: real, rate: real, carry: real)

  /** The time to maturity in years: whole days over a 360-day year. */
  function Years(days: int): real {
    days as real / 360.0
  }

  /** (r - c) T, the exponent of the cost-of-carry factor. */
  function CarryExponent(k: FutureMarket, days: int): real {
    (k.rate - k.carry) * Years(days)
  }

  /** FutureInstrument.calculatePrice. It reads neither the notional nor the
      helper exchange rate. */
  function FuturePrice(m: Transcendentals, k: FutureMarket, days: int, multiplier: real): real {
    k.spot * m.exp(CarryExponent(k, days)) * multiplier
  }

  /** With the domestic rate equal to the cost of carry the future trades at
      spot times multiplier, whatever the maturity. */
  lemma FuturePriceWithoutCarry(m: Transcendentals, k: FutureMarket, days: int, multiplier: real)
    requires Lawful(m) && k.rate == k.carry
    ensures FuturePrice(m, k, days, multiplier) == k.spot * multiplier
  {
    assert CarryExponent(k, days) == 0.0;
  }

  class FXFuture {
    // Fields inherited from FutureInstrument.
    var spot: real
    var rate: real
    var carry: real
    const multiplier: real
    const notional: real
    const helperExchangeRate: real
    const daysToMaturity: int

    // The previous market values.
    var previousSpot: real
    var previousRate: real
    var previousCarry: real

    /** The six-argument constructor: a domestic future (helper exchange rate 1),
        with the snapshot equal to the current values. */
    constructor (spot: real, rate: real, carry: real, multiplier: real, notional: real, daysToMaturity: int)
      requires IntMin <= daysToMaturity <= IntMax
      ensures CurrentMarket() == FutureMarket(spot, rate, carry)
      ensures this.multiplier == multiplier && this.notional == notional
      ensures this.daysToMaturity == daysToMaturity && helperExchangeRate == 1.0
      ensures PreviousMarket() == CurrentMarket()
    {
      this.spot, this.rate, this.carry := spot, rate, carry;
      this.multiplier, this.notional, this.daysToMaturity := multiplier, notional, daysToMaturity;
      this.helperExchangeRate := 1.0;
      this.previousSpot, this.previousRate, this.previousCarry := spot, rate, carry;
    }

    /** The seven-argument constructor: the helper exchange rate is given. */
    constructor WithHelper(spot: real, rate: real, carry: real, multiplier: real, notional: real,
                           daysToMaturity: int, helperExchangeRate: real)
      requires IntMin <= daysToMaturity <= IntMax
      ensures CurrentMarket() == FutureMarket(spot, rate, carry)
      ensures this.multiplier == multiplier && this.notional == notional
      ensures this.daysToMaturity == daysToMaturity && this.helperExchangeRate == helperExchangeRate
      ensures PreviousMarket() == CurrentMarket()
    {
      this.spot, this.rate, this.carry := spot, rate, carry;
      this.multiplier, this.notional, this.daysToMaturity := multiplier, notional, daysToMaturity;
      this.helperExchangeRate := helperExchangeRate;
      this.previousSpot, this.previousRate, this.previousCarry := spot, rate, carry;
    }

    function CurrentMarket(): FutureMarket
      reads this
    {
      FutureMarket(spot, rate, carry)
    }

    function PreviousMarket(): FutureMarket
      reads this
    {
      FutureMarket(previousSpot, previousRate, previousCarry)
    }

    /** calculatePrice. */
    function CalculatePrice(m: Transcendentals): real
      reads this
    {
      FuturePrice(m, CurrentMarket(), daysToMaturity, multiplier)
    }

    /** The market risk between two sets of market fields: the price change
        times multiplier times notional. */
    function RiskBetween(m: Transcendentals, now: FutureMarket, previous: FutureMarket): real {
      Scaled(Scaled(FuturePrice(m, now, daysToMaturity, multiplier)
                    - FuturePrice(m, previous, daysToMaturity, multiplier), multiplier), notional)
    }

    /** calculateMarketRisk: the risk between the current and the previous
        spot, rate and carry. The three fields end where they started and the
        snapshot catches up with them; no other field is written. */
    method CalculateMarketRisk(m: Transcendentals) returns (r: real)
      modifies this`spot, this`rate, this`carry
      modifies this`previousSpot, this`previousRate, this`previousCarry
      ensures r == RiskBetween(m, old(CurrentMarket()), old(PreviousMarket()))
      ensures CurrentMarket() == old(CurrentMarket())
      ensures PreviousMarket() == CurrentMarket()
    {
      var currentPrice := CalculatePrice(m);

      var tempSpot, tempRate, tempCarry := spot, rate, carry;

      spot, rate, carry := previousSpot, previousRate, previousCarry;
      var previousPrice := CalculatePrice(m);

      spot, rate, carry := tempSpot, tempRate, tempCarry;

      previousSpot, previousRate, previousCarry := spot, rate, carry;

      r := Scaled(Scaled(currentPrice - previousPrice, multiplier), notional);
    }

    /** setPreviousValues: overwrites the three snapshot fields and nothing else. */
    method SetPreviousValues(spot: real, rate: real, carry: real)
      modifies this`previousSpot, this`previousRate, this`previousCarry
      ensures PreviousMarket() == FutureMarket(spot, rate, carry)
    {
      previousSpot, previousRate, previousCarry := spot, rate, carry;
    }

    /** setSpotPrice. */
    method SetSpotPrice(spot: real)
      modifies this`spot
      ensures this.spot == spot
    {
      this.spot := spot;
    }

    /** setDomesticRate. */
    method SetDomesticRate(rate: real)
      modifies this`rate
      ensures this.rate == rate
    {
      this.rate := rate;
    }

    /** setCostOfCarry. */
    method SetCostOfCarry(carry: real)
      modifies this`carry
      ensures this.carry == carry
    {
      this.carry := carry;
    }
  }

  /** An immediately repeated risk call, which finds the snapshot equal to the
      current fields, returns 0; so does the first call after construction. */
  lemma RepeatedRiskIsZero(m: Transcendentals, o: FXFuture, k: FutureMarket)
    ensures o.RiskBetween(m, k, k) == 0.0
  {
  }

  /** The risk applies the multiplier twice: once inside each price and once
      more as a factor. */
  lemma RiskScalesByMultiplierSquared(m: Transcendentals, o: FXFuture, now: FutureMarket, previous: FutureMarket)
    ensures o.RiskBetween(m, now, previous)
            == (now.spot * m.exp(CarryExponent(now, o.daysToMaturity))
                - previous.spot * m.exp(CarryExponent(previous, o.daysToMaturity)))
               * o.multiplier * o.multiplier * o.notional
  {
    var a := now.spot * m.exp(CarryExponent(now, o.daysToMaturity));
    var b := previous.spot * m.exp(CarryExponent(previous, o.daysToMaturity));
    assert a * o.multiplier - b * o.multiplier == (a - b) * o.multiplier;
  }
}
