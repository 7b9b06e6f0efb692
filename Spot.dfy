/** SpotInstrument: an asset held at its spot price, converted by a helper
    exchange rate. Its market risk is a level, not a difference: there is no
    snapshot of previous values. */
module Spot {
  class SpotInstrument {
    var spot: real
    var helperExchangeRate: real

    /** The one-argument constructor: a domestic asset, helper exchange rate 1. */
    constructor (spot: real)
      ensures this.spot == spot && helperExchangeRate == 1.0
    {
      this.spot := spot;
      this.helperExchangeRate := 1.0;
    }

    /** The two-argument constructor stores the given helper exchange rate. */
    constructor WithHelper(spot: real, helperExchangeRate: real)
      ensures this.spot == spot && this.helperExchangeRate == helperExchangeRate
    {
      this.spot := spot;
      this.helperExchangeRate := helperExchangeRate;
    }

    /** calculatePrice: the spot value in the domestic currency; it is 0
        exactly when the spot or the exchange rate is 0. */
    function CalculatePrice(): (r: real)
      reads this
      ensures r == 0.0 <==> spot == 0.0 || helperExchangeRate == 0.0
      ensures spot > 0.0 && helperExchangeRate > 0.0 ==> r > 0.0
    {
      spot * helperExchangeRate
    }

    /** calculateMarketRisk: the same value as the price. */
    function CalculateMarketRisk(): (r: real)
      reads this
      ensures r == CalculatePrice()
    {
      spot * helperExchangeRate
    }

    /** setSpotPrice. */
    method SetSpotPrice(spot: real)
      modifies this`spot
      ensures this.spot == spot
    {
      this.spot := spot;
    }

    /** setHelperExchangeRate. */
    method SetHelperExchangeRate(helperExchangeRate: real)
      modifies this`helperExchangeRate
      ensures this.helperExchangeRate == helperExchangeRate
    {
      this.helperExchangeRate := helperExchangeRate;
    }
  }
}
