# Derivatives pricing and CORE risk, modelled in Dafny

This project models a Java library that prices instruments and measures their
market risk under the CORE methodology of the B3 exchange. It covers:

- **Barrier options.** Seven barrier patterns are chosen from which of the
  limit, knock-in and knock-out levels are set. Each pattern has a pricing rule
  built on a direction-dependent breach test.
- **Plain vanilla options.** Black-Scholes prices with a cost of carry, and the
  Greeks.
- **Futures.** An FX future priced by cost of carry.
- **Spot instruments.**
- **Interest-rate swaps.** The fixed and floating legs, par rate, duration and
  base-value update.
- **The CORE0 margin.** Positions and collateral are stressed under each
  scenario, and the margin covers the worst result, never going below zero.
- **Volatility estimators.** Historical volatility from log returns, and a
  simplified GARCH(p, q).

Each instrument with a market-risk method is a class whose fields the methods
update in place. The method works in steps:

1. Save the current market fields.
2. Overwrite them with the previous snapshot and reprice.
3. Restore the current fields and advance the snapshot to them.
4. Return the scaled price change.

Each such method is proved against a pure `RiskBetween` function of the values
it read on entry. Its contract also states the new state: the fields restored,
the snapshot equal to the current fields, and nothing else written. A lemma
shows that an immediately repeated call returns 0.

The pure parts are functions, with lemmas for what the code guarantees:

- the barrier patterns are exclusive and exhaustive;
- put-call parity and the call/put relations of the Greeks;
- the rate conversions are mutual inverses;
- the swap's par rate balances the legs;
- the margin covers every scenario.

Loops over arrays and lists become methods with loop invariants, proved equal
to recursive specification functions.

How the Java maps onto the model:

- **Doubles are `real`.** Where the Java can produce NaN or an infinity (a
  division by zero, the square root of a negative number), the result is a
  `Double`, either `Finite(v)` or `NotFinite`.
- **Exceptions are the `Failure` case of `Result`.**
- **32-bit `int` behaviour is explicit.** Narrowing casts and wrapping
  subtraction are written out.
- **`Math.exp`, `Math.log` and `Math.sqrt` are parameters.** They are the fields
  of a `Transcendentals` value, constrained only by the laws a proof uses:
  - `Lawful`: exp(0) = 1, exp > 0, and sqrt is non-negative, positive on
    positive numbers.
  - `LogInvertsExp`: log and exp are mutually inverse.
- **The normal CDF is the source's erf polynomial, in `NormalDistribution`.**
  The pricing functions take it as an argument `phi`, tied to that definition
  by `IsCdf`.

## Model

| member | source | states |
|---|---|---|
| NormalDistribution.ScaleT | src/main/java/com/financialengineering/models/OptionInstrument.java:66 | t = 1/(1 + 0.5\|z\|) lies in (0, 1], and strictly below 1 for z ≠ 0 |
| NormalDistribution.Erf | src/main/java/com/financialengineering/models/OptionInstrument.java:65-79 | the Abramowitz-Stegun polynomial erf; odd off zero by ErfOdd, 1e-9 at zero by ErfAtZero |
| NormalDistribution.Cdf | src/main/java/com/financialengineering/models/OptionInstrument.java:58-60 | 0.5·(1 + erf(x/√2)); symmetric off zero by CdfSymmetric, 0.5 + 5e-10 at zero by CdfAtZero |
| NormalDistribution.ErfOdd | src/main/java/com/financialengineering/models/OptionInstrument.java:65-79 | erf(−z) = −erf(z) for every z ≠ 0 |
| NormalDistribution.ErfAtZero | src/main/java/com/financialengineering/models/OptionInstrument.java:65-79 | erf(0) is 1e-9, not 0: the polynomial's coefficients sum to 1 − 1e-9 |
| NormalDistribution.CdfSymmetric | src/main/java/com/financialengineering/models/OptionInstrument.java:58-60 | normalCDF(x) + normalCDF(−x) = 1 for every x ≠ 0 |
| NormalDistribution.CdfAtZero | src/main/java/com/financialengineering/models/OptionInstrument.java:58-60 | normalCDF(0) = 0.5 + 5e-10 |
| NormalDistribution.CdfSymmetricAtZeroMisses | src/main/java/com/financialengineering/models/OptionInstrument.java:58-79 | at x = 0 the symmetry misses by 1e-9 |
| NormalDistribution.Pdf | src/main/java/com/financialengineering/utils/MathUtils.java:17-19 | normalPDF is positive everywhere |
| NormalDistribution.PdfEven | src/main/java/com/financialengineering/utils/MathUtils.java:17-19 | normalPDF(−x) = normalPDF(x) |
| NormalDistribution.PhiSymmetric | src/main/java/com/financialengineering/models/OptionInstrument.java:58-60 | any function equal to normalCDF has the symmetry for x ≠ 0 |
| BlackScholes.VolRoot | src/main/java/com/financialengineering/models/OptionInstrument.java:45 | the denominator σ√T of d1 is positive on the pricing domain |
| BlackScholes.D1 | src/main/java/com/financialengineering/models/OptionInstrument.java:42-46 | (ln(S/K) + (b + σ²/2)T)/(σ√T); independent of r by D1IgnoresRate |
| BlackScholes.D2 | src/main/java/com/financialengineering/models/OptionInstrument.java:51-53 | d1 − σ√T, below d1 by D2BelowD1 |
| BlackScholes.Price | src/main/java/com/financialengineering/models/PlainVanillaOption.java:47-62 | the generalised Black-Scholes price with carry and multiplier; its partner is put-call parity (PutCallParity) |
| BlackScholes.Delta | src/main/java/com/financialengineering/models/PlainVanillaOption.java:115-124 | e^{(b−r)T}Φ(d1) for a call, e^{(b−r)T}(Φ(d1) − 1) for a put; related by DeltaPutCall |
| BlackScholes.Theta | src/main/java/com/financialengineering/models/PlainVanillaOption.java:152-164 | the three-term theta; the call/put gap is ThetaCallMinusPut |
| BlackScholes.Rho | src/main/java/com/financialengineering/models/PlainVanillaOption.java:170-174 | ±K T e^{−rT} Φ(±d2); the call/put gap is RhoCallMinusPut |
| BlackScholes.D2BelowD1 | src/main/java/com/financialengineering/models/OptionInstrument.java:51-53 | d1 − d2 = σ√T, so d2 < d1 |
| BlackScholes.D1IgnoresRate | src/main/java/com/financialengineering/models/OptionInstrument.java:42-46 | d1 and d2 read the cost of carry and not the domestic rate |
| BlackScholes.Gamma | src/main/java/com/financialengineering/models/PlainVanillaOption.java:130-135 | gamma is positive |
| BlackScholes.Vega | src/main/java/com/financialengineering/models/PlainVanillaOption.java:141-146 | vega is positive |
| BlackScholes.PutCallParity | src/main/java/com/financialengineering/models/PlainVanillaOption.java:47-62 | call − put = M (S e^{(b−r)T} − K e^{−rT}) whenever d1 ≠ 0 and d2 ≠ 0 |
| BlackScholes.PutCallParityNoCarry | src/main/java/com/financialengineering/models/PlainVanillaOption.java:47-62 | with b = r, call − put = M (S − K e^{−rT}) |
| BlackScholes.DeltaPutCall | src/main/java/com/financialengineering/models/PlainVanillaOption.java:115-124 | put delta = call delta − e^{(b−r)T} |
| BlackScholes.RhoCallMinusPut | src/main/java/com/financialengineering/models/PlainVanillaOption.java:170-174 | call rho − put rho = K T e^{−rT} when d2 ≠ 0 |
| BlackScholes.ThetaCallMinusPut | src/main/java/com/financialengineering/models/PlainVanillaOption.java:152-164 | call theta − put theta = −(b−r) S e^{(b−r)T} (2Φ(d1) − 1) − r K e^{−rT} |
| MathUtils.LinearInterpolate | src/main/java/com/financialengineering/utils/MathUtils.java:43-48 | the midpoint (y0+y1)/2 when \|x1−x0\| < 1e-10; otherwise y0 at x0 and y1 at x1 |
| MathUtils.LinearInterpolateBetween | src/main/java/com/financialengineering/utils/MathUtils.java:43-48 | for x in [x0, x1] the result lies between y0 and y1 |
| MathUtils.AnnualToContinuous | src/main/java/com/financialengineering/utils/MathUtils.java:53-55 | non-finite exactly when the frequency is 0 or 1 + a/f ≤ 0 |
| MathUtils.ContinuousToAnnual | src/main/java/com/financialengineering/utils/MathUtils.java:60-62 | finite for a non-zero frequency; with frequency 0 it is the product 0 · (e^{±∞} − 1), which is 0 exactly when the rate is negative |
| MathUtils.AnnualRoundTrip | src/main/java/com/financialengineering/utils/MathUtils.java:53-62 | continuousToAnnual(annualToContinuous(a, f), f) = a when f ≠ 0 and 1 + a/f > 0 |
| MathUtils.ContinuousRoundTrip | src/main/java/com/financialengineering/utils/MathUtils.java:53-62 | annualToContinuous(continuousToAnnual(c, f), f) = c when f ≠ 0 |
| MathUtils.DayCountFractions | src/main/java/com/financialengineering/utils/MathUtils.java:67-76 | Actual/360 and Actual/365 fractions times 360 and 365 give the day difference; 0 on equal dates, antisymmetric and additive when no subtraction overflows |
| MathUtils.DayCountFraction360 | src/main/java/com/financialengineering/utils/MathUtils.java:67-69 | the int day difference over 360; its properties are DayCountFractions and DayCountOverflow |
| MathUtils.DayCountFraction365 | src/main/java/com/financialengineering/utils/MathUtils.java:74-76 | the int day difference over 365; its properties are DayCountFractions |
| MathUtils.DayCountOverflow | src/main/java/com/financialengineering/utils/MathUtils.java:67-69 | the int subtraction wraps: from the smallest to the largest int date the fraction is −1/360 |
| MathUtils.ForwardRate | src/main/java/com/financialengineering/utils/MathUtils.java:81-86 | rate1 when the times are within 1e-10; otherwise f with rate1·time1 + f·(time2 − time1) = rate2·time2 |
| MathUtils.BlackScholesPrice | src/main/java/com/financialengineering/utils/MathUtils.java:121-131 | the static price without carry or multiplier; BlackScholesPriceIsVanilla and BlackScholesPriceParity state what it is |
| MathUtils.BlackScholesPriceIsVanilla | src/main/java/com/financialengineering/utils/MathUtils.java:121-131 | blackScholesPrice is the vanilla price with carry equal to the rate and multiplier 1 |
| MathUtils.BlackScholesPriceParity | src/main/java/com/financialengineering/utils/MathUtils.java:121-131 | call − put = S − K e^{−rT} whenever d1 ≠ 0 and d2 ≠ 0 |
| MathUtils.BlackScholesVega | src/main/java/com/financialengineering/utils/MathUtils.java:136-140 | vega is positive |
| MathUtils.BlackScholesVegaIsVanilla | src/main/java/com/financialengineering/utils/MathUtils.java:136-140 | blackScholesVega is the option vega with carry equal to the rate, with no call/put input |
| Elementary.JavaIntCast | src/main/java/com/financialengineering/models/BarrierOption.java:87 | the (int) cast rounds toward zero and saturates at the 32-bit bounds |
| Elementary.JavaIntCastOfInt | src/main/java/com/financialengineering/models/BarrierOption.java:39-41 | an int multiplier survives the round trip through the superclass's double |
| Elementary.JavaIntWrap | src/main/java/com/financialengineering/utils/MathUtils.java:67-76 | int subtraction lands in the 32-bit range, congruent to the exact difference and equal to it when that fits |
| BarrierRules.Classify | src/main/java/com/financialengineering/models/BarrierOption.java:97-113 | the if-chain selects pattern p exactly when the levels fit p, and throws exactly when a level is negative or all three are 0 |
| BarrierRules.NoPatternFits | src/main/java/com/financialengineering/models/BarrierOption.java:113 | a negative level or three zero levels fit no pattern |
| BarrierRules.PatternsExclusive | src/main/java/com/financialengineering/models/BarrierOption.java:98-112 | no levels fit two patterns |
| BarrierRules.Breached | src/main/java/com/financialengineering/models/BarrierOption.java:228-231 | an up barrier is breached iff price ≥ barrier, a down one iff price ≤ barrier, and never for another indicator |
| BarrierRules.BreachPersists | src/main/java/com/financialengineering/models/BarrierOption.java:228-231 | a breach stays a breach as the price moves further in the barrier's direction |
| BarrierRules.Price | src/main/java/com/financialengineering/models/BarrierOption.java:97-114 | fails exactly when classification fails, and otherwise applies the rule of the one fitting pattern |
| BarrierRules.KnockInKnockOutClosedForm | src/main/java/com/financialengineering/models/BarrierOption.java:177-199 | knock-in+knock-out pays the rebate on an out breach, the vanilla on an in breach only, else 0.7 or 0.5 of the discounted rebate |
| BarrierRules.KnockInOutParity | src/main/java/com/financialengineering/models/BarrierOption.java:131-149 | at one level, knock-in + knock-out = vanilla + discounted rebate |
| BarrierRules.LimitGate | src/main/java/com/financialengineering/models/BarrierOption.java:155-210 | a set limit barrier gates the other rules: 0 unless breached, otherwise the price without the limit |
| BarrierRules.LimitOnlyPrice | src/main/java/com/financialengineering/models/BarrierOption.java:120-125 | a limit-only option pays 0.95 of the vanilla when breached, else 0 |
| BarrierRules.PriceBounds | src/main/java/com/financialengineering/models/BarrierOption.java:120-210 | with non-negative vanilla and rebate the price lies between 0 and their maximum |
| BarrierRules.SingleBarrierClassifies | src/main/java/com/financialengineering/models/BarrierOption.java:45-68 | a single-barrier option prices by the rule its type names when the barrier is positive, and throws otherwise |
| BarrierOptions.BarrierOption.Single | src/main/java/com/financialengineering/models/BarrierOption.java:35-72 | the type places the barrier (knock-in+knock-out: in = barrier, out = 1.1·barrier), sets the direction flags, and leaves the previous fields 0 |
| BarrierOptions.BarrierOption.Multiple | src/main/java/com/financialengineering/models/BarrierOption.java:77-91 | stores the three levels, the type knock-in+knock-out and the (int)-cast multiplier |
| BarrierOptions.BarrierOption.MarketAt | src/main/java/com/financialengineering/models/BarrierOption.java:215-223 | the inputs of the barrier rules at given market fields; the vanilla part is related to the plain vanilla option by BarrierVanillaIsPlainVanilla |
| BarrierOptions.BarrierOption.PriceAt | src/main/java/com/financialengineering/models/BarrierOption.java:97-114 | fails exactly when the levels are an invalid combination |
| BarrierOptions.BarrierOption.CalculatePrice | src/main/java/com/financialengineering/models/BarrierOption.java:97-114 | the price at the current fields, failing exactly on an invalid combination |
| BarrierOptions.BarrierOption.RiskBetween | src/main/java/com/financialengineering/models/BarrierOption.java:274 | fails exactly when the price does; the previous fields may be the zero snapshot of a fresh option |
| BarrierOptions.BarrierOption.RepriceAt | src/main/java/com/financialengineering/models/BarrierOption.java:256-260 | the previous price at the domain fields or at the zero snapshot, where d1 = d2 = −∞ (vanilla 0 for a call, M·K for a put, rebate undiscounted); fails exactly when the levels are an invalid combination |
| BarrierOptions.BarrierOption.CalculateMarketRisk | src/main/java/com/financialengineering/models/BarrierOption.java:246-275 | accepts previous fields in the pricing domain or at the constructors' zero snapshot, so the first call is covered; returns (current − previous)·multiplier; restores spot, vol, rate and T; advances the four previous fields; carry is neither swapped nor snapshotted |
| BarrierOptions.BarrierOption.SetSpotPrice | src/main/java/com/financialengineering/models/OptionInstrument.java:118-120 | writes only the spot |
| BarrierOptions.BarrierOption.SetVolatility | src/main/java/com/financialengineering/models/OptionInstrument.java:122-124 | writes only the volatility |
| BarrierOptions.BarrierOption.SetDomesticRate | src/main/java/com/financialengineering/models/OptionInstrument.java:126-128 | writes only the rate |
| BarrierOptions.BarrierOption.SetCostOfCarry | src/main/java/com/financialengineering/models/OptionInstrument.java:130-132 | writes only the cost of carry |
| BarrierOptions.RepeatedRiskIsZero | src/main/java/com/financialengineering/models/BarrierOption.java:246-275 | the risk between equal current and previous fields is 0 |
| BarrierOptions.ZeroSnapshotPriceBounds | src/main/java/com/financialengineering/models/BarrierOption.java:25-30 | a fresh option's previous fields (all 0, never set by a constructor) meet the risk precondition; with nonnegative multiplier and rebate the first call's previous price lies between 0 and the larger of the rebate and the degenerate vanilla price |
| BarrierOptions.PriceIgnoresBarrierType | src/main/java/com/financialengineering/models/BarrierOption.java:97-114 | the price never reads the barrier type |
| BarrierOptions.BarrierVanillaIsPlainVanilla | src/main/java/com/financialengineering/models/BarrierOption.java:215-223 | the barrier's vanilla price equals a plain vanilla option's calculatePrice on the same fields and type, with the barrier's int multiplier as the double one |
| VanillaOptions.PlainVanillaOption.constructor | src/main/java/com/financialengineering/models/PlainVanillaOption.java:12-17 | helper rate 1, carry equal to the rate, snapshot equal to the current fields |
| VanillaOptions.PlainVanillaOption.WithCarry | src/main/java/com/financialengineering/models/PlainVanillaOption.java:19-25 | the given helper rate and carry, snapshot equal to the current fields |
| VanillaOptions.PlainVanillaOption.InitializePreviousValues | src/main/java/com/financialengineering/models/PlainVanillaOption.java:27-32 | the snapshot equals the current spot, vol, rate and carry |
| VanillaOptions.PlainVanillaOption.CalculatePrice | src/main/java/com/financialengineering/models/PlainVanillaOption.java:47-62 | the Black-Scholes price at the current fields; put-call parity for two instances is OptionPutCallParity |
| VanillaOptions.PlainVanillaOption.RiskBetween | src/main/java/com/financialengineering/models/PlainVanillaOption.java:107 | the price change between two sets of fields times the helper exchange rate; zero between equal fields by RepeatedRiskIsZero |
| VanillaOptions.PlainVanillaOption.CalculateMarketRisk | src/main/java/com/financialengineering/models/PlainVanillaOption.java:79-108 | returns the price change scaled by the helper exchange rate; the four fields are restored and the snapshot catches up |
| VanillaOptions.PlainVanillaOption.CalculateGamma | src/main/java/com/financialengineering/models/PlainVanillaOption.java:130-135 | gamma is positive |
| VanillaOptions.PlainVanillaOption.CalculateVega | src/main/java/com/financialengineering/models/PlainVanillaOption.java:141-146 | vega is positive |
| VanillaOptions.PlainVanillaOption.CalculateDelta | src/main/java/com/financialengineering/models/PlainVanillaOption.java:115-124 | delta at the current fields; put delta = call delta − e^{(b−r)T} by GreeksOfCallAndPut |
| VanillaOptions.PlainVanillaOption.CalculateTheta | src/main/java/com/financialengineering/models/PlainVanillaOption.java:152-164 | theta at the current fields; the call/put gap is BlackScholes.ThetaCallMinusPut |
| VanillaOptions.PlainVanillaOption.CalculateRho | src/main/java/com/financialengineering/models/PlainVanillaOption.java:170-174 | rho at the current fields; the call/put gap is BlackScholes.RhoCallMinusPut |
| VanillaOptions.PlainVanillaOption.SetPreviousValues | src/main/java/com/financialengineering/models/PlainVanillaOption.java:184-190 | writes exactly the four previous fields |
| VanillaOptions.PlainVanillaOption.SetSpotPrice | src/main/java/com/financialengineering/models/OptionInstrument.java:118-120 | writes only the spot |
| VanillaOptions.PlainVanillaOption.SetVolatility | src/main/java/com/financialengineering/models/OptionInstrument.java:122-124 | writes only the volatility |
| VanillaOptions.PlainVanillaOption.SetDomesticRate | src/main/java/com/financialengineering/models/OptionInstrument.java:126-128 | writes only the rate |
| VanillaOptions.PlainVanillaOption.SetCostOfCarry | src/main/java/com/financialengineering/models/OptionInstrument.java:130-132 | writes only the cost of carry |
| VanillaOptions.RepeatedRiskIsZero | src/main/java/com/financialengineering/models/PlainVanillaOption.java:79-108 | the risk between equal snapshots is 0, so the first call and a repeated call return 0 |
| VanillaOptions.OptionPutCallParity | src/main/java/com/financialengineering/models/PlainVanillaOption.java:47-62 | a call and a put on the same fields satisfy put-call parity with the multiplier |
| VanillaOptions.GreeksOfCallAndPut | src/main/java/com/financialengineering/models/PlainVanillaOption.java:115-146 | call and put share gamma and vega; put delta = call delta − e^{(b−r)T} |
| Futures.FuturePriceWithoutCarry | src/main/java/com/financialengineering/models/FutureInstrument.java:43-46 | with the rate equal to the carry the price is spot × multiplier |
| Futures.FuturePrice | src/main/java/com/financialengineering/models/FutureInstrument.java:43-46 | S·e^{(r−b)·days/360}·M; equal to S·M when r = b by FuturePriceWithoutCarry |
| Futures.FXFuture.constructor | src/main/java/com/financialengineering/models/FXFuture.java:11-17 | helper rate 1 and the snapshot equal to spot, rate and carry |
| Futures.FXFuture.WithHelper | src/main/java/com/financialengineering/models/FXFuture.java:19-26 | the given helper rate and the snapshot equal to spot, rate and carry |
| Futures.FXFuture.CalculatePrice | src/main/java/com/financialengineering/models/FutureInstrument.java:43-46 | FuturePrice at the current spot, rate and carry |
| Futures.FXFuture.RiskBetween | src/main/java/com/financialengineering/models/FXFuture.java:67 | (F_now − F_prev)·M·N; zero between equal markets by RepeatedRiskIsZero, M²·N scaling by RiskScalesByMultiplierSquared |
| Futures.FXFuture.CalculateMarketRisk | src/main/java/com/financialengineering/models/FXFuture.java:43-68 | returns (F_now − F_prev)·multiplier·notional; spot, rate and carry are restored and the snapshot catches up |
| Futures.FXFuture.SetPreviousValues | src/main/java/com/financialengineering/models/FXFuture.java:71-75 | writes exactly the three previous fields |
| Futures.FXFuture.SetSpotPrice | src/main/java/com/financialengineering/models/FutureInstrument.java:56-58 | writes only the spot |
| Futures.FXFuture.SetDomesticRate | src/main/java/com/financialengineering/models/FutureInstrument.java:60-62 | writes only the rate |
| Futures.FXFuture.SetCostOfCarry | src/main/java/com/financialengineering/models/FutureInstrument.java:64-66 | writes only the cost of carry |
| Futures.RepeatedRiskIsZero | src/main/java/com/financialengineering/models/FXFuture.java:43-68 | the risk between equal markets is 0 |
| Futures.RiskScalesByMultiplierSquared | src/main/java/com/financialengineering/models/FXFuture.java:67 | the price already carries the multiplier, so the risk scales by multiplier² × notional |
| Spot.SpotInstrument.constructor | src/main/java/com/financialengineering/models/SpotInstrument.java:10-13 | helper rate 1 |
| Spot.SpotInstrument.WithHelper | src/main/java/com/financialengineering/models/SpotInstrument.java:15-18 | the given helper rate |
| Spot.SpotInstrument.CalculatePrice | src/main/java/com/financialengineering/models/SpotInstrument.java:25-28 | zero exactly when the spot or the helper rate is 0, positive when both are |
| Spot.SpotInstrument.CalculateMarketRisk | src/main/java/com/financialengineering/models/SpotInstrument.java:20-23 | the risk is the price level itself, not a change |
| Spot.SpotInstrument.SetSpotPrice | src/main/java/com/financialengineering/models/SpotInstrument.java:30-32 | writes only the spot |
| Spot.SpotInstrument.SetHelperExchangeRate | src/main/java/com/financialengineering/models/SpotInstrument.java:34-36 | writes only the helper rate |
| SwapLegs.DiscountFactorFacts | src/main/java/com/financialengineering/models/SwapInstrument.java:65-67 | the discount factor is positive and 1 at date 0 |
| SwapLegs.DiscountFactor | src/main/java/com/financialengineering/models/SwapInstrument.java:65-67 | e^{−r·date}; positive and 1 at date 0 by DiscountFactorFacts |
| SwapLegs.FixedLeg | src/main/java/com/financialengineering/models/SwapInstrument.java:35-45 | Σ N·k·(d_i − d_{i−1})·DF(d_i); N·k·annuity by FixedLegIsAnnuity |
| SwapLegs.FloatingLeg | src/main/java/com/financialengineering/models/SwapInstrument.java:50-60 | Σ N·f_i·(d_i − d_{i−1})·DF(d_i); equal to the fixed leg on flat rates by FlatLegsAgree |
| SwapLegs.ParRate | src/main/java/com/financialengineering/models/InterestRateSwap.java:51-63 | floating leg/(N·annuity), non-finite for a zero denominator; balances the legs by ParRateBalancesLegs |
| SwapLegs.FixedLegIsAnnuity | src/main/java/com/financialengineering/models/SwapInstrument.java:35-45 | the fixed leg is notional × fixed rate × annuity, so it is linear in the fixed rate |
| SwapLegs.FlatLegsAgree | src/main/java/com/financialengineering/models/SwapInstrument.java:35-60 | when every floating rate equals the fixed rate the legs are equal |
| SwapLegs.FlatWeightedSumIsZero | src/main/java/com/financialengineering/models/InterestRateSwap.java:74-79 | with flat rates the duration's weighted sum is 0 |
| SwapLegs.ParRateBalancesLegs | src/main/java/com/financialengineering/models/InterestRateSwap.java:51-63 | the fixed leg valued at a finite par rate equals the floating leg |
| Swaps.InterestRateSwap.constructor | src/main/java/com/financialengineering/models/InterestRateSwap.java:10-15 | keeps the caller's arrays, sets helper rate and indices to 1 and base value to the notional, snapshots the fixed rate and a fresh copy of the floating rates; the updated base value starts at the notional |
| Swaps.InterestRateSwap.CalculateFixedLegPV | src/main/java/com/financialengineering/models/SwapInstrument.java:35-45 | the loop computes the fixed leg Σ N·k·(d_i − d_{i−1})·DF(d_i) |
| Swaps.InterestRateSwap.CalculateFloatingLegPV | src/main/java/com/financialengineering/models/SwapInstrument.java:50-60 | the loop computes the floating leg with rate i in period i |
| Swaps.InterestRateSwap.CalculatePrice | src/main/java/com/financialengineering/models/SwapInstrument.java:84-86 | (fixed leg − floating leg) × helper rate |
| Swaps.InterestRateSwap.CalculateMarketRisk | src/main/java/com/financialengineering/models/InterestRateSwap.java:25-46 | returns (MtM_now − MtM_prev) × helper rate; fixed rate and floating-rate contents are restored, but in a fresh array; the snapshot is a separate copy equal to them |
| Swaps.InterestRateSwap.CalculateParRate | src/main/java/com/financialengineering/models/InterestRateSwap.java:51-63 | floating leg / (notional × annuity), non-finite when the denominator is 0 |
| Swaps.InterestRateSwap.CalculateDuration | src/main/java/com/financialengineering/models/InterestRateSwap.java:68-82 | 0 when \|price\| < 1e-10, otherwise Σ date_i·N·(k − f_i)·DF_i / price |
| Swaps.InterestRateSwap.UpdateBaseValue | src/main/java/com/financialengineering/models/SwapInstrument.java:79-81 | non-finite exactly for a zero base index |
| Swaps.UpdateBaseValueAtBaseIndex | src/main/java/com/financialengineering/models/SwapInstrument.java:79-81 | with the current index equal to a non-zero base index, the updated base value is the base value times the pro-rata index |
| Swaps.InterestRateSwap.SetPreviousRates | src/main/java/com/financialengineering/models/InterestRateSwap.java:85-88 | the previous floating rates become a fresh copy of the argument |
| Swaps.InterestRateSwap.SetHelperExchangeRate | src/main/java/com/financialengineering/models/SwapInstrument.java:109-111 | writes only the helper rate |
| Swaps.InterestRateSwap.SetCurrentIndex | src/main/java/com/financialengineering/models/SwapInstrument.java:113-115 | writes only the current index |
| Swaps.InterestRateSwap.SetBaseIndex | src/main/java/com/financialengineering/models/SwapInstrument.java:117-119 | writes only the base index |
| Swaps.InterestRateSwap.SetProRataIndex | src/main/java/com/financialengineering/models/SwapInstrument.java:121-123 | writes only the pro-rata index |
| Swaps.RepeatedRiskIsZero | src/main/java/com/financialengineering/models/InterestRateSwap.java:25-46 | the risk between equal rates is 0, so the first call and a repeated call return 0 |
| Swaps.FlatSwapIsWorthZero | src/main/java/com/financialengineering/models/SwapInstrument.java:84-86 | the swap is worth 0 when every floating rate equals the fixed rate |
| Swaps.ParSwapIsWorthZero | src/main/java/com/financialengineering/models/InterestRateSwap.java:51-63 | the swap is worth 0 at its par rate |
| Core0.CalculateResult | src/main/java/com/financialengineering/CORE0Calculator.java:59-72 | Σ quantity·(price + shock) over positions plus Σ collateral values |
| Core0.UniformShock | src/main/java/com/financialengineering/CORE0Calculator.java:77-81 | every asset gets the same shock, so a scenario moves the positions by shock × net quantity |
| Core0.CollateralCancelsBetweenScenarios | src/main/java/com/financialengineering/CORE0Calculator.java:67-70 | collateral is added identically to every scenario |
| Core0.CalculateCore0Margin | src/main/java/com/financialengineering/CORE0Calculator.java:90-100 | the loop computes max(−min result, 0), with the minimum starting at +∞ |
| Core0.MinResultIsMinimum | src/main/java/com/financialengineering/CORE0Calculator.java:91-97 | the running minimum is +∞ for no scenario, otherwise at most every result and equal to one |
| Core0.MarginCoversWorstScenario | src/main/java/com/financialengineering/CORE0Calculator.java:90-100 | the margin is non-negative, covers every scenario's loss, and is 0 or exactly some scenario's loss |
| Core0.NoScenarioNoMargin | src/main/java/com/financialengineering/CORE0Calculator.java:91-99 | with no scenarios the margin is 0 |
| Core0.MoreCollateralNeverRaisesMargin | src/main/java/com/financialengineering/CORE0Calculator.java:59-100 | adding non-negative collateral never raises the margin |
| Volatility.SquareRoot | src/main/java/com/financialengineering/utils/VolatilityCalculator.java:25 | Math.sqrt is non-finite exactly on negative arguments |
| Volatility.ReturnsOf | src/main/java/com/financialengineering/utils/VolatilityCalculator.java:71-77 | n prices give n − 1 returns |
| Volatility.ReturnsOfEntries | src/main/java/com/financialengineering/utils/VolatilityCalculator.java:71-77 | return i is log(p_{i+1}/p_i) |
| Volatility.ReturnsReconstructPrices | src/main/java/com/financialengineering/utils/VolatilityCalculator.java:71-77 | each price is the previous one times e^{return}, for negative as well as positive price lists |
| Volatility.CalculateReturns | src/main/java/com/financialengineering/utils/VolatilityCalculator.java:71-77 | the loop fills a fresh array with the log returns |
| Volatility.CalculateMean | src/main/java/com/financialengineering/utils/VolatilityCalculator.java:79-85 | the loop computes sum / length, non-finite for no values |
| Volatility.DeviationsFromMeanCancel | src/main/java/com/financialengineering/utils/VolatilityCalculator.java:79-85 | the deviations from the mean sum to 0 |
| Volatility.SquaredDeviationsNonnegative | src/main/java/com/financialengineering/utils/VolatilityCalculator.java:87-93 | the sum of squared deviations is non-negative |
| Volatility.VarianceNonnegative | src/main/java/com/financialengineering/utils/VolatilityCalculator.java:87-93 | with two or more values the variance is finite and non-negative |
| Volatility.CalculateVariance | src/main/java/com/financialengineering/utils/VolatilityCalculator.java:87-93 | the loop computes Σ(v − mean)²/(len − 1): NaN for one value, NaN for a NaN mean once a value is read, and 0/−1 for no values |
| Volatility.VarianceAbout | src/main/java/com/financialengineering/utils/VolatilityCalculator.java:87-93 | the variance with the mean as a double: a NaN mean gives NaN once a value is read; its finiteness is StandardDeviationFinite |
| Volatility.StandardDeviationFinite | src/main/java/com/financialengineering/utils/VolatilityCalculator.java:79-99 | the standard deviation is NaN exactly for a single value; otherwise it is finite and non-negative, including for no values, where the NaN mean is never read and the variance is 0/−1 |
| Volatility.CalculateStandardDeviation | src/main/java/com/financialengineering/utils/VolatilityCalculator.java:95-99 | the square root of the variance about the mean, NaN propagating from the variance; no values give a finite root |
| Volatility.CalculateHistoricalVolatility | src/main/java/com/financialengineering/utils/VolatilityCalculator.java:7-26 | throws for fewer than 2 prices, otherwise sqrt(variance × periods) |
| Volatility.HistoricalVolatilityCases | src/main/java/com/financialengineering/utils/VolatilityCalculator.java:7-26 | fails iff fewer than 2 prices; NaN for 2 prices; finite and non-negative from 3 prices with periods ≥ 0 |
| Volatility.GarchPath | src/main/java/com/financialengineering/utils/VolatilityCalculator.java:48-66 | n steps give n volatilities |
| Volatility.Filled | src/main/java/com/financialengineering/utils/VolatilityCalculator.java:44-45 | a fresh array of n entries, each the given weight; the estimator fills the ARCH weights with 0.1/p and the GARCH weights with 0.8/q |
| Volatility.ConditionalVarianceAt | src/main/java/com/financialengineering/utils/VolatilityCalculator.java:49-63 | the inner loops compute ω + Σ α r²_{t−i−1} + Σ β σ_{t−j−1}, reading only lags ≥ 0 |
| Volatility.EstimateVolatilities | src/main/java/com/financialengineering/utils/VolatilityCalculator.java:48-66 | the loop fills each later volatility with the square root of its conditional variance |
| Volatility.CalculateGarchVolatility | src/main/java/com/financialengineering/utils/VolatilityCalculator.java:28-69 | the last volatility, with the source's exceptions for too few prices and negative orders |
| Volatility.ArchTermsNonnegative | src/main/java/com/financialengineering/utils/VolatilityCalculator.java:52-56 | the ARCH terms are non-negative |
| Volatility.GarchTermsNonnegative | src/main/java/com/financialengineering/utils/VolatilityCalculator.java:59-63 | the GARCH terms over non-negative volatilities are non-negative |
| Volatility.GarchPathFacts | src/main/java/com/financialengineering/utils/VolatilityCalculator.java:48-66 | the first volatility is the initial one; each later one is the square root of a conditional variance ≥ ω = 0.1; from a non-negative start all are non-negative |
| Volatility.GarchVolatilityFacts | src/main/java/com/financialengineering/utils/VolatilityCalculator.java:28-69 | fails iff fewer than 2 prices or a negative order; NaN for 2 prices; from 3 prices, the square root of a value ≥ 0.1 |

## Left out

- IEEE 754 behaviour: rounding, the accuracy of exp, log, sqrt and the erf approximation, signed zeros, and how NaN and infinities propagate. A value that can only be NaN or infinite is `NotFinite`.
- The pricing domain: every option price, Greek and risk requires S, K, σ and T to be positive. The source does not check these inputs, and outside the domain d1 is NaN or infinite.
- The normal CDF argument `phi`: each pricing function takes normalCDF as an argument, and the lemmas require it to equal the modelled `Cdf` through `IsCdf`. This keeps the erf polynomial out of proofs that do not need it.
- The copies of normalCDF and erf in MathUtils.java are the same expressions as in OptionInstrument.java, and normalPDF in MathUtils.java is the same expression as in PlainVanillaOption.java: each is modelled once, in `NormalDistribution`.
- MathUtils.calculateImpliedVolatility: a Newton iteration whose convergence, and its division by a vega that may be 0, are floating-point behaviour.
- The Instrument interface and the abstract superclasses OptionInstrument, FutureInstrument and SwapInstrument: each concrete class repeats the fields and setters it inherits.
- DerivativesPricingApp.java: a console program that only prints results.
- The unused `int t` argument of every calculateMarketRisk.
- Getters: they are reads of the fields they name. `getFloatingRates` hands out the internal array, and `Swaps.InterestRateSwap.CalculateMarketRisk` states that this array is replaced by a fresh one.
- Null arguments: a null `Double` barrier in the multi-barrier constructor and a null price list are dereferenced and throw. The model has no null.
- BarrierOptions.BarrierOption.CalculateMarketRisk: the previous price at the constructors' zero snapshot is stated in closed form (`ZeroSnapshotMarket`), derived from the IEEE values d1 = d2 = −∞ and normalCDF(±∞) = 1 or 0 rather than computed through the model's real-valued d1; previous fields that are neither in the pricing domain nor all zero (which no model state reaches) are not covered.
- Swaps.InterestRateSwap.CalculateFloatingLegPV: requires at least as many floating rates as payment dates. The source throws ArrayIndexOutOfBoundsException otherwise. The same requirement applies to CalculatePrice, CalculateParRate and CalculateDuration.
- Swaps.InterestRateSwap.CalculateMarketRisk: requires both the current and the previous floating-rate arrays to cover the payment dates. In the source the exception would leave the fixed rate and the floating-rate array swapped.
- Volatility.CalculateReturns: requires at least one price. Both callers rule out an empty list first, and the GARCH estimator models that case as the NegativeArraySizeException the source throws.
- Volatility.CalculateHistoricalVolatility: requires every ratio of consecutive prices to be a positive number, that is, all prices non-zero and of one sign, which admits lists of negative prices. A zero price or a change of sign makes a log return NaN or infinite in the source, and the model has no logarithm of a non-positive number.
- Volatility.CalculateGarchVolatility: requires the same positive ratios, for the same reason.
- Futures.FXFuture.constructor: requires `daysToMaturity` to be a 32-bit int, the range of its Java type. The same applies to `WithHelper`. `BarrierOptions.BarrierOption.Single` likewise requires an int multiplier.
