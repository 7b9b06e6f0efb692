/** CORE0Calculator: the residual-risk margin call. Every stress scenario
    shocks the positions' prices, the collateral is added on top, and the
    margin is what it takes to cover the worst scenario, never negative. */
module Core0 {
  import opened Elementary

  /** A position in one asset. */
  datatype Position = Position(assetId: string, quantity: real, price: real)

  /** Collateral deposited in one asset. */
  datatype Collateral = Collateral(assetId: string, value: real)

  /** A stress scenario: an identifier and a vector of price shocks. */
  datatype StressScenario = StressScenario(id: string, priceShocks: seq<real>)

  /** The smallest result so far, where no scenario yet is +infinity. */
  datatype Extended = PositiveInfinity | Value(v: real)

  /** getShockForAsset: every asset gets the first shock of the scenario, or 0
      when the scenario has none; the asset identifier is not consulted. */
  function ShockForAsset(assetId: string, scenario: StressScenario): real {
    if |scenario.priceShocks| > 0 then scenario.priceShocks[0] else 0.0
  }

  /** The shocked value of the first n positions. */
  function PositionsValue(positions: seq<Position>, scenario: StressScenario, n: nat): real
    requires n <= |positions|
  {
    if n == 0 then 0.0
    else
      var pos := positions[n - 1];
      PositionsValue(positions, scenario, n - 1) + pos.quantity * (pos.price + ShockForAsset(pos.assetId, scenario))
  }

  /** The total value of the first n collaterals. */
  function CollateralValue(collaterals: seq<Collateral>, n: nat): real
    requires n <= |collaterals|
  {
    if n == 0 then 0.0 else CollateralValue(collaterals, n - 1) + collaterals[n - 1].value
  }

  /** The liquidation result of positions and collateral under one scenario. */
  function ScenarioResult(positions: seq<Position>, collaterals: seq<Collateral>, scenario: StressScenario): real {
    PositionsValue(positions, scenario, |positions|) + CollateralValue(collaterals, |collaterals|)
  }

  /** calculateResult. */
  method CalculateResult(positions: seq<Position>, collaterals: seq<Collateral>, scenario: StressScenario)
    returns (result: real)
    ensures result == ScenarioResult(positions, collaterals, scenario)
  {
    result := 0.0;
    for i := 0 to |positions|
      invariant result == PositionsValue(positions, scenario, i)
    {
      var pos := positions[i];
      var shockedPrice := pos.price + ShockForAsset(pos.assetId, scenario);
      result := result + pos.quantity * shockedPrice;
    }
    for i := 0 to |collaterals|
      invariant result == PositionsValue(positions, scenario, |positions|) + CollateralValue(collaterals, i)
    {
      result := result + collaterals[i].value;
    }
  }

  /** The unshocked value of the first n positions. */
  function MarkedValue(positions: seq<Position>, n: nat): real
    requires n <= |positions|
  {
    if n == 0 then 0.0 else MarkedValue(positions, n - 1) + positions[n - 1].quantity * positions[n - 1].price
  }

  /** The net quantity of the first n positions. */
  function NetQuantity(positions: seq<Position>, n: nat): real
    requires n <= |positions|
  {
    if n == 0 then 0.0 else NetQuantity(positions, n - 1) + positions[n - 1].quantity
  }

  /** Since the shock does not depend on the asset, a scenario moves the
      positions' value by one shock times the net quantity. */
  lemma {:induction false} UniformShock(positions: seq<Position>, scenario: StressScenario, n: nat, anyAsset: string)
    requires n <= |positions|
    ensures PositionsValue(positions, scenario, n)
         == MarkedValue(positions, n) + ShockForAsset(anyAsset, scenario) * NetQuantity(positions, n)
  {
    if n > 0 {
      UniformShock(positions, scenario, n - 1, anyAsset);
    }
  }

  /** The collateral is added identically to every scenario: the gap between
      two scenarios' results does not depend on the collateral. */
  lemma CollateralCancelsBetweenScenarios(positions: seq<Position>, collaterals: seq<Collateral>,
                                          s1: StressScenario, s2: StressScenario)
    ensures ScenarioResult(positions, collaterals, s1) - ScenarioResult(positions, collaterals, s2)
         == ScenarioResult(positions, [], s1) - ScenarioResult(positions, [], s2)
  {
  }

  /** `result < minResult`, with +infinity above every real. */
  predicate Below(result: real, min: Extended) {
    match min
    case PositiveInfinity => true
    case Value(v) => result < v
  }

  /** The running minimum over the first n scenarios' results. */
  function MinResult(positions: seq<Position>, collaterals: seq<Collateral>, scenarios: seq<StressScenario>, n: nat): Extended
    requires n <= |scenarios|
  {
    if n == 0 then PositiveInfinity
    else
      var min := MinResult(positions, collaterals, scenarios, n - 1);
      var result := ScenarioResult(positions, collaterals, scenarios[n - 1]);
      if Below(result, min) then Value(result) else min
  }

  /** Math.max(-minResult, 0): with no scenario -minResult is -infinity and the
      margin is 0. */
  function MarginFor(min: Extended): real {
    match min
    case PositiveInfinity => 0.0
    case Value(v) => Max(-v, 0.0)
  }

  /** The CORE0 margin call of a portfolio over a list of scenarios. */
  function Core0Margin(positions: seq<Position>, collaterals: seq<Collateral>, scenarios: seq<StressScenario>): real {
    MarginFor(MinResult(positions, collaterals, scenarios, |scenarios|))
  }

  /** calculateCORE0Margin. */
  method CalculateCore0Margin(positions: seq<Position>, collaterals: seq<Collateral>, scenarios: seq<StressScenario>)
    returns (margin: real)
    ensures margin == Core0Margin(positions, collaterals, scenarios)
  {
    var minResult := PositiveInfinity;
    for i := 0 to |scenarios|
      invariant minResult == MinResult(positions, collaterals, scenarios, i)
    {
      var result := CalculateResult(positions, collaterals, scenarios[i]);
      if Below(result, minResult) {
        minResult := Value(result);
      }
    }
    margin := MarginFor(minResult);
  }

  /** Over a non-empty prefix the running minimum is a real that is at most
      every result in it and equal to one of them; over the empty one it is
      +infinity. */
  lemma {:induction false} MinResultIsMinimum(positions: seq<Position>, collaterals: seq<Collateral>,
                                              scenarios: seq<StressScenario>, n: nat)
    requires n <= |scenarios|
    ensures n == 0 <==> MinResult(positions, collaterals, scenarios, n).PositiveInfinity?
    ensures n > 0 ==>
      var v := MinResult(positions, collaterals, scenarios, n).v;
      && (forall i :: 0 <= i < n ==> v <= ScenarioResult(positions, collaterals, scenarios[i]))
      && (exists i :: 0 <= i < n && v == ScenarioResult(positions, collaterals, scenarios[i]))
  {
    if n > 0 {
      MinResultIsMinimum(positions, collaterals, scenarios, n - 1);
      var result := ScenarioResult(positions, collaterals, scenarios[n - 1]);
      if n - 1 > 0 && !Below(result, MinResult(positions, collaterals, scenarios, n - 1)) {
        var v := MinResult(positions, collaterals, scenarios, n - 1).v;
        var k :| 0 <= k < n - 1 && v == ScenarioResult(positions, collaterals, scenarios[k]);
        assert 0 <= k < n && v == ScenarioResult(positions, collaterals, scenarios[k]);
      } else {
        assert ScenarioResult(positions, collaterals, scenarios[n - 1]) == result;
      }
    }
  }

  /** The margin is the least non-negative amount that covers every scenario's
      loss: it is never negative, at least the loss of each scenario, and
      either 0 or exactly the loss of some scenario. */
  lemma MarginCoversWorstScenario(positions: seq<Position>, collaterals: seq<Collateral>, scenarios: seq<StressScenario>)
    ensures Core0Margin(positions, collaterals, scenarios) >= 0.0
    ensures forall s :: s in scenarios ==>
      Core0Margin(positions, collaterals, scenarios) >= -ScenarioResult(positions, collaterals, s)
    ensures Core0Margin(positions, collaterals, scenarios) == 0.0
         || exists s :: s in scenarios && Core0Margin(positions, collaterals, scenarios) == -ScenarioResult(positions, collaterals, s)
  {
    MinResultIsMinimum(positions, collaterals, scenarios, |scenarios|);
    var margin := Core0Margin(positions, collaterals, scenarios);
    forall s | s in scenarios
      ensures margin >= -ScenarioResult(positions, collaterals, s)
    {
      var i :| 0 <= i < |scenarios| && scenarios[i] == s;
    }
    if margin != 0.0 {
      var v := MinResult(positions, collaterals, scenarios, |scenarios|).v;
      var k :| 0 <= k < |scenarios| && v == ScenarioResult(positions, collaterals, scenarios[k]);
      assert scenarios[k] in scenarios;
    }
  }

  /** With no scenario the minimum stays +infinity and no margin is called. */
  lemma NoScenarioNoMargin(positions: seq<Position>, collaterals: seq<Collateral>)
    ensures Core0Margin(positions, collaterals, []) == 0.0
  {
  }

  /** More collateral never raises the margin call. */
  lemma {:induction false} MoreCollateralNeverRaisesMargin(positions: seq<Position>, collaterals: seq<Collateral>,
                                                          extra: Collateral, scenarios: seq<StressScenario>)
    requires extra.value >= 0.0
    ensures Core0Margin(positions, collaterals + [extra], scenarios) <= Core0Margin(positions, collaterals, scenarios)
  {
    var more := collaterals + [extra];
    assert CollateralValue(more, |more|) == CollateralValue(collaterals, |collaterals|) + extra.value by {
      CollateralPrefix(collaterals, extra, |collaterals|);
    }
    MinResultIsMinimum(positions, collaterals, scenarios, |scenarios|);
    MinResultIsMinimum(positions, more, scenarios, |scenarios|);
    if |scenarios| > 0 {
      var v := MinResult(positions, more, scenarios, |scenarios|).v;
      var k :| 0 <= k < |scenarios| && v == ScenarioResult(positions, more, scenarios[k]);
      assert v >= ScenarioResult(positions, collaterals, scenarios[k]);
    }
  }

  /** Appending a collateral leaves the sums over the old prefix alone. */
  lemma {:induction false} CollateralPrefix(collaterals: seq<Collateral>, extra: Collateral, n: nat)
    requires n <= |collaterals|
    ensures CollateralValue(collaterals + [extra], n) == CollateralValue(collaterals, n)
  {
    if n > 0 {
      CollateralPrefix(collaterals, extra, n - 1);
      assert (collaterals + [extra])[n - 1] == collaterals[n - 1];
    }
  }
}
