/** VolatilityCalculator: historical volatility from log returns, and the
    simplified GARCH(p, q) recursion. Every helper is a loop over a Java
    `double[]`, modelled as a Dafny array; the price list is a sequence. */
module Volatility {
  import opened Elementary

  /** The exceptions the estimators can throw. */
  datatype VolatilityError =
    | InsufficientPriceData  // IllegalArgumentException of calculateHistoricalVolatility
    | NegativeArraySize      // an array created with a negative length
    | IndexOutOfBounds       // volatilities[0] on an empty array

  /** Log returns take the logarithm of the ratio of consecutive prices, so
      each ratio must be a positive number: no price is zero and no two
      neighbours differ in sign, that is, all prices share one strict sign
      (a list of negative prices qualifies). */
  predicate ReturnsDefined(prices: seq<real>) {
    || (forall i :: 0 <= i < |prices| ==> prices[i] > 0.0)
    || (forall i :: 0 <= i < |prices| ==> prices[i] < 0.0)
  }

  /** Two prices of one strict sign have a positive ratio. */
  lemma RatioPositive(prices: seq<real>, i: nat)
    requires ReturnsDefined(prices) && i + 1 < |prices|
    ensures prices[i] != 0.0 && prices[i + 1] / prices[i] > 0.0
  {
    var a, b := prices[i], prices[i + 1];
    if a < 0.0 {
      assert b < 0.0;
      assert b / a == (-b) / (-a);
    }
  }

  /** Math.sqrt: a negative argument gives NaN. */
  function SquareRoot(m: Transcendentals, x: real): (r: Double)
    ensures r.NotFinite? <==> x < 0.0
  {
    if x < 0.0 then NotFinite else Finite(m.sqrt(x))
  }

  /** The first n log returns ln(p_i / p_{i-1}), in order. */
  function ReturnsOf(m: Transcendentals, prices: seq<real>, n: nat): (r: seq<real>)
    requires ReturnsDefined(prices) && n < |prices|
    ensures |r| == n
  {
    if n == 0 then [] else ReturnsOf(m, prices, n - 1) + [m.ln(prices[n] / prices[n - 1])]
  }

  /** Entry i of the returns is the log return from price i to price i + 1. */
  lemma {:induction false} ReturnsOfEntries(m: Transcendentals, prices: seq<real>, n: nat)
    requires ReturnsDefined(prices) && n < |prices|
    ensures forall i :: 0 <= i < n ==> ReturnsOf(m, prices, n)[i] == m.ln(prices[i + 1] / prices[i])
  {
    if n > 0 {
      ReturnsOfEntries(m, prices, n - 1);
    }
  }

  /** Entry i alone, for proofs that must not see a quantifier over entries. */
  lemma {:induction false} ReturnsOfEntry(m: Transcendentals, prices: seq<real>, n: nat, i: nat)
    requires ReturnsDefined(prices) && n < |prices| && i < n
    ensures ReturnsOf(m, prices, n)[i] == m.ln(prices[i + 1] / prices[i])
  {
    if i < n - 1 {
      ReturnsOfEntry(m, prices, n - 1, i);
    }
  }

  /** One step of the reconstruction: a price grown by the exponential of the
      log return to the next price is that next price. */
  lemma GrowthByLogReturn(m: Transcendentals, a: real, b: real, r: real)
    requires LogInvertsExp(m) && a != 0.0 && b / a > 0.0 && r == m.ln(b / a)
    ensures a * m.exp(r) == b
  {
    assert m.exp(m.ln(b / a)) == b / a;
    DivCancel(b, a);
  }

  /** The log returns give the prices back: each price is the one before it
      grown by the exponential of its return. */
  lemma ReturnsReconstructPrices(m: Transcendentals, prices: seq<real>, i: nat)
    requires LogInvertsExp(m) && ReturnsDefined(prices) && i + 1 < |prices|
    ensures prices[i] * m.exp(ReturnsOf(m, prices, |prices| - 1)[i]) == prices[i + 1]
  {
    ReturnsOfEntry(m, prices, |prices| - 1, i);
    RatioPositive(prices, i);
    GrowthByLogReturn(m, prices[i], prices[i + 1], ReturnsOf(m, prices, |prices| - 1)[i]);
  }

  /** calculateReturns, and the same loop inside calculateHistoricalVolatility;
      an empty price list has no returns array (its length would be -1). */
  method CalculateReturns(m: Transcendentals, prices: seq<real>) returns (logReturns: array<real>)
    requires ReturnsDefined(prices) && |prices| >= 1
    ensures fresh(logReturns)
    ensures logReturns[..] == ReturnsOf(m, prices, |prices| - 1)
  {
    logReturns := new real[|prices| - 1];
    for i := 1 to |prices|
      invariant logReturns[..i - 1] == ReturnsOf(m, prices, i - 1)
    {
      logReturns[i - 1] := m.ln(prices[i] / prices[i - 1]);
      assert logReturns[..i] == logReturns[..i - 1] + [logReturns[i - 1]];
    }
    assert logReturns[..] == logReturns[..|prices| - 1];
  }

  /** The sum of the first n values. */
  function Sum(values: seq<real>, n: nat): real
    requires n <= |values|
  {
    if n == 0 then 0.0 else Sum(values, n - 1) + values[n - 1]
  }

  /** The mean; 0 / 0 is NaN for no values. */
  function MeanOf(values: seq<real>): Double {
    if |values| == 0 then NotFinite else Finite(Sum(values, |values|) / |values| as real)
  }

  /** calculateMean. */
  method CalculateMean(values: array<real>) returns (mean: Double)
    ensures mean == MeanOf(values[..])
  {
    var sum := 0.0;
    for i := 0 to values.Length
      invariant sum == Sum(values[..], i)
    {
      sum := sum + values[i];
    }
    if values.Length == 0 {
      mean := NotFinite;
    } else {
      mean := Finite(sum / values.Length as real);
    }
  }

  /** The sum of the first n deviations from c. */
  function Deviations(values: seq<real>, c: real, n: nat): real
    requires n <= |values|
  {
    if n == 0 then 0.0 else Deviations(values, c, n - 1) + (values[n - 1] - c)
  }

  lemma {:induction false} DeviationsSum(values: seq<real>, c: real, n: nat)
    requires n <= |values|
    ensures Deviations(values, c, n) == Sum(values, n) - n as real * c
  {
    if n > 0 {
      DeviationsSum(values, c, n - 1);
    }
  }

  /** The mean is the centre of the values: their deviations from it cancel. */
  lemma DeviationsFromMeanCancel(values: seq<real>)
    requires |values| >= 1
    ensures Deviations(values, MeanOf(values).value, |values|) == 0.0
  {
    var n := |values| as real;
    DeviationsSum(values, MeanOf(values).value, |values|);
    DivCancel(Sum(values, |values|), n);
  }

  /** The sum of the first n squared deviations from the mean. */
  function SquaredDeviations(values: seq<real>, mean: real, n: nat): real
    requires n <= |values|
  {
    if n == 0 then 0.0
    else SquaredDeviations(values, mean, n - 1) + (values[n - 1] - mean) * (values[n - 1] - mean)
  }

  lemma {:induction false} SquaredDeviationsNonnegative(values: seq<real>, mean: real, n: nat)
    requires n <= |values|
    ensures SquaredDeviations(values, mean, n) >= 0.0
  {
    if n > 0 {
      SquaredDeviationsNonnegative(values, mean, n - 1);
      var d := values[n - 1] - mean;
      assert d * d >= 0.0;
    }
  }

  /** The sample variance; the divisor length - 1 is 0 for a single value,
      and x / 0 is NaN or infinite. */
  function VarianceOf(values: seq<real>, mean: real): Double {
    if |values| - 1 == 0 then NotFinite
    else Finite(SquaredDeviations(values, mean, |values|) / (|values| - 1) as real)
  }

  /** With at least two values the variance is a finite, non-negative number,
      whatever the centre. */
  lemma VarianceNonnegative(values: seq<real>, mean: real)
    requires |values| >= 2
    ensures VarianceOf(values, mean).Finite? && VarianceOf(values, mean).value >= 0.0
  {
    SquaredDeviationsNonnegative(values, mean, |values|);
  }

  /** calculateVariance with the mean as the double the caller passes: a NaN
      mean makes the sum of squares NaN as soon as the loop reads one value,
      but with no values it is never read and the result is 0 / -1. */
  function VarianceAbout(values: seq<real>, mean: Double): Double {
    match mean
    case Finite(c) => VarianceOf(values, c)
    case NotFinite => if |values| == 0 then VarianceOf(values, 0.0) else NotFinite
  }

  /** calculateVariance. */
  method CalculateVariance(values: array<real>, mean: Double) returns (variance: Double)
    ensures variance == VarianceAbout(values[..], mean)
  {
    var c := if mean.Finite? then mean.value else 0.0;
    var sumSquaredDiff := 0.0;
    for i := 0 to values.Length
      invariant sumSquaredDiff == SquaredDeviations(values[..], c, i)
    {
      sumSquaredDiff := sumSquaredDiff + (values[i] - c) * (values[i] - c);
    }
    if mean.NotFinite? && values.Length > 0 {
      variance := NotFinite;
    } else if values.Length - 1 == 0 {
      variance := NotFinite;
    } else {
      variance := Finite(sumSquaredDiff / (values.Length - 1) as real);
    }
  }

  /** The standard deviation: the square root of the variance about the mean;
      NaN propagates. */
  function StandardDeviationOf(m: Transcendentals, values: seq<real>): Double {
    match VarianceAbout(values, MeanOf(values))
    case NotFinite => NotFinite
    case Finite(variance) => SquareRoot(m, variance)
  }

  /** Only a single value gives a NaN standard deviation (its variance divides
      by 0); with none the NaN mean is never read and the result is the root
      of 0 / -1; otherwise it is a non-negative number. */
  lemma StandardDeviationFinite(m: Transcendentals, values: seq<real>)
    requires Lawful(m)
    ensures |values| != 1 <==> StandardDeviationOf(m, values).Finite?
    ensures |values| != 1 ==> StandardDeviationOf(m, values).value >= 0.0
  {
    if |values| >= 2 {
      VarianceNonnegative(values, MeanOf(values).value);
    }
  }

  /** calculateStandardDeviation. */
  method CalculateStandardDeviation(m: Transcendentals, values: array<real>) returns (sd: Double)
    ensures sd == StandardDeviationOf(m, values[..])
  {
    var mean := CalculateMean(values);
    var variance := CalculateVariance(values, mean);
    if variance.NotFinite? {
      return NotFinite;
    }
    sd := SquareRoot(m, variance.value);
  }

  /** The variance over one period scaled to `periods` periods. */
  function Annualized(variance: real, periods: int): real {
    variance * periods as real
  }

  /** The historical volatility: the square root of the variance of the log
      returns times the number of periods. */
  function HistoricalVolatilityOf(m: Transcendentals, prices: seq<real>, periods: int): Result<Double, VolatilityError>
    requires ReturnsDefined(prices)
  {
    if |prices| < 2 then Failure(InsufficientPriceData)
    else
      var logReturns := ReturnsOf(m, prices, |prices| - 1);
      match VarianceAbout(logReturns, MeanOf(logReturns))
      case NotFinite => Success(NotFinite)
      case Finite(variance) => Success(SquareRoot(m, Annualized(variance, periods)))
  }

  /** calculateHistoricalVolatility. */
  method CalculateHistoricalVolatility(m: Transcendentals, prices: seq<real>, periods: int)
    returns (r: Result<Double, VolatilityError>)
    requires ReturnsDefined(prices)
    ensures r == HistoricalVolatilityOf(m, prices, periods)
  {
    if |prices| < 2 {
      return Failure(InsufficientPriceData);
    }
    var logReturns := CalculateReturns(m, prices);
    var meanReturn := CalculateMean(logReturns);
    var variance := CalculateVariance(logReturns, meanReturn);
    if variance.NotFinite? {
      return Success(NotFinite);
    }
    r := Success(SquareRoot(m, Annualized(variance.value, periods)));
  }

  /** The cases of the historical volatility: fewer than two prices throw; two
      prices give a single return and a NaN variance; with more, the result is
      a non-negative number unless a negative number of periods turns a
      positive variance negative under the square root. */
  lemma HistoricalVolatilityCases(m: Transcendentals, prices: seq<real>, periods: int)
    requires Lawful(m) && ReturnsDefined(prices)
    ensures HistoricalVolatilityOf(m, prices, periods).Failure? <==> |prices| < 2
    ensures |prices| == 2 ==> HistoricalVolatilityOf(m, prices, periods) == Success(NotFinite)
    ensures |prices| > 2 && periods >= 0 ==>
      var r := HistoricalVolatilityOf(m, prices, periods);
      r.Success? && r.value.Finite? && r.value.value >= 0.0
  {
    if |prices| > 2 {
      var logReturns := ReturnsOf(m, prices, |prices| - 1);
      var mean := MeanOf(logReturns).value;
      VarianceNonnegative(logReturns, mean);
      var variance := VarianceOf(logReturns, mean).value;
      if periods >= 0 {
        assert Annualized(variance, periods) >= 0.0;
      }
    }
  }

  /** The GARCH constant term omega. */
  const Omega: real := 0.1

  /** Each ARCH weight: 0.1 / p. */
  function Alpha(p: nat): real
    requires p > 0
  {
    0.1 / p as real
  }

  /** Each GARCH weight: 0.8 / q. */
  function Beta(q: nat): real
    requires q > 0
  {
    0.8 / q as real
  }

  /** The first i ARCH terms at time t; a lag reaching before the first return
      is skipped. */
  function ArchTerms(logReturns: seq<real>, t: nat, p: nat, i: nat): real
    requires i <= p && t <= |logReturns|
  {
    if i == 0 then 0.0
    else ArchTerms(logReturns, t, p, i - 1)
         + (if t - i >= 0 then Alpha(p) * (logReturns[t - i] * logReturns[t - i]) else 0.0)
  }

  /** The first j GARCH terms at time t, over the volatilities so far. */
  function GarchTerms(volatilities: seq<real>, t: nat, q: nat, j: nat): real
    requires j <= q && t <= |volatilities|
  {
    if j == 0 then 0.0
    else GarchTerms(volatilities, t, q, j - 1)
         + (if t - j >= 0 then Beta(q) * volatilities[t - j] else 0.0)
  }

  /** The conditional variance at time t. */
  function ConditionalVariance(logReturns: seq<real>, volatilities: seq<real>, t: nat, p: nat, q: nat): real
    requires t <= |logReturns| && t <= |volatilities|
  {
    Omega + ArchTerms(logReturns, t, p, p) + GarchTerms(volatilities, t, q, q)
  }

  /** The first n volatilities: the initial one, then the square root of each
      conditional variance. */
  function GarchPath(m: Transcendentals, logReturns: seq<real>, initial: real, p: nat, q: nat, n: nat): (path: seq<real>)
    requires 1 <= n <= |logReturns|
    ensures |path| == n
  {
    if n == 1 then [initial]
    else
      var previous := GarchPath(m, logReturns, initial, p, q, n - 1);
      previous + [m.sqrt(ConditionalVariance(logReturns, previous, n - 1, p, q))]
  }

  /** calculateGarchVolatility as a value: the errors come in the order the
      arrays are created and indexed; a single return has a NaN standard
      deviation, which is then also the last volatility. */
  function GarchVolatilityOf(m: Transcendentals, prices: seq<real>, p: int, q: int): Result<Double, VolatilityError>
    requires ReturnsDefined(prices)
  {
    if |prices| == 0 then Failure(NegativeArraySize)
    else if |prices| == 1 then Failure(IndexOutOfBounds)
    else if p < 0 || q < 0 then Failure(NegativeArraySize)
    else
      var logReturns := ReturnsOf(m, prices, |prices| - 1);
      match StandardDeviationOf(m, logReturns)
      case NotFinite => Success(NotFinite)
      case Finite(initial) => Success(Finite(GarchPath(m, logReturns, initial, p, q, |logReturns|)[|logReturns| - 1]))
  }

  /** The inner loops of one GARCH step: the conditional variance at time t. */
  method ConditionalVarianceAt(logReturns: array<real>, volatilities: array<real>, alpha: array<real>, beta: array<real>,
                               t: nat, ghost p: nat, ghost q: nat) returns (conditionalVariance: real)
    requires t < logReturns.Length && t <= volatilities.Length
    requires alpha.Length == p && beta.Length == q
    requires forall i :: 0 <= i < p ==> alpha[i] == Alpha(p)
    requires forall j :: 0 <= j < q ==> beta[j] == Beta(q)
    ensures conditionalVariance == ConditionalVariance(logReturns[..], volatilities[..t], t, p, q)
  {
    conditionalVariance := Omega;
    for i := 0 to alpha.Length
      invariant conditionalVariance == Omega + ArchTerms(logReturns[..], t, p, i)
    {
      if t - i - 1 >= 0 {
        conditionalVariance := conditionalVariance + alpha[i] * (logReturns[t - i - 1] * logReturns[t - i - 1]);
      }
    }
    for j := 0 to beta.Length
      invariant conditionalVariance == Omega + ArchTerms(logReturns[..], t, p, p) + GarchTerms(volatilities[..t], t, q, j)
    {
      if t - j - 1 >= 0 {
        conditionalVariance := conditionalVariance + beta[j] * volatilities[t - j - 1];
      }
    }
  }

  /** A new array of n entries, each set to `value` by a for-loop, as the
      source fills the ARCH and GARCH weights. */
  method Filled(n: nat, value: real) returns (a: array<real>)
    ensures fresh(a) && a.Length == n
    ensures forall k :: 0 <= k < n ==> a[k] == value
  {
    a := new real[n];
    for i := 0 to n
      invariant forall k :: 0 <= k < i ==> a[k] == value
    {
      a[i] := value;
    }
  }

  /** The iterative estimation loop of calculateGarchVolatility: from the
      initial volatility in entry 0, each later entry becomes the square root
      of its conditional variance. */
  method EstimateVolatilities(m: Transcendentals, logReturns: array<real>, volatilities: array<real>,
                              alpha: array<real>, beta: array<real>, ghost p: nat, ghost q: nat)
    requires volatilities.Length == logReturns.Length >= 1
    requires volatilities != logReturns && volatilities != alpha && volatilities != beta
    requires alpha.Length == p && beta.Length == q
    requires forall i :: 0 <= i < p ==> alpha[i] == Alpha(p)
    requires forall j :: 0 <= j < q ==> beta[j] == Beta(q)
    modifies volatilities
    ensures volatilities[..] == GarchPath(m, logReturns[..], old(volatilities[0]), p, q, logReturns.Length)
  {
    ghost var initial := volatilities[0];
    for t := 1 to logReturns.Length
      invariant volatilities[..t] == GarchPath(m, logReturns[..], initial, p, q, t)
    {
      var conditionalVariance := ConditionalVarianceAt(logReturns, volatilities, alpha, beta, t, p, q);
      volatilities[t] := m.sqrt(conditionalVariance);
      assert volatilities[..t + 1] == volatilities[..t] + [volatilities[t]];
    }
    assert volatilities[..] == volatilities[..logReturns.Length];
  }

  /** calculateGarchVolatility. */
  method CalculateGarchVolatility(m: Transcendentals, prices: seq<real>, p: int, q: int)
    returns (r: Result<Double, VolatilityError>)
    requires ReturnsDefined(prices)
    ensures r == GarchVolatilityOf(m, prices, p, q)
  {
    if |prices| == 0 {
      return Failure(NegativeArraySize);
    }
    var logReturns := CalculateReturns(m, prices);
    var volatilities := new real[logReturns.Length];
    var initial := CalculateStandardDeviation(m, logReturns);
    if volatilities.Length == 0 {
      return Failure(IndexOutOfBounds);
    }
    if p < 0 || q < 0 {
      return Failure(NegativeArraySize);
    }
    if initial.NotFinite? {
      // Only a single return gets here: the GARCH loop is empty and the
      // result is volatilities[0], which is NaN.
      return Success(NotFinite);
    }
    volatilities[0] := initial.value;

    var alpha := Filled(p, if p == 0 then 0.0 else Alpha(p));
    var beta := Filled(q, if q == 0 then 0.0 else Beta(q));

    EstimateVolatilities(m, logReturns, volatilities, alpha, beta, p, q);
    r := Success(Finite(volatilities[volatilities.Length - 1]));
  }

  lemma {:induction false} ArchTermsNonnegative(logReturns: seq<real>, t: nat, p: nat, i: nat)
    requires i <= p && t <= |logReturns|
    ensures ArchTerms(logReturns, t, p, i) >= 0.0
  {
    if i > 0 {
      ArchTermsNonnegative(logReturns, t, p, i - 1);
      if t - i >= 0 {
        var x := logReturns[t - i];
        assert x * x >= 0.0;
        assert Alpha(p) * (x * x) >= 0.0;
      }
    }
  }

  lemma {:induction false} GarchTermsNonnegative(volatilities: seq<real>, t: nat, q: nat, j: nat)
    requires j <= q && t <= |volatilities|
    requires forall k :: 0 <= k < t ==> volatilities[k] >= 0.0
    ensures GarchTerms(volatilities, t, q, j) >= 0.0
  {
    if j > 0 {
      GarchTermsNonnegative(volatilities, t, q, j - 1);
    }
  }

  /** Every volatility after the first is the square root of a conditional
      variance of at least omega, and with a non-negative start all of them
      are non-negative. */
  lemma {:induction false} GarchPathFacts(m: Transcendentals, logReturns: seq<real>, initial: real, p: nat, q: nat, n: nat)
    requires Lawful(m) && initial >= 0.0 && 1 <= n <= |logReturns|
    ensures var path := GarchPath(m, logReturns, initial, p, q, n);
      && path[0] == initial
      && (forall t :: 0 <= t < n ==> path[t] >= 0.0)
      && (forall t {:trigger path[t]} :: 1 <= t < n ==>
            ConditionalVariance(logReturns, path[..t], t, p, q) >= Omega
            && path[t] == m.sqrt(ConditionalVariance(logReturns, path[..t], t, p, q)))
  {
    if n > 1 {
      GarchPathFacts(m, logReturns, initial, p, q, n - 1);
      var previous := GarchPath(m, logReturns, initial, p, q, n - 1);
      var path := GarchPath(m, logReturns, initial, p, q, n);
      assert path == previous + [path[n - 1]];
      ArchTermsNonnegative(logReturns, n - 1, p, p);
      GarchTermsNonnegative(previous, n - 1, q, q);
      var c := ConditionalVariance(logReturns, previous, n - 1, p, q);
      assert c >= Omega;
      assert path[n - 1] == m.sqrt(c);
      assert path[..n - 1] == previous;
      forall t | 1 <= t < n
        ensures ConditionalVariance(logReturns, path[..t], t, p, q) >= Omega
        ensures path[t] == m.sqrt(ConditionalVariance(logReturns, path[..t], t, p, q))
      {
        if t < n - 1 {
          assert path[..t] == previous[..t];
          assert path[t] == previous[t];
        }
      }
    }
  }

  /** The GARCH estimate: the errors of the source, and, from three prices on
      with non-negative orders, a finite non-negative volatility that is the
      square root of a conditional variance of at least omega. */
  lemma GarchVolatilityFacts(m: Transcendentals, prices: seq<real>, p: int, q: int)
    requires Lawful(m) && ReturnsDefined(prices)
    ensures GarchVolatilityOf(m, prices, p, q).Failure? <==> |prices| < 2 || p < 0 || q < 0
    ensures |prices| == 2 && p >= 0 && q >= 0 ==> GarchVolatilityOf(m, prices, p, q) == Success(NotFinite)
    ensures |prices| >= 3 && p >= 0 && q >= 0 ==>
      var r := GarchVolatilityOf(m, prices, p, q);
      && r.Success? && r.value.Finite? && r.value.value >= 0.0
      && exists c :: c >= Omega && r.value.value == m.sqrt(c)
  {
    if |prices| >= 2 && p >= 0 && q >= 0 {
      var logReturns := ReturnsOf(m, prices, |prices| - 1);
      StandardDeviationFinite(m, logReturns);
      if |prices| >= 3 {
        var initial := StandardDeviationOf(m, logReturns).value;
        var n := |logReturns|;
        GarchPathFacts(m, logReturns, initial, p, q, n);
        var path := GarchPath(m, logReturns, initial, p, q, n);
        var c := ConditionalVariance(logReturns, path[..n - 1], n - 1, p, q);
        assert path[n - 1] == m.sqrt(c);
      }
    }
  }
}
