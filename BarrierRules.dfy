/** The barrier resolver of BarrierOption: which of the three barrier levels
    (limit B, knock-in Hin, knock-out Hout) are set decides which of seven
    pricing rules applies; the rules combine a direction-dependent breach test,
    gating by the limit barrier, a discounted rebate and fixed factors
    (0.95, 0.7, 0.5) around the vanilla Black-Scholes price.

    The rules here take the vanilla price and the discounted rebate as values;
    the class in BarrierOptions supplies them from its fields. */
module BarrierRules {
  import opened Elementary

  /** BarrierOption.BarrierType. */
  datatype BarrierType = Limit | KnockIn | KnockOut | KnockInKnockOut

  /** The three barrier levels of an option; 0 means "not set". */
  datatype Barriers = Barriers(limit: real, knockIn: real, knockOut: real)

  /** The seven legal combinations of set barriers. */
  datatype Pattern =
    | LimitOnly
    | KnockInOnly
    | KnockOutOnly
    | LimitAndKnockIn
    | LimitAndKnockOut
    | KnockInAndKnockOut
    | AllThree

  /** The IllegalStateException "Invalid barrier combination". */
  datatype PricingError = InvalidBarrierCombination

  predicate UsesLimit(p: Pattern) {
    p in {LimitOnly, LimitAndKnockIn, LimitAndKnockOut, AllThree}
  }

  predicate UsesKnockIn(p: Pattern) {
    p in {KnockInOnly, LimitAndKnockIn, KnockInAndKnockOut, AllThree}
  }

  predicate UsesKnockOut(p: Pattern) {
    p in {KnockOutOnly, LimitAndKnockOut, KnockInAndKnockOut, AllThree}
  }

  /** A barrier is set (> 0) exactly when the pattern uses it and is 0 otherwise. */
  predicate Level(used: bool, level: real) {
    if used then level > 0.0 else level == 0.0
  }

  /** Reference definition of "b has pattern p", independent of the if-chain. */
  predicate Fits(p: Pattern, b: Barriers) {
    Level(UsesLimit(p), b.limit) && Level(UsesKnockIn(p), b.knockIn) && Level(UsesKnockOut(p), b.knockOut)
  }

  /** The if-chain of calculatePrice. It selects pattern p exactly when b fits p,
      and it throws exactly when a barrier is negative or all three are 0. */
  function Classify(b: Barriers): (r: Result<Pattern, PricingError>)
    ensures forall p :: r == Success(p) <==> Fits(p, b)
    ensures r.Failure? <==>
              (b.limit < 0.0 || b.knockIn < 0.0 || b.knockOut < 0.0
               || (b.limit == 0.0 && b.knockIn == 0.0 && b.knockOut == 0.0))
  {
    var (l, i, o) := (b.limit, b.knockIn, b.knockOut);
    if l > 0.0 && i == 0.0 && o == 0.0 then Success(LimitOnly)
    else if l == 0.0 && i > 0.0 && o == 0.0 then Success(KnockInOnly)
    else if l == 0.0 && i == 0.0 && o > 0.0 then Success(KnockOutOnly)
    else if l > 0.0 && i > 0.0 && o == 0.0 then Success(LimitAndKnockIn)
    else if l > 0.0 && i == 0.0 && o > 0.0 then Success(LimitAndKnockOut)
    else if l == 0.0 && i > 0.0 && o > 0.0 then Success(KnockInAndKnockOut)
    else if l > 0.0 && i > 0.0 && o > 0.0 then Success(AllThree)
    else
      NoPatternFits(b);
      Failure(InvalidBarrierCombination)
  }

  /** Levels with a negative barrier, or with all three at 0, fit no pattern. */
  lemma NoPatternFits(b: Barriers)
    requires b.limit < 0.0 || b.knockIn < 0.0 || b.knockOut < 0.0
             || (b.limit == 0.0 && b.knockIn == 0.0 && b.knockOut == 0.0)
    ensures forall p :: !Fits(p, b)
  {
    forall p ensures !Fits(p, b) {
      match p
      case LimitOnly =>
      case KnockInOnly =>
      case KnockOutOnly =>
      case LimitAndKnockIn =>
      case LimitAndKnockOut =>
      case KnockInAndKnockOut =>
      case AllThree =>
    }
  }

  /** The seven guards are mutually exclusive: no levels fit two patterns. */
  lemma PatternsExclusive(p: Pattern, q: Pattern, b: Barriers)
    requires Fits(p, b) && Fits(q, b)
    ensures p == q
  {
    assert UsesLimit(p) == UsesLimit(q) && UsesKnockIn(p) == UsesKnockIn(q) && UsesKnockOut(p) == UsesKnockOut(q);
  }

  /** isBarrierBreached: with eta = 1 (up) the price must reach the barrier from
      below, with eta = -1 (down) from above; any other eta never breaches. */
  function Breached(eta: int, price: real, barrier: real): (r: bool)
    ensures eta != 1 && eta != -1 ==> !r
    ensures eta == 1 ==> (r <==> price >= barrier)
    ensures eta == -1 ==> (r <==> price <= barrier)
  {
    (eta == 1 && price >= barrier) || (eta == -1 && price <= barrier)
  }

  /** A breach stays a breach as the price moves further in the barrier's direction. */
  lemma BreachPersists(eta: int, price: real, further: real, barrier: real)
    requires Breached(eta, price, barrier)
    requires if eta == 1 then further >= price else further <= price
    ensures Breached(eta, further, barrier)
  {
  }

  /** What the rules read besides the barrier levels: the up/down indicator eta,
      the spot price, the vanilla price, rebate * e^{-rT}, and the two direction
      flags fixed by the constructor. */
  datatype Market = Market(eta: int, spot: real, vanilla: real, discountedRebate: real,
                           isUpBarrier: bool, isUpAndIn: bool)

  /** calculateSimpleBarrierPrice. */
  function SimpleBarrierPrice(k: Market, b: Barriers): real {
    if Breached(k.eta, k.spot, b.limit) then k.vanilla * 0.95 else 0.0
  }

  /** calculateKnockInPrice. */
  function KnockInPrice(k: Market, b: Barriers): real {
    if Breached(k.eta, k.spot, b.knockIn) then k.vanilla else k.discountedRebate
  }

  /** calculateKnockOutPrice. */
  function KnockOutPrice(k: Market, b: Barriers): real {
    if Breached(k.eta, k.spot, b.knockOut) then k.discountedRebate else k.vanilla
  }

  /** calculateSimpleKnockInPrice. */
  function SimpleKnockInPrice(k: Market, b: Barriers): real {
    if Breached(k.eta, k.spot, b.limit) then KnockInPrice(k, b) else 0.0
  }

  /** calculateSimpleKnockOutPrice. */
  function SimpleKnockOutPrice(k: Market, b: Barriers): real {
    if Breached(k.eta, k.spot, b.limit) then KnockOutPrice(k, b) else 0.0
  }

  /** calculateKnockInKnockOutPrice: the knock-out barrier is checked first; a
      knock-in breach defers to the knock-out rule; otherwise the knock-in rule
      scaled by 0.7 or 0.5 depending on the two direction flags. */
  function KnockInKnockOutPrice(k: Market, b: Barriers): real {
    if Breached(k.eta, k.spot, b.knockOut) then k.discountedRebate
    else if Breached(k.eta, k.spot, b.knockIn) then KnockOutPrice(k, b)
    else if k.isUpBarrier == k.isUpAndIn then KnockInPrice(k, b) * 0.7
    else KnockInPrice(k, b) * 0.5
  }

  /** calculateSimpleKnockInKnockOutPrice. */
  function AllThreePrice(k: Market, b: Barriers): real {
    if Breached(k.eta, k.spot, b.limit) then KnockInKnockOutPrice(k, b) else 0.0
  }

  /** The rule calculatePrice dispatches to for each pattern. */
  function RulePrice(p: Pattern, k: Market, b: Barriers): real {
    match p
    case LimitOnly => SimpleBarrierPrice(k, b)
    case KnockInOnly => KnockInPrice(k, b)
    case KnockOutOnly => KnockOutPrice(k, b)
    case LimitAndKnockIn => SimpleKnockInPrice(k, b)
    case LimitAndKnockOut => SimpleKnockOutPrice(k, b)
    case KnockInAndKnockOut => KnockInKnockOutPrice(k, b)
    case AllThree => AllThreePrice(k, b)
  }

  /** calculatePrice: classify the levels, then apply that pattern's rule. */
  function Price(k: Market, b: Barriers): (r: Result<real, PricingError>)
    ensures r.Failure? <==> Classify(b).Failure?
    ensures forall p :: Fits(p, b) ==> r == Success(RulePrice(p, k, b))
  {
    match Classify(b)
    case Success(p) => Success(RulePrice(p, k, b))
    case Failure(e) => Failure(e)
  }

  /** The knock-in+knock-out rule in closed form: its one call into the
      knock-out rule always lands on the vanilla price, and its fall-through
      always lands on the discounted rebate. */
  lemma KnockInKnockOutClosedForm(k: Market, b: Barriers)
    ensures KnockInKnockOutPrice(k, b) ==
              if Breached(k.eta, k.spot, b.knockOut) then k.discountedRebate
              else if Breached(k.eta, k.spot, b.knockIn) then k.vanilla
              else if k.isUpBarrier == k.isUpAndIn then k.discountedRebate * 0.7
              else k.discountedRebate * 0.5
  {
  }

  /** In-out parity of the single-barrier rules: at a common level H, the
      knock-in and the knock-out prices add up to vanilla plus rebate. */
  lemma KnockInOutParity(k: Market, b: Barriers)
    requires b.knockIn == b.knockOut
    ensures KnockInPrice(k, b) + KnockOutPrice(k, b) == k.vanilla + k.discountedRebate
  {
  }

  /** Gating by the limit barrier: when the limit barrier is set together with
      others, the price is 0 until the limit is breached and then exactly the
      price of the same option without the limit barrier. */
  lemma LimitGate(k: Market, b: Barriers)
    requires b.limit > 0.0 && b.knockIn >= 0.0 && b.knockOut >= 0.0
    requires b.knockIn > 0.0 || b.knockOut > 0.0
    ensures Price(k, b) ==
              if Breached(k.eta, k.spot, b.limit) then Price(k, b.(limit := 0.0)) else Success(0.0)
  {
    var ungated := b.(limit := 0.0);
    if b.knockIn > 0.0 && b.knockOut > 0.0 {
      assert Fits(AllThree, b) && Fits(KnockInAndKnockOut, ungated);
    } else if b.knockIn > 0.0 {
      assert Fits(LimitAndKnockIn, b) && Fits(KnockInOnly, ungated);
    } else {
      assert Fits(LimitAndKnockOut, b) && Fits(KnockOutOnly, ungated);
    }
  }

  /** The limit barrier alone pays 95% of the vanilla price once breached. */
  lemma LimitOnlyPrice(k: Market, b: Barriers)
    requires b.limit > 0.0 && b.knockIn == 0.0 && b.knockOut == 0.0
    ensures Price(k, b) == Success(if Breached(k.eta, k.spot, b.limit) then 0.95 * k.vanilla else 0.0)
  {
    assert Fits(LimitOnly, b);
  }

  /** With nonnegative vanilla price and rebate, every rule's price lies between
      0 and the larger of the two. */
  lemma PriceBounds(k: Market, b: Barriers)
    requires k.vanilla >= 0.0 && k.discountedRebate >= 0.0
    requires Price(k, b).Success?
    ensures 0.0 <= Price(k, b).value <= Max(k.vanilla, k.discountedRebate)
  {
    var p := Classify(b).value;
    assert Fits(p, b);
    KnockInKnockOutClosedForm(k, b);
  }

  /** The levels the single-barrier constructor stores: the barrier in the field
      the type names, 0 elsewhere, except that knock-in+knock-out sets the
      knock-in level to the barrier and the knock-out level 10% above it. */
  function SingleBarrierLevels(barrierType: BarrierType, barrier: real): Barriers {
    match barrierType
    case Limit => Barriers(barrier, 0.0, 0.0)
    case KnockIn => Barriers(0.0, barrier, 0.0)
    case KnockOut => Barriers(0.0, 0.0, barrier)
    case KnockInKnockOut => Barriers(0.0, barrier, barrier * 1.1)
  }

  /** The pattern each single-barrier type is meant to produce. */
  function IntendedPattern(barrierType: BarrierType): Pattern {
    match barrierType
    case Limit => LimitOnly
    case KnockIn => KnockInOnly
    case KnockOut => KnockOutOnly
    case KnockInKnockOut => KnockInAndKnockOut
  }

  /** A single-barrier option prices by the rule its type names exactly when its
      barrier is positive; a zero or negative barrier makes every price throw. */
  lemma SingleBarrierClassifies(barrierType: BarrierType, barrier: real)
    ensures Classify(SingleBarrierLevels(barrierType, barrier)) ==
              if barrier > 0.0 then Success(IntendedPattern(barrierType)) else Failure(InvalidBarrierCombination)
  {
    var b := SingleBarrierLevels(barrierType, barrier);
    if barrier > 0.0 {
      assert Fits(IntendedPattern(barrierType), b);
    }
  }
}
