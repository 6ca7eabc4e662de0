/** Reverse stress: how severe the declared shock combination must be before the loss reaches its target. */
module ReverseStress {
  import opened Prelude

  datatype StressConfig = StressConfig(
    targetFraction: real, shocks: map<string, real>, slippageAndImpact: real, fundingAndBorrow: real,
    collateralAndFx: real, venueDefault: real, feedback: real, recovery: real)
  {
    predicate Valid() {
      && 0.0 < targetFraction <= 1.0 && slippageAndImpact >= 0.0 && fundingAndBorrow >= 0.0 && collateralAndFx >= 0.0
      && venueDefault >= 0.0 && feedback >= 1.0 && 0.0 <= recovery <= 1.0
    }
  }

  datatype Holding = Holding(name: string, weight: real)

  datatype StressResult = StressResult(severity: real, reached: bool, lossAtSeverity: real, maximumLoss: real)

  predicate Covers(c: StressConfig, book: seq<Holding>) {
    c.shocks.Keys == set h | h in book :: h.name
  }

  /** One strategy's loss at full severity: what its shock costs, and never a gain. */
  function FullLoss(c: StressConfig, h: Holding, equity: real): real
    requires h.name in c.shocks
  {
    Max(0.0, -Notional(Notional(equity, h.weight), c.shocks[h.name]))
  }

  function StrategyLosses(c: StressConfig, book: seq<Holding>, equity: real, severity: real): real
    requires forall h | h in book :: h.name in c.shocks
  {
    if |book| == 0 then 0.0
    else
      assert book[|book| - 1] in book;
      StrategyLosses(c, book[..|book| - 1], equity, severity) + Notional(FullLoss(c, book[|book| - 1], equity), severity)
  }

  /** Losses feed back on themselves as severity grows. */
  function Feedback(c: StressConfig, severity: real): real {
    1.0 + Notional(c.feedback - 1.0, severity)
  }

  function FixedLoss(c: StressConfig): real {
    c.slippageAndImpact + c.fundingAndBorrow + c.collateralAndFx + Notional(c.venueDefault, 1.0 - c.recovery)
  }

  function Loss(c: StressConfig, book: seq<Holding>, equity: real, severity: real): real
    requires forall h | h in book :: h.name in c.shocks
  {
    Notional(StrategyLosses(c, book, equity, severity), Feedback(c, severity)) + Notional(severity, FixedLoss(c))
  }

  // ---- The loss never falls as severity grows -------------------------------------------------

  lemma ProductsGrow(a: real, b: real, u: real, v: real)
    requires 0.0 <= a <= b && 0.0 <= u <= v
    ensures 0.0 <= Notional(a, u) <= Notional(b, v)
  {
    assert a * u <= b * u;
    assert b * u <= b * v;
  }

  lemma {:induction false} StrategyLossesGrow(c: StressConfig, book: seq<Holding>, equity: real, low: real, high: real)
    requires (forall h | h in book :: h.name in c.shocks) && 0.0 <= low <= high
    ensures 0.0 <= StrategyLosses(c, book, equity, low) <= StrategyLosses(c, book, equity, high)
  {
    hide Notional;
    if |book| > 0 {
      var last := book[|book| - 1];
      assert last in book;
      StrategyLossesGrow(c, book[..|book| - 1], equity, low, high);
      ProductsGrow(FullLoss(c, last, equity), FullLoss(c, last, equity), low, high);
    }
  }

  lemma FixedLossNonnegative(c: StressConfig)
    requires c.Valid()
    ensures FixedLoss(c) >= 0.0
  {
    ProductsGrow(0.0, c.venueDefault, 0.0, 1.0 - c.recovery);
  }

  /** Loss is monotone in severity. */
  lemma LossGrows(c: StressConfig, book: seq<Holding>, equity: real, low: real, high: real)
    requires c.Valid() && (forall h | h in book :: h.name in c.shocks) && 0.0 <= low <= high
    ensures Loss(c, book, equity, low) <= Loss(c, book, equity, high)
  {
    hide Notional, FixedLoss, StrategyLosses;
    StrategyLossesGrow(c, book, equity, low, high);
    FixedLossNonnegative(c);
    ProductsGrow(c.feedback - 1.0, c.feedback - 1.0, low, high);
    ProductsGrow(StrategyLosses(c, book, equity, low), StrategyLosses(c, book, equity, high), Feedback(c, low), Feedback(c, high));
    ProductsGrow(low, high, FixedLoss(c), FixedLoss(c));
  }

  lemma {:induction false} NoShockNoLosses(c: StressConfig, book: seq<Holding>, equity: real)
    requires forall h | h in book :: h.name in c.shocks
    ensures StrategyLosses(c, book, equity, 0.0) == 0.0
  {
    if |book| > 0 {
      assert book[|book| - 1] in book;
      NoShockNoLosses(c, book[..|book| - 1], equity);
    }
  }

  lemma NoShockNoLoss(c: StressConfig, book: seq<Holding>, equity: real)
    requires forall h | h in book :: h.name in c.shocks
    ensures Loss(c, book, equity, 0.0) == 0.0
  {
    NoShockNoLosses(c, book, equity);
  }

  // ---- Bisection ------------------------------------------------------------------------------

  const STEPS: nat := 80

  /** The width left after `n` halvings of the unit interval. */
  function Width(n: nat): real {
    if n == 0 then 1.0 else Width(n - 1) / 2.0
  }

  function Target(c: StressConfig, equity: real): real {
    Notional(c.targetFraction, equity)
  }

  /** The smallest breaching severity to within one part in two to the eightieth: the returned severity breaches and
      nothing at or below it by that width does; or no severity in the declared range breaches at all. */
  method ReverseStressSearch(c: StressConfig, book: seq<Holding>, equity: real) returns (r: Option<StressResult>)
    requires c.Valid() && equity > 0.0
    ensures r.None? <==> !Covers(c, book)
    ensures r.Some? ==> forall h | h in book :: h.name in c.shocks
    ensures r.Some? ==> 0.0 < r.value.severity <= 1.0
    ensures r.Some? ==> r.value.lossAtSeverity == Loss(c, book, equity, r.value.severity)
    ensures r.Some? ==> r.value.maximumLoss == Loss(c, book, equity, 1.0)
    ensures r.Some? && r.value.reached ==> Loss(c, book, equity, r.value.severity) >= Target(c, equity)
    ensures r.Some? && r.value.reached ==> forall s | 0.0 <= s <= r.value.severity - Width(STEPS) ::
      Loss(c, book, equity, s) < Target(c, equity)
    ensures r.Some? && !r.value.reached ==> forall s | 0.0 <= s <= 1.0 :: Loss(c, book, equity, s) < Target(c, equity)
    ensures r.Some? ==> (r.value.reached <==> exists s | 0.0 <= s <= 1.0 :: Loss(c, book, equity, s) >= Target(c, equity))
  {
    hide Loss, Notional;
    if !Covers(c, book) { return None; }
    forall h | h in book ensures h.name in c.shocks {
      assert h.name in set x | x in book :: x.name;
    }
    var target := Target(c, equity);
    TargetPositive(c, equity);
    NoShockNoLoss(c, book, equity);
    var maximum := Loss(c, book, equity, 1.0);
    if maximum < target {
      forall s | 0.0 <= s <= 1.0 ensures Loss(c, book, equity, s) < target {
        LossGrows(c, book, equity, s, 1.0);
      }
      return Some(StressResult(1.0, false, maximum, maximum));
    }
    var lower, upper := 0.0, 1.0;
    for i := 0 to STEPS
      invariant 0.0 <= lower < upper <= 1.0 && upper - lower == Width(i)
      invariant Loss(c, book, equity, lower) < target <= Loss(c, book, equity, upper)
    {
      var midpoint := (lower + upper) / 2.0;
      if Loss(c, book, equity, midpoint) >= target {
        upper := midpoint;
      } else {
        lower := midpoint;
      }
    }
    forall s | 0.0 <= s <= upper - Width(STEPS) ensures Loss(c, book, equity, s) < target {
      LossGrows(c, book, equity, s, lower);
    }
    return Some(StressResult(upper, true, Loss(c, book, equity, upper), maximum));
  }

  lemma TargetPositive(c: StressConfig, equity: real)
    requires c.Valid() && equity > 0.0
    ensures Target(c, equity) > 0.0
  {}
}
