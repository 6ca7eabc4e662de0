/** Venue contracts, order normalization and the fill simulator: the pure decisions of one order at one bar. */
module Execution {
  import opened Prelude
  import opened Accounting

  datatype Fidelity = F0Bar | F1TradeBbo | F2AggL2 | F3SeqL2 | F4OrderLevel | F5AccountObserved {
    function Rank(): nat {
      match this
      case F0Bar => 0 case F1TradeBbo => 1 case F2AggL2 => 2
      case F3SeqL2 => 3 case F4OrderLevel => 4 case F5AccountObserved => 5
    }
  }

  datatype OrderType = Market | Limit

  datatype TimeInForce = Gtc | Ioc | Fok

  datatype TradingStatus = Trading | Halted | Maintenance

  datatype InstrumentSpec = InstrumentSpec(
    venue: string, instrumentId: string, tick: real, lot: real, minQuantity: real, minNotional: real,
    maxQuantity: Option<real>, priceLower: Option<real>, priceUpper: Option<real>, multiplier: real,
    effectiveFrom: int, effectiveTo: Option<int>, status: TradingStatus)
  {
    predicate Valid() {
      tick > 0.0 && lot > 0.0 && minQuantity > 0.0 && minNotional > 0.0 && multiplier > 0.0
    }
  }

  datatype FeeSchedule = FeeSchedule(
    venue: string, instrumentId: string, tier: string, role: LiquidityRole, rate: real,
    effectiveFrom: int, effectiveTo: Option<int>)

  datatype OrderIntent = OrderIntent(
    clientOrderId: string, strategyId: string, venue: string, instrumentId: string, side: Side, quantity: real,
    orderType: OrderType, limitPrice: Option<real>, cutoff: int, ready: int, eligible: int, submission: int,
    reduceOnly: bool, postOnly: bool, timeInForce: TimeInForce)
  {
    predicate Valid() {
      && |clientOrderId| > 0 && |strategyId| > 0 && quantity > 0.0
      && cutoff <= ready <= eligible <= submission
      && (orderType.Limit? <==> limitPrice.Some?)
    }
  }

  datatype MarketSnapshot = MarketSnapshot(
    timestamp: int, bid: real, ask: real, available: real, fidelity: Fidelity, sequenceValid: bool)
  {
    predicate Valid() {
      0.0 < bid <= ask && available >= 0.0
    }

    function Mid(): real {
      (bid + ask) / 2.0
    }
  }

  datatype FillModel = FillModel(minimumFidelity: Fidelity, participation: real, latency: int, stress: real) {
    predicate Valid() {
      0.0 < participation <= 1.0 && latency >= 0 && stress >= 1.0
    }
  }

  datatype SimulatedFill = SimulatedFill(quantity: real, price: real, role: LiquidityRole, uncertain: bool)

  /** Why one order is refused; the run goes on. */
  datatype Rejection =
    | WrongInstrument | NotTrading | PostOnlyMarket | BelowMinimum | BadLimit | BadReference | AboveMaximum
    | OutsideBand | BelowNotional | ReduceOnlyIncreases | StaleFidelity | SequenceGap | ExecutionOutsideBand
    | WouldTake | LimitViolated | InsufficientCash | Unfunded | InvalidFill | LedgerRefused(error: LedgerError)

  /** Why a whole replay stops: a missing contract is never guessed. */
  datatype Halt =
    | EmptyReplay | DuplicateTimestamp | RevisedData | UnavailableAtDecision | NegativeTarget | InvalidIntent
    | DuplicateOrderId | CutoffMismatch | MissingQuote | NotEffective | InsufficientFidelity | PassiveOnBars
    | QueueUnobserved | FeeUnknown | AccountingDisagreement

  // ---- Increments -----------------------------------------------------------------------------

  function FloorTo(value: real, increment: real): real
    requires increment != 0.0
  {
    Times(Truncate(Quotient(value, increment)), increment)
  }

  function CeilTo(value: real, increment: real): real
    requires increment != 0.0
  {
    Times(AwayFromZero(Quotient(value, increment)), increment)
  }

  lemma QuotientOfMultiple(k: int, increment: real)
    requires increment > 0.0
    ensures Quotient(Times(k, increment), increment) == k as real
  {}

  /** Rounding toward zero lands on a multiple, never grows a nonnegative amount, loses less than one increment,
      and leaves a multiple alone. */
  lemma FloorToFacts(value: real, increment: real)
    requires increment > 0.0 && value >= 0.0
    ensures 0.0 <= FloorTo(value, increment) <= value < FloorTo(value, increment) + increment
    ensures IsMultiple(FloorTo(value, increment), increment)
    ensures FloorTo(FloorTo(value, increment), increment) == FloorTo(value, increment)
    ensures IsMultiple(value, increment) ==> FloorTo(value, increment) == value
  {
    var ratio := Quotient(value, increment);
    QuotientTimes(value, increment);
    assert ratio >= 0.0;
    var k := ratio.Floor;
    assert k as real <= ratio < k as real + 1.0;
    FloorBounds(value, increment, k);
    MultipleIntro(FloorTo(value, increment), increment, k);
    QuotientOfMultiple(k, increment);
    if IsMultiple(value, increment) {
      var j: int :| value == Times(j, increment);
      QuotientOfMultiple(j, increment);
    }
  }

  lemma PositiveProduct(a: real, b: real)
    requires a >= 0.0 && b > 0.0
    ensures Notional(a, b) >= 0.0
    ensures a > 0.0 ==> Notional(a, b) > 0.0
  {}

  lemma FloorBounds(value: real, increment: real, k: int)
    requires increment > 0.0 && k >= 0
    requires k as real <= Quotient(value, increment) < k as real + 1.0
    ensures 0.0 <= Times(k, increment) <= value < Times(k, increment) + increment
  {
    QuotientTimes(value, increment);
    var ratio := Quotient(value, increment);
    var above, below := k as real + 1.0 - ratio, ratio - k as real;
    NotionalAdds(k as real + 1.0, ratio, increment);
    NotionalAdds(ratio, k as real, increment);
    NotionalAdds(k as real, 1.0, increment);
    PositiveProduct(above, increment);
    PositiveProduct(below, increment);
    PositiveProduct(k as real, increment);
    assert Notional(ratio, increment) == value && Notional(k as real, increment) == Times(k, increment);
    assert Notional(1.0, increment) == increment;
  }

  // ---- Effective-dated selection --------------------------------------------------------------

  predicate InForce(effectiveFrom: int, effectiveTo: Option<int>, when: int) {
    effectiveFrom <= when && (effectiveTo.None? || when < effectiveTo.value)
  }

  predicate FeeMatches(s: FeeSchedule, spec: InstrumentSpec, tier: string, role: LiquidityRole, when: int) {
    && s.venue == spec.venue && s.instrumentId == spec.instrumentId && s.tier == tier && s.role == role
    && InForce(s.effectiveFrom, s.effectiveTo, when)
  }

  function MatchingFees(
    schedules: seq<FeeSchedule>, spec: InstrumentSpec, tier: string, role: LiquidityRole, when: int): seq<FeeSchedule>
  {
    if |schedules| == 0 then []
    else
      (if FeeMatches(schedules[0], spec, tier, role, when) then [schedules[0]] else [])
      + MatchingFees(schedules[1..], spec, tier, role, when)
  }

  /** Exactly one schedule must be in force; none or several is unknown. */
  function SelectFee(
    schedules: seq<FeeSchedule>, spec: InstrumentSpec, tier: string, role: LiquidityRole, when: int): Option<FeeSchedule>
  {
    var matches := MatchingFees(schedules, spec, tier, role, when);
    if |matches| == 1 then Some(matches[0]) else None
  }

  /** A selected fee is a listed one in force for that venue, instrument, tier and role at that moment. */
  lemma {:induction false} MatchingFeesAre(
    schedules: seq<FeeSchedule>, spec: InstrumentSpec, tier: string, role: LiquidityRole, when: int, s: FeeSchedule)
    ensures s in MatchingFees(schedules, spec, tier, role, when)
       <==> s in schedules && FeeMatches(s, spec, tier, role, when)
  {
    if |schedules| > 0 {
      hide FeeMatches;
      MatchingFeesAre(schedules[1..], spec, tier, role, when, s);
      assert s in schedules <==> s == schedules[0] || s in schedules[1..];
    }
  }

  // ---- Orders ---------------------------------------------------------------------------------

  datatype Rounded = Rounded(quantity: real, limitPrice: Option<real>)

  /** Buys pay up, sells receive down, quantity never grows. */
  function RoundedOrder(
    side: Side, quantity: real, orderType: OrderType, limitPrice: Option<real>, spec: InstrumentSpec)
    : Result<Rounded, Rejection>
    requires spec.Valid()
  {
    var rounded := FloorTo(quantity, spec.lot);
    if rounded < spec.minQuantity then Failure(BelowMinimum)
    else if orderType.Market? then Success(Rounded(rounded, limitPrice))
    else if limitPrice.None? || limitPrice.value <= 0.0 then Failure(BadLimit)
    else Success(Rounded(rounded, Some(
      if side.Buy? then CeilTo(limitPrice.value, spec.tick) else FloorTo(limitPrice.value, spec.tick))))
  }

  predicate BelowBound(bound: Option<real>, price: real) {
    bound.Some? && price < bound.value
  }

  predicate AboveBound(bound: Option<real>, price: real) {
    bound.Some? && price > bound.value
  }

  function ValidateOrder(o: OrderIntent, spec: InstrumentSpec, reference: real, position: real): Option<Rejection>
    requires spec.Valid()
  {
    if !spec.status.Trading? then Some(NotTrading)
    else if reference <= 0.0 then Some(BadReference)
    else match RoundedOrder(o.side, o.quantity, o.orderType, o.limitPrice, spec)
      case Failure(e) => Some(e)
      case Success(rounded) =>
        var price := if rounded.limitPrice.Some? && rounded.limitPrice.value != 0.0 then rounded.limitPrice.value else reference;
        if spec.maxQuantity.Some? && rounded.quantity > spec.maxQuantity.value then Some(AboveMaximum)
        else if BelowBound(spec.priceLower, price) || AboveBound(spec.priceUpper, price) then Some(OutsideBand)
        else if Notional(Notional(rounded.quantity, price), spec.multiplier) < spec.minNotional then Some(BelowNotional)
        else if o.reduceOnly && Abs(position + o.side.Toward(rounded.quantity)) > Abs(position) then Some(ReduceOnlyIncreases)
        else None
  }

  // ---- The fill simulator ---------------------------------------------------------------------

  predicate Marketable(o: OrderIntent, s: MarketSnapshot) {
    || o.orderType.Market?
    || (o.limitPrice.Some?
        && if o.side.Buy? then o.limitPrice.value >= s.ask else o.limitPrice.value <= s.bid)
  }

  function TakerPrice(o: OrderIntent, s: MarketSnapshot, model: FillModel): real {
    (if o.side.Buy? then s.ask else s.bid)
    + o.side.Toward(Notional((s.ask - s.bid) / 2.0, model.stress - 1.0))
  }

  function Simulate(o: OrderIntent, s: MarketSnapshot, model: FillModel): Result<Option<SimulatedFill>, Rejection> {
    if s.timestamp < o.submission + model.latency then Success(None)
    else if s.fidelity.Rank() < model.minimumFidelity.Rank() then Failure(StaleFidelity)
    else if model.minimumFidelity.Rank() >= F2AggL2.Rank() && !s.sequenceValid then Failure(SequenceGap)
    else
      var executable := Min(o.quantity, Notional(s.available, model.participation));
      if executable <= 0.0 then Success(None)
      else if Marketable(o, s) then Success(Some(SimulatedFill(executable, TakerPrice(o, s, model), Taker, false)))
      else if o.limitPrice.None? then Failure(BadLimit)
      else if (o.side.Buy? && o.limitPrice.value < s.bid) || (o.side.Sell? && o.limitPrice.value > s.ask)
              || s.available == 0.0 then Success(None)
      else Success(Some(SimulatedFill(executable, o.limitPrice.value, Maker, s.fidelity.Rank() < F4OrderLevel.Rank())))
  }

  // ---- One order at one bar -------------------------------------------------------------------

  datatype Config = Config(
    spec: InstrumentSpec, model: FillModel, startingCash: real, fees: seq<FeeSchedule>, tier: string,
    slippageBps: real, impactBps: real)
  {
    predicate Valid() {
      && spec.Valid() && spec.multiplier == 1.0 && model.Valid() && startingCash > 0.0
      && |fees| > 0 && |tier| > 0 && slippageBps >= 0.0 && impactBps >= 0.0
    }
  }

  datatype Execution = Execution(
    quantity: real, price: real, role: LiquidityRole, fee: real, slippage: real, impact: real)

  datatype Decision =
    | Stop(halt: Halt)
    | Reject(reason: Rejection)
    | Idle
    | Execute(execution: Execution)

  function BasisPoints(notional: real, bps: real): real {
    Quotient(Notional(notional, bps), 10000.0)
  }

  datatype Check = Clear | Refused(reason: Rejection) | Stopped(halt: Halt)

  /** Checks made before the order is normalized. */
  function Precheck(c: Config, s: MarketSnapshot, o: OrderIntent): Check {
    if !InForce(c.spec.effectiveFrom, c.spec.effectiveTo, s.timestamp) then Stopped(NotEffective)
    else if o.venue != c.spec.venue || o.instrumentId != c.spec.instrumentId then Refused(WrongInstrument)
    else if !c.spec.status.Trading? then Refused(NotTrading)
    else if o.postOnly && o.orderType.Market? then Refused(PostOnlyMarket)
    else if s.fidelity.Rank() < c.model.minimumFidelity.Rank() then Stopped(InsufficientFidelity)
    else if c.model.minimumFidelity.F0Bar? && !o.orderType.Market? then Stopped(PassiveOnBars)
    else Clear
  }

  /** The order as the venue sees it: quantity on the lot grid, limit on the tick grid. */
  function Normalized(c: Config, o: OrderIntent): Result<OrderIntent, Rejection>
    requires c.Valid()
  {
    match RoundedOrder(o.side, o.quantity, o.orderType, o.limitPrice, c.spec)
    case Failure(e) => Failure(e)
    case Success(r) => Success(o.(quantity := r.quantity, limitPrice := r.limitPrice))
  }

  /** Checks on a simulated fill, then its tradable quantity. */
  function Tradable(c: Config, o: OrderIntent, f: SimulatedFill, liquidity: real): Result<Option<real>, Decision>
    requires c.Valid()
  {
    if BelowBound(c.spec.priceLower, f.price) || AboveBound(c.spec.priceUpper, f.price) then
      Failure(Reject(ExecutionOutsideBand))
    else if o.postOnly && f.role.Taker? then Failure(Reject(WouldTake))
    else if o.limitPrice.Some?
         && (if o.side.Buy? then f.price > o.limitPrice.value else f.price < o.limitPrice.value) then
      Failure(Reject(LimitViolated))
    else if f.uncertain then Failure(Stop(QueueUnobserved))
    else
      var quantity := FloorTo(Min(f.quantity, liquidity), c.spec.lot);
      if o.timeInForce.Fok? && quantity < o.quantity then Success(None)
      else if quantity < c.spec.minQuantity || Notional(quantity, f.price) < c.spec.minNotional then Success(None)
      else Success(Some(quantity))
  }

  /** Prices the fill, pays every cost, and refuses what cash or inventory cannot fund. */
  function Funded(
    c: Config, when: int, o: OrderIntent, f: SimulatedFill, quantity: real, cash: real, position: real): Decision
    requires c.Valid()
  {
    var notional := Notional(quantity, f.price);
    var slippage, impact := BasisPoints(notional, c.slippageBps), BasisPoints(notional, c.impactBps);
    match SelectFee(c.fees, c.spec, c.tier, f.role, when)
    case None => Stop(FeeUnknown)
    case Some(schedule) =>
      var fee := Notional(notional, schedule.rate);
      if cash - o.side.Toward(notional) - fee - slippage - impact < 0.0 then Reject(InsufficientCash)
      else if o.side.Sell? && quantity > position then Reject(Unfunded)
      else Execute(Execution(quantity, f.price, f.role, fee, slippage, impact))
  }

  /** What happens to a normalized order `o` at a bar. */
  function Decide(
    c: Config, open: real, s: MarketSnapshot, o: OrderIntent, cash: real, position: real, liquidity: real): Decision
    requires c.Valid()
  {
    match ValidateOrder(o, c.spec, open, position)
    case Some(reason) => Reject(reason)
    case None =>
      match Simulate(o, s, c.model)
      case Failure(reason) => Reject(reason)
      case Success(None) => Idle
      case Success(Some(f)) =>
        match Tradable(c, o, f, liquidity)
        case Failure(d) => d
        case Success(None) => Idle
        case Success(Some(quantity)) => Funded(c, s.timestamp, o, f, quantity, cash, position)
  }

  lemma NormalizedFacts(c: Config, o: OrderIntent)
    requires c.Valid() && o.Valid() && Normalized(c, o).Success?
    ensures var n := Normalized(c, o).value;
      && n.Valid()
      && n == o.(quantity := n.quantity, limitPrice := n.limitPrice)
      && 0.0 < n.quantity <= o.quantity < n.quantity + c.spec.lot
      && IsMultiple(n.quantity, c.spec.lot)
  {
    hide FloorTo, CeilTo;
    FloorToFacts(o.quantity, c.spec.lot);
  }

  lemma PositiveFactor(quantity: real, price: real)
    requires quantity > 0.0 && Notional(quantity, price) > 0.0
    ensures price > 0.0
  {}

  /** Everything a simulated execution promises the ledger and the caller. */
  lemma ExecutionIsSafe(
    c: Config, open: real, s: MarketSnapshot, o: OrderIntent, cash: real, position: real, liquidity: real)
    requires c.Valid() && o.Valid() && s.Valid() && liquidity >= 0.0
    requires Decide(c, open, s, o, cash, position, liquidity).Execute?
    ensures var e := Decide(c, open, s, o, cash, position, liquidity).execution;
      && 0.0 < e.quantity <= o.quantity && e.quantity <= liquidity
      && IsMultiple(e.quantity, c.spec.lot)
      && e.price > 0.0 && Notional(e.quantity, e.price) >= c.spec.minNotional
      && e.quantity >= c.spec.minQuantity
      && cash - o.side.Toward(Notional(e.quantity, e.price)) - e.fee - e.slippage - e.impact >= 0.0
      && (o.side.Sell? ==> e.quantity <= position)
      && (o.timeInForce.Fok? ==> e.quantity == o.quantity)
      && (o.limitPrice.Some? ==>
            if o.side.Buy? then e.price <= o.limitPrice.value else e.price >= o.limitPrice.value)
      && !BelowBound(c.spec.priceLower, e.price) && !AboveBound(c.spec.priceUpper, e.price)
      && !(o.postOnly && e.role.Taker?)
  {
    hide FloorTo, CeilTo, Notional, ValidateOrder, BasisPoints, SelectFee, TakerPrice, Marketable;
    var f := Simulate(o, s, c.model).value.value;
    var q := Tradable(c, o, f, liquidity).value.value;
    FloorToFacts(Min(f.quantity, liquidity), c.spec.lot);
    PositiveFactor(q, f.price);
  }
}
