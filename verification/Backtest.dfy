/** The deterministic event replay: one pass over a sorted tape, with causal data access. */
module Backtest {
  import opened Prelude
  import opened Accounting
  import opened Reference
  import opened Execution

  datatype Bar = Bar(
    timestamp: int, open: real, high: real, low: real, close: real, volume: real, availableAt: int,
    fidelity: Fidelity, revised: bool, quote: Option<MarketSnapshot>)
  {
    predicate Valid() {
      && low > 0.0 && volume >= 0.0 && low <= Min(open, close) && high >= Max(open, close)
      && (quote.Some? ==>
            quote.value.Valid() && quote.value.timestamp == timestamp && quote.value.fidelity == fidelity)
    }

    /** What execution may look at: the quote, or for plain bars the opening price, never the close. */
    function Snapshot(): Option<MarketSnapshot> {
      if quote.Some? then quote
      else if fidelity.F0Bar? then Some(MarketSnapshot(timestamp, open, open, volume, fidelity, true))
      else None
    }
  }

  function CausalHistory(bars: seq<Bar>, cutoff: int): seq<Bar> {
    if |bars| == 0 then []
    else
      var last := bars[|bars| - 1];
      CausalHistory(bars[..|bars| - 1], cutoff)
      + if last.availableAt <= cutoff && last.timestamp <= cutoff && !last.revised then [last] else []
  }

  datatype Program =
    | Signal(next: (seq<Bar>, int) -> Option<OrderIntent>)
    | Target(strategyId: string, desired: (seq<Bar>, int) -> real)

  datatype OrderStatus = Submitted | PartiallyFilled | Filled | Cancelled | Rejected {
    predicate Terminal() {
      Filled? || Cancelled? || Rejected?
    }
  }

  datatype OrderRow = OrderRow(intent: OrderIntent, normalized: Option<OrderIntent>, status: OrderStatus, filled: real)

  datatype EventKind = Intent | Now(status: OrderStatus)

  datatype Event = Event(orderId: string, timestamp: int, kind: EventKind)

  datatype Costs = Costs(fee: real, spread: real, slippage: real, impact: real) {
    function Total(): real {
      fee + spread + slippage + impact
    }
  }

  /** Everything the replay keeps besides the ledger. `ids` is the order in which orders were placed, which is
      also the order in which pending orders are worked. */
  datatype Desk = Desk(
    ids: seq<string>, orders: map<string, OrderRow>, pending: map<string, OrderIntent>, events: seq<Event>,
    errors: seq<(string, Rejection)>, costs: Costs)

  datatype Observation = Observation(
    timestamp: int, mark: real, cash: real, position: real, equity: real, exposure: real, fees: real, other: real,
    reference: Reconciliation)

  datatype Sim = Sim(book: Book, desk: Desk, curve: seq<(int, real)>, observations: seq<Observation>)

  function Digit(n: nat): char
    requires n < 10
  {
    "0123456789"[n]
  }

  function Decimal(n: nat): string {
    if n < 10 then [Digit(n)] else Decimal(n / 10) + [Digit(n % 10)]
  }

  const NoDesk := Desk([], map[], map[], [], [], Costs(0.0, 0.0, 0.0, 0.0))

  // ---- What the program wants -----------------------------------------------------------------

  function Intended(c: Config, p: Program, earlier: seq<Bar>, bar: Bar, position: real, idle: bool)
    : Result<Option<OrderIntent>, Halt>
  {
    var history := CausalHistory(earlier, bar.timestamp);
    match p
    case Signal(next) => Success(next(history, bar.timestamp))
    case Target(id, desired) =>
      if !idle then Success(None)
      else
        var want := desired(history, bar.timestamp);
        var delta := want - position;
        if want < 0.0 then Failure(NegativeTarget)
        else if delta == 0.0 then Success(None)
        else Success(Some(OrderIntent(
          id + ":" + Decimal(|earlier|), id, c.spec.venue, c.spec.instrumentId, if delta > 0.0 then Buy else Sell,
          Abs(delta), Market, Option.None, bar.timestamp, bar.timestamp, bar.timestamp, bar.timestamp,
          false, false, Ioc)))
  }

  /** Every pending entry is an order of that id. */
  predicate Linked(d: Desk) {
    forall id | id in d.pending :: id in d.orders && d.pending[id].clientOrderId == id
  }

  function Place(d: Desk, o: OrderIntent, when: int): (d': Desk)
    ensures Linked(d) ==> Linked(d')
  {
    var id := o.clientOrderId;
    d.(ids := d.ids + [id], orders := d.orders[id := OrderRow(o, Option.None, Submitted, 0.0)],
       pending := d.pending[id := o], events := d.events + [Event(id, when, Intent), Event(id, when, Now(Submitted))])
  }

  function Admit(d: Desk, earlier: seq<Bar>, bar: Bar, o: OrderIntent): (r: Result<Desk, Halt>)
    ensures Linked(d) && r.Success? ==> Linked(r.value)
  {
    if !o.Valid() then Failure(InvalidIntent)
    else if o.clientOrderId in d.orders then Failure(DuplicateOrderId)
    else if o.cutoff > bar.timestamp || o.submission < bar.timestamp
         || exists item | item in CausalHistory(earlier, bar.timestamp) :: item.availableAt > o.cutoff then
      Failure(CutoffMismatch)
    else Success(Place(d, o, bar.timestamp))
  }

  // ---- Working one pending order --------------------------------------------------------------

  function Mark(d: Desk, id: string, status: OrderStatus, when: int): (d': Desk)
    requires id in d.orders
    ensures Linked(d) ==> Linked(d')
  {
    d.(orders := d.orders[id := d.orders[id].(status := status)], events := d.events + [Event(id, when, Now(status))])
  }

  function Retire(d: Desk, id: string, status: OrderStatus, when: int): (d': Desk)
    requires id in d.orders
    ensures Linked(d) ==> Linked(d')
  {
    var marked := Mark(d, id, status, when);
    marked.(pending := marked.pending - {id})
  }

  function Refuse(d: Desk, id: string, reason: Rejection, when: int): (d': Desk)
    requires id in d.orders
    ensures Linked(d) ==> Linked(d')
  {
    var retired := Retire(d, id, Rejected, when);
    retired.(errors := retired.errors + [(id, reason)])
  }

  /** Keeps the first normalized form only. */
  function Remember(d: Desk, id: string, n: OrderIntent): (d': Desk)
    requires id in d.orders
    ensures Linked(d) ==> Linked(d')
  {
    if d.orders[id].normalized.Some? then d
    else d.(orders := d.orders[id := d.orders[id].(normalized := Some(n))])
  }

  /** An immediate order does not survive the bar that looked at it. */
  function Expire(d: Desk, o: OrderIntent, when: int): (d': Desk)
    requires o.clientOrderId in d.orders
    ensures Linked(d) ==> Linked(d')
  {
    if o.clientOrderId in d.pending && !o.timeInForce.Gtc? then Retire(d, o.clientOrderId, Cancelled, when) else d
  }

  function FillOf(o: OrderIntent, e: Execution, index: nat, when: int): Fill {
    Fill(o.clientOrderId + ":" + Decimal(index), o.clientOrderId, when, o.side, e.quantity, e.price, e.role, e.fee,
      [CostComponent(ImplementationShortfall, e.slippage, Additive, Option.None),
       CostComponent(CostKind.Impact, e.impact, Additive, Option.None)])
  }

  function Spend(k: Costs, o: OrderIntent, e: Execution, s: MarketSnapshot): Costs {
    Costs(k.fee + e.fee, k.spread + o.side.Toward(Notional(e.quantity, e.price - s.Mid())),
      k.slippage + e.slippage, k.impact + e.impact)
  }

  /** Books an execution of the normalized order `n`. */
  function Settle(d: Desk, n: OrderIntent, e: Execution, s: MarketSnapshot): (d': Desk)
    requires n.clientOrderId in d.orders
    ensures d'.orders.Keys == d.orders.Keys
    ensures Linked(d) ==> Linked(d')
  {
    var id, row := n.clientOrderId, d.orders[n.clientOrderId];
    var paid := d.(costs := Spend(d.costs, n, e, s), orders := d.orders[id := row.(filled := row.filled + e.quantity)]);
    if e.quantity == n.quantity then Retire(paid, id, Filled, s.timestamp)
    else
      var part := Mark(paid, id, PartiallyFilled, s.timestamp);
      part.(pending := part.pending[id := n.(quantity := n.quantity - e.quantity)])
  }

  datatype Worked = Worked(book: Book, desk: Desk, liquidity: real)

  /** A normalized order meets the market. */
  function Meet(c: Config, bar: Bar, s: MarketSnapshot, index: nat, w: Worked, n: OrderIntent): (r: Result<Worked, Halt>)
    requires c.Valid() && n.clientOrderId in w.desk.orders
    ensures Linked(w.desk) && r.Success? ==> Linked(r.value.desk)
  {
    var id, when := n.clientOrderId, s.timestamp;
    match Decide(c, bar.open, s, n, w.book.cash, w.book.position, w.liquidity)
    case Stop(h) => Failure(h)
    case Reject(reason) => Success(w.(desk := Refuse(w.desk, id, reason, when)))
    case Idle => Success(w.(desk := Expire(w.desk, n, when)))
    case Execute(e) =>
      var fill := FillOf(n, e, index, when);
      if !fill.Valid() then Success(w.(desk := Refuse(w.desk, id, InvalidFill, when)))
      else match ApplyFill(w.book, fill)
        case Failure(error) => Success(w.(desk := Refuse(w.desk, id, LedgerRefused(error), when)))
        case Success(book) => Success(Worked(book, Expire(Settle(w.desk, n, e, s), n, when), w.liquidity - e.quantity))
  }

  function WorkOne(c: Config, bar: Bar, s: MarketSnapshot, index: nat, w: Worked, id: string): (r: Result<Worked, Halt>)
    requires c.Valid() && Linked(w.desk)
    ensures r.Success? ==> Linked(r.value.desk)
  {
    if id !in w.desk.pending then Success(w)
    else
      var o := w.desk.pending[id];
      if s.timestamp < o.submission + c.model.latency then Success(w)
      else match Precheck(c, s, o)
        case Stopped(h) => Failure(h)
        case Refused(reason) => Success(w.(desk := Refuse(w.desk, id, reason, s.timestamp)))
        case Clear =>
          match Normalized(c, o)
          case Failure(reason) => Success(w.(desk := Refuse(w.desk, id, reason, s.timestamp)))
          case Success(n) => Meet(c, bar, s, index, w.(desk := Remember(w.desk, id, n)), n)
  }

  // ---- One bar --------------------------------------------------------------------------------

  /** Works the pending orders in the order they were placed, sharing the bar's liquidity. */
  function WorkAll(c: Config, bar: Bar, s: MarketSnapshot, index: nat, w: Worked, ids: seq<string>)
    : (r: Result<Worked, Halt>)
    requires c.Valid() && Linked(w.desk)
    ensures r.Success? ==> Linked(r.value.desk)
  {
    if |ids| == 0 then Success(w)
    else match WorkAll(c, bar, s, index, w, ids[..|ids| - 1])
      case Failure(h) => Failure(h)
      case Success(w') => WorkOne(c, bar, s, index, w', ids[|ids| - 1])
  }

  function Capacity(c: Config, s: MarketSnapshot): real {
    Notional(s.available, c.model.participation)
  }

  /** The per-bar comparison of the two bookkeepings. */
  ghost function CrossCheck(c: Config, book: Book, mark: real): Result<Reconciliation, Halt> {
    match Reconciled(c.startingCash, book.fills, mark)
    case Failure(_) => Failure(AccountingDisagreement)
    case Success(r) =>
      if book.cash != r.cash || book.position != r.position || book.Equity(mark) != r.equity
         || book.Reconcile(mark) != 0.0 then Failure(AccountingDisagreement)
      else Success(r)
  }

  function Observe(sim: Sim, bar: Bar, book: Book, desk: Desk, reference: Reconciliation): Sim {
    Sim(book, desk, sim.curve + [(bar.timestamp, book.Equity(bar.close))],
      sim.observations + [Observation(bar.timestamp, bar.close, book.cash, book.position, book.Equity(bar.close),
        Notional(book.position, bar.close), book.fees, book.other, reference)])
  }

  /** The desk after the program has spoken at this bar. */
  function Asked(c: Config, p: Program, earlier: seq<Bar>, bar: Bar, book: Book, desk: Desk): (r: Result<Desk, Halt>)
    ensures Linked(desk) && r.Success? ==> Linked(r.value)
  {
    match Intended(c, p, earlier, bar, book.position, desk.pending == map[])
    case Failure(h) => Failure(h)
    case Success(None) => Success(desk)
    case Success(Some(o)) => Admit(desk, earlier, bar, o)
  }

  ghost function BarStep(c: Config, p: Program, ordered: seq<Bar>, index: nat, sim: Sim): (r: Result<Sim, Halt>)
    requires c.Valid() && index < |ordered| && Linked(sim.desk)
    ensures r.Success? ==> Linked(r.value.desk)
  {
    var bar := ordered[index];
    if bar.availableAt > bar.timestamp then Failure(UnavailableAtDecision)
    else match Asked(c, p, ordered[..index], bar, sim.book, sim.desk)
      case Failure(h) => Failure(h)
      case Success(desk) =>
        match bar.Snapshot()
        case None => Failure(MissingQuote)
        case Some(s) =>
          match WorkAll(c, bar, s, index, Worked(sim.book, desk, Capacity(c, s)), desk.ids)
          case Failure(h) => Failure(h)
          case Success(w) =>
            match CrossCheck(c, w.book, bar.close)
            case Failure(h) => Failure(h)
            case Success(reference) => Success(Observe(sim, bar, w.book, w.desk, reference))
  }

  /** The replay's state after its first `n` bars. */
  ghost function After(c: Config, p: Program, ordered: seq<Bar>, n: nat): (r: Result<Sim, Halt>)
    requires c.Valid() && n <= |ordered|
    ensures r.Success? ==> Linked(r.value.desk)
  {
    if n == 0 then Success(Sim(OpenBook(c.startingCash), NoDesk, [], []))
    else match After(c, p, ordered, n - 1)
      case Failure(h) => Failure(h)
      case Success(sim) => BarStep(c, p, ordered, n - 1, sim)
  }

  // ---- The whole replay -----------------------------------------------------------------------

  function Insert(bar: Bar, sorted: seq<Bar>): seq<Bar> {
    if |sorted| == 0 then [bar]
    else if sorted[|sorted| - 1].timestamp <= bar.timestamp then sorted + [bar]
    else Insert(bar, sorted[..|sorted| - 1]) + [sorted[|sorted| - 1]]
  }

  /** The stable sort by timestamp. */
  function Sorted(bars: seq<Bar>): seq<Bar> {
    if |bars| == 0 then [] else Insert(bars[|bars| - 1], Sorted(bars[..|bars| - 1]))
  }

  predicate Repeats(bars: seq<Bar>) {
    exists i, j | 0 <= i < j < |bars| :: bars[i].timestamp == bars[j].timestamp
  }

  /** Whatever is still pending when the tape ends is cancelled. */
  function CancelRest(d: Desk, ids: seq<string>, when: int): (d': Desk)
    requires Linked(d)
    ensures Linked(d') && d'.pending == d.pending && d'.orders.Keys == d.orders.Keys
  {
    if |ids| == 0 then d
    else
      var earlier := CancelRest(d, ids[..|ids| - 1], when);
      var id := ids[|ids| - 1];
      if id in earlier.pending then Mark(earlier, id, Cancelled, when) else earlier
  }

  datatype Outcome = Outcome(
    book: Book, curve: seq<(int, real)>, errors: seq<(string, Rejection)>, ids: seq<string>,
    orders: map<string, OrderRow>, events: seq<Event>, observations: seq<Observation>, costs: Costs)

  function Close(sim: Sim, when: int): Outcome
    requires Linked(sim.desk)
  {
    var d := CancelRest(sim.desk, sim.desk.ids, when);
    Outcome(sim.book, sim.curve, d.errors, d.ids, d.orders, d.events, sim.observations, d.costs)
  }

  ghost function Replay(c: Config, p: Program, bars: seq<Bar>): Result<Outcome, Halt>
    requires c.Valid()
  {
    var ordered := Sorted(bars);
    if |ordered| == 0 then Failure(EmptyReplay)
    else if Repeats(ordered) then Failure(DuplicateTimestamp)
    else if exists bar | bar in ordered :: bar.revised then Failure(RevisedData)
    else match After(c, p, ordered, |ordered|)
      case Failure(h) => Failure(h)
      case Success(sim) => Success(Close(sim, ordered[|ordered| - 1].timestamp))
  }
}
