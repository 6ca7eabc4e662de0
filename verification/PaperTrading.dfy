/** The paper account: runs, orders with their risk reservations, fills, cash, and safety latches. */
module PaperTrading {
  import opened Prelude
  import opened Accounting
  import opened Execution

  // ---- The order lifecycle --------------------------------------------------------------------

  datatype OrderState =
    | Intent | PretradeValidated | Submitted | Acknowledged | UnknownReconciling | PartiallyFilled | Amended
    | CancelPending | Filled | Cancelled | Rejected | Expired
  {
    predicate Terminal() {
      Filled? || Cancelled? || Rejected? || Expired?
    }

    /** Where an order may go next. */
    function Next(): set<OrderState> {
      match this
      case Intent => {PretradeValidated, Rejected}
      case PretradeValidated => {Submitted, Rejected}
      case Submitted => {Acknowledged, UnknownReconciling, Rejected}
      case UnknownReconciling => {Acknowledged, PartiallyFilled, Filled, Cancelled, Rejected, Expired}
      case Acknowledged => {PartiallyFilled, Filled, CancelPending, Cancelled, Expired, UnknownReconciling}
      case PartiallyFilled => {PartiallyFilled, Filled, Amended, CancelPending, Cancelled, Expired}
      case Amended => {Acknowledged, PartiallyFilled, Filled, Cancelled, Rejected}
      case CancelPending => {PartiallyFilled, Filled, Cancelled, UnknownReconciling}
      case Filled => {}
      case Cancelled => {}
      case Rejected => {}
      case Expired => {}
    }
  }

  datatype OrderRecord = OrderRecord(quantity: real, state: OrderState, filled: real) {
    /** Fails on a move the lifecycle does not have or a quantity that does not fit the target state. */
    function Transition(target: OrderState, fill: real): Option<OrderRecord> {
      var cumulative := filled + fill;
      if target !in state.Next() || fill < 0.0 || cumulative > quantity then None
      else if target.Filled? && cumulative != quantity then None
      else if target.PartiallyFilled? && !(0.0 < cumulative < quantity) then None
      else Some(OrderRecord(quantity, target, cumulative))
    }
  }

  // ---- The account ----------------------------------------------------------------------------

  datatype RiskEnvelope = RiskEnvelope(
    version: string, maxOrder: real, maxPosition: real, maxPortfolio: real, staleAfter: nat, paper: bool)

  datatype PaperRun = PaperRun(
    active: bool, envelope: RiskEnvelope, specs: seq<InstrumentSpec>, fees: seq<FeeSchedule>, tier: string,
    currency: string, modelVersion: string)

  datatype ReservationState = Held | Converted | Released | Unreconciled

  datatype Reservation = Reservation(
    pool: string, original: real, working: real, position: real, released: real, state: ReservationState)

  /** An order with the one reservation made for it; `quantity` is what the venue sees of the intent. */
  datatype PaperOrder = PaperOrder(
    run: string, intent: OrderIntent, quantity: real, limitPrice: Option<real>, state: OrderState, filled: real,
    reservation: Reservation)
  {
    function Record(): OrderRecord {
      OrderRecord(quantity, state, filled)
    }

    function Market(): (string, string, string) {
      (run, intent.venue, intent.instrumentId)
    }
  }

  datatype PaperFill = PaperFill(
    key: string, time: int, price: real, quantity: real, fee: real, role: LiquidityRole, modelVersion: string)
  {
    predicate Valid() {
      price > 0.0 && quantity > 0.0 && |key| > 0 && |modelVersion| > 0
    }
  }

  /** A stored fill with what its order contributes to the ledger replay. */
  datatype FillRow = FillRow(
    id: string, order: string, clientOrderId: string, market: (string, string, string), side: Side,
    currency: string, fill: PaperFill)
  {
    function AsFill(id: string): Fill {
      Fill(id, clientOrderId, fill.time, side, fill.quantity, fill.price, fill.role, fill.fee, [])
    }

    function Delta(): real {
      -Notional(side.Toward(fill.quantity), fill.price) - fill.fee
    }
  }

  /** `stamp` is when the writing transaction started, which may be before it got the lock. */
  datatype CashEntry = CashEntry(run: string, currency: string, delta: real, balance: real, stamp: int)

  datatype PaperPosition = PaperPosition(quantity: real, currency: string, realized: real)

  /** No venue means every venue. */
  datatype Latch = Latch(venue: Option<string>, active: bool)

  datatype StopScope = Global | Venue(venue: string) | Strategy(strategy: string)

  datatype StopRequest = StopRequest(scope: StopScope, reason: string, automatic: bool)

  /** What an operation key was used for. */
  datatype Done =
    | Started(run: string, config: PaperRun)
    | Reconciled(run: string, valid: bool, active: bool)
    | Restarted(run: string)
    | MarkedUnknown(order: string, reason: string)
    | OrderCancelled(order: string)
    | RunStopped(run: string, request: StopRequest)
    | Latched(latch: string, request: StopRequest)
    | Unlatched(latch: string)

  datatype Account = Account(
    runs: map<string, PaperRun>, orders: map<string, PaperOrder>, placed: seq<string>, fills: seq<FillRow>,
    positions: map<(string, string, string), PaperPosition>, cash: seq<CashEntry>, latches: map<string, Latch>,
    stops: seq<(string, StopScope)>, done: map<string, Done>)

  datatype PaperError =
    | ContractNotSupported | RunExists | IdempotencyConflict | RunNotFound | ReconciliationRequired | StopActive
    | RiskConfigNotPinned | InstrumentNotPinned | InstrumentMismatch | NotPaper | NotYetEligible | Stale
    | VenueRefused(reason: Rejection) | EnvelopeExceeded | PortfolioExceeded | Collision | OrderNotFound
    | InvalidTransition | ExecutionConfigNotPinned | CurrencyMismatch | IncrementMismatch | FeeNotPinned
    | TimeRegression | CausalityViolation | LedgerRefused(error: LedgerError) | AccountingDisagreement
    | AlreadyCancelled | UnknownRequiresReconciliation | ManualStopRequiresOwner | Forbidden | GlobalScopeRequired
    | StopAlreadyActive | ReleaseRequiresOwner | LatchNotFound | StopNotActive

  datatype Role = PaperRole | OwnerRole | OperatorRole | OtherRole

  const NoAccount := Account(map[], map[], [], [], map[], [], map[], [], map[])

  // ---- Run lifecycle --------------------------------------------------------------------------

  function StartRun(s: Account, id: string, spec: PaperRun, key: string): Result<Account, PaperError> {
    if exists i | i in spec.specs :: i.multiplier != 1.0 then Failure(ContractNotSupported)
    else if id in s.runs then
      if key !in s.done then Failure(RunExists)
      else if s.done[key] == Started(id, spec) then Success(s) else Failure(IdempotencyConflict)
    else if key in s.done then Failure(IdempotencyConflict)
    else Success(s.(runs := s.runs[id := spec.(active := false)], done := s.done[key := Started(id, spec)]))
  }

  predicate GloballyLatched(s: Account) {
    exists l | l in s.latches :: s.latches[l].active && s.latches[l].venue.None?
  }

  predicate Unresolved(s: Account, run: string) {
    exists o | o in s.orders :: s.orders[o].run == run && s.orders[o].state.UnknownReconciling?
  }

  /** The restart barrier, and whether the run is active after it. */
  function Reconcile(s: Account, run: string, key: string, valid: bool): Result<(Account, bool), PaperError> {
    if run !in s.runs then Failure(RunNotFound)
    else if key in s.done then
      if s.done[key].Reconciled? && s.done[key].run == run && s.done[key].valid == valid then
        Success((s, s.done[key].active))
      else Failure(IdempotencyConflict)
    else
      var active := valid && !Unresolved(s, run) && !GloballyLatched(s);
      Success((s.(runs := s.runs[run := s.runs[run].(active := active)],
                  done := s.done[key := Reconciled(run, valid, active)]), active))
  }

  function Restart(s: Account, run: string, key: string): Result<Account, PaperError> {
    if run !in s.runs then Failure(RunNotFound)
    else if key in s.done then if s.done[key] == Restarted(run) then Success(s) else Failure(IdempotencyConflict)
    else Success(s.(runs := s.runs[run := s.runs[run].(active := false)], done := s.done[key := Restarted(run)]))
  }

  // ---- Submission -----------------------------------------------------------------------------

  predicate StoppedFor(s: Account, run: string, o: OrderIntent) {
    || (exists e | e in s.stops :: e.0 == run && (e.1 == Global || e.1 == Venue(o.venue) || e.1 == Strategy(o.strategyId)))
    || (exists l | l in s.latches :: s.latches[l].active && (s.latches[l].venue.None? || s.latches[l].venue == Some(o.venue)))
  }

  function SpecsInForce(specs: seq<InstrumentSpec>, venue: string, instrument: string, when: int): seq<InstrumentSpec> {
    if |specs| == 0 then []
    else
      var last := specs[|specs| - 1];
      SpecsInForce(specs[..|specs| - 1], venue, instrument, when)
      + if last.venue == venue && last.instrumentId == instrument && InForce(last.effectiveFrom, last.effectiveTo, when)
        then [last] else []
  }

  /** Exactly one pinned contract must be in force. */
  function PinnedSpec(run: PaperRun, venue: string, instrument: string, when: int): Option<InstrumentSpec> {
    var found := SpecsInForce(run.specs, venue, instrument, when);
    if |found| == 1 && found[0].Valid() then Some(found[0]) else None
  }

  /** Reserved risk of the pool: what its open reservations still have working or converted. */
  function PoolRisk(s: Account, placed: seq<string>, run: string, pool: string): real {
    if |placed| == 0 then 0.0
    else
      var last := placed[|placed| - 1];
      PoolRisk(s, placed[..|placed| - 1], run, pool)
      + if last in s.orders && s.orders[last].run == run && s.orders[last].reservation.pool == pool
           && !s.orders[last].reservation.state.Released?
        then s.orders[last].reservation.working + s.orders[last].reservation.position else 0.0
  }

  datatype Checked = Checked(amount: real, quantity: real, limitPrice: Option<real>)

  /** The pretrade check, on the normalized order. */
  function Pretrade(
    o: OrderIntent, spec: InstrumentSpec, m: MarketSnapshot, e: RiskEnvelope, position: real, portfolio: real, now: int)
    : Result<Checked, PaperError>
    requires spec.Valid()
  {
    if !e.paper then Failure(NotPaper)
    else if o.submission > now || m.timestamp < o.eligible then Failure(NotYetEligible)
    else if now - m.timestamp > e.staleAfter then Failure(Stale)
    else
      var reference := if o.side.Buy? then m.ask else m.bid;
      match RoundedOrder(o.side, o.quantity, o.orderType, o.limitPrice, spec)
      case Failure(reason) => Failure(VenueRefused(reason))
      case Success(rounded) =>
        var n := o.(quantity := rounded.quantity, limitPrice := rounded.limitPrice);
        match ValidateOrder(n, spec, reference, position)
        case Some(reason) => Failure(VenueRefused(reason))
        case None =>
          var amount := Notional(Notional(n.quantity, reference), spec.multiplier);
          var resulting := Notional(Notional(Abs(position + n.side.Toward(n.quantity)), reference), spec.multiplier);
          if amount > e.maxOrder || resulting > e.maxPosition then Failure(EnvelopeExceeded)
          else if portfolio + amount > e.maxPortfolio then Failure(PortfolioExceeded)
          else Success(Checked(amount, n.quantity, n.limitPrice))
  }

  function PositionIn(s: Account, market: (string, string, string)): real {
    if market in s.positions then s.positions[market].quantity else 0.0
  }

  predicate Requested(s: Account, clientOrderId: string) {
    exists id | id in s.orders :: s.orders[id].intent.clientOrderId == clientOrderId
  }

  function NewOrder(run: string, o: OrderIntent, pool: string, checked: Checked): PaperOrder {
    PaperOrder(run, o, checked.quantity, checked.limitPrice, Acknowledged, 0.0,
      Reservation(pool, checked.amount, checked.amount, 0.0, 0.0, Held))
  }

  /** An order not asked for before. */
  function SubmitNew(
    s: Account, run: string, o: OrderIntent, spec: InstrumentSpec, m: MarketSnapshot, e: RiskEnvelope, pool: string,
    now: int, id: string): Result<Account, PaperError>
  {
    if run !in s.runs || !s.runs[run].active then Failure(ReconciliationRequired)
    else if StoppedFor(s, run, o) then Failure(StopActive)
    else if s.runs[run].envelope != e then Failure(RiskConfigNotPinned)
    else match PinnedSpec(s.runs[run], o.venue, o.instrumentId, o.submission)
      case None => Failure(InstrumentNotPinned)
      case Some(pinned) =>
        if pinned != spec then Failure(InstrumentMismatch)
        else match Pretrade(o, pinned, m, e, PositionIn(s, (run, o.venue, o.instrumentId)),
                            PoolRisk(s, s.placed, run, pool), now)
          case Failure(error) => Failure(error)
          case Success(checked) =>
            if id in s.orders then Failure(Collision)
            else Success(s.(orders := s.orders[id := NewOrder(run, o, pool, checked)], placed := s.placed + [id]))
  }

  /** A repeated request is answered from the table; otherwise a new order may be accepted. */
  function Submit(
    s: Account, run: string, o: OrderIntent, spec: InstrumentSpec, m: MarketSnapshot, e: RiskEnvelope, pool: string,
    now: int, id: string): Result<Account, PaperError>
  {
    if Requested(s, o.clientOrderId) then
      if exists x | x in s.orders :: s.orders[x].intent == o then Success(s) else Failure(IdempotencyConflict)
    else SubmitNew(s, run, o, spec, m, e, pool, now, id)
  }

  // ---- Orders after submission ----------------------------------------------------------------

  function MarkUnknown(s: Account, id: string, reason: string, key: string): Result<Account, PaperError> {
    if id !in s.orders then Failure(OrderNotFound)
    else if key in s.done then
      if s.done[key] == MarkedUnknown(id, reason) then Success(s) else Failure(IdempotencyConflict)
    else match s.orders[id].Record().Transition(UnknownReconciling, 0.0)
      case None => Failure(InvalidTransition)
      case Some(record) =>
        var o := s.orders[id];
        Success(s.(orders := s.orders[id := o.(state := record.state,
                     reservation := o.reservation.(state := Unreconciled))],
                   done := s.done[key := MarkedUnknown(id, reason)]))
  }

  /** Gives back what is still working and keeps what became a position. */
  function Freed(r: Reservation): Reservation {
    r.(working := 0.0, released := r.original - r.position, state := if r.position > 0.0 then Converted else Released)
  }

  function CancelOrder(o: PaperOrder): PaperOrder {
    o.(state := Cancelled, reservation := Freed(o.reservation))
  }

  function Cancel(s: Account, id: string, key: string): Result<Account, PaperError> {
    if id !in s.orders then Failure(OrderNotFound)
    else if key in s.done then if s.done[key] == OrderCancelled(id) then Success(s) else Failure(IdempotencyConflict)
    else if s.orders[id].state.Cancelled? then Failure(AlreadyCancelled)
    else if s.orders[id].state.UnknownReconciling? then Failure(UnknownRequiresReconciliation)
    else match s.orders[id].Record().Transition(CancelPending, 0.0)
      case None => Failure(InvalidTransition)
      case Some(pending) =>
        if pending.Transition(Cancelled, 0.0).None? then Failure(InvalidTransition)
        else Success(s.(orders := s.orders[id := CancelOrder(s.orders[id])], done := s.done[key := OrderCancelled(id)]))
  }

  // ---- Fills ----------------------------------------------------------------------------------

  function RowsOf(fills: seq<FillRow>, market: (string, string, string)): seq<FillRow> {
    if |fills| == 0 then []
    else
      var last := fills[|fills| - 1];
      RowsOf(fills[..|fills| - 1], market) + if last.market == market then [last] else []
  }

  function AsFills(rows: seq<FillRow>): seq<Fill> {
    if |rows| == 0 then [] else AsFills(rows[..|rows| - 1]) + [rows[|rows| - 1].AsFill(rows[|rows| - 1].id)]
  }

  /** The most recently stamped entry of a run and currency; of equal stamps, the one written first. */
  function Newest(cash: seq<CashEntry>, run: string, currency: string): Option<CashEntry> {
    if |cash| == 0 then None
    else
      var earlier, last := Newest(cash[..|cash| - 1], run, currency), cash[|cash| - 1];
      if last.run == run && last.currency == currency && (earlier.None? || last.stamp > earlier.value.stamp) then Some(last)
      else earlier
  }

  function PriorBalance(cash: seq<CashEntry>, run: string, currency: string): real {
    var newest := Newest(cash, run, currency);
    if newest.Some? then newest.value.balance else 0.0
  }

  predicate OnGrid(value: real, increment: real)
    requires increment > 0.0
  {
    FloorTo(value, increment) == value
  }

  function ConvertedShare(r: Reservation, filled: real, quantity: real): real
    requires quantity != 0.0
  {
    Notional(r.original, Quotient(filled, quantity))
  }

  function AfterFill(o: PaperOrder, record: OrderRecord): PaperOrder {
    var position := if o.quantity != 0.0 then ConvertedShare(o.reservation, record.filled, o.quantity) else 0.0;
    o.(state := record.state, filled := record.filled,
       reservation := o.reservation.(working := o.reservation.original - position, position := position,
         state := if position != 0.0 then Converted else Held))
  }

  function RowFor(id: string, order: string, o: PaperOrder, f: PaperFill, currency: string): FillRow {
    FillRow(id, order, o.intent.clientOrderId, o.Market(), o.intent.side, currency, f)
  }

  /** Checks of a fill against the run's pinned configuration and the fills before it. */
  function FillRefused(s: Account, o: PaperOrder, f: PaperFill, currency: string): Option<PaperError> {
    if o.run !in s.runs then Some(RunNotFound)
    else
      var run := s.runs[o.run];
      if f.modelVersion != run.modelVersion then Some(ExecutionConfigNotPinned)
      else match PinnedSpec(run, o.intent.venue, o.intent.instrumentId, f.time)
        case None => Some(InstrumentNotPinned)
        case Some(spec) =>
          if currency != run.currency then Some(CurrencyMismatch)
          else if !OnGrid(f.quantity, spec.lot) || !OnGrid(f.price, spec.tick) then Some(IncrementMismatch)
          else match SelectFee(run.fees, spec, run.tier, f.role, f.time)
            case None => Some(FeeNotPinned)
            case Some(schedule) =>
              if f.fee != Notional(Notional(Notional(f.quantity, f.price), spec.multiplier), schedule.rate) then
                Some(FeeNotPinned)
              else if exists r | r in s.fills :: r.market == o.Market() && f.time < r.fill.time then Some(TimeRegression)
              else if f.time < o.intent.submission then Some(CausalityViolation)
              else None
  }

  /** The replayed ledger of the market with the new fill last. */
  function Replayed(s: Account, row: FillRow): Result<Book, LedgerError>
    requires row.fill.Valid() && forall r | r in s.fills :: r.fill.Valid()
  {
    RowsAreValid(s.fills, row.market);
    match ApplyAll(0.0, AsFills(RowsOf(s.fills, row.market)))
    case Failure(e) => Failure(e)
    case Success(book) => ApplyFill(book, row.AsFill(row.fill.key))
  }

  lemma {:induction false} RowsAreValid(fills: seq<FillRow>, market: (string, string, string))
    requires forall r | r in fills :: r.fill.Valid()
    ensures forall f | f in AsFills(RowsOf(fills, market)) :: f.Valid()
    ensures forall r | r in RowsOf(fills, market) :: r in fills && r.market == market
  {
    if |fills| > 0 {
      var front, last := fills[..|fills| - 1], fills[|fills| - 1];
      RowsAreValid(front, market);
      if last.market == market {
        assert RowsOf(fills, market)[..|RowsOf(fills, market)| - 1] == RowsOf(front, market);
      } else {
        assert RowsOf(fills, market) == RowsOf(front, market);
      }
    }
  }

  function Recorded(s: Account, row: FillRow, record: OrderRecord, book: Book, stamp: int): Account
    requires row.order in s.orders
  {
    var o, run := s.orders[row.order], row.market.0;
    s.(fills := s.fills + [row],
       positions := s.positions[row.market := PaperPosition(book.position, row.currency, book.realized)],
       cash := s.cash + [CashEntry(run, row.currency, row.Delta(),
         PriorBalance(s.cash, run, row.currency) + row.Delta(), stamp)],
       orders := s.orders[row.order := AfterFill(o, record)])
  }

  /** A fill whose key is new. The ledger is replayed twice, by both bookkeepings, before anything is stored. */
  function RecordNew(s: Account, id: string, o: PaperOrder, f: PaperFill, currency: string, rowId: string, stamp: int)
    : Result<Account, PaperError>
    requires id in s.orders && s.orders[id] == o && f.Valid() && forall r | r in s.fills :: r.fill.Valid()
  {
    if FillRefused(s, o, f, currency).Some? then Failure(FillRefused(s, o, f, currency).value)
    else
      var target := if o.filled + f.quantity == o.quantity then OrderState.Filled else OrderState.PartiallyFilled;
      match o.Record().Transition(target, f.quantity)
      case None => Failure(InvalidTransition)
      case Some(record) =>
        var row := RowFor(rowId, id, o, f, currency);
        match Replayed(s, row)
        case Failure(e) => Failure(PaperError.LedgerRefused(e))
        case Success(book) =>
          if exists r | r in s.fills :: r.id == rowId then Failure(Collision)
          else Success(Recorded(s, row, record, book, stamp))
  }

  function RecordFill(s: Account, id: string, f: PaperFill, currency: string, rowId: string, stamp: int)
    : Result<Account, PaperError>
    requires f.Valid() && forall r | r in s.fills :: r.fill.Valid()
  {
    if exists r | r in s.fills :: r.fill.key == f.key then
      if exists r | r in s.fills :: r.fill == f && r.order == id && r.currency == currency then Success(s)
      else Failure(IdempotencyConflict)
    else if id !in s.orders then Failure(OrderNotFound)
    else RecordNew(s, id, s.orders[id], f, currency, rowId, stamp)
  }

  // ---- Stops and latches ----------------------------------------------------------------------

  function MayStop(role: Role, request: StopRequest): Option<PaperError> {
    if role.PaperRole? && !request.automatic then Some(ManualStopRequiresOwner)
    else if role.OtherRole? then Some(Forbidden)
    else None
  }

  function StopRun(s: Account, role: Role, run: string, request: StopRequest, key: string): Result<Account, PaperError> {
    if MayStop(role, request).Some? then Failure(MayStop(role, request).value)
    else if run !in s.runs then Failure(RunNotFound)
    else if key in s.done then
      if s.done[key] == RunStopped(run, request) then Success(s) else Failure(IdempotencyConflict)
    else Success(s.(stops := s.stops + [(run, request.scope)], done := s.done[key := RunStopped(run, request)]))
  }

  predicate InScope(venue: Option<string>, o: PaperOrder) {
    venue.None? || venue == Some(o.intent.venue)
  }

  /** Working and risk-increasing, in the latch's scope. Orders being reconciled are not on this list. */
  predicate Cancellable(venue: Option<string>, o: PaperOrder) {
    && (o.state.Acknowledged? || o.state.PartiallyFilled? || o.state.Amended? || o.state.CancelPending?)
    && !o.intent.reduceOnly && InScope(venue, o)
  }

  function CancelAll(orders: map<string, PaperOrder>, venue: Option<string>): (cancelled: map<string, PaperOrder>)
    ensures cancelled.Keys == orders.Keys
  {
    map id | id in orders :: if Cancellable(venue, orders[id]) then CancelOrder(orders[id]) else orders[id]
  }

  function DeactivateAll(runs: map<string, PaperRun>): (inactive: map<string, PaperRun>)
    ensures inactive.Keys == runs.Keys
  {
    map id | id in runs :: runs[id].(active := false)
  }

  predicate LatchHeld(s: Account, venue: Option<string>) {
    exists l | l in s.latches :: s.latches[l].active && s.latches[l].venue == venue
  }

  function ScopeVenue(scope: StopScope): Option<string> {
    if scope.Venue? then Some(scope.venue) else None
  }

  function Latching(s: Account, request: StopRequest, key: string, latch: string): Account {
    var venue := ScopeVenue(request.scope);
    s.(latches := s.latches[latch := Latch(venue, true)], orders := CancelAll(s.orders, venue),
       runs := if venue.None? then DeactivateAll(s.runs) else s.runs, done := s.done[key := Latched(latch, request)])
  }

  function EmergencyStop(s: Account, role: Role, request: StopRequest, key: string, latch: string)
    : Result<Account, PaperError>
  {
    if request.scope.Strategy? then Failure(GlobalScopeRequired)
    else if MayStop(role, request).Some? then Failure(MayStop(role, request).value)
    else if key in s.done then
      if s.done[key].Latched? && s.done[key].request == request then Success(s) else Failure(IdempotencyConflict)
    else if LatchHeld(s, ScopeVenue(request.scope)) then Failure(StopAlreadyActive)
    else if latch in s.latches then Failure(Collision)
    else Success(Latching(s, request, key, latch))
  }

  function Release(s: Account, role: Role, latch: string, key: string): Result<Account, PaperError> {
    if !role.OwnerRole? then Failure(ReleaseRequiresOwner)
    else if latch !in s.latches then Failure(LatchNotFound)
    else if key in s.done then if s.done[key] == Unlatched(latch) then Success(s) else Failure(IdempotencyConflict)
    else if !s.latches[latch].active then Failure(StopNotActive)
    else Success(s.(latches := s.latches[latch := s.latches[latch].(active := false)],
                    done := s.done[key := Unlatched(latch)]))
  }

  // ---- Histories ------------------------------------------------------------------------------

  datatype Operation =
    | DoStart(run: string, config: PaperRun, key: string)
    | DoReconcile(run: string, key: string, valid: bool)
    | DoRestart(run: string, key: string)
    | DoSubmit(run: string, intent: OrderIntent, spec: InstrumentSpec, snapshot: MarketSnapshot,
               envelope: RiskEnvelope, pool: string, now: int, id: string)
    | DoMarkUnknown(order: string, reason: string, key: string)
    | DoFill(order: string, fill: PaperFill, currency: string, rowId: string, stamp: int)
    | DoCancel(order: string, key: string)
    | DoStop(role: Role, run: string, request: StopRequest, key: string)
    | DoLatch(role: Role, request: StopRequest, key: string, latch: string)
    | DoRelease(role: Role, latch: string, key: string)

  /** What the request types themselves guarantee. */
  predicate Legal(op: Operation) {
    && (op.DoStart? ==> op.config.envelope.maxPortfolio > 0.0)
    && (op.DoSubmit? ==> op.intent.Valid() && op.snapshot.Valid())
    && (op.DoFill? ==> op.fill.Valid())
  }

  predicate FillsValid(s: Account) {
    forall r | r in s.fills :: r.fill.Valid()
  }

  function Kept(s: Account, r: Result<Account, PaperError>): Account {
    match r case Success(s') => s' case Failure(_) => s
  }

  /** A refused operation rolls back and changes nothing. */
  function Step(s: Account, op: Operation): Account
    requires Legal(op) && FillsValid(s)
  {
    match op
    case DoStart(run, spec, key) => Kept(s, StartRun(s, run, spec, key))
    case DoReconcile(run, key, valid) =>
      (match Reconcile(s, run, key, valid) case Success(r) => r.0 case Failure(_) => s)
    case DoRestart(run, key) => Kept(s, Restart(s, run, key))
    case DoSubmit(run, o, spec, m, e, pool, now, id) => Kept(s, Submit(s, run, o, spec, m, e, pool, now, id))
    case DoMarkUnknown(id, reason, key) => Kept(s, MarkUnknown(s, id, reason, key))
    case DoFill(id, f, currency, rowId, stamp) => Kept(s, RecordFill(s, id, f, currency, rowId, stamp))
    case DoCancel(id, key) => Kept(s, Cancel(s, id, key))
    case DoStop(role, run, request, key) => Kept(s, StopRun(s, role, run, request, key))
    case DoLatch(role, request, key, latch) => Kept(s, EmergencyStop(s, role, request, key, latch))
    case DoRelease(role, latch, key) => Kept(s, Release(s, role, latch, key))
  }
}
