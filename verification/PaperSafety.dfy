/** What every paper account keeps: conserved reservations, bounded pools, honest positions, and closed latches. */
module PaperSafety {
  import opened Prelude
  import opened Accounting
  import opened Execution
  import opened PaperTrading

  // ---- Reservations ---------------------------------------------------------------------------

  ghost predicate ReservationOk(o: PaperOrder) {
    var r := o.reservation;
    && o.quantity > 0.0 && 0.0 <= o.filled <= o.quantity
    && r.original > 0.0 && r.working >= 0.0 && r.position >= 0.0 && r.released >= 0.0
    && r.original == r.working + r.position + r.released
    && r.position == ConvertedShare(r, o.filled, o.quantity)
    && (if o.state.Cancelled? then r.working == 0.0 else r.released == 0.0)
    && (r.state.Released? ==> r.working == 0.0 && r.position == 0.0)
    && (match o.state
        case Acknowledged => o.filled == 0.0
        case UnknownReconciling => o.filled == 0.0
        case PartiallyFilled => 0.0 < o.filled < o.quantity
        case Filled => o.filled == o.quantity
        case Cancelled => o.filled < o.quantity
        case _ => false)
  }

  /** The converted share runs from nothing at no fill to the whole reservation at a complete fill. */
  lemma ShareBounds(original: real, filled: real, quantity: real)
    requires original > 0.0 && quantity > 0.0 && 0.0 <= filled <= quantity
    ensures 0.0 <= Notional(original, Quotient(filled, quantity)) <= original
    ensures filled > 0.0 ==> Notional(original, Quotient(filled, quantity)) > 0.0
    ensures filled == 0.0 ==> Notional(original, Quotient(filled, quantity)) == 0.0
    ensures filled == quantity ==> Notional(original, Quotient(filled, quantity)) == original
  {
    var share := filled / quantity;
    assert share * quantity == filled;
    assert 0.0 <= share <= 1.0;
    assert original - original * share == original * (1.0 - share);
  }

  lemma NewOrderOk(run: string, o: OrderIntent, pool: string, checked: Checked)
    requires checked.amount > 0.0 && checked.quantity > 0.0
    ensures ReservationOk(NewOrder(run, o, pool, checked))
  {
    hide Notional, Quotient;
    ShareBounds(checked.amount, 0.0, checked.quantity);
  }

  lemma CancelledOk(o: PaperOrder)
    requires ReservationOk(o) && (o.state.Acknowledged? || o.state.PartiallyFilled?)
    ensures ReservationOk(CancelOrder(o))
  {
    hide Notional, Quotient;
  }

  lemma FilledOk(o: PaperOrder, target: OrderState, fill: real)
    requires ReservationOk(o) && fill > 0.0 && o.Record().Transition(target, fill).Some?
    requires target == if o.filled + fill == o.quantity then OrderState.Filled else OrderState.PartiallyFilled
    ensures var o' := AfterFill(o, o.Record().Transition(target, fill).value);
      && ReservationOk(o') && o'.filled == o.filled + fill && o'.reservation.original == o.reservation.original
      && o'.reservation.working + o'.reservation.position == o.reservation.working + o.reservation.position
      && o'.reservation.state.Converted?
  {
    hide Notional, Quotient;
    ShareBounds(o.reservation.original, o.filled + fill, o.quantity);
  }

  lemma UnknownOk(o: PaperOrder)
    requires ReservationOk(o) && o.Record().Transition(UnknownReconciling, 0.0).Some?
    ensures o.state.Acknowledged?
    ensures ReservationOk(o.(state := UnknownReconciling, reservation := o.reservation.(state := Unreconciled)))
  {
    hide Notional, Quotient;
  }

  /** A pretrade check that passes reserves a positive amount for a positive quantity within the portfolio limit. */
  lemma PretradeFacts(
    o: OrderIntent, spec: InstrumentSpec, m: MarketSnapshot, e: RiskEnvelope, position: real, portfolio: real, now: int)
    requires spec.Valid() && m.Valid() && o.Valid() && Pretrade(o, spec, m, e, position, portfolio, now).Success?
    ensures var checked := Pretrade(o, spec, m, e, position, portfolio, now).value;
      checked.amount > 0.0 && checked.quantity > 0.0 && portfolio + checked.amount <= e.maxPortfolio
  {
    hide FloorTo, CeilTo, ValidateOrder, Notional;
    var reference := if o.side.Buy? then m.ask else m.bid;
    var quantity := FloorTo(o.quantity, spec.lot);
    PositiveProduct(quantity, reference);
    PositiveProduct(Notional(quantity, reference), spec.multiplier);
  }

  // ---- Account-wide totals --------------------------------------------------------------------

  ghost function FilledOf(fills: seq<FillRow>, order: string): real {
    if |fills| == 0 then 0.0
    else
      var last := fills[|fills| - 1];
      FilledOf(fills[..|fills| - 1], order) + if last.order == order then last.fill.quantity else 0.0
  }

  /** The plain signed sum of a market's fills. */
  ghost function SignedIn(fills: seq<FillRow>, market: (string, string, string)): real {
    if |fills| == 0 then 0.0
    else
      var last := fills[|fills| - 1];
      SignedIn(fills[..|fills| - 1], market)
      + if last.market == market then last.side.Toward(last.fill.quantity) else 0.0
  }

  ghost predicate Distinct(ids: seq<string>) {
    forall i, j | 0 <= i < j < |ids| :: ids[i] != ids[j]
  }

  ghost predicate OrdersOk(s: Account) {
    && Distinct(s.placed) && (forall id :: id in s.placed <==> id in s.orders)
    && (forall id | id in s.orders :: ReservationOk(s.orders[id]) && s.orders[id].run in s.runs)
    && (forall id | id in s.orders :: s.orders[id].filled == FilledOf(s.fills, id))
    && (forall a, b | a in s.orders && b in s.orders
          && s.orders[a].intent.clientOrderId == s.orders[b].intent.clientOrderId :: a == b)
  }

  ghost predicate FillsOk(s: Account) {
    && FillsValid(s)
    && (forall r | r in s.fills :: r.order in s.orders && r.market == s.orders[r.order].Market()
          && r.side == s.orders[r.order].intent.side)
    && (forall m :: PositionIn(s, m) == SignedIn(s.fills, m))
    && |s.cash| == |s.fills|
    && (forall i | 0 <= i < |s.fills| ::
          s.cash[i].run == s.fills[i].market.0 && s.cash[i].currency == s.fills[i].currency
          && s.cash[i].delta == s.fills[i].Delta())
  }

  ghost predicate RiskOk(s: Account) {
    forall run, pool | run in s.runs :: PoolRisk(s, s.placed, run, pool) <= s.runs[run].envelope.maxPortfolio
  }

  ghost predicate LatchOk(s: Account) {
    GloballyLatched(s) ==> forall run | run in s.runs :: !s.runs[run].active
  }

  ghost predicate AccountOk(s: Account) {
    OrdersOk(s) && FillsOk(s) && RiskOk(s) && LatchOk(s)
  }

  // ---- Pool risk ------------------------------------------------------------------------------

  ghost function Share(o: PaperOrder, run: string, pool: string): real {
    if o.run == run && o.reservation.pool == pool && !o.reservation.state.Released?
    then o.reservation.working + o.reservation.position else 0.0
  }

  lemma {:induction false} RiskFrame(s: Account, s': Account, placed: seq<string>, run: string, pool: string)
    requires forall id | id in placed ::
      && id in s.orders && id in s'.orders
      && Share(s'.orders[id], run, pool) <= Share(s.orders[id], run, pool)
    ensures PoolRisk(s', placed, run, pool) <= PoolRisk(s, placed, run, pool)
  {
    if |placed| > 0 {
      assert placed[|placed| - 1] in placed;
      RiskFrame(s, s', placed[..|placed| - 1], run, pool);
    }
  }

  lemma {:induction false} NoOrdersNoRisk(s: Account, placed: seq<string>, run: string, pool: string)
    requires forall id | id in s.orders :: s.orders[id].run != run
    ensures PoolRisk(s, placed, run, pool) == 0.0
  {
    if |placed| > 0 {
      NoOrdersNoRisk(s, placed[..|placed| - 1], run, pool);
    }
  }

  /** No order's share of any pool grows, so no pool's risk does. */
  lemma RiskOnlyFalls(s: Account, s': Account)
    requires RiskOk(s) && s'.placed == s.placed && s'.orders.Keys == s.orders.Keys
    requires s'.runs.Keys == s.runs.Keys && forall run | run in s.runs :: s'.runs[run].envelope == s.runs[run].envelope
    requires forall id :: id in s.placed <==> id in s.orders
    requires forall id, run, pool | id in s.orders :: Share(s'.orders[id], run, pool) <= Share(s.orders[id], run, pool)
    ensures RiskOk(s')
  {
    forall run, pool | run in s'.runs ensures PoolRisk(s', s'.placed, run, pool) <= s'.runs[run].envelope.maxPortfolio {
      RiskFrame(s, s', s.placed, run, pool);
    }
  }

  // ---- Each operation -------------------------------------------------------------------------

  /** Everything but the latches and the runs' activity is as it was. */
  ghost predicate SameTrading(s: Account, s': Account) {
    && s'.orders == s.orders && s'.placed == s.placed && s'.fills == s.fills && s'.positions == s.positions
    && s'.cash == s.cash && s'.runs.Keys == s.runs.Keys
    && forall run | run in s.runs :: s'.runs[run].envelope == s.runs[run].envelope
  }

  lemma SameTradingKeeps(s: Account, s': Account)
    requires OrdersOk(s) && FillsOk(s) && RiskOk(s) && SameTrading(s, s')
    ensures OrdersOk(s') && FillsOk(s') && RiskOk(s')
  {
    hide ReservationOk, Distinct, PoolRisk, Share;
    assert RiskOk(s') by {
      RiskOnlyFalls(s, s');
    }
    hide RiskOk;
  }

  lemma StartKeeps(s: Account, run: string, config: PaperRun, key: string)
    requires AccountOk(s) && StartRun(s, run, config, key).Success? && config.envelope.maxPortfolio > 0.0
    ensures AccountOk(StartRun(s, run, config, key).value)
  {
    hide ReservationOk, Distinct;
    var s' := StartRun(s, run, config, key).value;
    if run !in s.runs {
      forall r, pool | r in s'.runs ensures PoolRisk(s', s'.placed, r, pool) <= s'.runs[r].envelope.maxPortfolio {
        if r == run {
          NoOrdersNoRisk(s', s'.placed, run, pool);
        } else {
          RiskFrame(s, s', s.placed, r, pool);
        }
      }
    }
    hide PoolRisk, Share;
  }

  lemma ReconcileKeeps(s: Account, run: string, key: string, valid: bool)
    requires AccountOk(s) && Reconcile(s, run, key, valid).Success?
    ensures AccountOk(Reconcile(s, run, key, valid).value.0)
  {
    hide OrdersOk, FillsOk, RiskOk;
    SameTradingKeeps(s, Reconcile(s, run, key, valid).value.0);
  }

  lemma RestartKeeps(s: Account, run: string, key: string)
    requires AccountOk(s) && Restart(s, run, key).Success?
    ensures AccountOk(Restart(s, run, key).value)
  {
    hide OrdersOk, FillsOk, RiskOk;
    SameTradingKeeps(s, Restart(s, run, key).value);
  }

  lemma StopRunKeeps(s: Account, role: Role, run: string, request: StopRequest, key: string)
    requires AccountOk(s) && StopRun(s, role, run, request, key).Success?
    ensures AccountOk(StopRun(s, role, run, request, key).value)
  {
    hide OrdersOk, FillsOk, RiskOk;
    SameTradingKeeps(s, StopRun(s, role, run, request, key).value);
  }

  lemma ReleaseKeeps(s: Account, role: Role, latch: string, key: string)
    requires AccountOk(s) && Release(s, role, latch, key).Success?
    ensures AccountOk(Release(s, role, latch, key).value)
  {
    hide OrdersOk, FillsOk, RiskOk;
    var s' := Release(s, role, latch, key).value;
    SameTradingKeeps(s, s');
    if GloballyLatched(s') {
      var l :| l in s'.latches && s'.latches[l].active && s'.latches[l].venue.None?;
      assert s.latches[l].active && s.latches[l].venue.None?;
    }
  }

  lemma {:induction false} NeverFilledYet(fills: seq<FillRow>, id: string)
    requires forall r | r in fills :: r.order != id
    ensures FilledOf(fills, id) == 0.0
  {
    if |fills| > 0 {
      NeverFilledYet(fills[..|fills| - 1], id);
    }
  }

  /** What an accepted new order adds. */
  ghost predicate Accepts(s: Account, s': Account, run: string, pool: string, id: string, amount: real) {
    && run in s.runs && s.runs[run].active && id !in s.orders
    && s'.placed == s.placed + [id] && s'.orders.Keys == s.orders.Keys + {id}
    && (forall x | x in s.orders :: s'.orders[x] == s.orders[x])
    && s' == s.(orders := s'.orders, placed := s'.placed)
    && s'.orders[id].run == run && s'.orders[id].filled == 0.0 && ReservationOk(s'.orders[id])
    && s'.orders[id].reservation.pool == pool && s'.orders[id].reservation.original == amount
    && s'.orders[id].reservation.working == amount && s'.orders[id].state.Acknowledged?
    && PoolRisk(s, s.placed, run, pool) + amount <= s.runs[run].envelope.maxPortfolio
    && (forall x | x in s.orders :: s.orders[x].intent.clientOrderId != s'.orders[id].intent.clientOrderId)
    && !StoppedFor(s, run, s'.orders[id].intent)
  }

  lemma SubmitAccepts(
    s: Account, run: string, o: OrderIntent, spec: InstrumentSpec, m: MarketSnapshot, e: RiskEnvelope, pool: string,
    now: int, id: string) returns (amount: real)
    requires o.Valid() && m.Valid() && !Requested(s, o.clientOrderId)
    requires SubmitNew(s, run, o, spec, m, e, pool, now, id).Success?
    ensures Accepts(s, SubmitNew(s, run, o, spec, m, e, pool, now, id).value, run, pool, id, amount)
    ensures SubmitNew(s, run, o, spec, m, e, pool, now, id).value.orders[id].intent == o
  {
    hide Pretrade, PoolRisk, PositionIn, ReservationOk, StoppedFor;
    var pinned := PinnedSpec(s.runs[run], o.venue, o.instrumentId, o.submission).value;
    PretradeFacts(o, pinned, m, e, PositionIn(s, (run, o.venue, o.instrumentId)), PoolRisk(s, s.placed, run, pool), now);
    var checked := Pretrade(o, pinned, m, e, PositionIn(s, (run, o.venue, o.instrumentId)),
      PoolRisk(s, s.placed, run, pool), now).value;
    NewOrderOk(run, o, pool, checked);
    amount := checked.amount;
  }

  lemma AcceptsKeepsFills(s: Account, s': Account, run: string, pool: string, id: string, amount: real)
    requires FillsOk(s) && Accepts(s, s', run, pool, id, amount)
    ensures FillsOk(s')
  {
    hide ReservationOk, PoolRisk, StoppedFor, SignedIn;
    forall m ensures PositionIn(s', m) == SignedIn(s'.fills, m) {
      assert PositionIn(s, m) == SignedIn(s.fills, m);
    }
    hide PositionIn;
  }

  lemma DistinctGrows(placed: seq<string>, id: string)
    requires Distinct(placed) && id !in placed
    ensures Distinct(placed + [id])
  {}

  lemma AcceptsKeepsOrders(s: Account, s': Account, run: string, pool: string, id: string, amount: real)
    requires OrdersOk(s) && FillsOk(s) && Accepts(s, s', run, pool, id, amount)
    ensures OrdersOk(s') && FillsOk(s')
  {
    AcceptsKeepsFills(s, s', run, pool, id, amount);
    NeverFilledYet(s.fills, id);
    DistinctGrows(s.placed, id);
    hide FillsOk, ReservationOk, PoolRisk, StoppedFor, FilledOf, Distinct;
  }

  lemma AcceptsKeepsRisk(s: Account, s': Account, run: string, pool: string, id: string, amount: real)
    requires OrdersOk(s) && RiskOk(s) && Accepts(s, s', run, pool, id, amount)
    ensures RiskOk(s')
  {
    hide Distinct, StoppedFor, FilledOf;
    assert s'.placed[..|s'.placed| - 1] == s.placed;
    forall r, p | r in s'.runs ensures PoolRisk(s', s'.placed, r, p) <= s'.runs[r].envelope.maxPortfolio {
      RiskFrame(s, s', s.placed, r, p);
    }
  }

  lemma SubmitKeeps(
    s: Account, run: string, o: OrderIntent, spec: InstrumentSpec, m: MarketSnapshot, e: RiskEnvelope, pool: string,
    now: int, id: string)
    requires AccountOk(s) && o.Valid() && m.Valid() && Submit(s, run, o, spec, m, e, pool, now, id).Success?
    ensures AccountOk(Submit(s, run, o, spec, m, e, pool, now, id).value)
  {
    hide OrdersOk, FillsOk, RiskOk, SubmitNew;
    if !Requested(s, o.clientOrderId) {
      var amount := SubmitAccepts(s, run, o, spec, m, e, pool, now, id);
      var s' := SubmitNew(s, run, o, spec, m, e, pool, now, id).value;
      AcceptsKeepsOrders(s, s', run, pool, id, amount);
      AcceptsKeepsRisk(s, s', run, pool, id, amount);
    }
  }

  /** Some orders are replaced by sound versions of themselves that hold no more risk; nothing is filled. */
  lemma ReplacedOrdersKeep(s: Account, s': Account)
    requires OrdersOk(s) && FillsOk(s) && RiskOk(s)
    requires s'.placed == s.placed && s'.fills == s.fills && s'.positions == s.positions && s'.cash == s.cash
    requires s'.orders.Keys == s.orders.Keys && s'.runs.Keys == s.runs.Keys
    requires forall run | run in s.runs :: s'.runs[run].envelope == s.runs[run].envelope
    requires forall id | id in s.orders ::
      && s'.orders[id].run == s.orders[id].run && s'.orders[id].intent == s.orders[id].intent
      && s'.orders[id].filled == s.orders[id].filled && ReservationOk(s'.orders[id])
      && forall run, pool :: Share(s'.orders[id], run, pool) <= Share(s.orders[id], run, pool)
    ensures OrdersOk(s') && FillsOk(s') && RiskOk(s')
  {
    hide ReservationOk, Share, PoolRisk, Distinct;
    RiskOnlyFalls(s, s');
    hide RiskOk;
  }

  lemma CancelledShare(o: PaperOrder)
    requires ReservationOk(o)
    ensures forall run, pool :: Share(CancelOrder(o), run, pool) <= Share(o, run, pool)
  {
    hide ConvertedShare;
  }

  lemma MarkUnknownKeeps(s: Account, id: string, reason: string, key: string)
    requires AccountOk(s) && MarkUnknown(s, id, reason, key).Success?
    ensures AccountOk(MarkUnknown(s, id, reason, key).value)
  {
    hide FillsOk, RiskOk, ReservationOk, PoolRisk, Distinct;
    var s' := MarkUnknown(s, id, reason, key).value;
    if key !in s.done {
      UnknownOk(s.orders[id]);
      assert ReservationOk(s.orders[id]);
      UnknownShare(s.orders[id]);
      hide OrderRecord.Transition, Share;
      ReplacedOrdersKeep(s, s');
    }
  }

  lemma UnknownShare(o: PaperOrder)
    requires ReservationOk(o) && o.state.Acknowledged?
    ensures var o' := o.(state := UnknownReconciling, reservation := o.reservation.(state := Unreconciled));
      forall run, pool :: Share(o', run, pool) <= Share(o, run, pool)
  {
    hide ConvertedShare;
  }

  lemma CancelKeeps(s: Account, id: string, key: string)
    requires AccountOk(s) && Cancel(s, id, key).Success?
    ensures AccountOk(Cancel(s, id, key).value)
  {
    hide FillsOk, RiskOk, ReservationOk, PoolRisk, Distinct, Share;
    var s' := Cancel(s, id, key).value;
    if key !in s.done {
      assert ReservationOk(s.orders[id]);
      LiveStates(s.orders[id]);
      CancelledOk(s.orders[id]);
      CancelledShare(s.orders[id]);
      hide OrderRecord.Transition, Freed;
      ReplacedOrdersKeep(s, s');
    }
  }

  lemma LiveStates(o: PaperOrder)
    requires ReservationOk(o)
    ensures o.state in {Acknowledged, UnknownReconciling, PartiallyFilled, Filled, Cancelled}
  {}

  lemma LatchKeeps(s: Account, role: Role, request: StopRequest, key: string, latch: string)
    requires AccountOk(s) && EmergencyStop(s, role, request, key, latch).Success?
    ensures AccountOk(EmergencyStop(s, role, request, key, latch).value)
  {
    hide FillsOk, RiskOk, ReservationOk, PoolRisk, Distinct, Share, Freed, CancelOrder;
    if key !in s.done {
      var s', venue := Latching(s, request, key, latch), ScopeVenue(request.scope);
      forall id | id in s.orders
        ensures s'.orders[id].run == s.orders[id].run && s'.orders[id].intent == s.orders[id].intent
        ensures s'.orders[id].filled == s.orders[id].filled && ReservationOk(s'.orders[id])
        ensures forall run, pool :: Share(s'.orders[id], run, pool) <= Share(s.orders[id], run, pool)
      {
        assert ReservationOk(s.orders[id]);
        LiveStates(s.orders[id]);
        if Cancellable(venue, s.orders[id]) {
          CancelledOk(s.orders[id]);
          CancelledShare(s.orders[id]);
          CancelledIsSameOrder(s.orders[id]);
        }
      }
      ReplacedOrdersKeep(s, s');
      if GloballyLatched(s') && venue.Some? {
        var l :| l in s'.latches && s'.latches[l].active && s'.latches[l].venue.None?;
        assert l in s.latches && s.latches[l].active;
      }
    }
  }

  lemma CancelledIsSameOrder(o: PaperOrder)
    ensures CancelOrder(o).run == o.run && CancelOrder(o).intent == o.intent && CancelOrder(o).filled == o.filled
  {}

  // ---- Recording a fill -----------------------------------------------------------------------

  lemma {:induction false} RowsNet(fills: seq<FillRow>, market: (string, string, string))
    ensures NetQuantity(AsFills(RowsOf(fills, market))) == SignedIn(fills, market)
  {
    if |fills| > 0 {
      hide AsFills, NetQuantity;
      var front, last := fills[..|fills| - 1], fills[|fills| - 1];
      RowsNet(front, market);
      if last.market == market {
        OneMoreRow(RowsOf(front, market), last);
      } else {
        assert RowsOf(fills, market) == RowsOf(front, market);
      }
    }
  }

  lemma OneMoreRow(rows: seq<FillRow>, last: FillRow)
    ensures AsFills(rows + [last]) == AsFills(rows) + [last.AsFill(last.id)]
    ensures NetQuantity(AsFills(rows + [last])) == NetQuantity(AsFills(rows)) + last.side.Toward(last.fill.quantity)
  {
    assert (rows + [last])[..|rows|] == rows;
    var all := AsFills(rows + [last]);
    assert all[..|all| - 1] == AsFills(rows);
  }

  /** The replayed book holds exactly the market's signed total with the new fill. */
  lemma ReplayedPosition(s: Account, row: FillRow)
    requires row.fill.Valid() && FillsValid(s) && Replayed(s, row).Success?
    ensures Replayed(s, row).value.position == SignedIn(s.fills, row.market) + row.side.Toward(row.fill.quantity)
    ensures Sound(Replayed(s, row).value) && Replayed(s, row).value.starting == 0.0
  {
    hide Sound, SignedIn, NetQuantity, AverageAfter, RealizedBy, SeenFill, AdditiveCosts;
    RowsAreValid(s.fills, row.market);
    var fills := AsFills(RowsOf(s.fills, row.market));
    AcceptedExactlyWhen(0.0, fills);
    var book := ApplyAll(0.0, fills).value;
    ApplyKeepsSound(book, row.AsFill(row.fill.key));
    RowsNet(s.fills, row.market);
    SoundPosition(book);
  }

  lemma SoundPosition(b: Book)
    requires Sound(b)
    ensures b.position == NetQuantity(b.fills)
  {}

  lemma RecordedKeepsPositions(s: Account, row: FillRow, record: OrderRecord, book: Book, stamp: int)
    requires row.order in s.orders && forall m :: PositionIn(s, m) == SignedIn(s.fills, m)
    requires book.position == SignedIn(s.fills, row.market) + row.side.Toward(row.fill.quantity)
    ensures var s' := Recorded(s, row, record, book, stamp); forall m :: PositionIn(s', m) == SignedIn(s'.fills, m)
  {
    hide ConvertedShare, PriorBalance, AfterFill;
    var s' := Recorded(s, row, record, book, stamp);
    assert s'.fills[..|s'.fills| - 1] == s.fills;
    forall m ensures PositionIn(s', m) == SignedIn(s'.fills, m) {
      assert PositionIn(s, m) == SignedIn(s.fills, m);
    }
  }

  lemma RecordedKeepsFills(s: Account, row: FillRow, record: OrderRecord, book: Book, stamp: int)
    requires FillsOk(s) && row.fill.Valid() && row.order in s.orders
    requires row.market == s.orders[row.order].Market() && row.side == s.orders[row.order].intent.side
    requires book.position == SignedIn(s.fills, row.market) + row.side.Toward(row.fill.quantity)
    ensures FillsOk(Recorded(s, row, record, book, stamp))
  {
    RecordedKeepsPositions(s, row, record, book, stamp);
    hide ConvertedShare, PriorBalance, PositionIn, SignedIn;
  }

  lemma FilledOfAppend(fills: seq<FillRow>, row: FillRow, id: string)
    ensures FilledOf(fills + [row], id) == FilledOf(fills, id) + if row.order == id then row.fill.quantity else 0.0
  {
    assert (fills + [row])[..|fills|] == fills;
  }

  lemma RecordedKeepsOrders(s: Account, row: FillRow, record: OrderRecord, book: Book, stamp: int)
    requires OrdersOk(s) && RiskOk(s) && row.order in s.orders
    requires var o, o' := s.orders[row.order], AfterFill(s.orders[row.order], record);
      && ReservationOk(o') && o'.filled == o.filled + row.fill.quantity
      && forall run, pool :: Share(o', run, pool) <= Share(o, run, pool)
    ensures OrdersOk(Recorded(s, row, record, book, stamp)) && RiskOk(Recorded(s, row, record, book, stamp))
  {
    hide ReservationOk, Share, PoolRisk, PriorBalance, FilledOf, Distinct;
    var s' := Recorded(s, row, record, book, stamp);
    forall id {
      FilledOfAppend(s.fills, row, id);
    }
    RiskOnlyFalls(s, s');
    hide RiskOk, ConvertedShare;
  }

  lemma FillKeepsShare(o: PaperOrder, o': PaperOrder)
    requires ReservationOk(o) && !o.state.Cancelled? && o'.run == o.run && o'.reservation.pool == o.reservation.pool
    requires o'.reservation.working + o'.reservation.position == o.reservation.working + o.reservation.position
    ensures forall run, pool :: Share(o', run, pool) <= Share(o, run, pool)
  {
    hide ConvertedShare;
  }

  lemma RecordNewKeeps(s: Account, id: string, f: PaperFill, currency: string, rowId: string, stamp: int)
    requires AccountOk(s) && id in s.orders && f.Valid()
    requires RecordNew(s, id, s.orders[id], f, currency, rowId, stamp).Success?
    ensures AccountOk(RecordNew(s, id, s.orders[id], f, currency, rowId, stamp).value)
  {
    hide RiskOk, FillRefused, ReservationOk, Replayed, Distinct, FilledOf, Share;
    var o := s.orders[id];
    var target := if o.filled + f.quantity == o.quantity then OrderState.Filled else OrderState.PartiallyFilled;
    var record, row := o.Record().Transition(target, f.quantity).value, RowFor(rowId, id, o, f, currency);
    assert ReservationOk(o);
    FilledOk(o, target, f.quantity);
    FillKeepsShare(o, AfterFill(o, record));
    ReplayedPosition(s, row);
    var book := Replayed(s, row).value;
    RecordedKeepsFills(s, row, record, book, stamp);
    RecordedKeepsOrders(s, row, record, book, stamp);
    hide OrdersOk, FillsOk;
  }

  lemma RecordFillKeeps(s: Account, id: string, f: PaperFill, currency: string, rowId: string, stamp: int)
    requires AccountOk(s) && f.Valid() && RecordFill(s, id, f, currency, rowId, stamp).Success?
    ensures AccountOk(RecordFill(s, id, f, currency, rowId, stamp).value)
  {
    hide OrdersOk, RiskOk, LatchOk, RecordNew;
    if !exists r | r in s.fills :: r.fill.key == f.key {
      RecordNewKeeps(s, id, f, currency, rowId, stamp);
    }
  }

  // ---- Histories ------------------------------------------------------------------------------

  lemma StepKeeps(s: Account, op: Operation)
    requires AccountOk(s) && Legal(op)
    ensures AccountOk(Step(s, op))
  {
    hide OrdersOk, RiskOk, LatchOk;
    hide StartRun, Reconcile, Restart, Submit, MarkUnknown, RecordFill, Cancel, StopRun, EmergencyStop, Release;
    match op
    case DoStart(run, config, key) => if StartRun(s, run, config, key).Success? { StartKeeps(s, run, config, key); }
    case DoReconcile(run, key, valid) => if Reconcile(s, run, key, valid).Success? { ReconcileKeeps(s, run, key, valid); }
    case DoRestart(run, key) => if Restart(s, run, key).Success? { RestartKeeps(s, run, key); }
    case DoSubmit(run, o, spec, m, e, pool, now, id) =>
      if Submit(s, run, o, spec, m, e, pool, now, id).Success? { SubmitKeeps(s, run, o, spec, m, e, pool, now, id); }
    case DoMarkUnknown(id, reason, key) =>
      if MarkUnknown(s, id, reason, key).Success? { MarkUnknownKeeps(s, id, reason, key); }
    case DoFill(id, f, currency, rowId, stamp) =>
      if RecordFill(s, id, f, currency, rowId, stamp).Success? { RecordFillKeeps(s, id, f, currency, rowId, stamp); }
    case DoCancel(id, key) => if Cancel(s, id, key).Success? { CancelKeeps(s, id, key); }
    case DoStop(role, run, request, key) =>
      if StopRun(s, role, run, request, key).Success? { StopRunKeeps(s, role, run, request, key); }
    case DoLatch(role, request, key, latch) =>
      if EmergencyStop(s, role, request, key, latch).Success? { LatchKeeps(s, role, request, key, latch); }
    case DoRelease(role, latch, key) =>
      if Release(s, role, latch, key).Success? { ReleaseKeeps(s, role, latch, key); }
  }

  ghost predicate AllLegal(history: seq<Operation>) {
    forall op | op in history :: Legal(op)
  }

  /** The account after a history. The two tests never fail on a legal history: see `HistoryKeeps`. */
  ghost function After(s: Account, history: seq<Operation>): Account {
    if |history| == 0 then s
    else
      var earlier, last := After(s, history[..|history| - 1]), history[|history| - 1];
      if Legal(last) && FillsValid(earlier) then Step(earlier, last) else earlier
  }

  lemma {:induction false} HistoryKeeps(s: Account, history: seq<Operation>)
    requires AccountOk(s) && AllLegal(history)
    ensures AccountOk(After(s, history)) && FillsValid(After(s, history))
  {
    hide OrdersOk, RiskOk, LatchOk, Step;
    if |history| > 0 {
      HistoryKeeps(s, history[..|history| - 1]);
      StepKeeps(After(s, history[..|history| - 1]), history[|history| - 1]);
    }
  }

  lemma NoAccountOk()
    ensures AccountOk(NoAccount)
  {}
}
