/** What every replay keeps, bar by bar and order by order. */
module BacktestSafety {
  import opened Prelude
  import opened Accounting
  import opened Reference
  import opened Execution
  import opened Backtest
  import Agreement

  // ---- What is kept ---------------------------------------------------------------------------

  ghost predicate MoneySafe(c: Config, b: Book) {
    && Sound(b) && b.starting == c.startingCash
    && b.cash >= 0.0 && b.position >= 0.0 && IsMultiple(b.position, c.spec.lot)
  }

  ghost function FilledFor(fills: seq<Fill>, id: string): real {
    if |fills| == 0 then 0.0
    else
      var last := fills[|fills| - 1];
      FilledFor(fills[..|fills| - 1], id) + if last.orderId == id then last.quantity else 0.0
  }

  ghost function TradedAt(fills: seq<Fill>, when: int): real {
    if |fills| == 0 then 0.0
    else
      var last := fills[|fills| - 1];
      TradedAt(fills[..|fills| - 1], when) + if last.timestamp == when then last.quantity else 0.0
  }

  /** A fill honours the order it belongs to: side, lot grid, normalized limit and venue band. */
  ghost predicate Honours(c: Config, row: OrderRow, f: Fill) {
    && row.normalized.Some? && f.side == row.intent.side && IsMultiple(f.quantity, c.spec.lot)
    && !BelowBound(c.spec.priceLower, f.price) && !AboveBound(c.spec.priceUpper, f.price)
    && (row.normalized.value.limitPrice.Some? ==>
          if f.side.Buy? then f.price <= row.normalized.value.limitPrice.value
          else f.price >= row.normalized.value.limitPrice.value)
  }

  ghost predicate RowOk(c: Config, fills: seq<Fill>, row: OrderRow, id: string) {
    && row.intent.Valid() && row.intent.clientOrderId == id
    && row.filled == FilledFor(fills, id) && row.filled >= 0.0
    && (row.normalized.Some? ==> c.Valid() && Normalized(c, row.intent) == Success(row.normalized.value))
    && (if row.normalized.Some? then row.filled <= row.normalized.value.quantity else row.filled == 0.0)
    && (row.status.Filled? ==> row.normalized.Some? && row.filled == row.normalized.value.quantity)
    && forall f | f in fills && f.orderId == id :: Honours(c, row, f)
  }

  ghost predicate PendingOk(c: Config, row: OrderRow, o: OrderIntent) {
    && o.Valid()
    && ((row.status.Submitted? && row.filled == 0.0 && o == row.intent)
        || (row.status.PartiallyFilled? && row.normalized.Some? && IsMultiple(o.quantity, c.spec.lot)
            && o == row.normalized.value.(quantity := o.quantity)
            && row.filled + o.quantity == row.normalized.value.quantity))
  }

  ghost predicate DeskOk(c: Config, fills: seq<Fill>, d: Desk) {
    && Linked(d)
    && (forall id :: id in d.ids <==> id in d.orders)
    && (forall id | id in d.orders :: RowOk(c, fills, d.orders[id], id))
    && (forall id | id in d.orders :: d.orders[id].status.Terminal() <==> id !in d.pending)
    && (forall id | id in d.pending :: PendingOk(c, d.orders[id], d.pending[id]))
    && (forall f | f in fills :: f.orderId in d.orders)
  }

  // ---- Normalizing is stable ------------------------------------------------------------------

  lemma WholeNumber(k: int)
    ensures Truncate(k as real) == k && AwayFromZero(k as real) == k
  {}

  lemma RoundingAgain(value: real, increment: real)
    requires increment > 0.0
    ensures CeilTo(CeilTo(value, increment), increment) == CeilTo(value, increment)
    ensures FloorTo(FloorTo(value, increment), increment) == FloorTo(value, increment)
  {
    hide Times, Quotient, Truncate, AwayFromZero;
    var up, down := AwayFromZero(Quotient(value, increment)), Truncate(Quotient(value, increment));
    QuotientOfMultiple(up, increment);
    QuotientOfMultiple(down, increment);
    WholeNumber(up);
    WholeNumber(down);
  }

  /** The rest of a normalized order normalizes to itself. */
  lemma RestNormalizesToItself(c: Config, first: OrderIntent, o: OrderIntent)
    requires c.Valid() && first.Valid() && o.Valid() && IsMultiple(o.quantity, c.spec.lot)
    requires Normalized(c, first).Success? && o == Normalized(c, first).value.(quantity := o.quantity)
    requires Normalized(c, o).Success?
    ensures Normalized(c, o).value == o
  {
    hide FloorTo, CeilTo;
    FloorToFacts(o.quantity, c.spec.lot);
    if first.orderType.Limit? {
      RoundingAgain(first.limitPrice.value, c.spec.tick);
    }
  }

  /** `n` is what is still open of the remembered normalized order. */
  ghost predicate Ready(c: Config, row: OrderRow, n: OrderIntent) {
    && row.normalized.Some? && n.Valid() && IsMultiple(n.quantity, c.spec.lot)
    && n == row.normalized.value.(quantity := n.quantity)
    && row.filled + n.quantity == row.normalized.value.quantity
  }

  lemma RememberedIsReady(c: Config, fills: seq<Fill>, d: Desk, id: string)
    requires c.Valid() && DeskOk(c, fills, d) && id in d.pending && Normalized(c, d.pending[id]).Success?
    ensures var d', n := Remember(d, id, Normalized(c, d.pending[id]).value), Normalized(c, d.pending[id]).value;
      DeskOk(c, fills, d') && Ready(c, d'.orders[id], n) && n.clientOrderId == id && d'.pending == d.pending
  {
    hide Normalized;
    var o, row := d.pending[id], d.orders[id];
    assert RowOk(c, fills, row, id) && PendingOk(c, row, o);
    NormalizedFacts(c, o);
    if row.status.PartiallyFilled? {
      NormalizedFacts(c, row.intent);
      RestNormalizesToItself(c, row.intent, o);
    }
    var n := Normalized(c, o).value;
    var d' := Remember(d, id, n);
    forall other | other in d'.orders ensures RowOk(c, fills, d'.orders[other], other) {
      assert RowOk(c, fills, d.orders[other], other);
    }
    forall other | other in d'.pending ensures PendingOk(c, d'.orders[other], d'.pending[other]) {
      assert PendingOk(c, d.orders[other], d.pending[other]);
    }
  }

  // ---- Desk steps -----------------------------------------------------------------------------

  lemma RetireKeeps(c: Config, fills: seq<Fill>, d: Desk, id: string, status: OrderStatus, when: int)
    requires DeskOk(c, fills, d) && id in d.pending && status.Terminal()
    requires status.Filled? ==>
      d.orders[id].normalized.Some? && d.orders[id].filled == d.orders[id].normalized.value.quantity
    ensures DeskOk(c, fills, Retire(d, id, status, when))
  {
    var d' := Retire(d, id, status, when);
    forall other | other in d'.orders ensures RowOk(c, fills, d'.orders[other], other) {
      assert RowOk(c, fills, d.orders[other], other);
    }
    forall other | other in d'.pending ensures PendingOk(c, d'.orders[other], d'.pending[other]) {
      assert PendingOk(c, d.orders[other], d.pending[other]);
    }
  }

  lemma RefuseKeeps(c: Config, fills: seq<Fill>, d: Desk, id: string, reason: Rejection, when: int)
    requires DeskOk(c, fills, d) && id in d.pending
    ensures DeskOk(c, fills, Refuse(d, id, reason, when))
  {
    RetireKeeps(c, fills, d, id, Rejected, when);
  }

  lemma ExpireKeeps(c: Config, fills: seq<Fill>, d: Desk, o: OrderIntent, when: int)
    requires DeskOk(c, fills, d) && o.clientOrderId in d.orders
    ensures DeskOk(c, fills, Expire(d, o, when))
  {
    if o.clientOrderId in d.pending {
      RetireKeeps(c, fills, d, o.clientOrderId, Cancelled, when);
    }
  }

  lemma OtherRowKeeps(c: Config, fills: seq<Fill>, f: Fill, row: OrderRow, id: string)
    requires RowOk(c, fills, row, id) && f.orderId != id
    ensures RowOk(c, fills + [f], row, id)
  {
    hide Honours, Normalized;
    var all := fills + [f];
    assert all[..|all| - 1] == fills && all[|all| - 1] == f;
  }

  lemma OwnRowKeeps(c: Config, fills: seq<Fill>, f: Fill, row: OrderRow, id: string, row': OrderRow)
    requires RowOk(c, fills, row, id) && f.orderId == id && f.quantity > 0.0 && row.normalized.Some?
    requires row' == row.(filled := row.filled + f.quantity, status := row'.status)
    requires Honours(c, row, f)
    requires row'.filled <= row.normalized.value.quantity
    requires row'.status.Filled? ==> row'.filled == row.normalized.value.quantity
    ensures RowOk(c, fills + [f], row', id)
  {
    hide Normalized;
    var all := fills + [f];
    assert all[..|all| - 1] == fills && all[|all| - 1] == f;
    forall g | g in all && g.orderId == id ensures Honours(c, row', g) {
      if g in fills {
        assert Honours(c, row, g);
      }
    }
  }

  /** Booking a fill moves exactly one order's row, and that row still honours its normalized order. */
  lemma SettleKeeps(c: Config, fills: seq<Fill>, d: Desk, n: OrderIntent, e: Execution, s: MarketSnapshot, f: Fill)
    requires c.Valid() && DeskOk(c, fills, d) && n.clientOrderId in d.pending
    requires Ready(c, d.orders[n.clientOrderId], n)
    requires f.orderId == n.clientOrderId && f.side == n.side && f.quantity == e.quantity && f.price == e.price
    requires 0.0 < e.quantity <= n.quantity && IsMultiple(e.quantity, c.spec.lot)
    requires !BelowBound(c.spec.priceLower, e.price) && !AboveBound(c.spec.priceUpper, e.price)
    requires n.limitPrice.Some? ==> if n.side.Buy? then e.price <= n.limitPrice.value else e.price >= n.limitPrice.value
    ensures DeskOk(c, fills + [f], Settle(d, n, e, s))
  {
    hide RowOk, IsMultiple, BelowBound, AboveBound, Spend, DeskOk, Honours;
    LinkedOf(c, fills, d);
    assert RowOk(c, fills, d.orders[n.clientOrderId], n.clientOrderId) by { RowOf(c, fills, d, n.clientOrderId); }
    var id, row, d' := n.clientOrderId, d.orders[n.clientOrderId], Settle(d, n, e, s);
    SideOfRow(c, fills, row, id, n);
    assert Honours(c, row, f) by { HonoursNormalized(c, row, n, f); }
    OwnRowKeeps(c, fills, f, row, id, d'.orders[id]);
    if e.quantity < n.quantity {
      MultipleSum(n.quantity, e.quantity, c.spec.lot);
    }
    OneRowMoves(c, fills, d, f, id, d');
  }

  lemma RowOf(c: Config, fills: seq<Fill>, d: Desk, id: string)
    requires DeskOk(c, fills, d) && id in d.orders
    ensures RowOk(c, fills, d.orders[id], id)
  {}

  lemma HonoursNormalized(c: Config, row: OrderRow, n: OrderIntent, f: Fill)
    requires Ready(c, row, n) && n.side == row.intent.side && f.side == n.side && IsMultiple(f.quantity, c.spec.lot)
    requires !BelowBound(c.spec.priceLower, f.price) && !AboveBound(c.spec.priceUpper, f.price)
    requires n.limitPrice.Some? ==> if n.side.Buy? then f.price <= n.limitPrice.value else f.price >= n.limitPrice.value
    ensures Honours(c, row, f)
  {}

  /** A new fill together with its order's new row and pending entry; every other order is untouched. */
  lemma OneRowMoves(c: Config, fills: seq<Fill>, d: Desk, f: Fill, id: string, d': Desk)
    requires DeskOk(c, fills, d) && id in d.orders && id in d'.orders && f.orderId == id
    requires d'.ids == d.ids && d'.orders == d.orders[id := d'.orders[id]]
    requires d'.pending - {id} == d.pending - {id}
    requires RowOk(c, fills + [f], d'.orders[id], id)
    requires d'.orders[id].status.Terminal() <==> id !in d'.pending
    requires id in d'.pending ==> d'.pending[id].clientOrderId == id && PendingOk(c, d'.orders[id], d'.pending[id])
    ensures DeskOk(c, fills + [f], d')
  {
    hide RowOk, PendingOk;
    forall other | other in d'.orders ensures RowOk(c, fills + [f], d'.orders[other], other) {
      if other != id {
        OtherRowKeeps(c, fills, f, d.orders[other], other);
      }
    }
    forall other | other in d'.pending
      ensures other in d'.orders && d'.pending[other].clientOrderId == other
      ensures PendingOk(c, d'.orders[other], d'.pending[other])
    {
      if other != id {
        assert other in d'.pending - {id};
        assert other in d.pending && d.pending[other] == (d.pending - {id})[other];
      }
    }
    forall other | other in d'.orders ensures d'.orders[other].status.Terminal() <==> other !in d'.pending {
      if other != id {
        assert other in d'.pending <==> other in d'.pending - {id};
        assert other in d.pending <==> other in d.pending - {id};
      }
    }
  }

  lemma SideOfRow(c: Config, fills: seq<Fill>, row: OrderRow, id: string, n: OrderIntent)
    requires c.Valid() && RowOk(c, fills, row, id) && Ready(c, row, n)
    ensures n.side == row.intent.side && row.filled + n.quantity == row.normalized.value.quantity
  {
    hide Normalized;
    NormalizedFacts(c, row.intent);
  }

  lemma BookKeeps(c: Config, b: Book, n: OrderIntent, e: Execution, f: Fill)
    requires c.Valid() && MoneySafe(c, b) && f.Valid() && ApplyFill(b, f).Success?
    requires f.side == n.side && f.quantity == e.quantity && f.price == e.price && f.fee == e.fee
    requires AdditiveTotal(f.costs) == e.slippage + e.impact
    requires IsMultiple(e.quantity, c.spec.lot)
    requires b.cash - n.side.Toward(Notional(e.quantity, e.price)) - e.fee - e.slippage - e.impact >= 0.0
    requires n.side.Sell? ==> e.quantity <= b.position
    ensures MoneySafe(c, ApplyFill(b, f).value)
  {
    hide Notional, Quotient, Times, NetOutlay, NetQuantity;
    ApplyKeepsSound(b, f);
    MultipleSum(b.position, e.quantity, c.spec.lot);
    NotionalAdds(e.quantity, 0.0, e.price);
  }

  lemma CostsOfFill(n: OrderIntent, e: Execution, index: nat, when: int)
    ensures AdditiveTotal(FillOf(n, e, index, when).costs) == e.slippage + e.impact
    ensures !HasOrphan(FillOf(n, e, index, when).costs)
    ensures forall k | k in FillOf(n, e, index, when).costs :: k.Valid()
  {
    var costs := FillOf(n, e, index, when).costs;
    assert costs[..1] == [costs[0]] && costs[..1][..0] == [];
    assert AdditiveTotal(costs[..1]) == e.slippage;
  }

  // ---- One order at one bar -------------------------------------------------------------------

  /** What one worked order, or a whole bar of them, may do to fills and liquidity. */
  ghost predicate Advances(w: Worked, w': Worked, when: int) {
    && 0.0 <= w'.liquidity <= w.liquidity
    && w.book.fills <= w'.book.fills
    && (forall i | |w.book.fills| <= i < |w'.book.fills| :: w'.book.fills[i].timestamp == when)
    && TradedAt(w'.book.fills, when) + w'.liquidity == TradedAt(w.book.fills, when) + w.liquidity
  }

  ghost predicate Safe(c: Config, w: Worked) {
    MoneySafe(c, w.book) && DeskOk(c, w.book.fills, w.desk) && w.liquidity >= 0.0
  }

  lemma MeetKeeps(c: Config, bar: Bar, s: MarketSnapshot, index: nat, w: Worked, n: OrderIntent)
    requires c.Valid() && s.Valid() && Safe(c, w) && n.clientOrderId in w.desk.pending
    requires Ready(c, w.desk.orders[n.clientOrderId], n)
    ensures var r := Meet(c, bar, s, index, w, n);
      r.Success? ==> Safe(c, r.value) && Advances(w, r.value, s.timestamp)
    ensures Meet(c, bar, s, index, w, n) != Failure(AccountingDisagreement)
  {
    hide Decide, DeskOk, MoneySafe, Ready, FillOf, Settle, Expire, Refuse, Linked, ApplyFill;
    LinkedOf(c, w.book.fills, w.desk);
    var id, when := n.clientOrderId, s.timestamp;
    match Decide(c, bar.open, s, n, w.book.cash, w.book.position, w.liquidity)
    case Stop(h) => DecideNeverDisagrees(c, bar.open, s, n, w.book.cash, w.book.position, w.liquidity);
    case Reject(reason) => RefuseKeeps(c, w.book.fills, w.desk, id, reason, when);
    case Idle => ExpireKeeps(c, w.book.fills, w.desk, n, when);
    case Execute(e) =>
      var fill := FillOf(n, e, index, when);
      if !fill.Valid() {
        RefuseKeeps(c, w.book.fills, w.desk, id, InvalidFill, when);
      } else if ApplyFill(w.book, fill).Failure? {
        RefuseKeeps(c, w.book.fills, w.desk, id, LedgerRefused(ApplyFill(w.book, fill).error), when);
      } else {
        ExecutedKeeps(c, bar, s, index, w, n, e);
      }
  }

  lemma LinkedOf(c: Config, fills: seq<Fill>, d: Desk)
    requires DeskOk(c, fills, d)
    ensures Linked(d)
    ensures d.pending.Keys <= d.orders.Keys
  {}

  lemma DecideNeverDisagrees(
    c: Config, open: real, s: MarketSnapshot, o: OrderIntent, cash: real, position: real, liquidity: real)
    requires c.Valid()
    ensures Decide(c, open, s, o, cash, position, liquidity) != Stop(AccountingDisagreement)
  {
    hide Notional, FloorTo, ValidateOrder, Marketable, TakerPrice, BasisPoints;
  }

  lemma ExecutedKeeps(c: Config, bar: Bar, s: MarketSnapshot, index: nat, w: Worked, n: OrderIntent, e: Execution)
    requires c.Valid() && s.Valid() && Safe(c, w) && n.clientOrderId in w.desk.pending
    requires Ready(c, w.desk.orders[n.clientOrderId], n)
    requires Decide(c, bar.open, s, n, w.book.cash, w.book.position, w.liquidity) == Execute(e)
    requires FillOf(n, e, index, s.timestamp).Valid()
    requires ApplyFill(w.book, FillOf(n, e, index, s.timestamp)).Success?
    ensures var w' := Worked(ApplyFill(w.book, FillOf(n, e, index, s.timestamp)).value,
        Expire(Settle(w.desk, n, e, s), n, s.timestamp), w.liquidity - e.quantity);
      Safe(c, w') && Advances(w, w', s.timestamp)
  {
    hide Decide, DeskOk, Settle, Expire, Notional, Quotient, MoneySafe, BelowBound, AboveBound;
    LinkedOf(c, w.book.fills, w.desk);
    var fill := FillOf(n, e, index, s.timestamp);
    ExecutionIsSafe(c, bar.open, s, n, w.book.cash, w.book.position, w.liquidity);
    CostsOfFill(n, e, index, s.timestamp);
    BookKeeps(c, w.book, n, e, fill);
    SettleKeeps(c, w.book.fills, w.desk, n, e, s, fill);
    ExpireKeeps(c, w.book.fills + [fill], Settle(w.desk, n, e, s), n, s.timestamp);
    var book := ApplyFill(w.book, fill).value;
    assert book.fills == w.book.fills + [fill];
    assert book.fills[..|book.fills| - 1] == w.book.fills;
  }

  lemma WorkOneKeeps(c: Config, bar: Bar, s: MarketSnapshot, index: nat, w: Worked, id: string)
    requires c.Valid() && s.Valid() && Safe(c, w) && Linked(w.desk)
    ensures var r := WorkOne(c, bar, s, index, w, id);
      r.Success? ==> Safe(c, r.value) && Advances(w, r.value, s.timestamp)
    ensures WorkOne(c, bar, s, index, w, id) != Failure(AccountingDisagreement)
  {
    hide DeskOk, Normalized, Meet, Refuse, Remember, Ready, MoneySafe;
    LinkedOf(c, w.book.fills, w.desk);
    if id in w.desk.pending {
      var o := w.desk.pending[id];
      if s.timestamp >= o.submission + c.model.latency {
        match Precheck(c, s, o)
        case Stopped(h) =>
        case Refused(reason) => RefuseKeeps(c, w.book.fills, w.desk, id, reason, s.timestamp);
        case Clear =>
          match Normalized(c, o)
          case Failure(reason) => RefuseKeeps(c, w.book.fills, w.desk, id, reason, s.timestamp);
          case Success(n) =>
            RememberedIsReady(c, w.book.fills, w.desk, id);
            MeetKeeps(c, bar, s, index, w.(desk := Remember(w.desk, id, n)), n);
      }
    }
  }

  // ---- One bar --------------------------------------------------------------------------------

  lemma {:induction false} TradedAppend(fills: seq<Fill>, more: seq<Fill>, when: int)
    ensures TradedAt(fills + more, when) == TradedAt(fills, when) + TradedAt(more, when)
  {
    if |more| == 0 {
      assert fills + more == fills;
    } else {
      assert (fills + more)[..|fills + more| - 1] == fills + more[..|more| - 1];
      TradedAppend(fills, more[..|more| - 1], when);
    }
  }

  lemma {:induction false} NothingTraded(fills: seq<Fill>, when: int)
    requires forall f | f in fills :: f.timestamp != when
    ensures TradedAt(fills, when) == 0.0
  {
    if |fills| > 0 {
      NothingTraded(fills[..|fills| - 1], when);
    }
  }

  lemma {:induction false} WorkAllKeeps(c: Config, bar: Bar, s: MarketSnapshot, index: nat, w: Worked, ids: seq<string>)
    requires c.Valid() && s.Valid() && Safe(c, w) && Linked(w.desk)
    ensures var r := WorkAll(c, bar, s, index, w, ids);
      r.Success? ==> Safe(c, r.value) && Advances(w, r.value, s.timestamp)
    ensures WorkAll(c, bar, s, index, w, ids) != Failure(AccountingDisagreement)
  {
    hide WorkOne, MoneySafe, DeskOk, Linked, TradedAt;
    if |ids| > 0 {
      WorkAllKeeps(c, bar, s, index, w, ids[..|ids| - 1]);
      var earlier := WorkAll(c, bar, s, index, w, ids[..|ids| - 1]);
      if earlier.Success? {
        WorkOneKeeps(c, bar, s, index, earlier.value, ids[|ids| - 1]);
        var r := WorkOne(c, bar, s, index, earlier.value, ids[|ids| - 1]);
        if r.Success? {
          var w1, w2 := earlier.value, r.value;
          forall i | |w.book.fills| <= i < |w2.book.fills| ensures w2.book.fills[i].timestamp == s.timestamp {
            if i < |w1.book.fills| {
              assert w2.book.fills[i] == w1.book.fills[i];
            }
          }
        }
      }
    }
  }

  lemma SoundPassesCrossCheck(c: Config, b: Book, mark: real)
    requires Sound(b) && b.starting == c.startingCash
    ensures CrossCheck(c, b, mark).Success?
    ensures var r := CrossCheck(c, b, mark).value;
      r.cash == b.cash && r.position == b.position && r.equity == b.Equity(mark)
  {
    hide Sound, Notional, Reconciled;
    Agreement.SoundBookAgrees(b, mark);
  }

  // ---- The whole tape -------------------------------------------------------------------------

  ghost predicate Increasing(ordered: seq<Bar>) {
    forall i, j | 0 <= i < j < |ordered| :: ordered[i].timestamp < ordered[j].timestamp
  }

  /** A tape the replay screened: valid bars, strictly increasing in time. */
  ghost predicate TapeOk(ordered: seq<Bar>) {
    (forall bar | bar in ordered :: bar.Valid()) && Increasing(ordered)
  }

  ghost predicate Chronological(fills: seq<Fill>) {
    forall i, j | 0 <= i < j < |fills| :: fills[i].timestamp <= fills[j].timestamp
  }

  ghost predicate FromBars(fills: seq<Fill>, ordered: seq<Bar>, n: nat)
    requires n <= |ordered|
  {
    forall f | f in fills :: exists i | 0 <= i < n :: ordered[i].timestamp == f.timestamp
  }

  ghost predicate WithinLiquidity(c: Config, fills: seq<Fill>, bar: Bar) {
    bar.Snapshot().Some? && TradedAt(fills, bar.timestamp) <= Capacity(c, bar.Snapshot().value)
  }

  ghost predicate ObservationOk(c: Config, bar: Bar, o: Observation) {
    && o.timestamp == bar.timestamp && o.mark == bar.close
    && o.cash >= 0.0 && o.position >= 0.0 && IsMultiple(o.position, c.spec.lot)
    && o.equity == o.cash + Notional(o.position, o.mark)
    && o.reference.cash == o.cash && o.reference.position == o.position && o.reference.equity == o.equity
  }

  ghost predicate RunOk(c: Config, ordered: seq<Bar>, n: nat, sim: Sim)
    requires n <= |ordered|
  {
    && MoneySafe(c, sim.book) && DeskOk(c, sim.book.fills, sim.desk)
    && Chronological(sim.book.fills) && FromBars(sim.book.fills, ordered, n)
    && (forall i | 0 <= i < n :: WithinLiquidity(c, sim.book.fills, ordered[i]))
    && |sim.observations| == |sim.curve| == n
    && (forall i | 0 <= i < n :: ObservationOk(c, ordered[i], sim.observations[i]))
    && (forall i | 0 <= i < n :: sim.curve[i] == (ordered[i].timestamp, sim.observations[i].equity))
  }

  lemma AskedKeeps(c: Config, p: Program, earlier: seq<Bar>, bar: Bar, book: Book, desk: Desk)
    requires c.Valid() && DeskOk(c, book.fills, desk) && Asked(c, p, earlier, bar, book, desk).Success?
    ensures DeskOk(c, book.fills, Asked(c, p, earlier, bar, book, desk).value)
  {
    hide Intended, DeskOk, Linked;
    var intended := Intended(c, p, earlier, bar, book.position, desk.pending == map[]);
    if intended.value.Some? {
      PlaceKeeps(c, book.fills, desk, intended.value.value, bar.timestamp);
    }
  }

  lemma PlacedRowOk(c: Config, fills: seq<Fill>, o: OrderIntent)
    requires o.Valid() && forall f | f in fills :: f.orderId != o.clientOrderId
    ensures RowOk(c, fills, OrderRow(o, Option.None, Submitted, 0.0), o.clientOrderId)
    ensures PendingOk(c, OrderRow(o, Option.None, Submitted, 0.0), o)
  {
    hide Honours, Normalized;
    NeverFilled(fills, o.clientOrderId);
  }

  lemma PlaceKeeps(c: Config, fills: seq<Fill>, desk: Desk, o: OrderIntent, when: int)
    requires DeskOk(c, fills, desk) && o.Valid() && o.clientOrderId !in desk.orders
    ensures DeskOk(c, fills, Place(desk, o, when))
  {
    hide RowOk, PendingOk;
    PlacedRowOk(c, fills, o);
  }

  lemma {:induction false} NeverFilled(fills: seq<Fill>, id: string)
    requires forall f | f in fills :: f.orderId != id
    ensures FilledFor(fills, id) == 0.0
  {
    if |fills| > 0 {
      NeverFilled(fills[..|fills| - 1], id);
    }
  }

  /** New fills all carry the bar's own time, so they share that bar's liquidity and no other's. */
  lemma LiquidityShared(c: Config, ordered: seq<Bar>, n: nat, w: Worked, w': Worked, s: MarketSnapshot)
    requires c.Valid() && n < |ordered| && TapeOk(ordered) && ordered[n].Snapshot() == Some(s)
    requires FromBars(w.book.fills, ordered, n) && Chronological(w.book.fills)
    requires forall i | 0 <= i < n :: WithinLiquidity(c, w.book.fills, ordered[i])
    requires w.liquidity == Capacity(c, s) && Advances(w, w', s.timestamp)
    ensures FromBars(w'.book.fills, ordered, n + 1) && Chronological(w'.book.fills)
    ensures forall i | 0 <= i < n + 1 :: WithinLiquidity(c, w'.book.fills, ordered[i])
  {
    hide TradedAt, Capacity;
    var fills, fills' := w.book.fills, w'.book.fills;
    var more := fills'[|fills|..];
    assert fills' == fills + more;
    assert ordered[n] in ordered && s.timestamp == ordered[n].timestamp;
    forall f | f in fills' ensures exists i | 0 <= i < n + 1 :: ordered[i].timestamp == f.timestamp {
      if f in fills {
        var i :| 0 <= i < n && ordered[i].timestamp == f.timestamp;
      } else {
        var i :| |fills| <= i < |fills'| && fills'[i] == f;
        assert ordered[n].timestamp == f.timestamp;
      }
    }
    forall i, j | 0 <= i < j < |fills'| ensures fills'[i].timestamp <= fills'[j].timestamp {
      if j >= |fills| && i < |fills| {
        assert fills[i] in fills;
        var k :| 0 <= k < n && ordered[k].timestamp == fills[i].timestamp;
      }
    }
    forall i | 0 <= i < n + 1 ensures WithinLiquidity(c, fills', ordered[i]) {
      if i < n {
        assert WithinLiquidity(c, fills, ordered[i]);
        TradedAppend(fills, more, ordered[i].timestamp);
        NothingTraded(more, ordered[i].timestamp);
      } else {
        forall f | f in fills ensures f.timestamp != s.timestamp {
          var k :| 0 <= k < n && ordered[k].timestamp == f.timestamp;
        }
        NothingTraded(fills, s.timestamp);
      }
    }
  }

  lemma SnapshotValid(bar: Bar)
    requires bar.Valid() && bar.Snapshot().Some?
    ensures bar.Snapshot().value.Valid() && bar.Snapshot().value.timestamp == bar.timestamp
  {}

  lemma CapacityNonnegative(c: Config, s: MarketSnapshot)
    requires c.Valid() && s.Valid()
    ensures Capacity(c, s) >= 0.0
  {
    PositiveProduct(s.available, c.model.participation);
  }

  lemma BarStepKeeps(c: Config, p: Program, ordered: seq<Bar>, n: nat, sim: Sim)
    requires c.Valid() && n < |ordered| && TapeOk(ordered) && RunOk(c, ordered, n, sim) && Linked(sim.desk)
    ensures var r := BarStep(c, p, ordered, n, sim); r.Success? ==> RunOk(c, ordered, n + 1, r.value)
    ensures BarStep(c, p, ordered, n, sim) != Failure(AccountingDisagreement)
  {
    hide Asked, WorkAll, CrossCheck, DeskOk, Chronological, FromBars, WithinLiquidity, Advances, Capacity, Sound, Linked;
    hide Notional, IsMultiple;
    var bar := ordered[n];
    assert bar in ordered;
    AskedNeverDisagrees(c, p, ordered[..n], bar, sim.book, sim.desk);
    var asked := Asked(c, p, ordered[..n], bar, sim.book, sim.desk);
    if bar.availableAt <= bar.timestamp && asked.Success? && bar.Snapshot().Some? {
      var s := bar.Snapshot().value;
      SnapshotValid(bar);
      CapacityNonnegative(c, s);
      AskedKeeps(c, p, ordered[..n], bar, sim.book, sim.desk);
      var w := Worked(sim.book, asked.value, Capacity(c, s));
      LinkedOf(c, sim.book.fills, asked.value);
      WorkAllKeeps(c, bar, s, n, w, asked.value.ids);
      var worked := WorkAll(c, bar, s, n, w, asked.value.ids);
      if worked.Success? {
        var w' := worked.value;
        LiquidityShared(c, ordered, n, w, w', s);
        SoundPassesCrossCheck(c, w'.book, bar.close);
      }
    }
  }

  lemma AskedNeverDisagrees(c: Config, p: Program, earlier: seq<Bar>, bar: Bar, book: Book, desk: Desk)
    ensures Asked(c, p, earlier, bar, book, desk) != Failure(AccountingDisagreement)
  {}

  lemma NothingYetOk(c: Config, ordered: seq<Bar>)
    requires c.Valid()
    ensures RunOk(c, ordered, 0, Sim(OpenBook(c.startingCash), NoDesk, [], []))
  {
    MultipleIntro(0.0, c.spec.lot, 0);
    NotionalAdds(0.0, 0.0, 0.0);
  }

  lemma {:induction false} AfterKeeps(c: Config, p: Program, ordered: seq<Bar>, n: nat)
    requires c.Valid() && n <= |ordered| && TapeOk(ordered)
    ensures After(c, p, ordered, n).Success? ==> RunOk(c, ordered, n, After(c, p, ordered, n).value)
    ensures After(c, p, ordered, n) != Failure(AccountingDisagreement)
  {
    hide BarStep, RunOk, Linked, TapeOk;
    if n == 0 {
      NothingYetOk(c, ordered);
    } else {
      AfterKeeps(c, p, ordered, n - 1);
      if After(c, p, ordered, n - 1).Success? {
        BarStepKeeps(c, p, ordered, n - 1, After(c, p, ordered, n - 1).value);
      }
    }
  }

  // ---- Sorting --------------------------------------------------------------------------------

  ghost predicate Ascending(bars: seq<Bar>) {
    forall i, j | 0 <= i < j < |bars| :: bars[i].timestamp <= bars[j].timestamp
  }

  lemma {:induction false} InsertAdds(bar: Bar, sorted: seq<Bar>)
    ensures multiset(Insert(bar, sorted)) == multiset(sorted) + multiset{bar}
  {
    if |sorted| > 0 {
      assert sorted == sorted[..|sorted| - 1] + [sorted[|sorted| - 1]];
      InsertAdds(bar, sorted[..|sorted| - 1]);
    }
  }

  lemma {:induction false} InsertSorts(bar: Bar, sorted: seq<Bar>)
    requires Ascending(sorted)
    ensures Ascending(Insert(bar, sorted))
    ensures |Insert(bar, sorted)| == |sorted| + 1
    ensures var last := Insert(bar, sorted)[|sorted|];
      last == bar || (|sorted| > 0 && last == sorted[|sorted| - 1])
  {
    if |sorted| > 0 && sorted[|sorted| - 1].timestamp > bar.timestamp {
      var front, last := sorted[..|sorted| - 1], sorted[|sorted| - 1];
      InsertSorts(bar, front);
      var r := Insert(bar, front);
      forall i | 0 <= i < |r| ensures r[i].timestamp <= last.timestamp {
        assert r[i].timestamp <= r[|r| - 1].timestamp;
      }
    }
  }

  /** The tape the engine replays is the given bars in time order, none lost and none invented. */
  lemma {:induction false} SortedSorts(bars: seq<Bar>)
    ensures Ascending(Sorted(bars)) && multiset(Sorted(bars)) == multiset(bars)
  {
    if |bars| > 0 {
      var front := bars[..|bars| - 1];
      assert bars == front + [bars[|bars| - 1]];
      SortedSorts(front);
      InsertSorts(bars[|bars| - 1], Sorted(front));
      InsertAdds(bars[|bars| - 1], Sorted(front));
    }
  }

  lemma {:induction false} SortedAlready(bars: seq<Bar>)
    requires Increasing(bars)
    ensures Sorted(bars) == bars && !Repeats(bars)
  {
    if |bars| > 0 {
      var front, last := bars[..|bars| - 1], bars[|bars| - 1];
      SortedAlready(front);
      assert bars == front + [last];
    }
  }

  lemma {:induction false} CancelRestCostsNothing(d: Desk, ids: seq<string>, when: int)
    requires Linked(d)
    ensures CancelRest(d, ids, when).costs == d.costs
  {
    hide Linked;
    if |ids| > 0 {
      CancelRestCostsNothing(d, ids[..|ids| - 1], when);
    }
  }

  lemma ScreenedTapeOk(bars: seq<Bar>)
    requires (forall bar | bar in bars :: bar.Valid()) && !Repeats(Sorted(bars))
    ensures TapeOk(Sorted(bars))
  {
    SortedSorts(bars);
    forall bar | bar in Sorted(bars) ensures bar.Valid() {
      assert bar in multiset(Sorted(bars));
    }
  }
}
