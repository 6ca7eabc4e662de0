/** The replay loop as the engine runs it: a ledger object, and local state rewritten bar by bar. */
module Engine {
  import opened Prelude
  import opened Accounting
  import opened Reference
  import opened Execution
  import opened Backtest

  /** Applies an execution to the ledger object and the desk; a refused fill rejects the order. */
  method BookExecution(
    index: nat, s: MarketSnapshot, ledger: LedgerState, d: Desk, liquidity: real, n: OrderIntent, e: Execution)
    returns (d': Desk, left: real)
    requires n.clientOrderId in d.orders && Linked(d)
    modifies ledger
    ensures Linked(d')
    ensures var fill, before := FillOf(n, e, index, s.timestamp), old(ledger.Contents());
      if !fill.Valid() then
        d' == Refuse(d, n.clientOrderId, InvalidFill, s.timestamp) && left == liquidity && ledger.Contents() == before
      else match ApplyFill(before, fill)
        case Failure(error) =>
          && d' == Refuse(d, n.clientOrderId, LedgerRefused(error), s.timestamp) && left == liquidity
          && ledger.Contents() == before
        case Success(book) =>
          && ledger.Contents() == book && left == liquidity - e.quantity
          && d' == Expire(Settle(d, n, e, s), n, s.timestamp)
  {
    var id, when := n.clientOrderId, s.timestamp;
    var fill := FillOf(n, e, index, when);
    d', left := d, liquidity;
    if !fill.Valid() {
      d' := Refuse(d, id, InvalidFill, when);
      return;
    }
    var refused := ledger.Apply(fill);
    if refused.Some? {
      d' := Refuse(d, id, LedgerRefused(refused.value), when);
      return;
    }
    var row := d.orders[id];
    d' := d'.(costs := Spend(d.costs, n, e, s));
    left := left - e.quantity;
    d' := d'.(orders := d'.orders[id := row.(filled := row.filled + e.quantity)]);
    if e.quantity == n.quantity {
      d' := Mark(d', id, Filled, when);
      d' := d'.(pending := d'.pending - {id});
    } else {
      d' := Mark(d', id, PartiallyFilled, when);
      d' := d'.(pending := d'.pending[id := n.(quantity := n.quantity - e.quantity)]);
    }
    assert d' == Settle(d, n, e, s);
    if id in d'.pending && !n.timeInForce.Gtc? {
      d' := Mark(d', id, Cancelled, when);
      d' := d'.(pending := d'.pending - {id});
    }
  }

  lemma NormalizedKeepsId(c: Config, o: OrderIntent)
    requires c.Valid() && Normalized(c, o).Success?
    ensures Normalized(c, o).value.clientOrderId == o.clientOrderId
  {}

  lemma RememberKeeps(d: Desk, id: string, n: OrderIntent)
    requires id in d.orders
    ensures Remember(d, id, n).orders.Keys == d.orders.Keys
  {}

  method WorkOrder(
    c: Config, bar: Bar, s: MarketSnapshot, index: nat, ledger: LedgerState, d: Desk, liquidity: real, id: string)
    returns (halt: Option<Halt>, d': Desk, left: real)
    requires c.Valid() && Linked(d)
    modifies ledger
    ensures Linked(d')
    ensures halt.Some? ==>
      WorkOne(c, bar, s, index, Worked(old(ledger.Contents()), d, liquidity), id) == Failure(halt.value)
    ensures halt.None? ==>
      WorkOne(c, bar, s, index, Worked(old(ledger.Contents()), d, liquidity), id)
        == Success(Worked(ledger.Contents(), d', left))
  {
    hide Decide, Precheck, Normalized, ApplyFill, FillOf, Settle, Expire, Refuse, Remember;
    halt, d', left := Option.None, d, liquidity;
    if id !in d.pending {
      return;
    }
    var o := d.pending[id];
    if s.timestamp < o.submission + c.model.latency {
      return;
    }
    var check := Precheck(c, s, o);
    match check {
      case Stopped(h) =>
        halt := Some(h);
        return;
      case Refused(reason) =>
        d' := Refuse(d, id, reason, s.timestamp);
        return;
      case Clear =>
    }
    var normalized := Normalized(c, o);
    if normalized.Failure? {
      d' := Refuse(d, id, normalized.error, s.timestamp);
      return;
    }
    var n := normalized.value;
    assert n.clientOrderId == id by { NormalizedKeepsId(c, o); }
    d' := Remember(d, id, n);
    assert id in d'.orders by { RememberKeeps(d, id, n); }
    var decision := Decide(c, bar.open, s, n, ledger.cash, ledger.position, liquidity);
    match decision {
      case Stop(h) =>
        halt := Some(h);
      case Reject(reason) =>
        d' := Refuse(d', id, reason, s.timestamp);
      case Idle =>
        d' := Expire(d', n, s.timestamp);
      case Execute(e) =>
        d', left := BookExecution(index, s, ledger, d', liquidity, n, e);
    }
  }

  /** The inner loop of one bar over the pending orders. */
  method WorkPending(
    c: Config, bar: Bar, s: MarketSnapshot, index: nat, ledger: LedgerState, d: Desk)
    returns (halt: Option<Halt>, d': Desk)
    requires c.Valid() && Linked(d)
    modifies ledger
    ensures Linked(d')
    ensures var w := WorkAll(c, bar, s, index, Worked(old(ledger.Contents()), d, Capacity(c, s)), d.ids);
      if halt.Some? then w == Failure(halt.value)
      else w.Success? && w.value.book == ledger.Contents() && w.value.desk == d'
  {
    hide WorkOne, Capacity, Linked;
    var left := Capacity(c, s);
    ghost var start := Worked(ledger.Contents(), d, left);
    halt, d' := Option.None, d;
    for i := 0 to |d.ids|
      invariant halt.None? && Linked(d')
      invariant WorkAll(c, bar, s, index, start, d.ids[..i]) == Success(Worked(ledger.Contents(), d', left))
    {
      halt, d', left := WorkOrder(c, bar, s, index, ledger, d', left, d.ids[i]);
      assert d.ids[..i + 1][..i] == d.ids[..i];
      if halt.Some? {
        WorkStops(c, bar, s, index, start, d.ids, i + 1);
        return;
      }
    }
    assert d.ids[..|d.ids|] == d.ids;
  }

  lemma {:induction false} WorkStops(
    c: Config, bar: Bar, s: MarketSnapshot, index: nat, w: Worked, ids: seq<string>, n: nat)
    requires c.Valid() && Linked(w.desk) && n <= |ids|
    requires WorkAll(c, bar, s, index, w, ids[..n]).Failure?
    ensures WorkAll(c, bar, s, index, w, ids) == WorkAll(c, bar, s, index, w, ids[..n])
    decreases |ids|
  {
    if n < |ids| {
      assert ids[..|ids| - 1][..n] == ids[..n];
      WorkStops(c, bar, s, index, w, ids[..|ids| - 1], n);
    } else {
      assert ids[..n] == ids;
    }
  }

  lemma {:induction false} ReplayStops(c: Config, p: Program, ordered: seq<Bar>, n: nat, m: nat)
    requires c.Valid() && n <= m <= |ordered| && After(c, p, ordered, n).Failure?
    ensures After(c, p, ordered, m) == After(c, p, ordered, n)
  {
    hide BarStep, Linked;
    if n < m {
      ReplayStops(c, p, ordered, n, m - 1);
    }
  }

  method IndependentCheck(c: Config, ledger: LedgerState, mark: real)
    returns (r: Result<Reconciliation, Halt>)
    ensures r == CrossCheck(c, ledger.Contents(), mark)
  {
    hide Notional;
    var independent := IndependentlyReconcile(c.startingCash, ledger.fills, mark);
    if independent.Failure? {
      return Failure(AccountingDisagreement);
    }
    var reference := independent.value;
    var book := ledger.Contents();
    if ledger.cash != reference.cash || ledger.position != reference.position
       || book.Equity(mark) != reference.equity || book.Reconcile(mark) != 0.0 {
      return Failure(AccountingDisagreement);
    }
    return Success(reference);
  }

  /** One pass of the outer loop. */
  method RunBar(c: Config, p: Program, ordered: seq<Bar>, index: nat, ledger: LedgerState, sim: Sim)
    returns (r: Result<Sim, Halt>)
    requires c.Valid() && index < |ordered| && Linked(sim.desk) && sim.book == ledger.Contents()
    modifies ledger
    ensures r == BarStep(c, p, ordered, index, sim)
    ensures r.Success? ==> r.value.book == ledger.Contents()
  {
    hide WorkAll, CrossCheck, Asked, Notional, Linked;
    var bar := ordered[index];
    if bar.availableAt > bar.timestamp {
      return Failure(UnavailableAtDecision);
    }
    var asked := Asked(c, p, ordered[..index], bar, ledger.Contents(), sim.desk);
    if asked.Failure? {
      return Failure(asked.error);
    }
    var snapshot := bar.Snapshot();
    if snapshot.None? {
      return Failure(MissingQuote);
    }
    var halt, desk := WorkPending(c, bar, snapshot.value, index, ledger, asked.value);
    if halt.Some? {
      return Failure(halt.value);
    }
    var reference := IndependentCheck(c, ledger, bar.close);
    if reference.Failure? {
      return Failure(reference.error);
    }
    var book := ledger.Contents();
    var curve := sim.curve + [(bar.timestamp, book.Equity(bar.close))];
    var observation := Observation(bar.timestamp, bar.close, ledger.cash, ledger.position, book.Equity(bar.close),
      Notional(ledger.position, bar.close), ledger.fees, ledger.otherCosts, reference.value);
    return Success(Sim(book, desk, curve, sim.observations + [observation]));
  }

  method CancelPending(d: Desk, when: int) returns (d': Desk)
    requires Linked(d)
    ensures d' == CancelRest(d, d.ids, when)
  {
    d' := d;
    for i := 0 to |d.ids|
      invariant d' == CancelRest(d, d.ids[..i], when)
    {
      var id := d.ids[i];
      if id in d'.pending {
        d' := Mark(d', id, Cancelled, when);
      }
      assert d.ids[..i + 1][..i] == d.ids[..i];
    }
    assert d.ids[..|d.ids|] == d.ids;
  }

  /** The engine: sort, screen the tape, replay every bar, cancel what is left. */
  method Run(c: Config, p: Program, bars: seq<Bar>) returns (r: Result<Outcome, Halt>)
    requires c.Valid()
    ensures r == Replay(c, p, bars)
  {
    hide BarStep, Sorted, Linked, CancelRest;
    var ordered := Sorted(bars);
    if |ordered| == 0 {
      return Failure(EmptyReplay);
    }
    if Repeats(ordered) {
      return Failure(DuplicateTimestamp);
    }
    if exists bar | bar in ordered :: bar.revised {
      return Failure(RevisedData);
    }
    var ledger := new LedgerState(c.startingCash);
    var sim := Sim(ledger.Contents(), NoDesk, [], []);
    for index := 0 to |ordered|
      invariant fresh(ledger) && sim.book == ledger.Contents() && Linked(sim.desk)
      invariant After(c, p, ordered, index) == Success(sim)
    {
      var step := RunBar(c, p, ordered, index, ledger, sim);
      if step.Failure? {
        ReplayStops(c, p, ordered, index + 1, |ordered|);
        return Failure(step.error);
      }
      sim := step.value;
    }
    var closed := CancelPending(sim.desk, ordered[|ordered| - 1].timestamp);
    return Success(Outcome(
      sim.book, sim.curve, closed.errors, closed.ids, closed.orders, closed.events, sim.observations, closed.costs));
  }
}
