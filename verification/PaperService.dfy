/** The paper service as it runs: each transaction updates the tables in place and is tied to its step. */
module PaperService {
  import opened Prelude
  import opened Accounting
  import opened Execution
  import opened PaperTrading
  import opened PaperSafety
  import Agreement
  import Reference

  /** What a transaction promises: the step's new tables, or its error and nothing changed. */
  predicate Ran(before: Account, after: Account, r: Result<Account, PaperError>, error: Option<PaperError>) {
    match r
    case Success(s') => error.None? && after == s'
    case Failure(e) => error == Some(e) && after == before
  }

  /** The stored fills of one market, replayed from nothing. */
  method ReplayRows(rows: seq<FillRow>) returns (ledger: LedgerState, refused: Option<LedgerError>)
    requires forall f | f in AsFills(rows) :: f.Valid()
    ensures fresh(ledger)
    ensures refused.None? ==> ApplyAll(0.0, AsFills(rows)) == Success(ledger.Contents())
    ensures refused.Some? ==> ApplyAll(0.0, AsFills(rows)) == Failure(refused.value)
  {
    hide ApplyFill;
    ledger := new LedgerState(0.0);
    ghost var all := AsFills(rows);
    ReplayPrefix(rows, 0);
    for i := 0 to |rows|
      modifies ledger
      invariant fresh(ledger) && i <= |all| == |rows| && ApplyAll(0.0, all[..i]) == Success(ledger.Contents())
    {
      ReplayPrefix(rows, i);
      refused := ledger.Apply(rows[i].AsFill(rows[i].id));
      assert all[..i + 1][..i] == all[..i];
      if refused.Some? {
        ReplayStops(all, i + 1, |all|);
        assert all[..|all|] == all;
        return;
      }
    }
    assert all[..|all|] == all;
    return ledger, None;
  }

  /** The second bookkeeping over the same fills; on a sound ledger it always agrees. */
  method BooksAgree(ledger: LedgerState, mark: real) returns (agree: bool)
    ensures Sound(ledger.Contents()) && ledger.startingCash == 0.0 ==> agree
  {
    hide Sound, Notional;
    var reference := Reference.IndependentlyReconcile(0.0, ledger.fills, mark);
    if Sound(ledger.Contents()) && ledger.startingCash == 0.0 {
      Agreement.SoundBookAgrees(ledger.Contents(), mark);
    }
    agree := reference.Success? && ledger.position == reference.value.position
      && ledger.Contents().Equity(mark) == reference.value.equity;
  }

  lemma ReplayedIsSound(fills: seq<Fill>, f: Fill)
    requires f.Valid() && (forall x | x in fills :: x.Valid())
    requires ApplyAll(0.0, fills).Success? && ApplyFill(ApplyAll(0.0, fills).value, f).Success?
    ensures var b := ApplyFill(ApplyAll(0.0, fills).value, f).value; Sound(b) && b.starting == 0.0
  {
    hide Sound;
    AcceptedExactlyWhen(0.0, fills);
    ApplyKeepsSound(ApplyAll(0.0, fills).value, f);
    KeepsStart(ApplyAll(0.0, fills).value, f);
  }

  /** The ledger replay of one market by both bookkeepings, with the new fill last. */
  method ReplayLedger(rows: seq<FillRow>, row: FillRow) returns (r: Result<Book, PaperError>)
    requires row.fill.Valid() && forall f | f in AsFills(rows) :: f.Valid()
    ensures match ApplyAll(0.0, AsFills(rows))
            case Failure(e) => r == Failure(PaperError.LedgerRefused(e))
            case Success(book) =>
              match ApplyFill(book, row.AsFill(row.fill.key))
              case Failure(e) => r == Failure(PaperError.LedgerRefused(e))
              case Success(last) => r == Success(last)
  {
    hide ApplyAll, ApplyFill, Sound;
    var ledger, stopped := ReplayRows(rows);
    if stopped.Some? { return Failure(PaperError.LedgerRefused(stopped.value)); }
    var refused := ledger.Apply(row.AsFill(row.fill.key));
    if refused.Some? { return Failure(PaperError.LedgerRefused(refused.value)); }
    ReplayedIsSound(AsFills(rows), row.AsFill(row.fill.key));
    var agree := BooksAgree(ledger, row.fill.price);
    if !agree { return Failure(PaperError.AccountingDisagreement); }
    return Success(ledger.Contents());
  }

  lemma KeepsStart(b: Book, f: Fill)
    requires f.Valid() && ApplyFill(b, f).Success?
    ensures ApplyFill(b, f).value.starting == b.starting
  {}

  lemma {:induction false} AsFillsAt(rows: seq<FillRow>, i: nat)
    requires i < |rows|
    ensures |AsFills(rows)| == |rows| && AsFills(rows)[i] == rows[i].AsFill(rows[i].id)
  {
    if i < |rows| - 1 {
      AsFillsAt(rows[..|rows| - 1], i);
    } else if |rows| > 1 {
      AsFillsAt(rows[..|rows| - 1], 0);
    }
  }

  lemma ReplayPrefix(rows: seq<FillRow>, i: nat)
    requires i <= |rows|
    ensures |AsFills(rows)| == |rows| && (i < |rows| ==> AsFills(rows)[i] == rows[i].AsFill(rows[i].id))
  {
    if i < |rows| {
      AsFillsAt(rows, i);
    } else if |rows| > 0 {
      AsFillsAt(rows, 0);
    }
  }

  lemma {:induction false} ReplayStops(fills: seq<Fill>, i: nat, n: nat)
    requires i <= n <= |fills| && (forall f | f in fills :: f.Valid()) && ApplyAll(0.0, fills[..i]).Failure?
    ensures ApplyAll(0.0, fills[..n]) == ApplyAll(0.0, fills[..i])
  {
    hide ApplyFill;
    if i < n {
      ReplayStops(fills, i, n - 1);
      assert fills[..n][..n - 1] == fills[..n - 1];
    }
  }

  class PaperStore {
    var runs: map<string, PaperRun>
    var orders: map<string, PaperOrder>
    var placed: seq<string>
    var fills: seq<FillRow>
    var positions: map<(string, string, string), PaperPosition>
    var cash: seq<CashEntry>
    var latches: map<string, Latch>
    var stops: seq<(string, StopScope)>
    var done: map<string, Done>

    function Contents(): Account
      reads this
    {
      Account(runs, orders, placed, fills, positions, cash, latches, stops, done)
    }

    constructor ()
      ensures Contents() == NoAccount
    {
      runs, orders, placed, fills, positions := map[], map[], [], [], map[];
      cash, latches, stops, done := [], map[], [], map[];
    }

    method StartRun(id: string, spec: PaperRun, key: string) returns (error: Option<PaperError>)
      modifies this
      ensures Ran(old(Contents()), Contents(), PaperTrading.StartRun(old(Contents()), id, spec, key), error)
    {
      for i := 0 to |spec.specs|
        invariant Contents() == old(Contents())
        invariant forall k | 0 <= k < i :: spec.specs[k].multiplier == 1.0
      {
        if spec.specs[i].multiplier != 1.0 { return Some(ContractNotSupported); }
      }
      if id in runs {
        if key !in done { return Some(RunExists); }
        return if done[key] == Started(id, spec) then None else Some(IdempotencyConflict);
      }
      if key in done { return Some(IdempotencyConflict); }
      runs := runs[id := spec.(active := false)];
      done := done[key := Started(id, spec)];
      return None;
    }

    method Reconcile(run: string, key: string, valid: bool) returns (r: Result<bool, PaperError>)
      modifies this
      ensures match PaperTrading.Reconcile(old(Contents()), run, key, valid)
              case Success(x) => r == Success(x.1) && Contents() == x.0
              case Failure(e) => r == Failure(e) && Contents() == old(Contents())
    {
      if run !in runs { return Failure(RunNotFound); }
      if key in done {
        if done[key].Reconciled? && done[key].run == run && done[key].valid == valid { return Success(done[key].active); }
        return Failure(IdempotencyConflict);
      }
      var active := valid && !Unresolved(Contents(), run) && !GloballyLatched(Contents());
      runs := runs[run := runs[run].(active := active)];
      done := done[key := Reconciled(run, valid, active)];
      return Success(active);
    }

    method Restart(run: string, key: string) returns (error: Option<PaperError>)
      modifies this
      ensures Ran(old(Contents()), Contents(), PaperTrading.Restart(old(Contents()), run, key), error)
    {
      if run !in runs { return Some(RunNotFound); }
      if key in done { return if done[key] == Restarted(run) then None else Some(IdempotencyConflict); }
      runs := runs[run := runs[run].(active := false)];
      done := done[key := Restarted(run)];
      return None;
    }

    method ActiveRisk(run: string, pool: string) returns (risk: real)
      ensures risk == PoolRisk(Contents(), placed, run, pool)
    {
      risk := 0.0;
      for i := 0 to |placed|
        invariant risk == PoolRisk(Contents(), placed[..i], run, pool)
      {
        assert placed[..i + 1][..i] == placed[..i];
        var id := placed[i];
        if id in orders && orders[id].run == run && orders[id].reservation.pool == pool
           && !orders[id].reservation.state.Released? {
          risk := risk + (orders[id].reservation.working + orders[id].reservation.position);
        }
      }
      assert placed[..|placed|] == placed;
    }

    method Submit(
      run: string, o: OrderIntent, spec: InstrumentSpec, m: MarketSnapshot, e: RiskEnvelope, pool: string,
      now: int, id: string) returns (error: Option<PaperError>)
      modifies this
      ensures Ran(old(Contents()), Contents(), PaperTrading.Submit(old(Contents()), run, o, spec, m, e, pool, now, id), error)
    {
      hide Pretrade, PoolRisk, StoppedFor, PinnedSpec;
      if Requested(Contents(), o.clientOrderId) {
        return if exists x | x in orders :: orders[x].intent == o then None else Some(IdempotencyConflict);
      }
      if run !in runs || !runs[run].active { return Some(ReconciliationRequired); }
      if StoppedFor(Contents(), run, o) { return Some(StopActive); }
      if runs[run].envelope != e { return Some(RiskConfigNotPinned); }
      var pinned := PinnedSpec(runs[run], o.venue, o.instrumentId, o.submission);
      if pinned.None? { return Some(InstrumentNotPinned); }
      if pinned.value != spec { return Some(InstrumentMismatch); }
      var position := PositionIn(Contents(), (run, o.venue, o.instrumentId));
      var activeRisk := ActiveRisk(run, pool);
      PinnedIsValid(runs[run], o.venue, o.instrumentId, o.submission);
      var checked := Pretrade(o, pinned.value, m, e, position, activeRisk, now);
      if checked.Failure? { return Some(checked.error); }
      if id in orders { return Some(Collision); }
      orders := orders[id := NewOrder(run, o, pool, checked.value)];
      placed := placed + [id];
      return None;
    }

    lemma PinnedIsValid(run: PaperRun, venue: string, instrument: string, when: int)
      ensures PinnedSpec(run, venue, instrument, when).Some? ==> PinnedSpec(run, venue, instrument, when).value.Valid()
    {}

    method MarkUnknown(id: string, reason: string, key: string) returns (error: Option<PaperError>)
      modifies this
      ensures Ran(old(Contents()), Contents(), PaperTrading.MarkUnknown(old(Contents()), id, reason, key), error)
    {
      if id !in orders { return Some(OrderNotFound); }
      if key in done { return if done[key] == MarkedUnknown(id, reason) then None else Some(IdempotencyConflict); }
      var o := orders[id];
      var record := o.Record().Transition(UnknownReconciling, 0.0);
      if record.None? { return Some(InvalidTransition); }
      orders := orders[id := o.(state := record.value.state, reservation := o.reservation.(state := Unreconciled))];
      done := done[key := MarkedUnknown(id, reason)];
      return None;
    }

    method Cancel(id: string, key: string) returns (error: Option<PaperError>)
      modifies this
      ensures Ran(old(Contents()), Contents(), PaperTrading.Cancel(old(Contents()), id, key), error)
    {
      hide Freed;
      if id !in orders { return Some(OrderNotFound); }
      if key in done { return if done[key] == OrderCancelled(id) then None else Some(IdempotencyConflict); }
      var o := orders[id];
      if o.state.Cancelled? { return Some(AlreadyCancelled); }
      if o.state.UnknownReconciling? { return Some(UnknownRequiresReconciliation); }
      var pending := o.Record().Transition(CancelPending, 0.0);
      if pending.None? || pending.value.Transition(Cancelled, 0.0).None? { return Some(InvalidTransition); }
      orders := orders[id := o.(state := Cancelled, reservation := Freed(o.reservation))];
      done := done[key := OrderCancelled(id)];
      return None;
    }

    method MarketRows(market: (string, string, string)) returns (rows: seq<FillRow>)
      ensures rows == RowsOf(fills, market)
    {
      rows := [];
      for i := 0 to |fills|
        invariant rows == RowsOf(fills[..i], market)
      {
        assert fills[..i + 1][..i] == fills[..i];
        if fills[i].market == market { rows := rows + [fills[i]]; }
      }
      assert fills[..|fills|] == fills;
    }

    method RecordFill(id: string, f: PaperFill, currency: string, rowId: string, stamp: int)
      returns (error: Option<PaperError>)
      requires f.Valid() && FillsValid(Contents())
      modifies this
      ensures Ran(old(Contents()), Contents(), PaperTrading.RecordFill(old(Contents()), id, f, currency, rowId, stamp), error)
    {
      hide FillRefused, ConvertedShare, PriorBalance, RowsOf, ApplyAll, ApplyFill, Notional, AfterFill;
      if exists r | r in fills :: r.fill.key == f.key {
        return if exists r | r in fills :: r.fill == f && r.order == id && r.currency == currency then None
               else Some(IdempotencyConflict);
      }
      if id !in orders { return Some(OrderNotFound); }
      var o := orders[id];
      var refused := FillRefused(Contents(), o, f, currency);
      if refused.Some? { return refused; }
      var newTotal := o.filled + f.quantity;
      var target := if newTotal == o.quantity then OrderState.Filled else OrderState.PartiallyFilled;
      var record := o.Record().Transition(target, f.quantity);
      if record.None? { return Some(InvalidTransition); }
      var row := RowFor(rowId, id, o, f, currency);
      RowsAreValid(fills, row.market);
      var rows := MarketRows(row.market);
      var replayed := ReplayLedger(rows, row);
      if replayed.Failure? { return Some(replayed.error); }
      if exists r | r in fills :: r.id == rowId { return Some(Collision); }
      var book := replayed.value;
      fills := fills + [row];
      positions := positions[row.market := PaperPosition(book.position, currency, book.realized)];
      var delta := row.Delta();
      var prior := PriorBalance(cash, o.run, currency);
      cash := cash + [CashEntry(o.run, currency, delta, prior + delta, stamp)];
      orders := orders[id := AfterFill(o, record.value)];
      return None;
    }

    method StopRun(role: Role, run: string, request: StopRequest, key: string) returns (error: Option<PaperError>)
      modifies this
      ensures Ran(old(Contents()), Contents(), PaperTrading.StopRun(old(Contents()), role, run, request, key), error)
    {
      if MayStop(role, request).Some? { return MayStop(role, request); }
      if run !in runs { return Some(RunNotFound); }
      if key in done { return if done[key] == RunStopped(run, request) then None else Some(IdempotencyConflict); }
      stops := stops + [(run, request.scope)];
      done := done[key := RunStopped(run, request)];
      return None;
    }

    /** Latches first, then cancels what could still add risk, then sends every active run back to the barrier. */
    method EmergencyStop(role: Role, request: StopRequest, key: string, latch: string) returns (error: Option<PaperError>)
      requires (forall id :: id in placed <==> id in orders)
      modifies this
      ensures Ran(old(Contents()), Contents(), PaperTrading.EmergencyStop(old(Contents()), role, request, key, latch), error)
    {
      hide CancelOrder, Cancellable, LatchHeld;
      if request.scope.Strategy? { return Some(GlobalScopeRequired); }
      if MayStop(role, request).Some? { return MayStop(role, request); }
      if key in done {
        return if done[key].Latched? && done[key].request == request then None else Some(IdempotencyConflict);
      }
      var venue := ScopeVenue(request.scope);
      if LatchHeld(Contents(), venue) { return Some(StopAlreadyActive); }
      if latch in latches { return Some(Collision); }
      latches := latches[latch := Latch(venue, true)];
      CancelWorking(venue);
      if venue.None? { DeactivateRuns(); }
      done := done[key := Latched(latch, request)];
      return None;
    }

    method CancelWorking(venue: Option<string>)
      requires (forall id :: id in placed <==> id in orders)
      modifies `orders
      ensures orders == CancelAll(old(orders), venue)
    {
      hide CancelOrder, Cancellable;
      for i := 0 to |placed|
        invariant placed == old(placed) && orders.Keys == old(orders).Keys
        invariant forall id | id in orders ::
          orders[id] == if id in placed[..i] && Cancellable(venue, old(orders)[id]) then CancelOrder(old(orders)[id])
                        else old(orders)[id]
      {
        var id := placed[i];
        assert placed[..i + 1] == placed[..i] + [id];
        CancelledOnce(venue, old(orders)[id]);
        if Cancellable(venue, orders[id]) { orders := orders[id := CancelOrder(orders[id])]; }
      }
      assert placed[..|placed|] == placed;
    }

    lemma CancelledOnce(venue: Option<string>, o: PaperOrder)
      ensures !Cancellable(venue, CancelOrder(o))
    {}

    method DeactivateRuns()
      modifies `runs
      ensures runs == DeactivateAll(old(runs))
    {
      var left := runs.Keys;
      while left != {}
        invariant left <= runs.Keys == old(runs).Keys
        invariant forall id | id in runs ::
          runs[id] == if id in left then old(runs)[id] else old(runs)[id].(active := false)
        decreases |left|
      {
        var id :| id in left;
        if runs[id].active { runs := runs[id := runs[id].(active := false)]; }
        left := left - {id};
      }
    }

    method Release(role: Role, latch: string, key: string) returns (error: Option<PaperError>)
      modifies this
      ensures Ran(old(Contents()), Contents(), PaperTrading.Release(old(Contents()), role, latch, key), error)
    {
      if !role.OwnerRole? { return Some(ReleaseRequiresOwner); }
      if latch !in latches { return Some(LatchNotFound); }
      if key in done { return if done[key] == Unlatched(latch) then None else Some(IdempotencyConflict); }
      if !latches[latch].active { return Some(StopNotActive); }
      latches := latches[latch := latches[latch].(active := false)];
      done := done[key := Unlatched(latch)];
      return None;
    }
  }
}
