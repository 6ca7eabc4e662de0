/** What the paper account promises over whole histories: risk, the order lifecycle, and stops. */
module PaperTheorems {
  import opened Prelude
  import opened Accounting
  import opened Execution
  import opened PaperTrading
  import opened PaperSafety

  /** The account after the first `i` operations of a history from nothing. */
  ghost function At(history: seq<Operation>, i: nat): Account
    requires i <= |history|
  {
    After(NoAccount, history[..i])
  }

  lemma AtStep(history: seq<Operation>, i: nat)
    requires i < |history| && AllLegal(history)
    ensures AccountOk(At(history, i)) && FillsValid(At(history, i))
    ensures At(history, i + 1) == Step(At(history, i), history[i])
  {
    hide AccountOk, Step;
    NoAccountOk();
    assert history[..i + 1][..i] == history[..i];
    HistoryKeeps(NoAccount, history[..i]);
  }

  lemma AtOk(history: seq<Operation>, i: nat)
    requires i <= |history| && AllLegal(history)
    ensures AccountOk(At(history, i))
  {
    hide AccountOk;
    NoAccountOk();
    HistoryKeeps(NoAccount, history[..i]);
  }

  // ---- Risk -----------------------------------------------------------------------------------

  /** Over every history: each reservation is exactly its working, converted and released parts, none negative; the
      converted part is the filled share; no pool's risk passes its run's pinned limit; each order has filled what
      its fills say; and each stored position is the plain sum of its signed fills. */
  lemma RiskIsConservedAndBounded(
    history: seq<Operation>, i: nat, id: string, run: string, pool: string, market: (string, string, string))
    requires i <= |history| && AllLegal(history)
    ensures var s := At(history, i);
      && (id in s.orders ==>
            var o, r := s.orders[id], s.orders[id].reservation;
            && r.original == r.working + r.position + r.released
            && r.working >= 0.0 && r.position >= 0.0 && r.released >= 0.0
            && o.quantity > 0.0 && r.position == ConvertedShare(r, o.filled, o.quantity)
            && o.filled == FilledOf(s.fills, id) <= o.quantity)
      && (run in s.runs ==> PoolRisk(s, s.placed, run, pool) <= s.runs[run].envelope.maxPortfolio)
      && PositionIn(s, market) == SignedIn(s.fills, market)
  {
    hide At, PoolRisk, ConvertedShare, Distinct;
    AtOk(history, i);
    assert id in At(history, i).orders ==> ReservationOk(At(history, i).orders[id]);
  }

  // ---- The order lifecycle --------------------------------------------------------------------

  ghost predicate Follows(o: PaperOrder, o': PaperOrder) {
    && (o'.state == o.state || o'.state in o.state.Next())
    && o'.intent == o.intent && o'.run == o.run && (o.state.Terminal() ==> o' == o)
  }

  lemma CancelFollows(o: PaperOrder)
    requires o.state.Acknowledged? || o.state.PartiallyFilled? || o.state.Amended? || o.state.CancelPending?
    ensures Follows(o, CancelOrder(o))
  {
    hide Freed;
  }

  lemma FillFollows(s: Account, id: string, f: PaperFill, currency: string, rowId: string, stamp: int, x: string)
    requires AccountOk(s) && f.Valid() && x in s.orders
    ensures var s' := Kept(s, RecordFill(s, id, f, currency, rowId, stamp));
      x in s'.orders && Follows(s.orders[x], s'.orders[x])
  {
    hide FillRefused, Replayed, ConvertedShare, PriorBalance, OrdersOk, RiskOk, LatchOk;
  }

  lemma SubmitFollows(
    s: Account, run: string, o: OrderIntent, spec: InstrumentSpec, m: MarketSnapshot, e: RiskEnvelope, pool: string,
    now: int, id: string, x: string)
    requires x in s.orders
    ensures var s' := Kept(s, Submit(s, run, o, spec, m, e, pool, now, id));
      x in s'.orders && s'.orders[x] == s.orders[x]
  {
    hide Pretrade, PoolRisk, StoppedFor, PinnedSpec, PositionIn;
  }

  lemma LatchFollows(s: Account, role: Role, request: StopRequest, key: string, latch: string, x: string)
    requires x in s.orders
    ensures var s' := Kept(s, EmergencyStop(s, role, request, key, latch));
      x in s'.orders && Follows(s.orders[x], s'.orders[x])
  {
    hide CancelOrder, LatchHeld, Follows, InScope;
    KeepingFollows(s.orders[x]);
    if Cancellable(ScopeVenue(request.scope), s.orders[x]) {
      CancelFollows(s.orders[x]);
    }
  }

  lemma KeepingFollows(o: PaperOrder)
    ensures Follows(o, o)
  {}

  lemma MarkFollows(s: Account, id: string, reason: string, key: string, x: string)
    requires x in s.orders
    ensures var s' := Kept(s, MarkUnknown(s, id, reason, key));
      x in s'.orders && Follows(s.orders[x], s'.orders[x])
  {}

  lemma CancellingFollows(s: Account, id: string, key: string, x: string)
    requires AccountOk(s) && x in s.orders
    ensures var s' := Kept(s, Cancel(s, id, key));
      x in s'.orders && Follows(s.orders[x], s'.orders[x])
  {
    hide Freed, RiskOk, LatchOk, FillsOk, Distinct;
    if id in s.orders {
      assert ReservationOk(s.orders[id]);
      LiveStates(s.orders[id]);
    }
    hide ReservationOk;
  }

  /** Every stored order moves only along the lifecycle, so what is finished stays finished. */
  lemma StepFollowsLifecycle(s: Account, op: Operation, id: string)
    requires AccountOk(s) && Legal(op) && id in s.orders
    ensures id in Step(s, op).orders && Follows(s.orders[id], Step(s, op).orders[id])
  {
    hide OrdersOk, RiskOk, LatchOk, Follows, RecordFill, Submit, EmergencyStop, MarkUnknown, Cancel;
    KeepingFollows(s.orders[id]);
    match op
    case DoFill(x, f, currency, rowId, stamp) => FillFollows(s, x, f, currency, rowId, stamp, id);
    case DoSubmit(run, o, spec, m, e, pool, now, x) => SubmitFollows(s, run, o, spec, m, e, pool, now, x, id);
    case DoLatch(role, request, key, latch) => LatchFollows(s, role, request, key, latch, id);
    case DoMarkUnknown(x, reason, key) => MarkFollows(s, x, reason, key, id);
    case DoCancel(x, key) => CancellingFollows(s, x, key, id);
    case _ =>
  }

  // ---- Latches --------------------------------------------------------------------------------

  predicate ActiveRun(s: Account, run: string) {
    run in s.runs && s.runs[run].active
  }

  predicate LatchActive(s: Account, latch: string, venue: Option<string>) {
    latch in s.latches && s.latches[latch] == Latch(venue, true)
  }

  /** Only a reconciliation that saw valid data, no unresolved order and no global latch makes a run active. */
  lemma OnlyReconcileActivates(s: Account, op: Operation, run: string)
    requires AccountOk(s) && Legal(op) && !ActiveRun(s, run) && ActiveRun(Step(s, op), run)
    ensures op.DoReconcile? && op.run == run && op.valid && !Unresolved(s, run) && !GloballyLatched(s)
  {
    hide OrdersOk, RiskOk, LatchOk, Unresolved, GloballyLatched, RecordNew, SubmitNew, CancelAll;
    match op
    case DoFill(id, f, currency, rowId, stamp) => FillKeepsControls(s, id, f, currency, rowId, stamp);
    case DoSubmit(r, o, spec, m, e, pool, now, id) => SubmitKeepsControls(s, r, o, spec, m, e, pool, now, id);
    case _ =>
  }

  lemma FillKeepsControls(s: Account, id: string, f: PaperFill, currency: string, rowId: string, stamp: int)
    requires f.Valid() && FillsValid(s)
    ensures var s' := Kept(s, RecordFill(s, id, f, currency, rowId, stamp));
      s'.runs == s.runs && s'.latches == s.latches && s'.orders.Keys == s.orders.Keys && s'.stops == s.stops
  {
    hide FillRefused, Replayed, ConvertedShare, PriorBalance, AfterFill;
  }

  lemma SubmitKeepsControls(
    s: Account, run: string, o: OrderIntent, spec: InstrumentSpec, m: MarketSnapshot, e: RiskEnvelope, pool: string,
    now: int, id: string)
    ensures var s' := Kept(s, Submit(s, run, o, spec, m, e, pool, now, id));
      s'.runs == s.runs && s'.latches == s.latches && s'.stops == s.stops
  {
    hide Pretrade, PoolRisk, StoppedFor, PinnedSpec, PositionIn;
  }

  /** Only an owner's release of that very latch ends it. */
  lemma OnlyOwnerReleases(s: Account, op: Operation, latch: string, venue: Option<string>)
    requires AccountOk(s) && Legal(op) && LatchActive(s, latch, venue) && !LatchActive(Step(s, op), latch, venue)
    ensures op.DoRelease? && op.role.OwnerRole? && op.latch == latch
  {
    hide OrdersOk, RiskOk, LatchOk, Unresolved, GloballyLatched, RecordNew, SubmitNew, CancelAll, LatchHeld;
    match op
    case DoFill(id, f, currency, rowId, stamp) => FillKeepsControls(s, id, f, currency, rowId, stamp);
    case DoSubmit(r, o, spec, m, e, pool, now, id) => SubmitKeepsControls(s, r, o, spec, m, e, pool, now, id);
    case _ =>
  }

  /** Only a submission to an active, unstopped run adds an order. */
  lemma OnlySubmissionAdds(s: Account, op: Operation, id: string)
    requires AccountOk(s) && Legal(op) && id !in s.orders && id in Step(s, op).orders
    ensures op.DoSubmit? && op.id == id && Step(s, op).orders[id].run == op.run
    ensures Step(s, op).orders[id].intent == op.intent && Step(s, op).orders[id].state.Acknowledged?
    ensures ActiveRun(s, op.run) && !StoppedFor(s, op.run, op.intent)
  {
    hide OrdersOk, RiskOk, LatchOk, Unresolved, GloballyLatched, RecordNew, SubmitNew, StoppedFor, LatchHeld;
    match op
    case DoFill(x, f, currency, rowId, stamp) => FillKeepsControls(s, x, f, currency, rowId, stamp);
    case DoSubmit(run, o, spec, m, e, pool, now, x) =>
      if !Requested(s, o.clientOrderId) && SubmitNew(s, run, o, spec, m, e, pool, now, x).Success? {
        var amount := SubmitAccepts(s, run, o, spec, m, e, pool, now, x);
      }
    case _ =>
  }

  lemma {:induction false} FindActivation(history: seq<Operation>, i: nat, j: nat, run: string) returns (m: nat)
    requires AllLegal(history) && i <= j <= |history|
    requires !ActiveRun(At(history, i), run) && ActiveRun(At(history, j), run)
    ensures i <= m < j && history[m].DoReconcile? && history[m].run == run && history[m].valid
    ensures !GloballyLatched(At(history, m))
    decreases j
  {
    hide At, Step, AccountOk, GloballyLatched;
    AtStep(history, j - 1);
    if ActiveRun(At(history, j - 1), run) {
      m := FindActivation(history, i, j - 1, run);
    } else {
      OnlyReconcileActivates(At(history, j - 1), history[j - 1], run);
      m := j - 1;
    }
  }

  lemma {:induction false} FindRelease(history: seq<Operation>, i: nat, j: nat, latch: string, venue: Option<string>)
    returns (k: nat)
    requires AllLegal(history) && i <= j <= |history|
    requires LatchActive(At(history, i), latch, venue) && !LatchActive(At(history, j), latch, venue)
    ensures i <= k < j && history[k].DoRelease? && history[k].role.OwnerRole? && history[k].latch == latch
    decreases j
  {
    hide At, Step, AccountOk;
    AtStep(history, j - 1);
    if LatchActive(At(history, j - 1), latch, venue) {
      OnlyOwnerReleases(At(history, j - 1), history[j - 1], latch, venue);
      k := j - 1;
    } else {
      k := FindRelease(history, i, j - 1, latch, venue);
    }
  }

  /** Between a global stop and the next order any run accepts there is the owner's release of that stop, and after
      it a successful reconciliation of that run. */
  lemma OrdersResumeOnlyAfterReleaseAndReconcile(
    history: seq<Operation>, i: nat, j: nat, latch: string, id: string) returns (k: nat, m: nat)
    requires AllLegal(history) && i <= j < |history| && LatchActive(At(history, i), latch, None)
    requires id !in At(history, j).orders && id in At(history, j + 1).orders
    ensures i <= k < m < j
    ensures history[k].DoRelease? && history[k].role.OwnerRole? && history[k].latch == latch
    ensures history[m].DoReconcile? && history[m].valid && history[m].run == At(history, j + 1).orders[id].run
  {
    hide At, Step, StoppedFor;
    AtStep(history, j);
    AtOk(history, i);
    OnlySubmissionAdds(At(history, j), history[j], id);
    var run := history[j].run;
    assert GloballyLatched(At(history, i));
    assert !ActiveRun(At(history, i), run);
    m := FindActivation(history, i, j, run);
    assert !LatchActive(At(history, m), latch, None);
    k := FindRelease(history, i, m, latch, None);
  }

  /** Risk-increasing, in scope, and not finished: only these could still grow the position. */
  predicate StillWorking(venue: Option<string>, o: PaperOrder) {
    InScope(venue, o) && !o.intent.reduceOnly && !o.state.Terminal()
  }

  function BeingReconciled(s: Account): set<string> {
    set id | id in s.orders && s.orders[id].state.UnknownReconciling?
  }

  /** A stop finishes every risk-increasing order in its scope and frees its working risk, except the orders being
      reconciled, whose fate is not the account's to decide. */
  lemma StopLeavesOnlyUnknown(s: Account, role: Role, request: StopRequest, key: string, latch: string, id: string)
    requires AccountOk(s) && key !in s.done && EmergencyStop(s, role, request, key, latch).Success? && id in s.orders
    ensures var s', venue := EmergencyStop(s, role, request, key, latch).value, ScopeVenue(request.scope);
      && LatchActive(s', latch, venue)
      && (StillWorking(venue, s'.orders[id]) ==> id in BeingReconciled(s) && s'.orders[id] == s.orders[id])
      && (InScope(venue, s.orders[id]) && !s.orders[id].intent.reduceOnly && id !in BeingReconciled(s) ==>
            s'.orders[id].state.Terminal() && s'.orders[id].reservation.working == 0.0)
      && (venue.None? ==> forall run :: !ActiveRun(s', run))
  {
    hide OrdersOk, RiskOk, LatchOk, LatchHeld;
    var o := s.orders[id];
    assert ReservationOk(o) by { OrderOk(s, id); }
    LiveStates(o);
    if o.state.Filled? || o.state.Cancelled? {
      FinishedHoldsNoWorking(o);
    }
    hide ReservationOk;
  }

  lemma OrderOk(s: Account, id: string)
    requires AccountOk(s) && id in s.orders
    ensures ReservationOk(s.orders[id])
  {}

  lemma FinishedHoldsNoWorking(o: PaperOrder)
    requires ReservationOk(o) && (o.state.Filled? || o.state.Cancelled?)
    ensures o.reservation.working == 0.0
  {
    hide Notional, Quotient;
    ShareBounds(o.reservation.original, o.filled, o.quantity);
  }

  ghost predicate Quiet(s: Account, venue: Option<string>, excepted: set<string>) {
    forall id | id in s.orders && StillWorking(venue, s.orders[id]) :: id in excepted
  }

  lemma StepKeepsQuiet(s: Account, op: Operation, latch: string, venue: Option<string>, excepted: set<string>)
    requires AccountOk(s) && Legal(op) && LatchActive(s, latch, venue) && Quiet(s, venue, excepted)
    ensures Quiet(Step(s, op), venue, excepted)
  {
    hide Step, OrdersOk, RiskOk, LatchOk;
    var s' := Step(s, op);
    forall id | id in s'.orders && StillWorking(venue, s'.orders[id]) ensures id in excepted {
      if id in s.orders {
        StepFollowsLifecycle(s, op, id);
      } else {
        OnlySubmissionAdds(s, op, id);
      }
    }
  }

  /** While the latch holds, nothing else in its scope ever works: no new order, no order back from the dead. */
  lemma {:induction false} StopHolds(
    history: seq<Operation>, i: nat, j: nat, latch: string, venue: Option<string>, excepted: set<string>)
    requires AllLegal(history) && i <= j <= |history|
    requires LatchActive(At(history, i), latch, venue) && Quiet(At(history, i), venue, excepted)
    requires forall k | i <= k < j :: !(history[k].DoRelease? && history[k].latch == latch)
    ensures LatchActive(At(history, j), latch, venue) && Quiet(At(history, j), venue, excepted)
    decreases j
  {
    hide At, Step, AccountOk, Quiet;
    if i < j {
      StopHolds(history, i, j - 1, latch, venue, excepted);
      AtStep(history, j - 1);
      StepKeepsQuiet(At(history, j - 1), history[j - 1], latch, venue, excepted);
      if !LatchActive(At(history, j), latch, venue) {
        OnlyOwnerReleases(At(history, j - 1), history[j - 1], latch, venue);
      }
    }
  }

  /** From a stop to that latch's release, whatever is asked for in between: the latch holds, and nothing in its scope
      works except the orders that were already being reconciled when the stop came. */
  lemma StoppedUntilReleased(history: seq<Operation>, i: nat, j: nat)
    requires AllLegal(history) && i < j <= |history| && history[i].DoLatch? && history[i].key !in At(history, i).done
    requires EmergencyStop(At(history, i), history[i].role, history[i].request, history[i].key, history[i].latch).Success?
    requires forall k | i < k < j :: !(history[k].DoRelease? && history[k].latch == history[i].latch)
    ensures var venue, excepted := ScopeVenue(history[i].request.scope), BeingReconciled(At(history, i));
      LatchActive(At(history, j), history[i].latch, venue) && Quiet(At(history, j), venue, excepted)
  {
    hide At, AccountOk, EmergencyStop;
    AtStep(history, i);
    var s, op := At(history, i), history[i];
    StopIsQuiet(s, op.role, op.request, op.key, op.latch);
    LatchStep(s, op);
    hide Quiet, Step;
    StopHolds(history, i + 1, j, op.latch, ScopeVenue(op.request.scope), BeingReconciled(s));
  }

  lemma LatchStep(s: Account, op: Operation)
    requires FillsValid(s) && Legal(op) && op.DoLatch?
    ensures Step(s, op) == Kept(s, EmergencyStop(s, op.role, op.request, op.key, op.latch))
  {
    hide EmergencyStop;
  }

  lemma StopIsQuiet(s: Account, role: Role, request: StopRequest, key: string, latch: string)
    requires AccountOk(s) && key !in s.done && EmergencyStop(s, role, request, key, latch).Success?
    ensures var s', venue := EmergencyStop(s, role, request, key, latch).value, ScopeVenue(request.scope);
      LatchActive(s', latch, venue) && Quiet(s', venue, BeingReconciled(s))
  {
    var s', venue := EmergencyStop(s, role, request, key, latch).value, ScopeVenue(request.scope);
    assert s'.orders.Keys == s.orders.Keys && LatchActive(s', latch, venue);
    hide AccountOk, EmergencyStop, StillWorking, BeingReconciled;
    forall id | id in s'.orders && StillWorking(venue, s'.orders[id]) ensures id in BeingReconciled(s) {
      StopLeavesOnlyUnknown(s, role, request, key, latch, id);
    }
  }
}
