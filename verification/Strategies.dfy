/** Pinned target programs never hold more than their quantity and never have two orders out. */
module Strategies {
  import opened Prelude
  import opened Accounting
  import opened Execution
  import opened Backtest
  import opened BacktestSafety

  datatype Algorithm = LaggedMomentum | BuyHold

  datatype StrategyProgram = StrategyProgram(algorithm: Algorithm, quantity: real, lookback: nat, threshold: real) {
    predicate Valid() {
      quantity > 0.0 && lookback >= 1 && threshold >= 0.0
    }

    /** A valid bar closes above zero, so the ratio of closes is always defined on a valid tape. */
    function Target(rows: seq<Bar>): real {
      if algorithm.BuyHold? then quantity
      else if |rows| <= lookback then 0.0
      else
        var latest, base := rows[|rows| - 1].close, rows[|rows| - 1 - lookback].close;
        if base != 0.0 && Quotient(latest, base) - 1.0 > threshold then quantity else 0.0
    }

    function AsProgram(id: string): Program {
      Program.Target(id, (rows, when) => Target(rows))
    }
  }

  ghost predicate NeverAbove(p: Program, quantity: real) {
    p.Target? && forall rows, when :: p.desired(rows, when) <= quantity
  }

  /** The order that may be out can only bring the position up to `quantity`. */
  ghost predicate Reined(quantity: real, position: real, pending: map<string, OrderIntent>) {
    && position <= quantity
    && (forall i, j | i in pending && j in pending :: i == j)
    && (forall id | id in pending && pending[id].side.Buy? :: position + pending[id].quantity <= quantity)
  }

  /** Working an order leaves the others alone and takes from its own no less than it adds to the position. */
  ghost predicate Narrows(w: Worked, w': Worked, id: string) {
    && id in w.desk.pending
    && (w'.desk.pending == w.desk.pending - {id} || (
          && id in w'.desk.pending && w'.desk.pending == w.desk.pending[id := w'.desk.pending[id]]
          && w'.desk.pending[id].side == w.desk.pending[id].side && w'.desk.pending[id].quantity >= 0.0))
    && (if w.desk.pending[id].side.Buy? then
          w'.book.position + (if id in w'.desk.pending then w'.desk.pending[id].quantity else 0.0)
            <= w.book.position + w.desk.pending[id].quantity
        else w'.book.position <= w.book.position)
  }

  lemma NarrowsKeepsReined(quantity: real, w: Worked, w': Worked, id: string)
    requires Reined(quantity, w.book.position, w.desk.pending) && Narrows(w, w', id)
    ensures Reined(quantity, w'.book.position, w'.desk.pending)
  {
    forall other | other in w.desk.pending ensures other == id {}
  }

  lemma MeetNarrows(c: Config, bar: Bar, s: MarketSnapshot, index: nat, w: Worked, n: OrderIntent)
    requires c.Valid() && s.Valid() && n.Valid() && w.liquidity >= 0.0 && Linked(w.desk)
    requires n.clientOrderId in w.desk.pending
    requires n.side == w.desk.pending[n.clientOrderId].side && n.quantity <= w.desk.pending[n.clientOrderId].quantity
    requires Meet(c, bar, s, index, w, n).Success?
    ensures Narrows(w, Meet(c, bar, s, index, w, n).value, n.clientOrderId)
  {
    hide Decide, AverageAfter, RealizedBy, Spend, SeenFill, AdditiveCosts, Notional;
    match Decide(c, bar.open, s, n, w.book.cash, w.book.position, w.liquidity)
    case Stop(h) =>
    case Reject(reason) =>
    case Idle =>
    case Execute(e) => ExecutionIsSafe(c, bar.open, s, n, w.book.cash, w.book.position, w.liquidity);
  }

  lemma WorkOneReined(c: Config, bar: Bar, s: MarketSnapshot, index: nat, w: Worked, id: string, quantity: real)
    requires c.Valid() && s.Valid() && Safe(c, w) && Linked(w.desk) && Reined(quantity, w.book.position, w.desk.pending)
    requires WorkOne(c, bar, s, index, w, id).Success?
    ensures var w' := WorkOne(c, bar, s, index, w, id).value; Reined(quantity, w'.book.position, w'.desk.pending)
  {
    hide Normalized, Meet, MoneySafe, Reined, Narrows, RowOk;
    if id in w.desk.pending && s.timestamp >= w.desk.pending[id].submission + c.model.latency {
      var o, w' := w.desk.pending[id], WorkOne(c, bar, s, index, w, id).value;
      assert PendingOk(c, w.desk.orders[id], o);
      if Precheck(c, s, o).Clear? && Normalized(c, o).Success? {
        var n := Normalized(c, o).value;
        NormalizedFacts(c, o);
        MeetNarrows(c, bar, s, index, w.(desk := Remember(w.desk, id, n)), n);
        SamePendingNarrows(w, w.(desk := Remember(w.desk, id, n)), w', id);
      } else {
        DroppedNarrows(w, w', id);
      }
      NarrowsKeepsReined(quantity, w, w', id);
    }
  }

  lemma DroppedNarrows(w: Worked, w': Worked, id: string)
    requires id in w.desk.pending && w'.book == w.book && w'.desk.pending == w.desk.pending - {id}
    requires w.desk.pending[id].quantity >= 0.0
    ensures Narrows(w, w', id)
  {}

  lemma SamePendingNarrows(w: Worked, w1: Worked, w': Worked, id: string)
    requires Narrows(w1, w', id) && w1.book == w.book && w1.desk.pending == w.desk.pending
    ensures Narrows(w, w', id)
  {}

  lemma {:induction false} WorkAllReined(
    c: Config, bar: Bar, s: MarketSnapshot, index: nat, w: Worked, ids: seq<string>, quantity: real)
    requires c.Valid() && s.Valid() && Safe(c, w) && Linked(w.desk) && Reined(quantity, w.book.position, w.desk.pending)
    requires WorkAll(c, bar, s, index, w, ids).Success?
    ensures var w' := WorkAll(c, bar, s, index, w, ids).value; Reined(quantity, w'.book.position, w'.desk.pending)
  {
    hide WorkOne, Safe, Linked, Reined, Advances;
    if |ids| > 0 {
      var front := ids[..|ids| - 1];
      WorkAllReined(c, bar, s, index, w, front, quantity);
      WorkAllKeeps(c, bar, s, index, w, front);
      WorkOneReined(c, bar, s, index, WorkAll(c, bar, s, index, w, front).value, ids[|ids| - 1], quantity);
    }
  }

  /** A target program speaks only when nothing is out, and then asks for exactly the missing amount. */
  lemma AskedReined(c: Config, p: Program, earlier: seq<Bar>, bar: Bar, book: Book, desk: Desk, quantity: real)
    requires NeverAbove(p, quantity) && Reined(quantity, book.position, desk.pending)
    requires Asked(c, p, earlier, bar, book, desk).Success?
    ensures Reined(quantity, book.position, Asked(c, p, earlier, bar, book, desk).value.pending)
  {
    hide CausalHistory, Decimal;
    if desk.pending == map[] {
      var want := p.desired(CausalHistory(earlier, bar.timestamp), bar.timestamp);
      assert want <= quantity;
    }
  }

  lemma BarStepReined(c: Config, p: Program, ordered: seq<Bar>, n: nat, sim: Sim, quantity: real)
    requires c.Valid() && n < |ordered| && TapeOk(ordered) && RunOk(c, ordered, n, sim) && Linked(sim.desk)
    requires NeverAbove(p, quantity) && Reined(quantity, sim.book.position, sim.desk.pending)
    requires BarStep(c, p, ordered, n, sim).Success?
    ensures var sim' := BarStep(c, p, ordered, n, sim).value; Reined(quantity, sim'.book.position, sim'.desk.pending)
  {
    hide Asked, WorkAll, CrossCheck, Reined, Linked, DeskOk, MoneySafe, NeverAbove, Capacity, TapeOk, FromBars;
    hide Chronological, WithinLiquidity, ObservationOk;
    var bar := ordered[n];
    assert bar.Valid() by { BarOfTape(ordered, n); }
    var s, desk := bar.Snapshot().value, Asked(c, p, ordered[..n], bar, sim.book, sim.desk).value;
    SnapshotValid(bar);
    CapacityNonnegative(c, s);
    AskedKeeps(c, p, ordered[..n], bar, sim.book, sim.desk);
    AskedReined(c, p, ordered[..n], bar, sim.book, sim.desk, quantity);
    LinkedOf(c, sim.book.fills, desk);
    WorkAllReined(c, bar, s, n, Worked(sim.book, desk, Capacity(c, s)), desk.ids, quantity);
  }

  lemma BarOfTape(ordered: seq<Bar>, n: nat)
    requires TapeOk(ordered) && n < |ordered|
    ensures ordered[n].Valid()
  {}

  lemma {:induction false} ReinedThroughout(c: Config, p: Program, ordered: seq<Bar>, n: nat, quantity: real)
    requires c.Valid() && n <= |ordered| && TapeOk(ordered) && NeverAbove(p, quantity) && quantity >= 0.0
    requires After(c, p, ordered, n).Success?
    ensures var sim := After(c, p, ordered, n).value; Reined(quantity, sim.book.position, sim.desk.pending)
    ensures forall i | 0 <= i < |After(c, p, ordered, n).value.observations| ::
      After(c, p, ordered, n).value.observations[i].position <= quantity
  {
    hide BarStep, Linked, RunOk, NeverAbove, TapeOk;
    if n > 0 {
      ReinedThroughout(c, p, ordered, n - 1, quantity);
      AfterKeeps(c, p, ordered, n - 1);
      var sim := After(c, p, ordered, n - 1).value;
      BarStepReined(c, p, ordered, n - 1, sim, quantity);
      StepObserves(c, p, ordered, n - 1, sim);
    }
  }

  lemma StepObserves(c: Config, p: Program, ordered: seq<Bar>, n: nat, sim: Sim)
    requires c.Valid() && n < |ordered| && Linked(sim.desk) && BarStep(c, p, ordered, n, sim).Success?
    ensures var sim' := BarStep(c, p, ordered, n, sim).value;
      && |sim'.observations| == |sim.observations| + 1
      && sim'.observations[..|sim.observations|] == sim.observations
      && sim'.observations[|sim.observations|].position == sim'.book.position
  {
    hide Asked, WorkAll, CrossCheck, Linked, Capacity;
  }

  /** At no bar of any replay does a pinned strategy hold more than its quantity, hold less than nothing, or have
      two orders out; and whatever buy is out cannot take it past its quantity. */
  lemma StrategyStaysWithinQuantity(
    c: Config, strategy: StrategyProgram, id: string, ordered: seq<Bar>, n: nat)
    requires c.Valid() && n <= |ordered| && TapeOk(ordered) && strategy.Valid()
    requires After(c, strategy.AsProgram(id), ordered, n).Success?
    ensures var sim := After(c, strategy.AsProgram(id), ordered, n).value;
      && |sim.observations| == n && 0.0 <= sim.book.position && Reined(strategy.quantity, sim.book.position, sim.desk.pending)
      && forall i | 0 <= i < n :: 0.0 <= sim.observations[i].position <= strategy.quantity
  {
    hide After, TapeOk, DeskOk, Chronological, FromBars, WithinLiquidity, Sound;
    var p := strategy.AsProgram(id);
    assert NeverAbove(p, strategy.quantity);
    ReinedThroughout(c, p, ordered, n, strategy.quantity);
    AfterKeeps(c, p, ordered, n);
  }

  /** The same for whatever replay is run, from unsorted bars to the reported observations. */
  lemma ReplayedStrategyStaysWithinQuantity(c: Config, strategy: StrategyProgram, id: string, bars: seq<Bar>, i: nat)
    requires c.Valid() && strategy.Valid() && forall bar | bar in bars :: bar.Valid()
    requires Replay(c, strategy.AsProgram(id), bars).Success?
    requires i < |Replay(c, strategy.AsProgram(id), bars).value.observations|
    ensures 0.0 <= Replay(c, strategy.AsProgram(id), bars).value.observations[i].position <= strategy.quantity
  {
    hide After, Sorted, CancelRest, TapeOk, Reined;
    var ordered := Sorted(bars);
    ScreenedTapeOk(bars);
    StrategyStaysWithinQuantity(c, strategy, id, ordered, |ordered|);
  }
}
