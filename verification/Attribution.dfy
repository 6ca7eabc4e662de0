/** Where the profit came from: costs paid plus profit kept is exactly what a cost-free book would have made. */
module Attribution {
  import opened Prelude
  import opened Accounting
  import opened Execution
  import opened Backtest
  import opened BacktestSafety

  datatype QuoteObservation = QuoteObservation(
    timestamp: int, availableAt: int, bid: real, ask: real, executable: real)
  {
    predicate Valid() {
      0.0 < bid <= ask && executable >= 0.0 && availableAt == timestamp
    }

    /** All four prices of the bar are the mid; execution sees the two-sided quote. */
    function AsBar(): Bar {
      var mid := (bid + ask) / 2.0;
      Bar(timestamp, mid, mid, mid, mid, executable, availableAt, F1TradeBbo, false,
        Some(MarketSnapshot(timestamp, bid, ask, executable, F1TradeBbo, true)))
    }
  }

  lemma QuoteBar(q: QuoteObservation)
    requires q.Valid()
    ensures q.AsBar().Valid() && q.AsBar().Snapshot().Some? && q.AsBar().close == q.AsBar().Snapshot().value.Mid()
    ensures q.AsBar().availableAt <= q.AsBar().timestamp && !q.AsBar().revised
  {}

  /** Cash and inventory at `price`, with every cost paid so far given back. */
  ghost function Worth(book: Book, costs: Costs, price: real): real {
    book.Equity(price) + costs.Total()
  }

  /** Trading at a bar moves money into costs and inventory but creates and destroys nothing at that bar's mid. */
  lemma ExecutionKeepsWorth(book: Book, costs: Costs, o: OrderIntent, e: Execution, f: Fill, s: MarketSnapshot)
    requires f.Valid() && ApplyFill(book, f).Success?
    requires f.side == o.side && f.quantity == e.quantity && f.price == e.price && f.fee == e.fee
    requires AdditiveTotal(f.costs) == e.slippage + e.impact
    ensures Worth(ApplyFill(book, f).value, Spend(costs, o, e, s), s.Mid()) == Worth(book, costs, s.Mid())
  {
    hide Notional, AverageAfter, RealizedBy, SeenFill, HasOrphan, AdditiveTotal;
    var mid := s.Mid();
    NotionalAdds(book.position, f.Signed(), mid);
    NotionalSpread(e.quantity, e.price, mid);
    NotionalAdds(e.quantity, 0.0, mid);
    NotionalAdds(e.quantity, 0.0, e.price);
  }

  lemma MeetKeepsWorth(c: Config, bar: Bar, s: MarketSnapshot, index: nat, w: Worked, n: OrderIntent)
    requires c.Valid() && n.clientOrderId in w.desk.pending && Linked(w.desk)
    requires Meet(c, bar, s, index, w, n).Success?
    ensures var w' := Meet(c, bar, s, index, w, n).value;
      Worth(w'.book, w'.desk.costs, s.Mid()) == Worth(w.book, w.desk.costs, s.Mid())
  {
    hide Decide, ApplyFill, Worth, FillOf, Spend, AdditiveTotal;
    match Decide(c, bar.open, s, n, w.book.cash, w.book.position, w.liquidity)
    case Stop(h) =>
    case Reject(reason) =>
    case Idle =>
    case Execute(e) =>
      var fill := FillOf(n, e, index, s.timestamp);
      if fill.Valid() && ApplyFill(w.book, fill).Success? {
        CostsOfFill(n, e, index, s.timestamp);
        FillCopies(n, e, index, s.timestamp);
        ExecutionKeepsWorth(w.book, w.desk.costs, n, e, fill, s);
      }
  }

  lemma FillCopies(n: OrderIntent, e: Execution, index: nat, when: int)
    ensures var f := FillOf(n, e, index, when);
      f.side == n.side && f.quantity == e.quantity && f.price == e.price && f.fee == e.fee
  {}

  lemma WorkOneKeepsWorth(c: Config, bar: Bar, s: MarketSnapshot, index: nat, w: Worked, id: string)
    requires c.Valid() && Linked(w.desk) && WorkOne(c, bar, s, index, w, id).Success?
    ensures var w' := WorkOne(c, bar, s, index, w, id).value;
      Worth(w'.book, w'.desk.costs, s.Mid()) == Worth(w.book, w.desk.costs, s.Mid())
  {
    hide Meet, Worth, RoundedOrder;
    if id in w.desk.pending && s.timestamp >= w.desk.pending[id].submission + c.model.latency {
      var o := w.desk.pending[id];
      if Precheck(c, s, o).Clear? && Normalized(c, o).Success? {
        var n := Normalized(c, o).value;
        MeetKeepsWorth(c, bar, s, index, w.(desk := Remember(w.desk, id, n)), n);
      }
    }
  }

  lemma {:induction false} WorkAllKeepsWorth(
    c: Config, bar: Bar, s: MarketSnapshot, index: nat, w: Worked, ids: seq<string>)
    requires c.Valid() && Linked(w.desk) && WorkAll(c, bar, s, index, w, ids).Success?
    ensures var w' := WorkAll(c, bar, s, index, w, ids).value;
      Worth(w'.book, w'.desk.costs, s.Mid()) == Worth(w.book, w.desk.costs, s.Mid())
  {
    hide WorkOne, Worth, Linked;
    if |ids| > 0 {
      var front := ids[..|ids| - 1];
      WorkAllKeepsWorth(c, bar, s, index, w, front);
      WorkOneKeepsWorth(c, bar, s, index, WorkAll(c, bar, s, index, w, front).value, ids[|ids| - 1]);
    }
  }

  /** What inventory alone earned over the first `n` bars: the position carried into each bar times the move from
      the last mark to that bar's mid, and the position leaving it times the move from mid to the bar's own mark. */
  ghost function Carried(ordered: seq<Bar>, observations: seq<Observation>, n: nat): real
    requires n <= |ordered| && n <= |observations|
    requires forall i | 0 <= i < n :: ordered[i].Snapshot().Some?
  {
    if n == 0 then 0.0
    else
      var mid := ordered[n - 1].Snapshot().value.Mid();
      Carried(ordered, observations, n - 1)
      + (if n == 1 then 0.0 else Notional(observations[n - 2].position, mid - observations[n - 2].mark))
      + Notional(observations[n - 1].position, observations[n - 1].mark - mid)
  }

  lemma AskedKeepsCosts(c: Config, p: Program, earlier: seq<Bar>, bar: Bar, book: Book, desk: Desk)
    requires Asked(c, p, earlier, bar, book, desk).Success?
    ensures Asked(c, p, earlier, bar, book, desk).value.costs == desk.costs
  {
    hide Intended;
  }

  lemma BarStepWorth(c: Config, p: Program, ordered: seq<Bar>, n: nat, sim: Sim)
    requires c.Valid() && n < |ordered| && Linked(sim.desk) && BarStep(c, p, ordered, n, sim).Success?
    ensures ordered[n].Snapshot().Some?
    ensures var sim', mid := BarStep(c, p, ordered, n, sim).value, ordered[n].Snapshot().value.Mid();
      && Worth(sim'.book, sim'.desk.costs, mid) == Worth(sim.book, sim.desk.costs, mid)
      && |sim'.observations| == |sim.observations| + 1
      && sim'.observations[..|sim.observations|] == sim.observations
      && sim'.observations[|sim.observations|].position == sim'.book.position
      && sim'.observations[|sim.observations|].mark == ordered[n].close
      && sim'.observations[|sim.observations|].equity == sim'.book.Equity(ordered[n].close)
  {
    hide Asked, WorkAll, CrossCheck, Linked, Capacity, Worth;
    var bar := ordered[n];
    var s, desk := bar.Snapshot().value, Asked(c, p, ordered[..n], bar, sim.book, sim.desk).value;
    AskedKeepsCosts(c, p, ordered[..n], bar, sim.book, sim.desk);
    WorkAllKeepsWorth(c, bar, s, n, Worked(sim.book, desk, Capacity(c, s)), desk.ids);
    CostsDecideWorth(sim.book, sim.desk.costs, s.Mid());
  }

  lemma CostsDecideWorth(book: Book, costs: Costs, price: real)
    ensures Worth(book, costs, price) == book.Equity(price) + costs.Total()
  {}

  lemma WorthMoves(book: Book, costs: Costs, from: real, to: real)
    ensures Worth(book, costs, to) == Worth(book, costs, from) + Notional(book.position, to - from)
  {
    NotionalSpread(book.position, to, from);
  }

  lemma {:induction false} CarriedOnPrefix(
    ordered: seq<Bar>, observations: seq<Observation>, more: seq<Observation>, n: nat)
    requires n <= |ordered| && n <= |observations| <= |more| && more[..|observations|] == observations
    requires forall i | 0 <= i < n :: ordered[i].Snapshot().Some?
    ensures Carried(ordered, observations, n) == Carried(ordered, more, n)
  {
    hide Notional;
    if n > 0 {
      CarriedOnPrefix(ordered, observations, more, n - 1);
      assert observations[n - 1] == more[..|observations|][n - 1] == more[n - 1];
      if n > 1 {
        assert observations[n - 2] == more[..|observations|][n - 2] == more[n - 2];
      }
    }
  }

  /** The state the attribution theorem is about, after `n` bars. */
  ghost predicate Attributed(c: Config, ordered: seq<Bar>, n: nat, sim: Sim)
    requires n <= |ordered|
  {
    && |sim.observations| == n && (forall i | 0 <= i < n :: ordered[i].Snapshot().Some?)
    && (n == 0 ==> sim.book == OpenBook(c.startingCash) && sim.desk.costs.Total() == 0.0)
    && (n > 0 ==>
          && sim.observations[n - 1].position == sim.book.position && sim.observations[n - 1].mark == ordered[n - 1].close
          && sim.observations[n - 1].equity == sim.book.Equity(ordered[n - 1].close)
          && Worth(sim.book, sim.desk.costs, ordered[n - 1].close)
               == c.startingCash + Carried(ordered, sim.observations, n))
  }

  lemma StepAttributed(c: Config, p: Program, ordered: seq<Bar>, n: nat, sim: Sim)
    requires c.Valid() && n < |ordered| && Linked(sim.desk) && BarStep(c, p, ordered, n, sim).Success?
    requires Attributed(c, ordered, n, sim)
    ensures Attributed(c, ordered, n + 1, BarStep(c, p, ordered, n, sim).value)
  {
    hide BarStep, Linked, Notional;
    var sim', close := BarStep(c, p, ordered, n, sim).value, ordered[n].close;
    BarStepWorth(c, p, ordered, n, sim);
    var mid := ordered[n].Snapshot().value.Mid();
    CarriedOnPrefix(ordered, sim.observations, sim'.observations, n);
    WorthMoves(sim'.book, sim'.desk.costs, mid, close);
    if n > 0 {
      WorthMoves(sim.book, sim.desk.costs, ordered[n - 1].close, mid);
      assert sim'.observations[n - 1] == sim'.observations[..n][n - 1] == sim.observations[n - 1];
    } else {
      NotionalAdds(0.0, 0.0, mid);
    }
  }

  /** After every bar of every replay: equity plus all fees, spread, slippage and impact paid so far is the
      starting cash plus what the carried inventory earned. No cost is lost and none is counted twice. */
  lemma {:induction false} CostsExplainProfit(c: Config, p: Program, ordered: seq<Bar>, n: nat)
    requires c.Valid() && n <= |ordered| && After(c, p, ordered, n).Success?
    ensures Attributed(c, ordered, n, After(c, p, ordered, n).value)
  {
    hide BarStep, Linked;
    if n > 0 {
      hide Attributed;
      CostsExplainProfit(c, p, ordered, n - 1);
      StepAttributed(c, p, ordered, n - 1, After(c, p, ordered, n - 1).value);
    }
  }

  /** On a quote tape, the sum over bars of position times the next move of the mid. */
  ghost function MidMoves(quotes: seq<QuoteObservation>, observations: seq<Observation>, n: nat): real
    requires n <= |quotes| && n <= |observations|
  {
    if n <= 1 then 0.0
    else MidMoves(quotes, observations, n - 1)
         + Notional(observations[n - 2].position, quotes[n - 1].AsBar().close - quotes[n - 2].AsBar().close)
  }

  lemma {:induction false} CarriedOnQuotes(
    ordered: seq<Bar>, quotes: seq<QuoteObservation>, observations: seq<Observation>, n: nat)
    requires n <= |observations| && |ordered| == |quotes| && n <= |ordered|
    requires forall i | 0 <= i < |quotes| :: quotes[i].Valid() && ordered[i] == quotes[i].AsBar()
    requires forall i | 0 <= i < n :: observations[i].mark == ordered[i].close && ordered[i].Snapshot().Some?
    ensures Carried(ordered, observations, n) == MidMoves(quotes, observations, n)
  {
    hide Notional;
    if n > 0 {
      CarriedOnQuotes(ordered, quotes, observations, n - 1);
      QuoteBar(quotes[n - 1]);
      NotionalAdds(observations[n - 1].position, 0.0, 0.0);
      NotionalOfNothing(observations[n - 1].position);
    }
  }

  lemma NotionalOfNothing(quantity: real)
    ensures Notional(quantity, 0.0) == 0.0
  {}

  lemma {:induction false} MarksAreCloses(c: Config, p: Program, ordered: seq<Bar>, n: nat)
    requires c.Valid() && n <= |ordered| && After(c, p, ordered, n).Success?
    ensures |After(c, p, ordered, n).value.observations| == n
    ensures forall i | 0 <= i < n :: After(c, p, ordered, n).value.observations[i].mark == ordered[i].close
  {
    hide BarStep, Linked;
    if n > 0 {
      MarksAreCloses(c, p, ordered, n - 1);
      BarStepWorth(c, p, ordered, n - 1, After(c, p, ordered, n - 1).value);
    }
  }

  lemma TapeNetPlusCostsIsGross(c: Config, p: Program, quotes: seq<QuoteObservation>, ordered: seq<Bar>)
    requires c.Valid() && |quotes| == |ordered| > 0 && After(c, p, ordered, |ordered|).Success?
    requires forall i | 0 <= i < |quotes| :: quotes[i].Valid() && ordered[i] == quotes[i].AsBar()
    ensures var sim := After(c, p, ordered, |ordered|).value;
      && |sim.observations| == |ordered|
      && (sim.observations[|ordered| - 1].equity - c.startingCash) + sim.desk.costs.Total()
           == MidMoves(quotes, sim.observations, |ordered|)
  {
    hide After;
    var sim := After(c, p, ordered, |ordered|).value;
    CostsExplainProfit(c, p, ordered, |ordered|);
    MarksAreCloses(c, p, ordered, |ordered|);
    CarriedOnQuotes(ordered, quotes, sim.observations, |ordered|);
  }

  function BarsOf(quotes: seq<QuoteObservation>): (bars: seq<Bar>)
    ensures |bars| == |quotes|
  {
    seq(|quotes|, i requires 0 <= i < |quotes| => quotes[i].AsBar())
  }

  /** Quotes are strictly chronological. */
  ghost predicate ValidTape(quotes: seq<QuoteObservation>) {
    && (forall q | q in quotes :: q.Valid())
    && (forall i, j | 0 <= i < j < |quotes| :: quotes[i].timestamp < quotes[j].timestamp)
  }

  /** Net profit of a replayed quote tape plus every cost it paid is the profit of trading for free at the mid. */
  lemma NetPlusCostsIsGross(c: Config, p: Program, quotes: seq<QuoteObservation>)
    requires c.Valid() && |quotes| > 0 && ValidTape(quotes)
    ensures Replay(c, p, BarsOf(quotes)).Success? ==>
      var o := Replay(c, p, BarsOf(quotes)).value;
      && |o.observations| == |quotes|
      && (o.observations[|quotes| - 1].equity - c.startingCash) + o.costs.Total() == MidMoves(quotes, o.observations, |quotes|)
  {
    hide After, CancelRest, MidMoves, Sorted;
    var bars := BarsOf(quotes);
    SortedAlready(bars);
    if Replay(c, p, bars).Success? {
      var sim := After(c, p, bars, |bars|).value;
      CancelRestCostsNothing(sim.desk, sim.desk.ids, bars[|bars| - 1].timestamp);
      TapeNetPlusCostsIsGross(c, p, quotes, bars);
    }
  }
}
