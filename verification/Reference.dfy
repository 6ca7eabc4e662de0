/** The second, independent bookkeeping: first-in-first-out lots. */
module Reference {
  import opened Prelude
  import opened Accounting

  datatype Lot = Lot(quantity: real, entry: real)

  /** What the reconciler reports at a mark. */
  datatype Reconciliation = Reconciliation(
    cash: real, position: real, realized: real, unrealized: real, equity: real, fees: real, other: real)

  /** The reconciler's running totals. */
  datatype Tally = Tally(cash: real, lots: seq<Lot>, realized: real, fees: real, other: real)

  datatype Matched = Matched(lots: seq<Lot>, incoming: real, gain: real)

  function LotsTotal(lots: seq<Lot>): real {
    if |lots| == 0 then 0.0 else lots[0].quantity + LotsTotal(lots[1..])
  }

  function LotsMarked(lots: seq<Lot>, mark: real): real {
    if |lots| == 0 then 0.0 else Notional(lots[0].quantity, mark - lots[0].entry) + LotsMarked(lots[1..], mark)
  }

  predicate Opposes(lots: seq<Lot>, incoming: real) {
    incoming != 0.0 && |lots| > 0 && Opposed(lots[0].quantity, incoming)
  }

  /** One pass of the inner loop: the front lot and the incoming quantity shrink by the smaller of the two. */
  function CloseFront(lot: Lot, incoming: real, price: real): Matched {
    var closing := Min(Abs(lot.quantity), Abs(incoming));
    var left := Abs(lot.quantity) - closing;
    Matched(
      if left == 0.0 then [] else [Lot(Along(lot.quantity, left), lot.entry)],
      Along(incoming, Abs(incoming) - closing),
      Along(lot.quantity, Notional(closing, price - lot.entry)))
  }

  lemma CloseFrontShrinks(lot: Lot, incoming: real, price: real)
    ensures |CloseFront(lot, incoming, price).lots| <= 1
    ensures |CloseFront(lot, incoming, price).lots| == 1 ==> CloseFront(lot, incoming, price).incoming == 0.0
  {}

  /** Closes lots from the front against an incoming signed quantity. */
  function MatchLots(lots: seq<Lot>, incoming: real, price: real): Matched
    decreases |lots|, if incoming == 0.0 then 0 else 1
  {
    if Opposes(lots, incoming) then
      CloseFrontShrinks(lots[0], incoming, price);
      var one := CloseFront(lots[0], incoming, price);
      var rest := MatchLots(one.lots + lots[1..], one.incoming, price);
      Matched(rest.lots, rest.incoming, one.gain + rest.gain)
    else Matched(lots, incoming, 0.0)
  }

  function Record(t: Tally, f: Fill): Tally {
    var m := MatchLots(t.lots, f.Signed(), f.price);
    Tally(
      t.cash - (Notional(f.Signed(), f.price) + f.fee) - AdditiveTotal(f.costs),
      if m.incoming != 0.0 then m.lots + [Lot(m.incoming, f.price)] else m.lots,
      t.realized + m.gain, t.fees + f.fee, t.other + AdditiveTotal(f.costs))
  }

  function RecordAll(starting: real, fills: seq<Fill>): Tally {
    if |fills| == 0 then Tally(starting, [], 0.0, 0.0, 0.0)
    else Record(RecordAll(starting, fills[..|fills| - 1]), fills[|fills| - 1])
  }

  function Report(t: Tally, mark: real): Reconciliation {
    var position := LotsTotal(t.lots);
    Reconciliation(t.cash, position, t.realized, LotsMarked(t.lots, mark), t.cash + Notional(position, mark), t.fees, t.other)
  }

  /** The reconciler's answer: refused exactly on a repeated fill id. It never looks at decompositions. */
  ghost function Reconciled(starting: real, fills: seq<Fill>, mark: real): Result<Reconciliation, LedgerError> {
    if DistinctIds(fills) then Success(Report(RecordAll(starting, fills), mark)) else Failure(DuplicateFill)
  }

  method AddCosts(cash: real, other: real, costs: seq<CostComponent>) returns (cash': real, other': real)
    ensures cash' == cash - AdditiveTotal(costs)
    ensures other' == other + AdditiveTotal(costs)
  {
    cash', other' := cash, other;
    for i := 0 to |costs|
      invariant cash' == cash - AdditiveTotal(costs[..i])
      invariant other' == other + AdditiveTotal(costs[..i])
    {
      assert costs[..i + 1][..i] == costs[..i];
      if costs[i].treatment.Additive? {
        cash' := cash' - costs[i].amount;
        other' := other' + costs[i].amount;
      }
    }
    assert costs[..|costs|] == costs;
  }

  /** The inner loop: pops or rewrites the front lot while it opposes what is left of the fill. */
  method CloseLots(lots: seq<Lot>, incoming: real, price: real, realized: real)
    returns (lots': seq<Lot>, incoming': real, realized': real)
    ensures var m := MatchLots(lots, incoming, price);
      lots' == m.lots && incoming' == m.incoming && realized' == realized + m.gain
  {
    lots', incoming', realized' := lots, incoming, realized;
    while Opposes(lots', incoming')
      invariant var rest, m := MatchLots(lots', incoming', price), MatchLots(lots, incoming, price);
        rest.lots == m.lots && rest.incoming == m.incoming && realized' + rest.gain == realized + m.gain
      decreases |lots'|, if incoming' == 0.0 then 0 else 1
    {
      CloseFrontShrinks(lots'[0], incoming', price);
      var one := CloseFront(lots'[0], incoming', price);
      realized' := realized' + one.gain;
      incoming' := one.incoming;
      lots' := one.lots + lots'[1..];
    }
  }

  /** The body of the outer loop for one fill. */
  method RecordFill(t: Tally, fill: Fill) returns (t': Tally)
    ensures t' == Record(t, fill)
  {
    var incoming := fill.Signed();
    var cash := t.cash - (Notional(incoming, fill.price) + fill.fee);
    var fees := t.fees + fill.fee;
    var other;
    cash, other := AddCosts(cash, t.other, fill.costs);
    var lots, realized;
    lots, incoming, realized := CloseLots(t.lots, incoming, fill.price, t.realized);
    if incoming != 0.0 {
      lots := lots + [Lot(incoming, fill.price)];
    }
    t' := Tally(cash, lots, realized, fees, other);
  }

  method IndependentlyReconcile(starting: real, fills: seq<Fill>, mark: real)
    returns (r: Result<Reconciliation, LedgerError>)
    ensures r == Reconciled(starting, fills, mark)
  {
    var t := Tally(starting, [], 0.0, 0.0, 0.0);
    var seen: set<string> := {};
    for i := 0 to |fills|
      invariant t == RecordAll(starting, fills[..i])
      invariant seen == set j | 0 <= j < i :: fills[j].fillId
      invariant forall j, k | 0 <= j < k < i :: fills[j].fillId != fills[k].fillId
    {
      if fills[i].fillId in seen {
        assert !DistinctIds(fills);
        return Failure(DuplicateFill);
      }
      seen := seen + {fills[i].fillId};
      t := RecordFill(t, fills[i]);
      assert fills[..i + 1][..i] == fills[..i];
    }
    assert fills[..|fills|] == fills;
    var report := Summarize(t, mark);
    return Success(report);
  }

  /** The two closing sums over the open lots. */
  method Summarize(t: Tally, mark: real) returns (r: Reconciliation)
    ensures r == Report(t, mark)
  {
    var position := SumLots(t.lots);
    var unrealized := MarkLots(t.lots, mark);
    r := Reconciliation(t.cash, position, t.realized, unrealized, t.cash + Notional(position, mark), t.fees, t.other);
  }

  method SumLots(lots: seq<Lot>) returns (total: real)
    ensures total == LotsTotal(lots)
  {
    total := 0.0;
    for i := 0 to |lots|
      invariant total + LotsTotal(lots[i..]) == LotsTotal(lots)
    {
      total := total + lots[i].quantity;
    }
  }

  method MarkLots(lots: seq<Lot>, mark: real) returns (total: real)
    ensures total == LotsMarked(lots, mark)
  {
    total := 0.0;
    for i := 0 to |lots|
      invariant total + LotsMarked(lots[i..], mark) == LotsMarked(lots, mark)
    {
      total := total + Notional(lots[i].quantity, mark - lots[i].entry);
    }
  }
}
