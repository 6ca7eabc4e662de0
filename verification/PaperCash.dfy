/** The paper account's cash: stored balances against running totals, and against full replays of the ledger. */
module PaperCash {
  import opened Prelude
  import opened Accounting
  import opened Execution
  import opened PaperTrading
  import opened PaperSafety
  import opened PaperTheorems

  // ---- Cash -----------------------------------------------------------------------------------

  /** What the run truly holds in a currency: the sum of every entry's delta. */
  ghost function CashTotal(cash: seq<CashEntry>, run: string, currency: string): real {
    if |cash| == 0 then 0.0
    else
      var last := cash[|cash| - 1];
      CashTotal(cash[..|cash| - 1], run, currency) + if last.run == run && last.currency == currency then last.delta else 0.0
  }

  /** Every stored balance is the running total. */
  ghost predicate Balanced(cash: seq<CashEntry>) {
    forall i | 0 <= i < |cash| :: cash[i].balance == CashTotal(cash[..i + 1], cash[i].run, cash[i].currency)
  }

  /** Stamps grow with the order in which a run's entries in a currency were written. */
  ghost predicate StampsGrow(cash: seq<CashEntry>) {
    forall i, j | 0 <= i < j < |cash| && cash[i].run == cash[j].run && cash[i].currency == cash[j].currency ::
      cash[i].stamp < cash[j].stamp
  }

  function NextEntry(cash: seq<CashEntry>, run: string, currency: string, delta: real, stamp: int): CashEntry {
    CashEntry(run, currency, delta, PriorBalance(cash, run, currency) + delta, stamp)
  }

  /** Each entry was written by the ledger's own rule. */
  ghost predicate WrittenByRule(cash: seq<CashEntry>) {
    forall i | 0 <= i < |cash| ::
      cash[i] == NextEntry(cash[..i], cash[i].run, cash[i].currency, cash[i].delta, cash[i].stamp)
  }

  lemma {:induction false} NewestIsLast(cash: seq<CashEntry>, run: string, currency: string) returns (k: int)
    requires StampsGrow(cash)
    ensures Newest(cash, run, currency).None? ==> k == -1 && CashTotal(cash, run, currency) == 0.0
    ensures Newest(cash, run, currency).Some? ==>
      && 0 <= k < |cash| && Newest(cash, run, currency) == Some(cash[k])
      && cash[k].run == run && cash[k].currency == currency
      && CashTotal(cash, run, currency) == CashTotal(cash[..k + 1], run, currency)
  {
    if |cash| == 0 {
      k := -1;
    } else {
      var front, last := cash[..|cash| - 1], cash[|cash| - 1];
      k := NewestIsLast(front, run, currency);
      if last.run == run && last.currency == currency {
        k := |cash| - 1;
        assert cash[..k + 1] == cash;
      } else if k >= 0 {
        assert cash[..k + 1] == front[..k + 1];
      }
    }
  }

  lemma PrefixByRule(cash: seq<CashEntry>)
    requires |cash| > 0 && WrittenByRule(cash)
    ensures var front, last := cash[..|cash| - 1], cash[|cash| - 1];
      WrittenByRule(front) && last == NextEntry(front, last.run, last.currency, last.delta, last.stamp)
  {
    hide PriorBalance;
    var front := cash[..|cash| - 1];
    forall i | 0 <= i < |front|
      ensures front[i] == NextEntry(front[..i], front[i].run, front[i].currency, front[i].delta, front[i].stamp)
    {
      assert front[..i] == cash[..i];
    }
  }

  /** The newest entry of a run and currency already has everything before it, when stamps grow. */
  lemma PriorIsTotal(cash: seq<CashEntry>, run: string, currency: string)
    requires Balanced(cash) && StampsGrow(cash)
    ensures PriorBalance(cash, run, currency) == CashTotal(cash, run, currency)
  {
    hide StampsGrow, CashTotal, Newest;
    var k := NewestIsLast(cash, run, currency);
  }

  lemma BalancedAppend(front: seq<CashEntry>, last: CashEntry)
    requires Balanced(front) && last.balance == CashTotal(front, last.run, last.currency) + last.delta
    ensures Balanced(front + [last])
  {
    var all := front + [last];
    assert all[..|front|] == front && all[..|all|] == all;
    forall i | 0 <= i < |all| ensures all[i].balance == CashTotal(all[..i + 1], all[i].run, all[i].currency) {
      if i < |front| {
        assert all[..i + 1] == front[..i + 1];
      } else {
        assert all[..i + 1] == all;
      }
    }
  }

  /** If stamps grow with the writing order, every balance is exactly the sum of the deltas before it. */
  lemma {:induction false} GrowingStampsBalance(cash: seq<CashEntry>)
    requires WrittenByRule(cash) && StampsGrow(cash)
    ensures Balanced(cash)
  {
    if |cash| > 0 {
      hide Balanced, PriorBalance, CashTotal;
      var front, last := cash[..|cash| - 1], cash[|cash| - 1];
      PrefixByRule(cash);
      assert StampsGrow(front);
      hide StampsGrow;
      GrowingStampsBalance(front);
      PriorIsTotal(front, last.run, last.currency);
      assert cash == front + [last] && last == NextEntry(front, last.run, last.currency, last.delta, last.stamp);
      BalancedAppend(front, last);
    }
  }

  /** What the newest stamp overlooks: the deltas written after the most recently stamped row. */
  ghost function Skipped(cash: seq<CashEntry>, run: string, currency: string): real {
    if |cash| == 0 then 0.0
    else
      var front, last := cash[..|cash| - 1], cash[|cash| - 1];
      var newest := Newest(front, run, currency);
      if last.run != run || last.currency != currency then Skipped(front, run, currency)
      else if newest.None? || last.stamp > newest.value.stamp then 0.0
      else Skipped(front, run, currency) + last.delta
  }

  lemma BalancedSplits(cash: seq<CashEntry>)
    requires |cash| > 0
    ensures var front, last := cash[..|cash| - 1], cash[|cash| - 1];
      Balanced(cash) <==> Balanced(front) && last.balance == CashTotal(front, last.run, last.currency) + last.delta
  {
    var front, last := cash[..|cash| - 1], cash[|cash| - 1];
    assert cash == front + [last] && cash[..|cash|] == cash;
    if Balanced(cash) {
      forall i | 0 <= i < |front| ensures front[i].balance == CashTotal(front[..i + 1], front[i].run, front[i].currency) {
        assert front[..i + 1] == cash[..i + 1];
        assert cash[i].balance == CashTotal(cash[..i + 1], cash[i].run, cash[i].currency);
      }
      assert cash[|front|].balance == CashTotal(cash[..|front| + 1], last.run, last.currency);
    } else if Balanced(front) && last.balance == CashTotal(front, last.run, last.currency) + last.delta {
      BalancedAppend(front, last);
    }
  }

  /** On balanced books the row the next entry starts from lacks exactly the deltas written after it. */
  lemma {:induction false} PriorLacksSkipped(cash: seq<CashEntry>, run: string, currency: string)
    requires Balanced(cash)
    ensures PriorBalance(cash, run, currency) == CashTotal(cash, run, currency) - Skipped(cash, run, currency)
  {
    hide Balanced;
    if |cash| > 0 {
      BalancedSplits(cash);
      PriorLacksSkipped(cash[..|cash| - 1], run, currency);
    }
  }

  /** At every row the deltas written after the most recently stamped one cancel out. */
  ghost predicate NothingSkipped(cash: seq<CashEntry>) {
    forall i | 0 <= i < |cash| :: Skipped(cash[..i], cash[i].run, cash[i].currency) == 0.0
  }

  lemma NothingSkippedSplits(cash: seq<CashEntry>)
    requires |cash| > 0
    ensures var front, last := cash[..|cash| - 1], cash[|cash| - 1];
      NothingSkipped(cash) <==> NothingSkipped(front) && Skipped(front, last.run, last.currency) == 0.0
  {
    hide Skipped;
    var front, last := cash[..|cash| - 1], cash[|cash| - 1];
    forall i | 0 <= i < |front| ensures front[..i] == cash[..i] {}
    if NothingSkipped(cash) {
      forall i | 0 <= i < |front| ensures Skipped(front[..i], front[i].run, front[i].currency) == 0.0 {
        assert Skipped(cash[..i], cash[i].run, cash[i].currency) == 0.0;
      }
      assert Skipped(cash[..|front|], last.run, last.currency) == 0.0;
    }
    if NothingSkipped(front) && Skipped(front, last.run, last.currency) == 0.0 {
      forall i | 0 <= i < |cash| ensures Skipped(cash[..i], cash[i].run, cash[i].currency) == 0.0 {
        if i < |front| {
          assert Skipped(front[..i], front[i].run, front[i].currency) == 0.0;
        }
      }
    }
  }

  /** Exactly when the newest-stamp rule keeps every balance equal to the running total: at every entry, the deltas
      written after the most recently stamped row cancel out. */
  lemma {:induction false} BalancedExactly(cash: seq<CashEntry>)
    requires WrittenByRule(cash)
    ensures Balanced(cash) <==> NothingSkipped(cash)
  {
    if |cash| > 0 {
      hide Balanced, NothingSkipped, PriorBalance, CashTotal, Skipped, WrittenByRule;
      var front, last := cash[..|cash| - 1], cash[|cash| - 1];
      PrefixByRule(cash);
      BalancedExactly(front);
      BalancedSplits(cash);
      NothingSkippedSplits(cash);
      if Balanced(front) {
        PriorLacksSkipped(front, last.run, last.currency);
      }
    }
  }

  lemma StepWritesByRule(s: Account, op: Operation)
    requires AccountOk(s) && Legal(op) && WrittenByRule(s.cash)
    ensures WrittenByRule(Step(s, op).cash)
  {
    hide OrdersOk, RiskOk, LatchOk, FillRefused, Replayed, PriorBalance, ConvertedShare, SubmitNew, WrittenByRule;
    if op.DoFill? && Step(s, op).cash != s.cash {
      var e := Step(s, op).cash[|s.cash|];
      assert Step(s, op).cash == s.cash + [e];
      assert e == NextEntry(s.cash, e.run, e.currency, e.delta, e.stamp);
      RuleAppend(s.cash, e);
    } else if op.DoSubmit? {
      SubmitKeepsCash(s, op);
    }
  }

  lemma RuleAppend(cash: seq<CashEntry>, e: CashEntry)
    requires WrittenByRule(cash) && e == NextEntry(cash, e.run, e.currency, e.delta, e.stamp)
    ensures WrittenByRule(cash + [e])
  {
    hide PriorBalance;
    var all := cash + [e];
    forall i | 0 <= i < |all| ensures all[i] == NextEntry(all[..i], all[i].run, all[i].currency, all[i].delta, all[i].stamp) {
      assert all[..i] == cash[..i];
    }
  }

  lemma SubmitKeepsCash(s: Account, op: Operation)
    requires FillsValid(s) && Legal(op) && op.DoSubmit?
    ensures Step(s, op).cash == s.cash
  {
    hide Pretrade, PoolRisk, StoppedFor, PinnedSpec, PositionIn;
  }

  lemma {:induction false} HistoryWritesByRule(history: seq<Operation>, i: nat)
    requires AllLegal(history) && i <= |history|
    ensures WrittenByRule(At(history, i).cash)
  {
    hide At, Step, AccountOk, WrittenByRule;
    if i == 0 {
      assert At(history, 0).cash == [] by { AtStart(history); }
      NothingWritten();
    } else {
      HistoryWritesByRule(history, i - 1);
      AtStep(history, i - 1);
      StepWritesByRule(At(history, i - 1), history[i - 1]);
    }
  }

  lemma AtStart(history: seq<Operation>)
    ensures At(history, 0) == NoAccount
  {}

  lemma NothingWritten()
    ensures WrittenByRule([])
  {}

  /** In every history whose cash stamps grow, each balance is the running total of what was really paid. */
  lemma CashIsExactWhenStampsGrow(history: seq<Operation>, i: nat)
    requires AllLegal(history) && i <= |history| && StampsGrow(At(history, i).cash)
    ensures Balanced(At(history, i).cash)
  {
    hide At, WrittenByRule, Balanced;
    HistoryWritesByRule(history, i);
    GrowingStampsBalance(At(history, i).cash);
  }

  /** Over every history: the balances are the running totals exactly when nothing is ever skipped. */
  lemma CashIsExactExactlyWhen(history: seq<Operation>, i: nat)
    requires AllLegal(history) && i <= |history|
    ensures Balanced(At(history, i).cash) <==> NothingSkipped(At(history, i).cash)
  {
    hide At, WrittenByRule, Balanced, NothingSkipped;
    HistoryWritesByRule(history, i);
    BalancedExactly(At(history, i).cash);
  }

  // ---- Incremental cash against full replays --------------------------------------------------

  ghost function DeltaIn(fills: seq<FillRow>, market: (string, string, string)): real {
    if |fills| == 0 then 0.0
    else DeltaIn(fills[..|fills| - 1], market) + if fills[|fills| - 1].market == market then fills[|fills| - 1].Delta() else 0.0
  }

  lemma {:induction false} RowsOutlay(fills: seq<FillRow>, market: (string, string, string))
    ensures var all := AsFills(RowsOf(fills, market));
      -NetOutlay(all) - TotalFees(all) == DeltaIn(fills, market) && TotalAdditive(all) == 0.0
  {
    hide Notional;
    if |fills| > 0 {
      var front, last := fills[..|fills| - 1], fills[|fills| - 1];
      RowsOutlay(front, market);
      var rows := RowsOf(fills, market);
      if last.market == market {
        assert rows == RowsOf(front, market) + [last] && rows[..|rows| - 1] == RowsOf(front, market);
        var all := AsFills(rows);
        assert all == AsFills(RowsOf(front, market)) + [last.AsFill(last.id)];
        assert all[..|all| - 1] == AsFills(RowsOf(front, market));
      } else {
        assert rows == RowsOf(front, market);
      }
    }
  }

  /** A market's full replay, begun with nothing, ends with exactly the cash its entries moved. */
  lemma ReplayedCash(fills: seq<FillRow>, market: (string, string, string))
    requires forall r | r in fills :: r.fill.Valid()
    requires forall f | f in AsFills(RowsOf(fills, market)) :: f.Valid()
    requires ApplyAll(0.0, AsFills(RowsOf(fills, market))).Success?
    ensures ApplyAll(0.0, AsFills(RowsOf(fills, market))).value.cash == DeltaIn(fills, market)
  {
    AcceptedExactlyWhen(0.0, AsFills(RowsOf(fills, market)));
    RowsOutlay(fills, market);
  }

  ghost function DeltaOver(fills: seq<FillRow>, markets: seq<(string, string, string)>): real {
    if |markets| == 0 then 0.0 else DeltaOver(fills, markets[..|markets| - 1]) + DeltaIn(fills, markets[|markets| - 1])
  }

  lemma {:induction false} OneMoreFillOver(fills: seq<FillRow>, row: FillRow, markets: seq<(string, string, string)>)
    requires forall i, j | 0 <= i < j < |markets| :: markets[i] != markets[j]
    ensures DeltaOver(fills + [row], markets) == DeltaOver(fills, markets) + if row.market in markets then row.Delta() else 0.0
  {
    assert (fills + [row])[..|fills|] == fills;
    if |markets| > 0 {
      OneMoreFillOver(fills, row, markets[..|markets| - 1]);
      assert markets == markets[..|markets| - 1] + [markets[|markets| - 1]];
    }
  }

  lemma {:induction false} NoFillsOver(markets: seq<(string, string, string)>)
    ensures DeltaOver([], markets) == 0.0
  {
    if |markets| > 0 {
      NoFillsOver(markets[..|markets| - 1]);
    }
  }

  /** Regrouping what was written by market. */
  lemma {:induction false} CashByMarket(
    fills: seq<FillRow>, cash: seq<CashEntry>, run: string, currency: string, markets: seq<(string, string, string)>)
    requires |cash| == |fills| && forall i | 0 <= i < |fills| ::
      && cash[i].run == fills[i].market.0 && cash[i].currency == fills[i].currency && cash[i].delta == fills[i].Delta()
    requires forall i, j | 0 <= i < j < |markets| :: markets[i] != markets[j]
    requires forall r | r in fills :: r.market in markets <==> r.market.0 == run && r.currency == currency
    ensures CashTotal(cash, run, currency) == DeltaOver(fills, markets)
  {
    if |fills| == 0 {
      NoFillsOver(markets);
    } else {
      var front, last := fills[..|fills| - 1], fills[|fills| - 1];
      assert fills == front + [last];
      CashByMarket(front, cash[..|cash| - 1], run, currency, markets);
      OneMoreFillOver(front, last, markets);
    }
  }

  // ---- Every stored market replays ------------------------------------------------------------

  /** Row ids are distinct, and every row is in the currency of its run. */
  ghost predicate RowsOk(s: Account) {
    && (forall i, j | 0 <= i < j < |s.fills| :: s.fills[i].id != s.fills[j].id)
    && (forall r | r in s.fills :: r.market.0 in s.runs && r.currency == s.runs[r.market.0].currency)
  }

  ghost predicate SameRows(s: Account, s': Account) {
    s'.fills == s.fills && forall run | run in s.runs :: run in s'.runs && s'.runs[run].currency == s.runs[run].currency
  }

  lemma SameRowsKeeps(s: Account, s': Account)
    requires RowsOk(s) && SameRows(s, s')
    ensures RowsOk(s')
  {}

  lemma SubmitKeepsRows(s: Account, op: Operation)
    requires FillsValid(s) && Legal(op) && op.DoSubmit?
    ensures SameRows(s, Step(s, op))
  {
    hide Pretrade, PoolRisk, StoppedFor, PinnedSpec, PositionIn;
  }

  lemma OthersKeepRows(s: Account, op: Operation)
    requires FillsValid(s) && Legal(op) && !op.DoFill?
    ensures SameRows(s, Step(s, op))
  {
    hide Submit, RecordFill, CancelAll, Freed, Unresolved, GloballyLatched, LatchHeld, OrderRecord.Transition;
    if op.DoSubmit? {
      SubmitKeepsRows(s, op);
    }
  }

  lemma RecordNewAddsRow(s: Account, id: string, f: PaperFill, currency: string, rowId: string, stamp: int)
    requires FillsValid(s) && f.Valid() && id in s.orders
    requires RecordNew(s, id, s.orders[id], f, currency, rowId, stamp).Success?
    ensures var s', row := RecordNew(s, id, s.orders[id], f, currency, rowId, stamp).value,
                           RowFor(rowId, id, s.orders[id], f, currency);
      && s'.fills == s.fills + [row] && s'.runs == s.runs && (forall r | r in s.fills :: r.id != rowId)
      && row.market.0 in s.runs && currency == s.runs[row.market.0].currency
  {
    hide Replayed, ConvertedShare, PriorBalance, AfterFill, PinnedSpec, OnGrid, SelectFee, Notional, FillsValid;
    hide OrderRecord.Transition;
  }

  lemma FillKeepsRows(s: Account, id: string, f: PaperFill, currency: string, rowId: string, stamp: int)
    requires RowsOk(s) && FillsValid(s) && f.Valid()
    ensures RowsOk(Kept(s, RecordFill(s, id, f, currency, rowId, stamp)))
  {
    hide RecordNew;
    if id in s.orders && RecordNew(s, id, s.orders[id], f, currency, rowId, stamp).Success? {
      RecordNewAddsRow(s, id, f, currency, rowId, stamp);
    }
  }

  lemma {:induction false} HistoryKeepsRows(history: seq<Operation>, i: nat)
    requires AllLegal(history) && i <= |history|
    ensures RowsOk(At(history, i))
  {
    hide At, Step, AccountOk, RowsOk, SameRows;
    if i == 0 {
      AtStart(history);
      NoRows();
    } else {
      HistoryKeepsRows(history, i - 1);
      AtStep(history, i - 1);
      var s, op := At(history, i - 1), history[i - 1];
      assert Legal(op);
      if op.DoFill? {
        FillKeepsRows(s, op.order, op.fill, op.currency, op.rowId, op.stamp);
        assert Step(s, op) == Kept(s, RecordFill(s, op.order, op.fill, op.currency, op.rowId, op.stamp)) by {
          FillStep(s, op);
        }
      } else {
        OthersKeepRows(s, op);
        SameRowsKeeps(s, Step(s, op));
      }
    }
  }

  lemma NoRows()
    ensures RowsOk(NoAccount)
  {}

  lemma FillStep(s: Account, op: Operation)
    requires FillsValid(s) && Legal(op) && op.DoFill?
    ensures Step(s, op) == Kept(s, RecordFill(s, op.order, op.fill, op.currency, op.rowId, op.stamp))
  {
    hide RecordFill;
  }

  /** The full replay of one market's stored fills, from nothing. */
  ghost function Replay(fills: seq<FillRow>, market: (string, string, string)): Result<Book, LedgerError>
    requires forall r | r in fills :: r.fill.Valid()
  {
    RowsAreValid(fills, market);
    ApplyAll(0.0, AsFills(RowsOf(fills, market)))
  }

  lemma OneMoreId(fills: seq<Fill>, f: Fill)
    requires DistinctIds(fills) && NoOrphans(fills) && f.costs == [] && forall g | g in fills :: g.fillId != f.fillId
    ensures DistinctIds(fills + [f]) && NoOrphans(fills + [f])
  {}

  ghost predicate HasId(fills: seq<FillRow>, id: string) {
    exists r | r in fills :: r.id == id
  }

  lemma HasIdGrows(fills: seq<FillRow>)
    requires |fills| > 0 && forall i, j | 0 <= i < j < |fills| :: fills[i].id != fills[j].id
    ensures forall id | HasId(fills[..|fills| - 1], id) :: HasId(fills, id)
    ensures var last := fills[|fills| - 1]; HasId(fills, last.id) && !HasId(fills[..|fills| - 1], last.id)
  {
    var front, last := fills[..|fills| - 1], fills[|fills| - 1];
    assert last in fills && forall r | r in front :: r in fills && r.id != last.id;
  }

  lemma {:induction false} RowsOfAreDistinct(fills: seq<FillRow>, market: (string, string, string))
    requires forall i, j | 0 <= i < j < |fills| :: fills[i].id != fills[j].id
    ensures var all := AsFills(RowsOf(fills, market));
      DistinctIds(all) && NoOrphans(all) && forall f | f in all :: HasId(fills, f.fillId)
  {
    if |fills| > 0 {
      var front, last := fills[..|fills| - 1], fills[|fills| - 1];
      RowsOfAreDistinct(front, market);
      HasIdGrows(fills);
      var rows := RowsOf(front, market);
      hide AsFills, DistinctIds, NoOrphans, HasId;
      if last.market == market {
        OneMoreRow(rows, last);
        OneMoreId(AsFills(rows), last.AsFill(last.id));
        assert RowsOf(fills, market) == rows + [last];
      } else {
        assert RowsOf(fills, market) == rows;
      }
    }
  }

  lemma EveryMarketReplays(fills: seq<FillRow>, market: (string, string, string))
    requires forall i, j | 0 <= i < j < |fills| :: fills[i].id != fills[j].id
    requires forall r | r in fills :: r.fill.Valid()
    ensures Replay(fills, market).Success?
    ensures Replay(fills, market).value.cash == DeltaIn(fills, market)
  {
    hide AsFills, RowsOf, DeltaIn, ApplyAll;
    RowsAreValid(fills, market);
    RowsOfAreDistinct(fills, market);
    AcceptedExactlyWhen(0.0, AsFills(RowsOf(fills, market)));
    ReplayedCash(fills, market);
  }

  /** The markets a run traded in a currency, each once. */
  ghost function MarketsOf(fills: seq<FillRow>, run: string, currency: string): seq<(string, string, string)> {
    if |fills| == 0 then []
    else
      var earlier, last := MarketsOf(fills[..|fills| - 1], run, currency), fills[|fills| - 1];
      if last.market.0 == run && last.currency == currency && last.market !in earlier then earlier + [last.market]
      else earlier
  }

  lemma {:induction false} MarketsOfAre(fills: seq<FillRow>, run: string, currency: string)
    ensures var markets := MarketsOf(fills, run, currency);
      && (forall i, j | 0 <= i < j < |markets| :: markets[i] != markets[j])
      && (forall r | r in fills && r.market.0 == run && r.currency == currency :: r.market in markets)
      && (forall m | m in markets :: exists r | r in fills :: r.market == m && m.0 == run && r.currency == currency)
  {
    if |fills| > 0 {
      var front, last := fills[..|fills| - 1], fills[|fills| - 1];
      MarketsOfAre(front, run, currency);
      assert fills == front + [last] && last in fills;
      assert forall r | r in front :: r in fills;
    }
  }

  /** The summed cash of the full replays of those markets. */
  ghost function ReplayedTotal(fills: seq<FillRow>, markets: seq<(string, string, string)>): real
    requires forall r | r in fills :: r.fill.Valid()
    requires forall m | m in markets :: Replay(fills, m).Success?
  {
    if |markets| == 0 then 0.0
    else ReplayedTotal(fills, markets[..|markets| - 1]) + Replay(fills, markets[|markets| - 1]).value.cash
  }

  lemma {:induction false} ReplayedTotalIs(fills: seq<FillRow>, markets: seq<(string, string, string)>)
    requires forall i, j | 0 <= i < j < |fills| :: fills[i].id != fills[j].id
    requires forall r | r in fills :: r.fill.Valid()
    ensures forall m | m in markets :: Replay(fills, m).Success?
    ensures ReplayedTotal(fills, markets) == DeltaOver(fills, markets)
  {
    hide Replay, DeltaIn;
    forall m | m in markets ensures Replay(fills, m).Success? {
      EveryMarketReplays(fills, m);
    }
    if |markets| > 0 {
      ReplayedTotalIs(fills, markets[..|markets| - 1]);
      EveryMarketReplays(fills, markets[|markets| - 1]);
    }
  }

  /** Over every history: each stored market replays without a refusal, and the cash written for a run in a currency
      is the sum of the full replays of its markets. While stamps grow, so is the latest stored balance; and as long as
      nothing was skipped before, it is so exactly when nothing is skipped now. */
  lemma BalancesAreReplays(history: seq<Operation>, i: nat, run: string, currency: string)
    requires AllLegal(history) && i <= |history|
    ensures var s := At(history, i); var markets := MarketsOf(s.fills, run, currency);
      && FillsValid(s) && (forall m :: Replay(s.fills, m).Success?)
      && CashTotal(s.cash, run, currency) == ReplayedTotal(s.fills, markets)
      && (StampsGrow(s.cash) ==> PriorBalance(s.cash, run, currency) == ReplayedTotal(s.fills, markets))
      && (NothingSkipped(s.cash) ==>
            (PriorBalance(s.cash, run, currency) == ReplayedTotal(s.fills, markets) <==> Skipped(s.cash, run, currency) == 0.0))
  {
    hide At, Replay, CashTotal, DeltaOver, StampsGrow, PriorBalance, OrdersOk, RiskOk, LatchOk, MarketsOf, Balanced;
    hide Skipped, NothingSkipped;
    AtOk(history, i);
    HistoryKeepsRows(history, i);
    var s := At(history, i);
    var markets := MarketsOf(s.fills, run, currency);
    forall m ensures Replay(s.fills, m).Success? {
      EveryMarketReplays(s.fills, m);
    }
    MarketsOfAre(s.fills, run, currency);
    ReplayedTotalIs(s.fills, markets);
    RunMarkets(s, run, currency);
    CashByMarket(s.fills, s.cash, run, currency, markets);
    if StampsGrow(s.cash) {
      CashIsExactWhenStampsGrow(history, i);
      PriorIsTotal(s.cash, run, currency);
    }
    if NothingSkipped(s.cash) {
      CashIsExactExactlyWhen(history, i);
      PriorLacksSkipped(s.cash, run, currency);
    }
  }

  lemma RunMarkets(s: Account, run: string, currency: string)
    requires RowsOk(s)
    ensures forall r | r in s.fills :: r.market in MarketsOf(s.fills, run, currency) <==> r.market.0 == run && r.currency == currency
  {
    MarketsOfAre(s.fills, run, currency);
    hide MarketsOf;
  }
}
