/** A history in which the newest stamp forgets a fill: three fills of one order, stamped 2, 1 and 3. */
module LateWriter {
  import opened Prelude
  import opened Accounting
  import opened Execution
  import opened PaperTrading
  import opened PaperSafety
  import opened PaperTheorems
  import opened PaperCash

  const Contract := InstrumentSpec("v", "i", 1.0, 1.0, 1.0, 1.0, None, None, None, 1.0, 0, None, Trading)

  const Free := FeeSchedule("v", "i", "t", Taker, 0.0, 0, None)

  const Limits := RiskEnvelope("e", 10.0, 10.0, 10.0, 0, true)

  const Config := PaperRun(true, Limits, [Contract], [Free], "t", "USD", "m")

  const Three := OrderIntent("c", "s", "v", "i", Buy, 3.0, Market, None, 0, 0, 0, 0, false, false, Gtc)

  const Quote := MarketSnapshot(0, 1.0, 1.0, 0.0, F0Bar, true)

  const Place := ("r", "v", "i")

  const Rows: seq<FillRow> := [
    FillRow("row 1", "o", "c", Place, Buy, "USD", PaperFill("a", 0, 1.0, 1.0, 0.0, Taker, "m")),
    FillRow("row 2", "o", "c", Place, Buy, "USD", PaperFill("b", 0, 1.0, 1.0, 0.0, Taker, "m")),
    FillRow("row 3", "o", "c", Place, Buy, "USD", PaperFill("c", 0, 1.0, 1.0, 0.0, Taker, "m"))]

  const Stamps: seq<int> := [2, 1, 3]

  function FillOf(n: nat): Operation
    requires n < 3
  {
    DoFill("o", Rows[n].fill, "USD", Rows[n].id, Stamps[n])
  }

  const Late: seq<Operation> := [
    DoStart("r", Config, "start"), DoReconcile("r", "reconcile", true),
    DoSubmit("r", Three, Contract, Quote, Limits, "p", 0, "o"), FillOf(0), FillOf(1), FillOf(2)]

  lemma LateIsLegal()
    ensures AllLegal(Late)
  {}

  // ---- Up to the order ------------------------------------------------------------------------

  const Opened: Account := NoAccount.(
    runs := map["r" := Config], done := map["start" := Started("r", Config), "reconcile" := Reconciled("r", true, true)])

  lemma OpensTheRun()
    ensures At(Late, 2) == Opened
  {
    LateIsLegal();
    AtStart(Late);
    hide At, AccountOk;
    AtStep(Late, 0);
    AtStep(Late, 1);
    var s1 := NoAccount.(runs := map["r" := Config.(active := false)], done := map["start" := Started("r", Config)]);
    assert At(Late, 1) == s1;
    assert !Unresolved(s1, "r") && !GloballyLatched(s1);
  }

  /** The contract is in force at time 0, and unit quantities and prices are on its grids. */
  lemma ContractHolds()
    ensures PinnedSpec(Config, "v", "i", 0) == Some(Contract)
    ensures SelectFee([Free], Contract, "t", Taker, 0) == Some(Free)
    ensures OnGrid(1.0, 1.0) && FloorTo(3.0, 1.0) == 3.0
  {
    assert [Contract][..0] == [] && SpecsInForce([], "v", "i", 0) == [];
    assert SpecsInForce([Contract], "v", "i", 0) == [Contract];
    assert [Free][1..] == [] && MatchingFees([Free], Contract, "t", Taker, 0) == [Free];
    MultipleIntro(1.0, 1.0, 1);
    MultipleIntro(3.0, 1.0, 3);
    FloorToFacts(1.0, 1.0);
    FloorToFacts(3.0, 1.0);
  }

  lemma CheckPasses()
    ensures Pretrade(Three, Contract, Quote, Limits, 0.0, 0.0, 0) == Success(Checked(3.0, 3.0, None))
  {
    ContractHolds();
    hide FloorTo;
    assert RoundedOrder(Buy, 3.0, Market, None, Contract) == Success(Rounded(3.0, None));
    hide RoundedOrder;
    assert ValidateOrder(Three, Contract, 1.0, 0.0).None?;
  }

  const Placed: Account := Opened.(
    orders := map["o" := NewOrder("r", Three, "p", Checked(3.0, 3.0, None))], placed := ["o"])

  lemma AcceptsTheOrder()
    ensures SubmitNew(Opened, "r", Three, Contract, Quote, Limits, "p", 0, "o") == Success(Placed)
  {
    ContractHolds();
    CheckPasses();
    hide Pretrade, PinnedSpec, SpecsInForce;
    assert PoolRisk(Opened, [], "r", "p") == 0.0 && PositionIn(Opened, Place) == 0.0;
    assert !StoppedFor(Opened, "r", Three);
    hide PositionIn, PoolRisk, StoppedFor;
    var order := NewOrder("r", Three, "p", Checked(3.0, 3.0, None));
    assert Opened.placed + ["o"] == ["o"] && Opened.orders["o" := order] == map["o" := order];
  }

  lemma SubmitsTheOrder()
    ensures At(Late, 3) == Placed
  {
    LateIsLegal();
    OpensTheRun();
    AtStep(Late, 2);
    AcceptsTheOrder();
    hide At, SubmitNew, AccountOk;
    assert !Requested(Opened, "c");
  }

  // ---- The fills ------------------------------------------------------------------------------

  /** After `n` of the fills. */
  ghost predicate Filling(s: Account, n: nat)
    requires n <= 3
  {
    && s.runs == map["r" := Config] && s.fills == Rows[..n] && "o" in s.orders
    && s.orders["o"].run == "r" && s.orders["o"].intent == Three && s.orders["o"].quantity == 3.0
    && s.orders["o"].filled == n as real
    && s.orders["o"].state == if n == 0 then Acknowledged else if n < 3 then PartiallyFilled else Filled
  }

  lemma NotRefused(s: Account, n: nat)
    requires n < 3 && Filling(s, n)
    ensures FillRefused(s, s.orders["o"], Rows[n].fill, "USD").None?
  {
    ContractHolds();
    hide PinnedSpec, OnGrid, SelectFee;
  }

  lemma KeyIsNoRowId(n: nat, all: seq<Fill>)
    requires n < 3 && forall f | f in all :: HasId(Rows[..n], f.fillId)
    ensures !SeenFill(all, Rows[n].fill.key)
  {
    forall f | f in all ensures f.fillId != Rows[n].fill.key {
      assert HasId(Rows[..n], f.fillId);
      assert |f.fillId| == 5;
    }
  }

  lemma ApplySucceeds(b: Book, f: Fill)
    requires f.Valid() && f.costs == [] && !SeenFill(b.fills, f.fillId)
    ensures ApplyFill(b, f).Success?
  {}

  lemma Replays(s: Account, n: nat)
    requires n < 3 && Filling(s, n) && FillsValid(s) && RowsOk(s)
    ensures Rows[n].fill.Valid() && Rows[n].market == Place && Replayed(s, Rows[n]).Success?
  {
    hide AsFills, RowsOf, ApplyAll, ApplyFill, SeenFill, Sound;
    EveryMarketReplays(s.fills, Place);
    RowsOfAreDistinct(s.fills, Place);
    RowsAreValid(s.fills, Place);
    var all := AsFills(RowsOf(s.fills, Place));
    AcceptedExactlyWhen(0.0, all);
    KeyIsNoRowId(n, all);
    hide DistinctIds, NoOrphans, HasId;
    ApplySucceeds(ApplyAll(0.0, all).value, Rows[n].AsFill(Rows[n].fill.key));
  }

  /** The order takes the fill. */
  lemma Takes(s: Account, n: nat)
    requires n < 3 && Filling(s, n)
    ensures var o, target := s.orders["o"], if n == 2 then OrderState.Filled else OrderState.PartiallyFilled;
      && o.Record().Transition(target, 1.0) == Some(OrderRecord(3.0, target, (n + 1) as real))
      && (target == if o.filled + 1.0 == o.quantity then OrderState.Filled else OrderState.PartiallyFilled)
      && RowFor(Rows[n].id, "o", o, Rows[n].fill, "USD") == Rows[n] && Rows[n].Delta() == -1.0
  {}

  lemma FreshRow(n: nat)
    requires n < 3
    ensures Rows[..n] + [Rows[n]] == Rows[..n + 1]
    ensures forall r | r in Rows[..n] :: r.fill.key != Rows[n].fill.key && r.id != Rows[n].id
  {}

  lemma Records(s: Account, n: nat)
    requires n < 3 && Filling(s, n) && FillsValid(s) && RowsOk(s) && Rows[n].fill.Valid()
    ensures var target := if n == 2 then OrderState.Filled else OrderState.PartiallyFilled;
      && Replayed(s, Rows[n]).Success?
      && RecordFill(s, "o", Rows[n].fill, "USD", Rows[n].id, Stamps[n])
           == Success(Recorded(s, Rows[n], OrderRecord(3.0, target, (n + 1) as real), Replayed(s, Rows[n]).value, Stamps[n]))
  {
    hide FillsValid, RowsOk, FillRefused, Replayed, Recorded, OrderRecord.Transition;
    NotRefused(s, n);
    Replays(s, n);
    Takes(s, n);
    FreshRow(n);
    hide Rows, RowFor;
  }

  lemma RecordedFills(s: Account, n: nat, book: Book)
    requires n < 3 && Filling(s, n)
    ensures var target := if n == 2 then OrderState.Filled else OrderState.PartiallyFilled;
      var s' := Recorded(s, Rows[n], OrderRecord(3.0, target, (n + 1) as real), book, Stamps[n]);
      && Filling(s', n + 1) && s'.cash == s.cash + [NextEntry(s.cash, "r", "USD", -1.0, Stamps[n])]
  {
    Takes(s, n);
    FreshRow(n);
    hide PriorBalance, ConvertedShare, OrderRecord.Transition, RowFor;
  }

  lemma Fills(s: Account, n: nat)
    requires n < 3 && Filling(s, n) && FillsValid(s) && RowsOk(s)
    ensures var s' := Step(s, FillOf(n));
      && Filling(s', n + 1) && s'.cash == s.cash + [NextEntry(s.cash, "r", "USD", -1.0, Stamps[n])]
  {
    hide RowsOk, Filling, RecordFill, Replayed, Recorded, PriorBalance, Step;
    assert Legal(FillOf(n));
    FillStep(s, FillOf(n));
    Records(s, n);
    RecordedFills(s, n, Replayed(s, Rows[n]).value);
    hide Rows, Stamps;
  }

  lemma {:induction false} FillsSoFar(n: nat)
    requires n <= 3
    ensures Filling(At(Late, 3 + n), n)
    ensures var cash := At(Late, 3 + n).cash;
      && |cash| == n && (n > 0 ==> var front := At(Late, 2 + n).cash;
            cash == front + [NextEntry(front, "r", "USD", -1.0, Stamps[n - 1])])
  {
    hide At, Filling, AccountOk, RowsOk, PriorBalance;
    if n == 0 {
      SubmitsTheOrder();
      assert Filling(At(Late, 3), 0) by {
        JustPlaced(At(Late, 3));
      }
    } else {
      FillsSoFar(n - 1);
      LateIsLegal();
      AtStep(Late, 2 + n);
      HistoryKeepsRows(Late, 2 + n);
      Fills(At(Late, 2 + n), n - 1);
      assert Late[2 + n] == FillOf(n - 1);
    }
  }

  lemma JustPlaced(s: Account)
    requires s == Placed
    ensures Filling(s, 0)
  {}

  /** The rule alone does not keep the balance: a transaction that started early but wrote late is forgotten by the
      next one. Three fills of one each, stamped 2, 1 and 3, cost 3 and leave a stored balance of -2. */
  lemma LateWriterIsForgotten()
    ensures AllLegal(Late)
    ensures var cash := At(Late, 6).cash; CashTotal(cash, "r", "USD") == -3.0 && PriorBalance(cash, "r", "USD") == -2.0
  {
    LateIsLegal();
    FillsSoFar(1);
    FillsSoFar(2);
    FillsSoFar(3);
    hide At, Filling;
    var one, two, three := At(Late, 4).cash, At(Late, 5).cash, At(Late, 6).cash;
    assert one[..0] == [] && two[..1] == one && three[..2] == two;
    assert At(Late, 3).cash == [] by { FillsSoFar(0); }
    assert Newest(one, "r", "USD") == Some(one[0]) && one[0].balance == -1.0;
    assert Newest(two, "r", "USD") == Some(one[0]);
    assert three[2].balance == -2.0 && Newest(three, "r", "USD") == Some(three[2]);
    assert CashTotal(one, "r", "USD") == -1.0 && CashTotal(two, "r", "USD") == -2.0;
  }
}
