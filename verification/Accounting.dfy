/** The primary ledger: moving-average entry price, updated in place one fill at a time. */
module Accounting {
  import opened Prelude

  datatype Side = Buy | Sell {
    /** `amount` for a purchase, its negative for a sale. */
    function Toward(amount: real): real {
      if Buy? then amount else -amount
    }
  }

  datatype LiquidityRole = Maker | Taker

  datatype CostKind = Fee | Funding | Borrow | ImplementationShortfall | Spread | Impact | Transfer | Liquidation

  datatype CostTreatment = Additive | Decomposition | Diagnostic

  datatype CostComponent = CostComponent(kind: CostKind, amount: real, treatment: CostTreatment, parent: Option<CostKind>) {
    predicate Valid() {
      treatment.Decomposition? <==> parent.Some?
    }
  }

  datatype Fill = Fill(
    fillId: string, orderId: string, timestamp: int, side: Side, quantity: real, price: real,
    role: LiquidityRole, fee: real, costs: seq<CostComponent>)
  {
    predicate Valid() {
      quantity > 0.0 && price > 0.0 && forall c | c in costs :: c.Valid()
    }

    function Signed(): real {
      side.Toward(quantity)
    }
  }

  datatype LedgerError = DuplicateFill | OrphanDecomposition

  // ---- Additive costs -------------------------------------------------------------------------

  predicate Orphan(c: CostComponent, costs: seq<CostComponent>) {
    c.treatment.Decomposition? && !exists a | a in costs :: a.treatment.Additive? && c.parent == Some(a.kind)
  }

  predicate HasOrphan(costs: seq<CostComponent>) {
    exists c | c in costs :: Orphan(c, costs)
  }

  function AdditiveTotal(costs: seq<CostComponent>): real {
    if |costs| == 0 then 0.0
    else AdditiveTotal(costs[..|costs| - 1]) +
         if costs[|costs| - 1].treatment.Additive? then costs[|costs| - 1].amount else 0.0
  }

  function AdditiveCosts(costs: seq<CostComponent>): Result<real, LedgerError> {
    if HasOrphan(costs) then Failure(OrphanDecomposition) else Success(AdditiveTotal(costs))
  }

  // ---- The ledger as a value ------------------------------------------------------------------

  datatype Book = Book(
    starting: real, cash: real, position: real, average: real, realized: real, fees: real, other: real,
    fills: seq<Fill>)
  {
    function Equity(mark: real): real {
      cash + Notional(position, mark)
    }

    function Unrealized(mark: real): real {
      Notional(position, mark - average)
    }

    function Reconcile(mark: real): real {
      Equity(mark) - (starting + realized + Unrealized(mark) - fees - other)
    }
  }

  function OpenBook(cash: real): Book {
    Book(cash, cash, 0.0, 0.0, 0.0, 0.0, 0.0, [])
  }

  predicate SeenFill(fills: seq<Fill>, id: string) {
    exists f | f in fills :: f.fillId == id
  }

  function AverageAfter(b: Book, f: Fill): real
    requires f.Valid()
  {
    if b.position == 0.0 || Aligned(b.position, f.Signed()) then
      Quotient(Notional(Abs(b.position), b.average) + Notional(f.quantity, f.price), Abs(b.position) + f.quantity)
    else if Abs(f.Signed()) >= Abs(b.position) then
      if Abs(f.Signed()) > Abs(b.position) then f.price else 0.0
    else b.average
  }

  function RealizedBy(b: Book, f: Fill): real {
    if b.position == 0.0 || Aligned(b.position, f.Signed()) then 0.0
    else
      Along(b.position,
        Notional(if Abs(f.Signed()) >= Abs(b.position) then Abs(b.position) else f.quantity, f.price - b.average))
  }

  /** One accepted or refused fill. */
  function ApplyFill(b: Book, f: Fill): Result<Book, LedgerError>
    requires f.Valid()
  {
    if SeenFill(b.fills, f.fillId) then Failure(DuplicateFill)
    else match AdditiveCosts(f.costs)
      case Failure(e) => Failure(e)
      case Success(additive) =>
        Success(Book(
          b.starting, b.cash - Notional(f.Signed(), f.price) - f.fee - additive, b.position + f.Signed(),
          AverageAfter(b, f), b.realized + RealizedBy(b, f), b.fees + f.fee, b.other + additive, b.fills + [f]))
  }

  class LedgerState {
    var cash: real
    var position: real
    var averageEntry: real
    var realizedPnl: real
    var fees: real
    var otherCosts: real
    var fills: seq<Fill>
    const startingCash: real

    function Contents(): Book
      reads this
    {
      Book(startingCash, cash, position, averageEntry, realizedPnl, fees, otherCosts, fills)
    }

    constructor (cash: real)
      ensures Contents() == OpenBook(cash)
    {
      this.cash := cash;
      position, averageEntry, realizedPnl, fees, otherCosts, fills := 0.0, 0.0, 0.0, 0.0, 0.0, [];
      startingCash := cash;
    }

    method Apply(fill: Fill) returns (refused: Option<LedgerError>)
      requires fill.Valid()
      modifies this
      ensures refused.Some? ==> ApplyFill(old(Contents()), fill) == Failure(refused.value)
      ensures refused.Some? ==> Contents() == old(Contents())
      ensures refused.None? ==> ApplyFill(old(Contents()), fill) == Success(Contents())
    {
      hide Notional, Quotient;
      if exists existing | existing in fills :: existing.fillId == fill.fillId {
        return Some(DuplicateFill);
      }
      var costs := AdditiveCosts(fill.costs);
      if costs.Failure? {
        return Some(costs.error);
      }
      var additive := costs.value;
      var signed := fill.Signed();
      if position == 0.0 || Aligned(position, signed) {
        var newAbs := Abs(position) + fill.quantity;
        averageEntry := Quotient(Notional(Abs(position), averageEntry) + Notional(fill.quantity, fill.price), newAbs);
      } else if Abs(signed) >= Abs(position) {
        var closed := Abs(position);
        realizedPnl := realizedPnl + Along(position, Notional(closed, fill.price - averageEntry));
        averageEntry := if Abs(signed) > Abs(position) then fill.price else 0.0;
      } else {
        realizedPnl := realizedPnl + Along(position, Notional(fill.quantity, fill.price - averageEntry));
      }
      position := position + signed;
      cash := cash - Notional(signed, fill.price);
      cash := cash - fill.fee;
      fees := fees + fill.fee;
      cash := cash - additive;
      otherCosts := otherCosts + additive;
      fills := fills + [fill];
      ghost var expected := ApplyFill(old(Contents()), fill).value;
      assert expected.average == averageEntry && expected.realized == realizedPnl;
      assert expected.cash == cash && expected.fills == fills;
      return None;
    }
  }

  // ---- Whole fill sequences -------------------------------------------------------------------

  ghost predicate ValidFills(fills: seq<Fill>) {
    forall f | f in fills :: f.Valid()
  }

  ghost predicate DistinctIds(fills: seq<Fill>) {
    forall i, j | 0 <= i < j < |fills| :: fills[i].fillId != fills[j].fillId
  }

  ghost predicate NoOrphans(fills: seq<Fill>) {
    forall f | f in fills :: !HasOrphan(f.costs)
  }

  function ApplyAll(cash: real, fills: seq<Fill>): Result<Book, LedgerError>
    requires forall f | f in fills :: f.Valid()
  {
    if |fills| == 0 then Success(OpenBook(cash))
    else match ApplyAll(cash, fills[..|fills| - 1])
      case Failure(e) => Failure(e)
      case Success(b) => ApplyFill(b, fills[|fills| - 1])
  }

  /** What the accepted fills moved in total, counted without any ledger. */
  function NetQuantity(fills: seq<Fill>): real {
    if |fills| == 0 then 0.0 else NetQuantity(fills[..|fills| - 1]) + fills[|fills| - 1].Signed()
  }

  function NetOutlay(fills: seq<Fill>): real {
    if |fills| == 0 then 0.0
    else NetOutlay(fills[..|fills| - 1]) + Notional(fills[|fills| - 1].Signed(), fills[|fills| - 1].price)
  }

  function TotalFees(fills: seq<Fill>): real {
    if |fills| == 0 then 0.0 else TotalFees(fills[..|fills| - 1]) + fills[|fills| - 1].fee
  }

  function TotalAdditive(fills: seq<Fill>): real {
    if |fills| == 0 then 0.0 else TotalAdditive(fills[..|fills| - 1]) + AdditiveTotal(fills[|fills| - 1].costs)
  }

  /** Every balance of the ledger is the plain total over its fills, and the ledger explains its equity. */
  ghost predicate Sound(b: Book) {
    && ValidFills(b.fills) && DistinctIds(b.fills) && NoOrphans(b.fills)
    && b.position == NetQuantity(b.fills)
    && b.fees == TotalFees(b.fills)
    && b.other == TotalAdditive(b.fills)
    && b.cash == b.starting - NetOutlay(b.fills) - b.fees - b.other
    && b.cash + Notional(b.position, b.average) == b.starting + b.realized - b.fees - b.other
    && (b.position == 0.0 ==> b.average == 0.0)
  }

  /** The value tied up at the average price moves by the fill's notional plus what it realizes. */
  lemma BasisMoves(b: Book, f: Fill)
    requires f.Valid()
    ensures Notional(b.position + f.Signed(), AverageAfter(b, f)) - Notional(b.position, b.average)
         == Notional(f.Signed(), f.price) + RealizedBy(b, f)
  {
    hide Notional, Quotient;
    var q, p, x, a := f.quantity, f.price, b.position, b.average;
    NotionalAdds(q, 0.0, p);
    NotionalAdds(Abs(x), 0.0, a);
    if x == 0.0 || Aligned(x, f.Signed()) {
      var total := Abs(x) + q;
      QuotientTimes(Notional(Abs(x), a) + Notional(q, p), total);
      NotionalAdds(total, 0.0, AverageAfter(b, f));
    } else if q >= Abs(x) {
      NotionalAdds(x, f.Signed(), p);
      NotionalAdds(Abs(x), 0.0, p);
      NotionalAdds(0.0, 0.0, AverageAfter(b, f));
      NotionalSpread(Abs(x), p, a);
    } else {
      NotionalAdds(x, f.Signed(), a);
      NotionalAdds(q, 0.0, a);
      NotionalSpread(q, p, a);
    }
  }

  lemma ApplyKeepsSound(b: Book, f: Fill)
    requires Sound(b) && f.Valid() && ApplyFill(b, f).Success?
    ensures Sound(ApplyFill(b, f).value)
  {
    hide Notional, Quotient;
    var c := ApplyFill(b, f).value;
    assert c.fills[..|c.fills| - 1] == b.fills;
    BasisMoves(b, f);
  }

  /** A fill sequence is accepted exactly when its ids are distinct and no cost decomposition is orphaned,
      and the resulting ledger then equals the plain totals. */
  lemma {:induction false} AcceptedExactlyWhen(cash: real, fills: seq<Fill>)
    requires ValidFills(fills)
    ensures ApplyAll(cash, fills).Success? <==> DistinctIds(fills) && NoOrphans(fills)
    ensures ApplyAll(cash, fills).Success? ==>
              var b := ApplyAll(cash, fills).value; Sound(b) && b.fills == fills && b.starting == cash
  {
    if |fills| > 0 {
      var front, last := fills[..|fills| - 1], fills[|fills| - 1];
      assert fills == front + [last];
      AcceptedExactlyWhen(cash, front);
      if ApplyAll(cash, front).Success? {
        var b := ApplyAll(cash, front).value;
        if ApplyFill(b, last).Success? {
          ApplyKeepsSound(b, last);
          assert NoOrphans(fills);
        } else if SeenFill(front, last.fillId) {
          var f :| f in front && f.fillId == last.fillId;
          var i :| 0 <= i < |front| && front[i] == f;
          assert fills[i].fillId == fills[|fills| - 1].fillId;
        } else {
          assert HasOrphan(last.costs) && last in fills;
        }
      }
    }
  }

  /** The ledger's own self-check never finds a difference, at any mark. */
  lemma ReconcileIsZero(b: Book, mark: real)
    requires Sound(b)
    ensures b.Reconcile(mark) == 0.0
  {
    NotionalSpread(b.position, mark, b.average);
  }
}
