/** What is reported about a finished replay: holding times per unit sold, and profit per scenario window. */
module Packaging {
  import opened Prelude
  import opened Accounting
  import opened Reference
  import opened Execution
  import opened Backtest
  import opened BacktestSafety
  import Agreement

  // ---- Holding times --------------------------------------------------------------------------

  datatype Holding = Holding(quantity: real, seconds: real, censored: bool)

  /** Open lots carry the time they were bought as their entry. */
  datatype Queue = Queue(lots: seq<Lot>, holdings: seq<Holding>)

  function SellFrom(lots: seq<Lot>, remaining: real, when: real): Queue
    decreases |lots|, if remaining == 0.0 then 0 else 1
  {
    if remaining == 0.0 || |lots| == 0 then Queue(lots, [])
    else
      var matched := Min(remaining, lots[0].quantity);
      var left := lots[0].quantity - matched;
      var rest := SellFrom((if left == 0.0 then [] else [Lot(left, lots[0].entry)]) + lots[1..], remaining - matched, when);
      Queue(rest.lots, [Holding(matched, when - lots[0].entry, false)] + rest.holdings)
  }

  function Queued(fills: seq<Fill>): Queue {
    if |fills| == 0 then Queue([], [])
    else
      var q, f := Queued(fills[..|fills| - 1]), fills[|fills| - 1];
      if f.side.Buy? then Queue(q.lots + [Lot(f.quantity, f.timestamp as real)], q.holdings)
      else
        var sold := SellFrom(q.lots, f.quantity, f.timestamp as real);
        Queue(sold.lots, q.holdings + sold.holdings)
  }

  function Censored(lots: seq<Lot>, end: int): seq<Holding> {
    if |lots| == 0 then []
    else Censored(lots[..|lots| - 1], end)
         + [Holding(lots[|lots| - 1].quantity, end as real - lots[|lots| - 1].entry, true)]
  }

  /** Every prefix of the fills leaves a position that is not short. */
  ghost predicate LongOnly(fills: seq<Fill>) {
    && (forall k | 0 <= k <= |fills| :: NetQuantity(fills[..k]) >= 0.0)
    && (forall f | f in fills :: f.quantity > 0.0)
  }

  // ---- What the queue means -------------------------------------------------------------------

  ghost function BoughtAt(fills: seq<Fill>): seq<Lot> {
    if |fills| == 0 then []
    else BoughtAt(fills[..|fills| - 1])
         + if fills[|fills| - 1].side.Buy? then [Lot(fills[|fills| - 1].quantity, fills[|fills| - 1].timestamp as real)] else []
  }

  ghost function SoldTotal(fills: seq<Fill>): real {
    if |fills| == 0 then 0.0
    else SoldTotal(fills[..|fills| - 1]) + if fills[|fills| - 1].side.Sell? then fills[|fills| - 1].quantity else 0.0
  }

  /** Units sold, each weighted by the moment it was sold. */
  ghost function SoldMoments(fills: seq<Fill>): real {
    if |fills| == 0 then 0.0
    else SoldMoments(fills[..|fills| - 1])
         + if fills[|fills| - 1].side.Sell? then Notional(fills[|fills| - 1].quantity, fills[|fills| - 1].timestamp as real)
           else 0.0
  }

  ghost function HeldTotal(holdings: seq<Holding>): real {
    if |holdings| == 0 then 0.0 else holdings[0].quantity + HeldTotal(holdings[1..])
  }

  ghost function HeldTime(holdings: seq<Holding>): real {
    if |holdings| == 0 then 0.0 else Notional(holdings[0].quantity, holdings[0].seconds) + HeldTime(holdings[1..])
  }

  lemma {:induction false} HeldAppend(a: seq<Holding>, b: seq<Holding>)
    ensures HeldTotal(a + b) == HeldTotal(a) + HeldTotal(b)
    ensures HeldTime(a + b) == HeldTime(a) + HeldTime(b)
  {
    hide Notional;
    if |a| == 0 {
      assert a + b == b;
    } else {
      assert (a + b)[1..] == a[1..] + b;
      HeldAppend(a[1..], b);
    }
  }

  ghost predicate BoughtBy(lots: seq<Lot>, when: real) {
    forall l | l in lots :: l.entry <= when
  }

  ghost predicate Sane(holdings: seq<Holding>, censored: bool) {
    forall h | h in holdings :: h.quantity > 0.0 && h.seconds >= 0.0 && h.censored == censored
  }

  /** One pass of the selling loop. */
  lemma SellFromStep(lots: seq<Lot>, remaining: real, when: real)
    requires remaining > 0.0 && |lots| > 0 && lots[0].quantity > 0.0
    ensures var first, r := lots[0], SellFrom(lots, remaining, when);
      if first.quantity <= remaining then
        var rest := SellFrom(lots[1..], remaining - first.quantity, when);
        r == Queue(rest.lots, [Holding(first.quantity, when - first.entry, false)] + rest.holdings)
      else
        r == Queue([Lot(first.quantity - remaining, first.entry)] + lots[1..],
          [Holding(remaining, when - first.entry, false)])
  {
    var first := lots[0];
    if first.quantity <= remaining {
      assert [] + lots[1..] == lots[1..];
    } else {
      var cut := [Lot(first.quantity - remaining, first.entry)] + lots[1..];
      assert SellFrom(cut, 0.0, when) == Queue(cut, []);
    }
  }

  lemma OneHeld(h: Holding, rest: seq<Holding>)
    ensures HeldTotal([h] + rest) == h.quantity + HeldTotal(rest)
    ensures HeldTime([h] + rest) == Notional(h.quantity, h.seconds) + HeldTime(rest)
    ensures HeldTotal([]) == HeldTime([]) == 0.0
  {
    assert ([h] + rest)[1..] == rest;
  }

  lemma {:induction false} SellFromDropsOldest(lots: seq<Lot>, remaining: real, when: real)
    requires Agreement.Positive(lots) && 0.0 <= remaining <= LotsTotal(lots)
    ensures SellFrom(lots, remaining, when).lots == Agreement.Drop(lots, remaining)
    decreases |lots|, if remaining == 0.0 then 0 else 1
  {
    hide SellFrom;
    SellNothing(lots, when);
    if remaining > 0.0 && |lots| > 0 {
      assert lots[0] in lots;
      SellFromStep(lots, remaining, when);
      Agreement.TotalNonnegative(lots[1..]);
      if lots[0].quantity <= remaining {
        SellFromDropsOldest(lots[1..], remaining - lots[0].quantity, when);
      }
    }
  }

  lemma {:induction false} SellFromHoldings(lots: seq<Lot>, remaining: real, when: real)
    requires Agreement.Positive(lots) && 0.0 <= remaining <= LotsTotal(lots) && BoughtBy(lots, when)
    ensures HeldTotal(SellFrom(lots, remaining, when).holdings) == remaining
    ensures Sane(SellFrom(lots, remaining, when).holdings, false)
    decreases |lots|, if remaining == 0.0 then 0 else 1
  {
    hide SellFrom;
    SellNothing(lots, when);
    if remaining > 0.0 && |lots| > 0 {
      var first := lots[0];
      assert first in lots;
      SellFromStep(lots, remaining, when);
      Agreement.TotalNonnegative(lots[1..]);
      hide Notional;
      var h := Holding(Min(remaining, first.quantity), when - first.entry, false);
      if first.quantity <= remaining {
        SellFromHoldings(lots[1..], remaining - first.quantity, when);
        OneHeld(h, SellFrom(lots[1..], remaining - first.quantity, when).holdings);
      } else {
        OneHeld(h, []);
        assert [h] + [] == [h];
      }
    }
  }

  lemma SellFromTakesOldest(lots: seq<Lot>, remaining: real, when: real)
    requires Agreement.Positive(lots) && 0.0 <= remaining <= LotsTotal(lots) && BoughtBy(lots, when)
    ensures var r := SellFrom(lots, remaining, when);
      && r.lots == Agreement.Drop(lots, remaining)
      && HeldTotal(r.holdings) == remaining
      && Sane(r.holdings, false)
  {
    hide SellFrom;
    SellFromDropsOldest(lots, remaining, when);
    SellFromHoldings(lots, remaining, when);
  }

  lemma SellNothing(lots: seq<Lot>, when: real)
    ensures SellFrom(lots, 0.0, when) == Queue(lots, [])
  {}

  lemma {:induction false} SellFromHeldTime(lots: seq<Lot>, remaining: real, when: real)
    requires Agreement.Positive(lots) && 0.0 <= remaining <= LotsTotal(lots)
    ensures HeldTime(SellFrom(lots, remaining, when).holdings)
         == Notional(remaining, when) - Agreement.Front(lots, remaining)
    decreases |lots|, if remaining == 0.0 then 0 else 1
  {
    hide Notional, SellFrom;
    SellNothing(lots, when);
    NotionalAdds(remaining, 0.0, when);
    if remaining > 0.0 && |lots| > 0 {
      var first := lots[0];
      assert first in lots;
      SellFromStep(lots, remaining, when);
      Agreement.TotalNonnegative(lots[1..]);
      var h := Holding(Min(remaining, first.quantity), when - first.entry, false);
      NotionalSpread(h.quantity, when, first.entry);
      if first.quantity <= remaining {
        NotionalAdds(remaining, first.quantity, when);
        SellFromHeldTime(lots[1..], remaining - first.quantity, when);
        OneHeld(h, SellFrom(lots[1..], remaining - first.quantity, when).holdings);
      } else {
        OneHeld(h, []);
        assert [h] + [] == [h];
      }
    }
  }

  lemma DropBought(lots: seq<Lot>, q: real, when: real)
    requires BoughtBy(lots, when)
    ensures BoughtBy(Agreement.Drop(lots, q), when)
    decreases |lots|
  {
    if |lots| > 0 && q > 0.0 {
      assert lots[0] in lots;
      if lots[0].quantity <= q {
        DropBought(lots[1..], q - lots[0].quantity, when);
      }
    }
  }

  lemma OneLot(lot: Lot)
    ensures LotsTotal([lot]) == lot.quantity
  {
    assert [lot][1..] == [] && LotsTotal([]) == 0.0;
  }

  lemma {:induction false} BoughtLessSold(fills: seq<Fill>)
    requires forall f | f in fills :: f.quantity > 0.0
    ensures LotsTotal(BoughtAt(fills)) - SoldTotal(fills) == NetQuantity(fills)
    ensures SoldTotal(fills) >= 0.0 && Agreement.Positive(BoughtAt(fills))
  {
    if |fills| > 0 {
      var front, last := fills[..|fills| - 1], fills[|fills| - 1];
      BoughtLessSold(front);
      if last.side.Buy? {
        var lot := Lot(last.quantity, last.timestamp as real);
        OneLot(lot);
        Agreement.TotalAppend(BoughtAt(front), [lot]);
      } else {
        assert BoughtAt(fills) == BoughtAt(front);
      }
    }
  }

  lemma {:induction false} BoughtBefore(fills: seq<Fill>, when: int)
    requires forall f | f in fills :: f.timestamp <= when
    ensures BoughtBy(BoughtAt(fills), when as real)
  {
    if |fills| > 0 {
      BoughtBefore(fills[..|fills| - 1], when);
    }
  }

  /** The queue in closed form: what is left is the purchases without their oldest units, as many as were sold;
      and the total time units were held is the moments they were sold less the moments the oldest were bought. */
  ghost predicate FirstInFirstOut(fills: seq<Fill>) {
    var q := Queued(fills);
    && q.lots == Agreement.Drop(BoughtAt(fills), SoldTotal(fills))
    && LotsTotal(q.lots) == NetQuantity(fills)
    && HeldTotal(q.holdings) == SoldTotal(fills)
    && HeldTime(q.holdings) == SoldMoments(fills) - Agreement.Front(BoughtAt(fills), SoldTotal(fills))
    && Sane(q.holdings, false)
  }

  lemma BuyQueues(front: seq<Fill>, last: Fill, fills: seq<Fill>)
    requires fills == front + [last] && FirstInFirstOut(front) && LongOnly(fills) && last.side.Buy?
    ensures FirstInFirstOut(fills)
  {
    hide Notional, Agreement.Drop, Agreement.Front, LotsTotal;
    assert fills[..|fills| - 1] == front && last in fills;
    NetsNonnegative(front, last, fills);
    BoughtLessSold(front);
    BoughtLessSold(fills);
    var bought, lot := BoughtAt(front), Lot(last.quantity, last.timestamp as real);
    Agreement.DropAppend(bought, lot, SoldTotal(front));
    Agreement.FrontAppend(bought, lot, SoldTotal(front));
    Agreement.DropFacts(BoughtAt(fills), SoldTotal(fills));
  }

  lemma NetsNonnegative(front: seq<Fill>, last: Fill, fills: seq<Fill>)
    requires fills == front + [last] && LongOnly(fills)
    ensures NetQuantity(front) >= 0.0 && NetQuantity(fills) >= 0.0
  {
    assert fills[..|front|] == front && fills[..|fills|] == fills;
    assert NetQuantity(fills[..|front|]) >= 0.0 && NetQuantity(fills[..|fills|]) >= 0.0;
  }

  lemma SaleMatches(front: seq<Fill>, last: Fill, fills: seq<Fill>)
    requires fills == front + [last] && FirstInFirstOut(front) && LongOnly(fills) && last.side.Sell?
    requires forall f | f in front :: f.timestamp <= last.timestamp
    ensures FirstInFirstOut(fills)
  {
    hide Notional, Agreement.Drop, Agreement.Front, LotsTotal, SellFrom;
    assert fills[..|fills| - 1] == front && last in fills;
    NetsNonnegative(front, last, fills);
    BoughtLessSold(front);
    BoughtLessSold(fills);
    BoughtBefore(front, last.timestamp);
    assert BoughtAt(fills) == BoughtAt(front);
    var bought, sold, when := BoughtAt(front), SoldTotal(front), last.timestamp as real;
    var q := Queued(front);
    Agreement.DropFacts(bought, sold);
    DropBought(bought, sold, when);
    SellFromTakesOldest(q.lots, last.quantity, when);
    SellFromHeldTime(q.lots, last.quantity, when);
    Agreement.DropTwice(bought, sold, last.quantity);
    Agreement.FrontTwice(bought, sold, last.quantity);
    HeldAppend(q.holdings, SellFrom(q.lots, last.quantity, when).holdings);
    Agreement.DropFacts(BoughtAt(fills), SoldTotal(fills));
  }

  lemma LongOnlyPrefix(fills: seq<Fill>, k: nat)
    requires LongOnly(fills) && k <= |fills|
    ensures LongOnly(fills[..k])
  {
    forall j | 0 <= j <= k ensures NetQuantity(fills[..k][..j]) >= 0.0 {
      assert fills[..k][..j] == fills[..j];
    }
  }

  lemma {:induction false} QueueIsFirstInFirstOut(fills: seq<Fill>)
    requires LongOnly(fills) && Chronological(fills)
    ensures FirstInFirstOut(fills)
  {
    if |fills| == 0 {
      assert HeldTotal([]) == 0.0 == HeldTime([]);
    } else {
      hide FirstInFirstOut, LongOnly;
      var front, last := fills[..|fills| - 1], fills[|fills| - 1];
      LongOnlyPrefix(fills, |fills| - 1);
      QueueIsFirstInFirstOut(front);
      assert fills == front + [last];
      if last.side.Buy? {
        BuyQueues(front, last, fills);
      } else {
        SaleMatches(front, last, fills);
      }
    }
  }

  lemma {:induction false} CensoredTotals(lots: seq<Lot>, end: int)
    requires Agreement.Positive(lots) && BoughtBy(lots, end as real)
    ensures HeldTotal(Censored(lots, end)) == LotsTotal(lots) && Sane(Censored(lots, end), true)
  {
    if |lots| > 0 {
      var front, last := lots[..|lots| - 1], lots[|lots| - 1];
      CensoredTotals(front, end);
      assert last in lots && lots == front + [last];
      var tail := [Holding(last.quantity, end as real - last.entry, true)];
      assert tail[1..] == [] && [last][1..] == [];
      HeldAppend(Censored(front, end), tail);
      Agreement.TotalAppend(front, [last]);
    }
  }

  /** The in-place queue. Selling never meets an empty queue, because the account is never short. */
  method HoldingTimes(fills: seq<Fill>, end: int) returns (holdings: seq<Holding>)
    requires LongOnly(fills) && Chronological(fills)
    ensures holdings == Queued(fills).holdings + Censored(Queued(fills).lots, end)
  {
    hide Queued, Censored, FirstInFirstOut, Chronological, LongOnly, SellFrom;
    holdings := [];
    var lots: seq<Lot> := [];
    assert Queued(fills[..0]) == Queue([], []) by { QueuedNothing(fills); }
    for i := 0 to |fills|
      invariant Queue(lots, holdings) == Queued(fills[..i])
    {
      var fill := fills[i];
      var remaining := fill.quantity;
      ghost var queue, already := lots, holdings;
      if fill.side.Buy? {
        lots := lots + [Lot(remaining, fill.timestamp as real)];
      } else {
        EnoughToSell(fills, i);
        lots, holdings := SellQueue(lots, holdings, remaining, fill.timestamp as real);
      }
      QueuedStep(fills, i);
    }
    assert fills[..|fills|] == fills;
    var open: seq<Holding> := [];
    CensoredNothing(lots, end);
    for i := 0 to |lots|
      invariant open == Censored(lots[..i], end)
    {
      open := open + [Holding(lots[i].quantity, end as real - lots[i].entry, true)];
      CensoredStep(lots, i, end);
    }
    assert lots[..|lots|] == lots;
    holdings := holdings + open;
  }

  method SellQueue(lots0: seq<Lot>, holdings0: seq<Holding>, quantity: real, when: real)
    returns (lots: seq<Lot>, holdings: seq<Holding>)
    requires Agreement.Positive(lots0) && 0.0 <= quantity <= LotsTotal(lots0)
    ensures lots == SellFrom(lots0, quantity, when).lots
    ensures holdings == holdings0 + SellFrom(lots0, quantity, when).holdings
  {
    lots, holdings := lots0, holdings0;
    var remaining := quantity;
    while remaining != 0.0
      invariant Agreement.Positive(lots) && 0.0 <= remaining <= LotsTotal(lots)
      invariant SellFrom(lots0, quantity, when).lots == SellFrom(lots, remaining, when).lots
      invariant holdings0 + SellFrom(lots0, quantity, when).holdings
             == holdings + SellFrom(lots, remaining, when).holdings
      decreases |lots|, if remaining == 0.0 then 0 else 1
    {
      ghost var was, open := lots, remaining;
      assert lots[0] in lots;
      Agreement.TotalNonnegative(lots[1..]);
      var matched := Min(remaining, lots[0].quantity);
      holdings := holdings + [Holding(matched, when - lots[0].entry, false)];
      remaining := remaining - matched;
      lots := lots[0 := Lot(lots[0].quantity - matched, lots[0].entry)];
      assert lots == [Lot(was[0].quantity - matched, was[0].entry)] + was[1..];
      if lots[0].quantity == 0.0 {
        lots := lots[1..];
      }
      assert lots == (if was[0].quantity - matched == 0.0 then [] else [Lot(was[0].quantity - matched, was[0].entry)]) + was[1..];
      assert lots != was[1..] ==> lots[1..] == was[1..];
    }
  }

  lemma QueuedNothing(fills: seq<Fill>)
    ensures Queued(fills[..0]) == Queue([], [])
  {}

  lemma CensoredNothing(lots: seq<Lot>, end: int)
    ensures Censored(lots[..0], end) == []
  {}

  lemma CensoredStep(lots: seq<Lot>, i: nat, end: int)
    requires i < |lots|
    ensures Censored(lots[..i + 1], end)
         == Censored(lots[..i], end) + [Holding(lots[i].quantity, end as real - lots[i].entry, true)]
  {
    assert lots[..i + 1][..i] == lots[..i];
  }

  lemma QueuedStep(fills: seq<Fill>, i: nat)
    requires i < |fills|
    ensures var q, q', f := Queued(fills[..i]), Queued(fills[..i + 1]), fills[i];
      q' == if f.side.Buy? then Queue(q.lots + [Lot(f.quantity, f.timestamp as real)], q.holdings)
            else Queue(SellFrom(q.lots, f.quantity, f.timestamp as real).lots,
              q.holdings + SellFrom(q.lots, f.quantity, f.timestamp as real).holdings)
  {
    assert fills[..i + 1][..i] == fills[..i];
  }

  lemma EnoughToSell(fills: seq<Fill>, i: nat)
    requires LongOnly(fills) && Chronological(fills) && i < |fills| && fills[i].side.Sell?
    ensures Agreement.Positive(Queued(fills[..i]).lots)
    ensures 0.0 <= fills[i].quantity <= LotsTotal(Queued(fills[..i]).lots)
  {
    hide Agreement.Drop, Agreement.Front, LotsTotal, Queued;
    LongOnlyPrefix(fills, i);
    QueueIsFirstInFirstOut(fills[..i]);
    BoughtLessSold(fills[..i]);
    Agreement.DropFacts(BoughtAt(fills[..i]), SoldTotal(fills[..i]));
    assert fills[..i + 1][..i] == fills[..i] && fills[i] in fills;
    assert NetQuantity(fills[..i + 1]) >= 0.0;
  }

  // ---- The replay is long only ----------------------------------------------------------------

  ghost predicate AddsAtMostOne(fills: seq<Fill>, fills': seq<Fill>) {
    fills' == fills || (|fills'| == |fills| + 1 && fills'[..|fills|] == fills)
  }

  lemma WorkOneAddsAtMostOne(c: Config, bar: Bar, s: MarketSnapshot, index: nat, w: Worked, id: string)
    requires c.Valid() && Linked(w.desk) && WorkOne(c, bar, s, index, w, id).Success?
    ensures AddsAtMostOne(w.book.fills, WorkOne(c, bar, s, index, w, id).value.book.fills)
  {
    hide Decide, AverageAfter, RealizedBy, SeenFill, AdditiveCosts, Notional, Normalized;
  }

  lemma LongOnlyGrows(b: Book, b': Book)
    requires LongOnly(b.fills) && AddsAtMostOne(b.fills, b'.fills) && Sound(b') && b'.position >= 0.0
    ensures LongOnly(b'.fills)
  {
    var fills, fills' := b.fills, b'.fills;
    forall k | 0 <= k <= |fills'| ensures NetQuantity(fills'[..k]) >= 0.0 {
      if k <= |fills| {
        assert fills'[..k] == fills[..k];
      } else {
        assert fills'[..k] == fills';
      }
    }
  }

  lemma {:induction false} WorkAllLongOnly(c: Config, bar: Bar, s: MarketSnapshot, index: nat, w: Worked, ids: seq<string>)
    requires c.Valid() && s.Valid() && Safe(c, w) && Linked(w.desk) && LongOnly(w.book.fills)
    requires WorkAll(c, bar, s, index, w, ids).Success?
    ensures LongOnly(WorkAll(c, bar, s, index, w, ids).value.book.fills)
  {
    hide WorkOne, Linked, LongOnly, Advances, DeskOk, AddsAtMostOne, Sound;
    if |ids| > 0 {
      var front, id := ids[..|ids| - 1], ids[|ids| - 1];
      WorkAllLongOnly(c, bar, s, index, w, front);
      WorkAllKeeps(c, bar, s, index, w, front);
      var w1 := WorkAll(c, bar, s, index, w, front).value;
      WorkOneKeeps(c, bar, s, index, w1, id);
      WorkOneAddsAtMostOne(c, bar, s, index, w1, id);
      LongOnlyGrows(w1.book, WorkOne(c, bar, s, index, w1, id).value.book);
    }
  }

  lemma BarStepLongOnly(c: Config, p: Program, ordered: seq<Bar>, n: nat, sim: Sim)
    requires c.Valid() && n < |ordered| && ordered[n].Valid() && Linked(sim.desk) && BarStep(c, p, ordered, n, sim).Success?
    requires MoneySafe(c, sim.book) && DeskOk(c, sim.book.fills, sim.desk) && LongOnly(sim.book.fills)
    ensures LongOnly(BarStep(c, p, ordered, n, sim).value.book.fills)
  {
    hide Asked, WorkAll, CrossCheck, Linked, DeskOk, MoneySafe, Capacity, LongOnly;
    var bar := ordered[n];
    var s, desk := bar.Snapshot().value, Asked(c, p, ordered[..n], bar, sim.book, sim.desk).value;
    SnapshotValid(bar);
    CapacityNonnegative(c, s);
    AskedKeeps(c, p, ordered[..n], bar, sim.book, sim.desk);
    LinkedOf(c, sim.book.fills, desk);
    WorkAllLongOnly(c, bar, s, n, Worked(sim.book, desk, Capacity(c, s)), desk.ids);
  }

  lemma {:induction false} AfterLongOnly(c: Config, p: Program, ordered: seq<Bar>, n: nat)
    requires c.Valid() && n <= |ordered| && TapeOk(ordered) && After(c, p, ordered, n).Success?
    ensures LongOnly(After(c, p, ordered, n).value.book.fills)
  {
    hide BarStep, Linked;
    if n > 0 {
      hide LongOnly, MoneySafe, DeskOk, Chronological, FromBars, WithinLiquidity, Increasing;
      AfterLongOnly(c, p, ordered, n - 1);
      AfterKeeps(c, p, ordered, n - 1);
      assert ordered[n - 1] in ordered;
      BarStepLongOnly(c, p, ordered, n - 1, After(c, p, ordered, n - 1).value);
    }
  }

  /** The reported holdings of these fills account for every unit: uncensored quantities are the units sold, censored
      ones the units still held, and no unit was held for a negative time. */
  ghost predicate HoldingsAccount(book: Book, end: int) {
    var q := Queued(book.fills);
    && FirstInFirstOut(book.fills)
    && HeldTotal(q.holdings) == SoldTotal(book.fills)
    && HeldTotal(Censored(q.lots, end)) == book.position
    && Sane(q.holdings, false) && Sane(Censored(q.lots, end), true)
  }

  lemma TapeHoldings(c: Config, p: Program, ordered: seq<Bar>, n: nat)
    requires c.Valid() && 0 < n <= |ordered| && TapeOk(ordered) && After(c, p, ordered, n).Success?
    ensures var book, end := After(c, p, ordered, n).value.book, ordered[n - 1].timestamp;
      LongOnly(book.fills) && Chronological(book.fills) && HoldingsAccount(book, end)
  {
    hide After, TapeOk, LongOnly, Chronological, DeskOk, WithinLiquidity, Queued, Censored, HeldTotal;
    AfterKeeps(c, p, ordered, n);
    AfterLongOnly(c, p, ordered, n);
    var fills, end := After(c, p, ordered, n).value.book.fills, ordered[n - 1].timestamp;
    QueueIsFirstInFirstOut(fills);
    FillsBeforeEnd(fills, ordered, n);
    PositiveFills(fills);
    BoughtLessSold(fills);
    BoughtBefore(fills, end);
    Agreement.DropFacts(BoughtAt(fills), SoldTotal(fills));
    DropBought(BoughtAt(fills), SoldTotal(fills), end as real);
    CensoredTotals(Queued(fills).lots, end);
  }

  /** Whatever a completed replay traded, its reported holdings account for it. */
  lemma HoldingsAccountForEveryUnit(c: Config, p: Program, bars: seq<Bar>)
    requires c.Valid() && forall bar | bar in bars :: bar.Valid()
    ensures Replay(c, p, bars).Success? ==>
      var o, ordered := Replay(c, p, bars).value, Sorted(bars);
      && |ordered| > 0 && LongOnly(o.book.fills) && Chronological(o.book.fills)
      && HoldingsAccount(o.book, ordered[|ordered| - 1].timestamp)
  {
    hide After, CancelRest, Sorted, TapeOk, LongOnly, Chronological;
    var ordered := Sorted(bars);
    if Replay(c, p, bars).Success? {
      ScreenedTapeOk(bars);
      TapeHoldings(c, p, ordered, |ordered|);
    }
  }

  lemma PositiveFills(fills: seq<Fill>)
    requires LongOnly(fills)
    ensures forall f | f in fills :: f.quantity > 0.0
  {}

  lemma FillsBeforeEnd(fills: seq<Fill>, ordered: seq<Bar>, n: nat)
    requires 0 < n <= |ordered| && TapeOk(ordered) && FromBars(fills, ordered, n)
    ensures forall f | f in fills :: f.timestamp <= ordered[n - 1].timestamp
  {
    forall f | f in fills ensures f.timestamp <= ordered[n - 1].timestamp {
      var i :| 0 <= i < n && ordered[i].timestamp == f.timestamp;
    }
  }

  // ---- Scenario windows -----------------------------------------------------------------------

  datatype Window = Window(start: int, end: int)

  datatype ScenarioSlice = ScenarioSlice(observations: nat, netProfit: real)

  /** The tape positions inside a half-open window, in order. */
  function Inside(times: seq<int>, w: Window): seq<nat> {
    if |times| == 0 then []
    else Inside(times[..|times| - 1], w)
         + if w.start <= times[|times| - 1] < w.end then [|times| - 1] else []
  }

  lemma {:induction false} InsideInBounds(times: seq<int>, w: Window)
    ensures forall i | i in Inside(times, w) :: 0 <= i < |times|
  {
    if |times| > 0 {
      InsideInBounds(times[..|times| - 1], w);
    }
  }

  /** `equity[0]` is the starting cash and `equity[i + 1]` the equity after observation `i`. */
  function SliceOf(times: seq<int>, equity: seq<real>, w: Window): Option<ScenarioSlice>
    requires |equity| == |times| + 1
  {
    var indices := Inside(times, w);
    InsideInBounds(times, w);
    if |indices| == 0 then None
    else
      assert indices[0] in indices && indices[|indices| - 1] in indices;
      Some(ScenarioSlice(|indices|, equity[indices[|indices| - 1] + 1] - equity[indices[0]]))
  }

  function CountBefore(times: seq<int>, when: int): (n: nat)
    ensures n <= |times|
  {
    if |times| == 0 then 0
    else CountBefore(times[..|times| - 1], when) + if times[|times| - 1] < when then 1 else 0
  }

  ghost predicate Rising(times: seq<int>) {
    forall i, j | 0 <= i < j < |times| :: times[i] < times[j]
  }

  lemma {:induction false} CountOfRising(times: seq<int>, when: int)
    requires Rising(times)
    ensures forall i | 0 <= i < |times| :: i < CountBefore(times, when) <==> times[i] < when
  {
    if |times| > 0 {
      CountOfRising(times[..|times| - 1], when);
      assert forall i | 0 <= i < |times| - 1 :: times[..|times| - 1][i] == times[i];
    }
  }

  lemma AllBefore(times: seq<int>, when: int)
    requires Rising(times) && (|times| > 0 ==> times[|times| - 1] < when)
    ensures CountBefore(times, when) == |times|
  {
    CountOfRising(times, when);
  }

  /** On a rising tape a window covers one unbroken stretch. */
  lemma {:induction false} InsideIsAStretch(times: seq<int>, w: Window)
    requires Rising(times) && w.start <= w.end
    ensures var lo, hi, indices := CountBefore(times, w.start), CountBefore(times, w.end), Inside(times, w);
      lo <= hi && |indices| == hi - lo && forall k | 0 <= k < |indices| :: indices[k] == lo + k
  {
    if |times| > 0 {
      var front, last := times[..|times| - 1], times[|times| - 1];
      InsideIsAStretch(front, w);
      if last < w.start {
        AllBefore(front, w.start);
        AllBefore(front, w.end);
      } else if last < w.end {
        AllBefore(front, w.end);
      }
    }
  }

  ghost predicate Adjoining(windows: seq<Window>) {
    && (forall w | w in windows :: w.start < w.end)
    && (forall i | 0 < i < |windows| :: windows[i - 1].end == windows[i].start)
  }

  ghost function SliceSum(slices: seq<ScenarioSlice>): real {
    if |slices| == 0 then 0.0 else SliceSum(slices[..|slices| - 1]) + slices[|slices| - 1].netProfit
  }

  /** The slices a list of windows produces, or nothing when some window holds no observation. */
  method Scenarios(times: seq<int>, equity: seq<real>, windows: seq<Window>) returns (r: Option<seq<ScenarioSlice>>)
    requires |equity| == |times| + 1
    ensures r.None? <==> exists w | w in windows :: SliceOf(times, equity, w).None?
    ensures r.Some? ==> |r.value| == |windows|
    ensures r.Some? ==> forall i | 0 <= i < |windows| :: SliceOf(times, equity, windows[i]) == Some(r.value[i])
  {
    var slices: seq<ScenarioSlice> := [];
    for i := 0 to |windows|
      invariant |slices| == i
      invariant forall k | 0 <= k < i :: SliceOf(times, equity, windows[k]) == Some(slices[k])
    {
      match SliceOf(times, equity, windows[i])
      case None => return None;
      case Some(slice) => slices := slices + [slice];
    }
    return Some(slices);
  }

  lemma SliceIsDifference(times: seq<int>, equity: seq<real>, w: Window)
    requires Rising(times) && |equity| == |times| + 1 && w.start < w.end && SliceOf(times, equity, w).Some?
    ensures SliceOf(times, equity, w).value.netProfit
         == equity[CountBefore(times, w.end)] - equity[CountBefore(times, w.start)]
  {
    hide Inside, CountBefore;
    InsideIsAStretch(times, w);
  }

  /** Windows that follow one another split the profit between them, with nothing lost at the seams. */
  lemma {:induction false} AdjoiningSlicesSum(
    times: seq<int>, equity: seq<real>, windows: seq<Window>, slices: seq<ScenarioSlice>)
    requires Rising(times) && |equity| == |times| + 1 && |windows| == |slices| > 0 && Adjoining(windows)
    requires forall i | 0 <= i < |windows| :: SliceOf(times, equity, windows[i]) == Some(slices[i])
    ensures SliceSum(slices) == equity[CountBefore(times, windows[|windows| - 1].end)]
                                - equity[CountBefore(times, windows[0].start)]
  {
    hide SliceOf, CountBefore, Rising;
    var last := windows[|windows| - 1];
    SliceIsDifference(times, equity, last);
    if |windows| > 1 {
      AdjoiningSlicesSum(times, equity, windows[..|windows| - 1], slices[..|slices| - 1]);
    } else {
      assert slices[..0] == [];
    }
  }

  /** When the windows also cover the whole tape, the slices add up to the net profit of the run. */
  lemma CoveringSlicesSumToNet(times: seq<int>, equity: seq<real>, windows: seq<Window>, slices: seq<ScenarioSlice>)
    requires Rising(times) && |times| > 0 && |equity| == |times| + 1
    requires |windows| == |slices| > 0 && Adjoining(windows)
    requires windows[0].start <= times[0] && times[|times| - 1] < windows[|windows| - 1].end
    requires forall i | 0 <= i < |windows| :: SliceOf(times, equity, windows[i]) == Some(slices[i])
    ensures SliceSum(slices) == equity[|times|] - equity[0]
  {
    AdjoiningSlicesSum(times, equity, windows, slices);
    CountOfRising(times, windows[0].start);
    CountOfRising(times, windows[|windows| - 1].end);
    assert CountBefore(times, windows[0].start) == 0;
    assert CountBefore(times, windows[|windows| - 1].end) == |times|;
  }
}
