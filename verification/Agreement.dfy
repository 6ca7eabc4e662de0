/** Two bookkeepings, one truth: what the FIFO lots mean, and that both ledgers always agree. */
module Agreement {
  import opened Prelude
  import opened Accounting
  import opened Reference

  // ---- An order-free definition of first-in-first-out -----------------------------------------

  ghost predicate Positive(lots: seq<Lot>) {
    forall l | l in lots :: l.quantity > 0.0
  }

  /** Everything ever traded on one side, oldest first, as unsigned lots. */
  ghost function Traded(fills: seq<Fill>, side: Side): seq<Lot> {
    if |fills| == 0 then []
    else
      var last := fills[|fills| - 1];
      Traded(fills[..|fills| - 1], side) + if last.side == side then [Lot(last.quantity, last.price)] else []
  }

  /** What is left after the oldest `q` units are gone. */
  ghost function Drop(lots: seq<Lot>, q: real): seq<Lot>
    decreases |lots|
  {
    if |lots| == 0 || q <= 0.0 then lots
    else if lots[0].quantity <= q then Drop(lots[1..], q - lots[0].quantity)
    else [Lot(lots[0].quantity - q, lots[0].entry)] + lots[1..]
  }

  /** The notional of the oldest `q` units. */
  ghost function Front(lots: seq<Lot>, q: real): real
    decreases |lots|
  {
    if |lots| == 0 || q <= 0.0 then 0.0
    else if lots[0].quantity <= q then Notional(lots[0].quantity, lots[0].entry) + Front(lots[1..], q - lots[0].quantity)
    else Notional(q, lots[0].entry)
  }

  ghost function Held(lots: seq<Lot>, side: Side): seq<Lot> {
    seq(|lots|, i requires 0 <= i < |lots| => Lot(side.Toward(lots[i].quantity), lots[i].entry))
  }

  function Opposite(side: Side): Side {
    if side.Buy? then Sell else Buy
  }

  // ---- Lot arithmetic -------------------------------------------------------------------------

  lemma {:induction false} TotalAppend(lots: seq<Lot>, more: seq<Lot>)
    ensures LotsTotal(lots + more) == LotsTotal(lots) + LotsTotal(more)
  {
    if |lots| == 0 {
      assert lots + more == more;
    } else {
      assert (lots + more)[1..] == lots[1..] + more;
      TotalAppend(lots[1..], more);
    }
  }

  lemma {:induction false} TotalNonnegative(lots: seq<Lot>)
    requires Positive(lots)
    ensures LotsTotal(lots) >= 0.0
    ensures |lots| > 0 ==> LotsTotal(lots) > 0.0
  {
    if |lots| > 0 {
      assert lots[0] in lots;
      TotalNonnegative(lots[1..]);
    }
  }

  lemma {:induction false} DropFacts(lots: seq<Lot>, q: real)
    requires Positive(lots) && q >= 0.0
    ensures Positive(Drop(lots, q))
    ensures LotsTotal(Drop(lots, q)) == Max(0.0, LotsTotal(lots) - q)
    decreases |lots|
  {
    TotalNonnegative(lots);
    if |lots| > 0 && q > 0.0 {
      assert lots[0] in lots;
      TotalNonnegative(lots[1..]);
      if lots[0].quantity <= q {
        DropFacts(lots[1..], q - lots[0].quantity);
      }
    }
  }

  lemma {:induction false} DropTwice(lots: seq<Lot>, q: real, r: real)
    requires Positive(lots) && q >= 0.0 && r >= 0.0
    ensures Drop(Drop(lots, q), r) == Drop(lots, q + r)
    decreases |lots|
  {
    if |lots| > 0 && q > 0.0 && r > 0.0 {
      var first := lots[0];
      assert first in lots;
      if first.quantity <= q {
        DropTwice(lots[1..], q - first.quantity, r);
        assert q + r - first.quantity == q - first.quantity + r;
      } else {
        var cut := [Lot(first.quantity - q, first.entry)] + lots[1..];
        assert cut[1..] == lots[1..];
        assert r - (first.quantity - q) == q + r - first.quantity;
      }
    }
  }

  lemma {:induction false} FrontTwice(lots: seq<Lot>, q: real, r: real)
    requires Positive(lots) && q >= 0.0 && r >= 0.0
    ensures Front(lots, q + r) == Front(lots, q) + Front(Drop(lots, q), r)
    decreases |lots|
  {
    hide Notional;
    if |lots| > 0 && q > 0.0 && r > 0.0 {
      var first := lots[0];
      assert first in lots;
      if first.quantity <= q {
        FrontTwice(lots[1..], q - first.quantity, r);
        assert q + r - first.quantity == q - first.quantity + r;
      } else {
        var cut := [Lot(first.quantity - q, first.entry)] + lots[1..];
        assert cut[1..] == lots[1..];
        assert r - (first.quantity - q) == q + r - first.quantity;
        NotionalAdds(first.quantity, q, first.entry);
        NotionalAdds(q, r, first.entry);
      }
    }
  }

  lemma {:induction false} DropWithin(lots: seq<Lot>, last: Lot, q: real)
    requires Positive(lots) && last.quantity > 0.0 && 0.0 <= q <= LotsTotal(lots)
    ensures Drop(lots + [last], q) == Drop(lots, q) + [last]
    decreases |lots|
  {
    if |lots| > 0 && q > 0.0 {
      assert lots[0] in lots;
      assert (lots + [last])[1..] == lots[1..] + [last];
      if lots[0].quantity <= q {
        DropWithin(lots[1..], last, q - lots[0].quantity);
      }
    }
  }

  lemma {:induction false} DropInto(lots: seq<Lot>, last: Lot, q: real)
    requires Positive(lots) && LotsTotal(lots) <= q < LotsTotal(lots) + last.quantity
    ensures Drop(lots + [last], q) == [Lot(last.quantity - (q - LotsTotal(lots)), last.entry)]
    decreases |lots|
  {
    if |lots| > 0 {
      assert lots[0] in lots;
      assert (lots + [last])[1..] == lots[1..] + [last];
      TotalNonnegative(lots[1..]);
      DropInto(lots[1..], last, q - lots[0].quantity);
    } else {
      assert lots + [last] == [last] && [last][1..] == [];
    }
  }

  lemma DropAppend(lots: seq<Lot>, last: Lot, q: real)
    requires Positive(lots) && last.quantity > 0.0 && q >= 0.0
    ensures q <= LotsTotal(lots) ==> Drop(lots + [last], q) == Drop(lots, q) + [last]
    ensures LotsTotal(lots) <= q < LotsTotal(lots) + last.quantity ==>
              Drop(lots + [last], q) == [Lot(last.quantity - (q - LotsTotal(lots)), last.entry)]
  {
    hide Drop, LotsTotal;
    if q <= LotsTotal(lots) {
      DropWithin(lots, last, q);
    }
    if LotsTotal(lots) <= q < LotsTotal(lots) + last.quantity {
      DropInto(lots, last, q);
    }
  }

  lemma {:induction false} FrontAppend(lots: seq<Lot>, last: Lot, q: real)
    requires Positive(lots) && last.quantity > 0.0 && q >= 0.0
    ensures q <= LotsTotal(lots) ==> Front(lots + [last], q) == Front(lots, q)
    ensures LotsTotal(lots) <= q <= LotsTotal(lots) + last.quantity ==>
              Front(lots + [last], q) == Front(lots, q) + Notional(q - LotsTotal(lots), last.entry)
    decreases |lots|
  {
    hide Notional;
    TotalNonnegative(lots);
    if |lots| > 0 {
      assert lots[0] in lots;
      assert (lots + [last])[1..] == lots[1..] + [last];
      TotalNonnegative(lots[1..]);
      if 0.0 < q && lots[0].quantity <= q {
        FrontAppend(lots[1..], last, q - lots[0].quantity);
        assert q - lots[0].quantity - LotsTotal(lots[1..]) == q - LotsTotal(lots);
      }
    } else {
      assert (lots + [last])[1..] == [];
      NotionalAdds(q, 0.0, last.entry);
      assert Front([], q - last.quantity) == 0.0;
    }
  }

  // ---- The inner loop closes exactly the oldest units -----------------------------------------

  lemma CloseFrontSigned(lot: Lot, side: Side, q: real, price: real)
    requires lot.quantity > 0.0 && q > 0.0
    ensures var one := CloseFront(Lot(Opposite(side).Toward(lot.quantity), lot.entry), side.Toward(q), price);
      && one.lots == (if lot.quantity <= q then []
                      else [Lot(Opposite(side).Toward(lot.quantity - q), lot.entry)])
      && one.incoming == side.Toward(q - Min(lot.quantity, q))
  {}

  lemma CloseFrontGain(lot: Lot, side: Side, q: real, price: real)
    requires lot.quantity > 0.0 && q > 0.0
    ensures var closing := Min(lot.quantity, q);
      CloseFront(Lot(Opposite(side).Toward(lot.quantity), lot.entry), side.Toward(q), price).gain
        == side.Toward(Notional(closing, lot.entry) - Notional(closing, price))
  {
    hide Notional;
    var closing := Min(lot.quantity, q);
    NotionalSpread(closing, price, lot.entry);
  }

  lemma OpposesHeld(lots: seq<Lot>, side: Side, q: real)
    requires Positive(lots) && q > 0.0 && |lots| > 0
    ensures Opposes(Held(lots, Opposite(side)), side.Toward(q))
  {
    hide Notional;
    assert lots[0] in lots;
  }

  lemma NothingIncoming(lots: seq<Lot>, price: real)
    ensures MatchLots(lots, 0.0, price) == Matched(lots, 0.0, 0.0)
  {
    hide CloseFront, Notional;
  }

  /** One turn of the loop: the oldest lot is used up or cut, and what is left of the fill goes on. */
  lemma MatchesOldestFirst(lots: seq<Lot>, side: Side, q: real, price: real)
    requires Positive(lots) && q > 0.0 && |lots| > 0
    ensures var m, first := MatchLots(Held(lots, Opposite(side)), side.Toward(q), price), lots[0];
      var closing := Min(first.quantity, q);
      var gain := side.Toward(Notional(closing, first.entry) - Notional(closing, price));
      if first.quantity <= q then
        var rest := MatchLots(Held(lots[1..], Opposite(side)), side.Toward(q - first.quantity), price);
        m == Matched(rest.lots, rest.incoming, gain + rest.gain)
      else
        m == Matched([Lot(Opposite(side).Toward(first.quantity - q), first.entry)] + Held(lots[1..], Opposite(side)), 0.0, gain)
  {
    hide Notional, CloseFront;
    var held, first := Held(lots, Opposite(side)), lots[0];
    assert first in lots;
    OpposesHeld(lots, side, q);
    CloseFrontSigned(first, side, q, price);
    CloseFrontGain(first, side, q, price);
    assert held[1..] == Held(lots[1..], Opposite(side));
    assert held[0] == Lot(Opposite(side).Toward(first.quantity), first.entry);
    var one := CloseFront(held[0], side.Toward(q), price);
    hide Opposes, Held;
    if first.quantity <= q {
      assert one.lots + held[1..] == held[1..];
    } else {
      NothingIncoming(one.lots + held[1..], price);
    }
  }

  lemma {:induction false} MatchClosesOldest(lots: seq<Lot>, side: Side, q: real, price: real)
    requires Positive(lots) && q >= 0.0
    ensures var m := MatchLots(Held(lots, Opposite(side)), side.Toward(q), price);
      && m.lots == Held(Drop(lots, q), Opposite(side))
      && m.incoming == side.Toward(q - Min(q, LotsTotal(lots)))
    decreases |lots|
  {
    hide Notional, MatchLots;
    TotalNonnegative(lots);
    if q == 0.0 {
      NothingIncoming(Held(lots, Opposite(side)), price);
    } else if |lots| == 0 {
      NothingOpen(side.Toward(q), price);
    } else {
      MatchesOldestFirst(lots, side, q, price);
      TotalNonnegative(lots[1..]);
      if lots[0].quantity <= q {
        MatchClosesOldest(lots[1..], side, q - lots[0].quantity, price);
      } else {
        HeldCut(lots, side, q);
      }
    }
  }

  lemma NothingOpen(incoming: real, price: real)
    ensures MatchLots([], incoming, price) == Matched([], incoming, 0.0)
  {}

  lemma HeldCut(lots: seq<Lot>, side: Side, q: real)
    requires |lots| > 0 && 0.0 < q < lots[0].quantity
    ensures Held(Drop(lots, q), Opposite(side))
         == [Lot(Opposite(side).Toward(lots[0].quantity - q), lots[0].entry)] + Held(lots[1..], Opposite(side))
  {}

  lemma {:induction false} MatchGain(lots: seq<Lot>, side: Side, q: real, price: real)
    requires Positive(lots) && q >= 0.0
    ensures var closed := Min(q, LotsTotal(lots));
      MatchLots(Held(lots, Opposite(side)), side.Toward(q), price).gain
        == side.Toward(Front(lots, closed) - Notional(closed, price))
    decreases |lots|
  {
    hide Notional, MatchLots;
    NotionalAdds(0.0, 0.0, price);
    TotalNonnegative(lots);
    if q == 0.0 {
      NothingIncoming(Held(lots, Opposite(side)), price);
    } else if |lots| == 0 {
      assert Held(lots, Opposite(side)) == [];
      NothingOpen(side.Toward(q), price);
    } else {
      var first := lots[0];
      MatchesOldestFirst(lots, side, q, price);
      TotalNonnegative(lots[1..]);
      if first.quantity <= q {
        MatchGain(lots[1..], side, q - first.quantity, price);
        var tail := Min(q - first.quantity, LotsTotal(lots[1..]));
        assert Min(q, LotsTotal(lots)) == first.quantity + tail;
        NotionalAdds(first.quantity, tail, price);
        assert Front(lots, first.quantity + tail) == Notional(first.quantity, first.entry) + Front(lots[1..], tail);
      }
    }
  }

  // ---- The main theorems ----------------------------------------------------------------------

  /** What first-in-first-out leaves open, from the fills alone: the larger side without its oldest units, as many as
      the smaller side traded. */
  ghost function FifoRemainder(fills: seq<Fill>): seq<Lot> {
    var buys, sells := Traded(fills, Buy), Traded(fills, Sell);
    if LotsTotal(buys) >= LotsTotal(sells) then Held(Drop(buys, LotsTotal(sells)), Buy)
    else Held(Drop(sells, LotsTotal(buys)), Sell)
  }

  ghost predicate FifoShape(t: Tally, fills: seq<Fill>) {
    var buys, sells := Traded(fills, Buy), Traded(fills, Sell);
    var bought, sold := LotsTotal(buys), LotsTotal(sells);
    && Positive(buys) && Positive(sells)
    && t.lots == FifoRemainder(fills)
    && t.realized == Front(sells, Min(bought, sold)) - Front(buys, Min(bought, sold))
    && NetQuantity(fills) == bought - sold
  }

  lemma TradedAppend(fills: seq<Fill>, f: Fill)
    requires ValidFills(fills) && f.Valid() && Positive(Traded(fills, f.side))
    ensures Traded(fills + [f], f.side) == Traded(fills, f.side) + [Lot(f.quantity, f.price)]
    ensures Traded(fills + [f], Opposite(f.side)) == Traded(fills, Opposite(f.side))
    ensures Positive(Traded(fills + [f], f.side))
    ensures LotsTotal(Traded(fills + [f], f.side)) == LotsTotal(Traded(fills, f.side)) + f.quantity
    ensures NetQuantity(fills + [f]) == NetQuantity(fills) + f.Signed()
  {
    var all, last := fills + [f], Lot(f.quantity, f.price);
    assert all[..|all| - 1] == fills && all[|all| - 1] == f;
    TotalAppend(Traded(fills, f.side), [last]);
    assert LotsTotal([last]) == f.quantity;
  }

  /** One fill on one side: it joins its own side's open lots, or closes the other side's oldest ones. */
  lemma RecordKeepsShape(t: Tally, fills: seq<Fill>, f: Fill)
    requires ValidFills(fills) && f.Valid() && FifoShape(t, fills)
    ensures FifoShape(Record(t, f), fills + [f])
  {
    hide Notional, Record, Drop, Front, Held, LotsTotal, Traded, NetQuantity;
    var mine, theirs := Traded(fills, f.side), Traded(fills, Opposite(f.side));
    TradedAppend(fills, f);
    DropAll(mine);
    DropAll(theirs);
    DropAll(Traded(fills + [f], f.side));
    HeldEmpty(Buy);
    HeldEmpty(Sell);
    if LotsTotal(mine) >= LotsTotal(theirs) {
      JoinsOwnSide(t, f, mine, theirs);
    } else {
      ClosesOtherSide(t, f, mine, theirs);
      ClosingRealizes(t, f, mine, theirs);
    }
  }

  lemma DropAll(lots: seq<Lot>)
    requires Positive(lots)
    ensures Drop(lots, LotsTotal(lots)) == []
  {
    TotalNonnegative(lots);
    DropFacts(lots, LotsTotal(lots));
    TotalNonnegative(Drop(lots, LotsTotal(lots)));
  }

  lemma HeldAppend(lots: seq<Lot>, last: Lot, side: Side)
    ensures Held(lots + [last], side) == Held(lots, side) + [Lot(side.Toward(last.quantity), last.entry)]
  {}

  lemma HeldNeverOpposes(lots: seq<Lot>, f: Fill)
    requires Positive(lots) && f.Valid()
    ensures !Opposes(Held(lots, f.side), f.Signed())
  {
    if |lots| > 0 {
      assert lots[0] in lots;
    }
  }

  lemma JoinsOwnSide(t: Tally, f: Fill, mine: seq<Lot>, theirs: seq<Lot>)
    requires Positive(mine) && Positive(theirs) && f.Valid() && LotsTotal(mine) >= LotsTotal(theirs)
    requires t.lots == Held(Drop(mine, LotsTotal(theirs)), f.side)
    ensures Record(t, f).lots == Held(Drop(mine + [Lot(f.quantity, f.price)], LotsTotal(theirs)), f.side)
    ensures Record(t, f).realized == t.realized
    ensures Front(mine + [Lot(f.quantity, f.price)], LotsTotal(theirs)) == Front(mine, LotsTotal(theirs))
  {
    hide Notional, Drop, Front, LotsTotal, Held;
    var y, last := LotsTotal(theirs), Lot(f.quantity, f.price);
    TotalNonnegative(theirs);
    DropFacts(mine, y);
    DropAppend(mine, last, y);
    FrontAppend(mine, last, y);
    HeldNeverOpposes(Drop(mine, y), f);
    HeldAppend(Drop(mine, y), last, f.side);
  }

  lemma ClosesOtherSide(t: Tally, f: Fill, mine: seq<Lot>, theirs: seq<Lot>)
    requires Positive(mine) && Positive(theirs) && f.Valid() && LotsTotal(mine) < LotsTotal(theirs)
    requires t.lots == Held(Drop(theirs, LotsTotal(mine)), Opposite(f.side))
    ensures var mine', x' := mine + [Lot(f.quantity, f.price)], LotsTotal(mine) + f.quantity;
      var y := LotsTotal(theirs);
      Record(t, f).lots == if x' > y then Held(Drop(mine', y), f.side) else Held(Drop(theirs, x'), Opposite(f.side))
  {
    hide Notional, Drop, Front, LotsTotal, Held, MatchLots;
    var x, y, q, last := LotsTotal(mine), LotsTotal(theirs), f.quantity, Lot(f.quantity, f.price);
    TotalNonnegative(mine);
    var rest := Drop(theirs, x);
    DropFacts(theirs, x);
    MatchClosesOldest(rest, f.side, q, f.price);
    DropTwice(theirs, x, q);
    DropAppend(mine, last, y);
    if x + q > y {
      DropFacts(rest, q);
      TotalNonnegative(Drop(rest, q));
      HeldAppend([], Lot(x + q - y, f.price), f.side);
      assert Held([], f.side) == [] by { HeldEmpty(f.side); }
      assert Held([], Opposite(f.side)) == [] by { HeldEmpty(Opposite(f.side)); }
      assert [] + [Lot(x + q - y, f.price)] == [Lot(x + q - y, f.price)];
    }
  }

  lemma HeldEmpty(side: Side)
    ensures Held([], side) == []
  {}

  lemma ClosingRealizes(t: Tally, f: Fill, mine: seq<Lot>, theirs: seq<Lot>)
    requires Positive(mine) && Positive(theirs) && f.Valid() && LotsTotal(mine) < LotsTotal(theirs)
    requires t.lots == Held(Drop(theirs, LotsTotal(mine)), Opposite(f.side))
    ensures var mine', m := mine + [Lot(f.quantity, f.price)], Min(LotsTotal(mine) + f.quantity, LotsTotal(theirs));
      Record(t, f).realized == t.realized + f.side.Toward(
           (Front(theirs, m) - Front(theirs, LotsTotal(mine))) - (Front(mine', m) - Front(mine, LotsTotal(mine))))
  {
    hide Notional, Drop, Front, LotsTotal, Held, MatchLots;
    var x, y, q, last := LotsTotal(mine), LotsTotal(theirs), f.quantity, Lot(f.quantity, f.price);
    TotalNonnegative(mine);
    var rest := Drop(theirs, x);
    DropFacts(theirs, x);
    var closed := Min(q, LotsTotal(rest));
    assert x + closed == Min(x + q, y);
    MatchGain(rest, f.side, q, f.price);
    FrontTwice(theirs, x, closed);
    FrontAppend(mine, last, x + closed);
    FrontBeyond(mine, x + closed);
  }

  lemma {:induction false} FrontBeyond(lots: seq<Lot>, q: real)
    requires Positive(lots) && q >= LotsTotal(lots)
    ensures Front(lots, q) == Front(lots, LotsTotal(lots))
    decreases |lots|
  {
    hide Notional;
    TotalNonnegative(lots);
    if |lots| > 0 {
      assert lots[0] in lots;
      TotalNonnegative(lots[1..]);
      FrontBeyond(lots[1..], q - lots[0].quantity);
    }
  }

  /** FIFO needs no order between the two sides: the open lots are everything on the larger side after its
      oldest units, as many as the smaller side ever traded, and realized profit is the notional of those
      oldest units sold minus the notional of those oldest units bought. */
  lemma {:induction false} FifoClosedForm(starting: real, fills: seq<Fill>)
    requires ValidFills(fills)
    ensures FifoShape(RecordAll(starting, fills), fills)
  {
    if |fills| == 0 {
      assert Held([], Buy) == [];
    } else {
      var front := fills[..|fills| - 1];
      assert fills == front + [fills[|fills| - 1]];
      FifoClosedForm(starting, front);
      RecordKeepsShape(RecordAll(starting, front), front, fills[|fills| - 1]);
    }
  }

  lemma OpenLotsOneSided(starting: real, fills: seq<Fill>)
    requires ValidFills(fills)
    ensures var lots := RecordAll(starting, fills).lots;
      (forall l | l in lots :: l.quantity > 0.0) || (forall l | l in lots :: l.quantity < 0.0)
  {
    FifoClosedForm(starting, fills);
    var buys, sells := Traded(fills, Buy), Traded(fills, Sell);
    var bought, sold := LotsTotal(buys), LotsTotal(sells);
    TotalNonnegative(buys);
    TotalNonnegative(sells);
    DropFacts(buys, sold);
    DropFacts(sells, bought);
    var side, rest := if bought >= sold then Buy else Sell, if bought >= sold then Drop(buys, sold) else Drop(sells, bought);
    forall l | l in Held(rest, side) ensures side.Buy? ==> l.quantity > 0.0 ensures side.Sell? ==> l.quantity < 0.0 {
      var i :| 0 <= i < |rest| && l == Held(rest, side)[i];
      assert rest[i] in rest;
    }
  }

  // ---- Values of lots -------------------------------------------------------------------------

  ghost function LotsValue(lots: seq<Lot>): real {
    if |lots| == 0 then 0.0 else Notional(lots[0].quantity, lots[0].entry) + LotsValue(lots[1..])
  }

  lemma {:induction false} MarkedIsTotalLessValue(lots: seq<Lot>, mark: real)
    ensures LotsMarked(lots, mark) == Notional(LotsTotal(lots), mark) - LotsValue(lots)
  {
    hide Notional;
    if |lots| == 0 {
      NotionalAdds(0.0, 0.0, mark);
    } else {
      MarkedIsTotalLessValue(lots[1..], mark);
      NotionalSpread(lots[0].quantity, mark, lots[0].entry);
      NotionalAdds(lots[0].quantity, LotsTotal(lots[1..]), mark);
    }
  }

  lemma {:induction false} ValueAppend(lots: seq<Lot>, more: seq<Lot>)
    ensures LotsValue(lots + more) == LotsValue(lots) + LotsValue(more)
  {
    if |lots| == 0 {
      assert lots + more == more;
    } else {
      assert (lots + more)[1..] == lots[1..] + more;
      ValueAppend(lots[1..], more);
    }
  }

  lemma {:induction false} HeldTotals(lots: seq<Lot>, side: Side)
    ensures LotsTotal(Held(lots, side)) == side.Toward(LotsTotal(lots))
    ensures LotsValue(Held(lots, side)) == side.Toward(LotsValue(lots))
  {
    hide Notional;
    if |lots| > 0 {
      assert Held(lots, side)[1..] == Held(lots[1..], side);
      HeldTotals(lots[1..], side);
      NotionalAdds(lots[0].quantity, 0.0, lots[0].entry);
    }
  }

  lemma {:induction false} FrontOfAll(lots: seq<Lot>)
    requires Positive(lots)
    ensures Front(lots, LotsTotal(lots)) == LotsValue(lots)
  {
    TotalNonnegative(lots);
    if |lots| > 0 {
      assert lots[0] in lots;
      TotalNonnegative(lots[1..]);
      FrontOfAll(lots[1..]);
    }
  }

  lemma ValueAfterDrop(lots: seq<Lot>, q: real)
    requires Positive(lots) && 0.0 <= q <= LotsTotal(lots)
    ensures LotsValue(Drop(lots, q)) == LotsValue(lots) - Front(lots, q)
  {
    hide Notional, Front, LotsValue;
    DropFacts(lots, q);
    FrontTwice(lots, q, LotsTotal(lots) - q);
    FrontOfAll(lots);
    FrontOfAll(Drop(lots, q));
  }

  lemma {:induction false} OutlayIsValueTraded(fills: seq<Fill>)
    ensures NetOutlay(fills) == LotsValue(Traded(fills, Buy)) - LotsValue(Traded(fills, Sell))
  {
    hide Notional;
    if |fills| > 0 {
      var front, f := fills[..|fills| - 1], fills[|fills| - 1];
      OutlayIsValueTraded(front);
      var last := Lot(f.quantity, f.price);
      ValueAppend(Traded(front, f.side), [last]);
      assert LotsValue([last]) == Notional(f.quantity, f.price);
      NotionalAdds(f.quantity, 0.0, f.price);
      assert Traded(front, Opposite(f.side)) + [] == Traded(front, Opposite(f.side));
    }
  }

  lemma {:induction false} TallyTotals(starting: real, fills: seq<Fill>)
    ensures var t := RecordAll(starting, fills);
      && t.fees == TotalFees(fills) && t.other == TotalAdditive(fills)
      && t.cash == starting - NetOutlay(fills) - t.fees - t.other
  {
    hide Notional, MatchLots;
    if |fills| > 0 {
      TallyTotals(starting, fills[..|fills| - 1]);
    }
  }

  /** The open lots weigh exactly the net quantity, and their entry value is the outlay plus what was realized. */
  lemma OpenLotsBalance(starting: real, fills: seq<Fill>)
    requires ValidFills(fills)
    ensures var t := RecordAll(starting, fills);
      LotsTotal(t.lots) == NetQuantity(fills) && LotsValue(t.lots) == NetOutlay(fills) + t.realized
  {
    hide Notional, Front, LotsValue, Drop, Held, LotsTotal, RecordAll, NetOutlay, NetQuantity, Traded;
    FifoClosedForm(starting, fills);
    OutlayIsValueTraded(fills);
    var buys, sells := Traded(fills, Buy), Traded(fills, Sell);
    var bought, sold := LotsTotal(buys), LotsTotal(sells);
    TotalNonnegative(buys);
    TotalNonnegative(sells);
    FrontOfAll(buys);
    FrontOfAll(sells);
    if bought >= sold {
      ValueAfterDrop(buys, sold);
      DropFacts(buys, sold);
      HeldTotals(Drop(buys, sold), Buy);
    } else {
      ValueAfterDrop(sells, bought);
      DropFacts(sells, bought);
      HeldTotals(Drop(sells, bought), Sell);
    }
  }

  /** A sound ledger and the FIFO tally of its fills report the same account at every mark. */
  lemma SoundBookAgrees(b: Book, mark: real)
    requires Sound(b)
    ensures Reconciled(b.starting, b.fills, mark).Success?
    ensures var r := Reconciled(b.starting, b.fills, mark).value;
      && r.cash == b.cash && r.position == b.position && r.equity == b.Equity(mark)
      && r.fees == b.fees && r.other == b.other
      && r.realized + r.unrealized == b.realized + b.Unrealized(mark)
      && b.Reconcile(mark) == 0.0
  {
    hide Notional, LotsValue, LotsTotal, RecordAll, NetOutlay, NetQuantity, TotalFees, TotalAdditive, LotsMarked;
    TallyTotals(b.starting, b.fills);
    OpenLotsBalance(b.starting, b.fills);
    MarkedIsTotalLessValue(RecordAll(b.starting, b.fills).lots, mark);
    NotionalSpread(b.position, mark, b.average);
    ReconcileIsZero(b, mark);
  }

  /** The two bookkeepings, for every fill sequence the ledger accepts and every mark. */
  lemma LedgersAgree(starting: real, fills: seq<Fill>, mark: real)
    requires ValidFills(fills) && ApplyAll(starting, fills).Success?
    ensures Reconciled(starting, fills, mark).Success?
    ensures var b, r := ApplyAll(starting, fills).value, Reconciled(starting, fills, mark).value;
      && r.cash == b.cash && r.position == b.position && r.equity == b.Equity(mark)
      && r.fees == b.fees && r.other == b.other
      && r.realized + r.unrealized == b.realized + b.Unrealized(mark)
      && b.Reconcile(mark) == 0.0
  {
    hide ApplyAll, RecordAll, Sound;
    AcceptedExactlyWhen(starting, fills);
    SoundBookAgrees(ApplyAll(starting, fills).value, mark);
  }

  /** Realized profit alone may differ while lots are open; once the position is flat it cannot. */
  lemma RealizedAgreesWhenFlat(starting: real, fills: seq<Fill>)
    requires ValidFills(fills) && ApplyAll(starting, fills).Success? && NetQuantity(fills) == 0.0
    ensures RecordAll(starting, fills).realized == ApplyAll(starting, fills).value.realized
  {
    hide LotsValue, RecordAll, NetOutlay, NetQuantity, TotalFees, TotalAdditive, ApplyAll;
    AcceptedExactlyWhen(starting, fills);
    OpenLotsBalance(starting, fills);
    var t := RecordAll(starting, fills);
    OpenLotsOneSided(starting, fills);
    FlatMeansNoLots(t.lots);
    assert LotsValue([]) == 0.0 by { FrontOfAll([]); }
  }

  lemma FlatMeansNoLots(lots: seq<Lot>)
    requires (forall l | l in lots :: l.quantity > 0.0) || (forall l | l in lots :: l.quantity < 0.0)
    requires LotsTotal(lots) == 0.0
    ensures lots == []
  {
    if forall l | l in lots :: l.quantity > 0.0 {
      TotalNonnegative(lots);
    } else {
      var flipped := Held(lots, Sell);
      HeldTotals(lots, Sell);
      forall l | l in flipped ensures l.quantity > 0.0 {
        var i :| 0 <= i < |lots| && flipped[i] == l;
        assert lots[i] in lots;
      }
      TotalNonnegative(flipped);
    }
  }

  ghost predicate TwoBuysOneSale(first: Fill, second: Fill, sale: Fill) {
    && first.Valid() && second.Valid() && sale.Valid()
    && first.side.Buy? && second.side.Buy? && sale.side.Sell?
    && first.quantity == second.quantity == sale.quantity == 1.0
    && first.costs == second.costs == sale.costs == []
    && DistinctIds([first, second, sale])
  }

  lemma UnitNotional(price: real)
    ensures Notional(1.0, price) == price && Notional(-1.0, price) == -price
  {}

  lemma AverageRealizes(starting: real, first: Fill, second: Fill, sale: Fill)
    requires TwoBuysOneSale(first, second, sale)
    ensures ApplyAll(starting, [first, second, sale]).Success?
    ensures ApplyAll(starting, [first, second, sale]).value.realized == sale.price - (first.price + second.price) / 2.0
  {
    hide Notional;
    var one, two, three := [first], [first, second], [first, second, sale];
    assert two[..1] == one && three[..2] == two && one[..0] == [];
    assert three[0].fillId != three[1].fillId && three[0].fillId != three[2].fillId && three[1].fillId != three[2].fillId;
    UnitNotional(first.price);
    UnitNotional(second.price);
    NotionalAdds(0.0, 0.0, 0.0);
    var b1 := ApplyFill(OpenBook(starting), first).value;
    assert ApplyAll(starting, one) == Success(b1);
    assert b1.average == first.price;
    var b2 := ApplyFill(b1, second).value;
    assert ApplyAll(starting, two) == Success(b2);
    assert b2.average == (first.price + second.price) / 2.0;
    UnitNotional(sale.price - b2.average);
  }

  lemma FifoRealizes(starting: real, first: Fill, second: Fill, sale: Fill)
    requires TwoBuysOneSale(first, second, sale)
    ensures RecordAll(starting, [first, second, sale]).realized == sale.price - first.price
  {
    hide Notional, MatchLots, FifoRemainder;
    var one, two, three := [first], [first, second], [first, second, sale];
    assert two[..1] == one && three[..2] == two && one[..0] == [];
    FifoClosedForm(starting, three);
    assert Traded(one, Sell) == [] && Traded(one, Buy) == [Lot(1.0, first.price)];
    assert Traded(two, Sell) == [] && Traded(two, Buy) == [Lot(1.0, first.price), Lot(1.0, second.price)];
    var sells, buys := [Lot(1.0, sale.price)], [Lot(1.0, first.price), Lot(1.0, second.price)];
    assert Traded(three, Sell) == sells && Traded(three, Buy) == buys;
    assert LotsTotal(sells) == 1.0;
    assert buys[1..] == [Lot(1.0, second.price)] && LotsTotal(buys[1..]) == 1.0;
    UnitNotional(sale.price);
    UnitNotional(first.price);
    assert Front(sells, 1.0) == sale.price && Front(buys, 1.0) == first.price;
  }

  /** The two realized figures really do differ while lots stay open: two unit buys, then one unit sold. */
  lemma RealizedMayDiffer(starting: real, first: Fill, second: Fill, sale: Fill)
    requires TwoBuysOneSale(first, second, sale)
    ensures ApplyAll(starting, [first, second, sale]).Success?
    ensures RecordAll(starting, [first, second, sale]).realized
         == ApplyAll(starting, [first, second, sale]).value.realized + (second.price - first.price) / 2.0
  {
    hide RecordAll, ApplyAll;
    AverageRealizes(starting, first, second, sale);
    FifoRealizes(starting, first, second, sale);
  }

  // ---- What the moving average is -------------------------------------------------------------

  ghost function Scaled(lots: seq<Lot>, factor: real): seq<Lot> {
    seq(|lots|, i requires 0 <= i < |lots| => Lot(Notional(lots[i].quantity, factor), lots[i].entry))
  }

  ghost function ProRataAfter(lots: seq<Lot>, open: real, f: Fill): seq<Lot> {
    if open == 0.0 || Aligned(open, f.Signed()) then lots + [Lot(f.Signed(), f.price)]
    else if Abs(f.Signed()) > Abs(open) then [Lot(open + f.Signed(), f.price)]
    else if Abs(f.Signed()) == Abs(open) then []
    else Scaled(lots, Quotient(open + f.Signed(), open))
  }

  /** A third, independent lot rule: a closing fill takes the same fraction of every open lot. */
  ghost function ProRata(fills: seq<Fill>): seq<Lot> {
    if |fills| == 0 then []
    else ProRataAfter(ProRata(fills[..|fills| - 1]), NetQuantity(fills[..|fills| - 1]), fills[|fills| - 1])
  }

  lemma {:induction false} ScaledTotals(lots: seq<Lot>, factor: real)
    ensures LotsTotal(Scaled(lots, factor)) == Notional(LotsTotal(lots), factor)
    ensures LotsValue(Scaled(lots, factor)) == Notional(LotsValue(lots), factor)
  {
    hide Notional;
    if |lots| == 0 {
      NotionalAdds(0.0, 0.0, factor);
    } else {
      assert Scaled(lots, factor)[1..] == Scaled(lots[1..], factor);
      ScaledTotals(lots[1..], factor);
      NotionalAdds(lots[0].quantity, LotsTotal(lots[1..]), factor);
      NotionalAdds(Notional(lots[0].quantity, lots[0].entry), LotsValue(lots[1..]), factor);
      NotionalSwaps(lots[0].quantity, factor, lots[0].entry);
    }
  }

  lemma NotionalSwaps(quantity: real, factor: real, price: real)
    ensures Notional(Notional(quantity, factor), price) == Notional(Notional(quantity, price), factor)
  {}

  lemma FillAveragesProRata(b: Book, lots: seq<Lot>, f: Fill)
    requires f.Valid() && LotsTotal(lots) == b.position && LotsValue(lots) == Notional(b.position, b.average)
    ensures var after := ProRataAfter(lots, b.position, f);
      && LotsTotal(after) == b.position + f.Signed()
      && LotsValue(after) == Notional(b.position + f.Signed(), AverageAfter(b, f))
  {
    hide Notional, Quotient;
    var x, s := b.position, f.Signed();
    BasisMoves(b, f);
    NotionalAdds(0.0, 0.0, AverageAfter(b, f));
    if x == 0.0 || Aligned(x, s) {
      TotalAppend(lots, [Lot(s, f.price)]);
      ValueAppend(lots, [Lot(s, f.price)]);
      assert LotsTotal([Lot(s, f.price)]) == s && LotsValue([Lot(s, f.price)]) == Notional(s, f.price);
    } else if Abs(s) > Abs(x) {
      assert LotsTotal([Lot(x + s, f.price)]) == x + s;
      assert LotsValue([Lot(x + s, f.price)]) == Notional(x + s, f.price);
    } else if Abs(s) < Abs(x) {
      ScaledTotals(lots, Quotient(x + s, x));
      QuotientTimes(x + s, x);
      NotionalSwaps(x, Quotient(x + s, x), b.average);
    }
  }

  /** The ledger's average entry is the average entry of the pro-rata lots, over every accepted sequence. */
  lemma {:induction false} AverageIsProRata(starting: real, fills: seq<Fill>)
    requires ValidFills(fills) && ApplyAll(starting, fills).Success?
    ensures var b := ApplyAll(starting, fills).value;
      && LotsTotal(ProRata(fills)) == b.position
      && LotsValue(ProRata(fills)) == Notional(b.position, b.average)
  {
    hide Notional, ProRataAfter, AverageAfter, RealizedBy, LotsValue, LotsTotal;
    AcceptedExactlyWhen(starting, fills);
    if |fills| == 0 {
      NotionalAdds(0.0, 0.0, 0.0);
      NoLots();
    } else {
      var front, f := fills[..|fills| - 1], fills[|fills| - 1];
      AcceptedExactlyWhen(starting, front);
      AverageIsProRata(starting, front);
      FillAveragesProRata(ApplyAll(starting, front).value, ProRata(front), f);
    }
  }

  lemma NoLots()
    ensures LotsTotal([]) == 0.0 == LotsValue([])
  {}

  /** Exactly when the two bookkeepings report the same realized profit: what first-in-first-out leaves open cost the
      same as what pro-rata closing leaves open. Both remainders are read off the fills alone. */
  lemma RealizedAgreesExactly(starting: real, fills: seq<Fill>)
    requires ValidFills(fills) && ApplyAll(starting, fills).Success?
    ensures RecordAll(starting, fills).realized == ApplyAll(starting, fills).value.realized
       <==> LotsValue(FifoRemainder(fills)) == LotsValue(ProRata(fills))
  {
    hide Notional, LotsValue, LotsTotal, RecordAll, NetOutlay, NetQuantity, TotalFees, TotalAdditive, ApplyAll, ProRata;
    hide Drop, Held, Traded;
    AcceptedExactlyWhen(starting, fills);
    FifoClosedForm(starting, fills);
    OpenLotsBalance(starting, fills);
    AverageIsProRata(starting, fills);
  }
}
