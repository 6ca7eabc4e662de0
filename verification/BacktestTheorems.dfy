/** Theorems about whole replays: safety, order independence, non-anticipation, and bounded strategies. */
module BacktestTheorems {
  import opened Prelude
  import opened Accounting
  import opened Reference
  import opened Execution
  import opened Backtest
  import opened BacktestSafety

  // ---- Completed replays are safe -------------------------------------------------------------

  lemma CancelledRowOk(c: Config, fills: seq<Fill>, row: OrderRow, id: string)
    requires RowOk(c, fills, row, id)
    ensures RowOk(c, fills, row.(status := Cancelled), id)
  {
    hide Normalized, Honours;
    forall f | f in fills && f.orderId == id ensures Honours(c, row.(status := Cancelled), f) {
      SameTermsHonour(c, row, row.(status := Cancelled), f);
    }
  }

  lemma SameTermsHonour(c: Config, row: OrderRow, row': OrderRow, f: Fill)
    requires Honours(c, row, f) && row'.intent == row.intent && row'.normalized == row.normalized
    ensures Honours(c, row', f)
  {}

  lemma {:induction false} CancelRestClosesPending(c: Config, fills: seq<Fill>, d: Desk, ids: seq<string>, when: int)
    requires Linked(d)
    requires forall id | id in d.orders :: RowOk(c, fills, d.orders[id], id)
    requires forall id | id in d.orders && id !in d.pending :: d.orders[id].status.Terminal()
    ensures var d' := CancelRest(d, ids, when);
      && (forall id | id in d'.orders :: RowOk(c, fills, d'.orders[id], id))
      && (forall id | id in d'.orders && (id !in d.pending || id in ids) :: d'.orders[id].status.Terminal())
  {
    hide RowOk;
    if |ids| > 0 {
      var front, id := ids[..|ids| - 1], ids[|ids| - 1];
      assert ids == front + [id];
      CancelRestClosesPending(c, fills, d, front, when);
      if id in d.pending {
        CancelledRowOk(c, fills, CancelRest(d, front, when).orders[id], id);
      }
    }
  }

  /** How an order may end: filled for exactly its normalized quantity, or cancelled or rejected short of it. */
  ghost predicate OrderEnded(c: Config, fills: seq<Fill>, row: OrderRow, id: string) {
    && row.status.Terminal()
    && FilledFor(fills, id) == row.filled <= row.intent.quantity
    && (row.normalized.Some? ==> row.filled <= row.normalized.value.quantity <= row.intent.quantity)
    && (row.status.Filled? ==> row.normalized.Some? && row.filled == row.normalized.value.quantity)
    && (forall f | f in fills && f.orderId == id :: Honours(c, row, f))
  }

  lemma RowsEnd(c: Config, fills: seq<Fill>, row: OrderRow, id: string)
    requires c.Valid() && RowOk(c, fills, row, id) && row.status.Terminal()
    ensures OrderEnded(c, fills, row, id)
  {
    hide Normalized, Honours;
    if row.normalized.Some? {
      NormalizedFacts(c, row.intent);
    }
  }

  ghost predicate SafeOutcome(c: Config, ordered: seq<Bar>, o: Outcome) {
    && MoneySafe(c, o.book)
    && |o.observations| == |ordered|
    && (forall i | 0 <= i < |ordered| :: ObservationOk(c, ordered[i], o.observations[i]))
    && (forall i | 0 <= i < |ordered| :: WithinLiquidity(c, o.book.fills, ordered[i]))
    && (forall id | id in o.orders :: OrderEnded(c, o.book.fills, o.orders[id], id))
    && (forall f | f in o.book.fills :: f.orderId in o.orders)
    && Chronological(o.book.fills)
  }

  /** Whatever the tape and the program, a replay that completes never borrowed cash or inventory, never traded
      more than a bar's liquidity, and closed every order; and no replay ever stops on disagreeing books. */
  lemma CompletedReplayIsSafe(c: Config, p: Program, bars: seq<Bar>)
    requires c.Valid() && forall bar | bar in bars :: bar.Valid()
    ensures Replay(c, p, bars).Success? ==> SafeOutcome(c, Sorted(bars), Replay(c, p, bars).value)
    ensures Replay(c, p, bars) != Failure(AccountingDisagreement)
  {
    hide Sorted, MoneySafe, ObservationOk, WithinLiquidity, After, CancelRest, RowOk, Chronological;
    var ordered := Sorted(bars);
    if |ordered| > 0 && !Repeats(ordered) {
      ScreenedTapeOk(bars);
      AfterKeeps(c, p, ordered, |ordered|);
      if Replay(c, p, bars).Success? {
        var sim, o := After(c, p, ordered, |ordered|).value, Replay(c, p, bars).value;
        var when := ordered[|ordered| - 1].timestamp;
        CancelRestClosesPending(c, sim.book.fills, sim.desk, sim.desk.ids, when);
        forall id | id in o.orders ensures OrderEnded(c, o.book.fills, o.orders[id], id) {
          RowsEnd(c, o.book.fills, o.orders[id], id);
        }
      }
    }
  }

  // ---- The input order of the bars does not matter --------------------------------------------

  lemma SameLast(a: seq<Bar>, b: seq<Bar>)
    requires Increasing(a) && Ascending(b) && multiset(a) == multiset(b) && |a| == |b| > 0
    ensures a[|a| - 1] == b[|b| - 1]
  {
    var x, y := a[|a| - 1], b[|b| - 1];
    assert x in multiset(b) && y in multiset(a);
    var i :| 0 <= i < |b| && b[i] == x;
    var j :| 0 <= j < |a| && a[j] == y;
  }

  lemma SameRest<T>(front: seq<T>, rest: seq<T>, last: T)
    requires multiset(front + [last]) == multiset(rest + [last])
    ensures multiset(front) == multiset(rest)
  {
    assert multiset(front) == multiset(front + [last]) - multiset{last};
    assert multiset(rest) == multiset(rest + [last]) - multiset{last};
  }

  lemma WithoutLast(a: seq<Bar>, b: seq<Bar>)
    requires |a| > 0 && |b| > 0 && Increasing(a) && Ascending(b)
    ensures Increasing(a[..|a| - 1]) && Ascending(b[..|b| - 1])
  {}

  lemma {:induction false} UniqueOrder(a: seq<Bar>, b: seq<Bar>)
    requires Increasing(a) && Ascending(b) && multiset(a) == multiset(b)
    ensures a == b
  {
    hide Increasing, Ascending;
    assert |a| == |multiset(a)| == |multiset(b)| == |b|;
    if |a| > 0 {
      SameLast(a, b);
      WithoutLast(a, b);
      var front, rest, last := a[..|a| - 1], b[..|b| - 1], a[|a| - 1];
      assert a == front + [last] && b == rest + [last];
      SameRest(front, rest, last);
      UniqueOrder(front, rest);
    }
  }

  lemma RepeatsOrIncreasing(bars: seq<Bar>)
    requires Ascending(bars)
    ensures Repeats(bars) || Increasing(bars)
  {}

  lemma ReplayIgnoresInputOrder(c: Config, p: Program, bars: seq<Bar>, shuffled: seq<Bar>)
    requires c.Valid() && multiset(bars) == multiset(shuffled)
    ensures Replay(c, p, bars) == Replay(c, p, shuffled)
  {
    hide After, Sorted;
    SortedSorts(bars);
    SortedSorts(shuffled);
    RepeatsOrIncreasing(Sorted(bars));
    RepeatsOrIncreasing(Sorted(shuffled));
    assert |Sorted(bars)| == |multiset(Sorted(bars))| == |multiset(Sorted(shuffled))| == |Sorted(shuffled)|;
    if !Repeats(Sorted(bars)) {
      UniqueOrder(Sorted(bars), Sorted(shuffled));
    } else if !Repeats(Sorted(shuffled)) {
      UniqueOrder(Sorted(shuffled), Sorted(bars));
    }
  }

  // ---- Non-anticipation -----------------------------------------------------------------------

  /** What the program is asked for at bar `k`, given the account it then has. */
  ghost function IntentAt(c: Config, p: Program, ordered: seq<Bar>, k: nat): Result<Option<OrderIntent>, Halt>
    requires c.Valid() && k < |ordered| && After(c, p, ordered, k).Success?
  {
    var sim := After(c, p, ordered, k).value;
    Intended(c, p, ordered[..k], ordered[k], sim.book.position, sim.desk.pending == map[])
  }

  lemma SameStepFromSamePrefix(c: Config, p: Program, left: seq<Bar>, right: seq<Bar>, k: nat, sim: Sim)
    requires c.Valid() && k < |left| && k < |right| && left[..k] == right[..k] && left[k] == right[k] && Linked(sim.desk)
    ensures BarStep(c, p, left, k, sim) == BarStep(c, p, right, k, sim)
  {
    hide Linked, Asked, WorkAll, CrossCheck, Observe, Capacity;
  }

  lemma {:induction false} SameStateFromSamePrefix(c: Config, p: Program, left: seq<Bar>, right: seq<Bar>, k: nat)
    requires c.Valid() && k <= |left| && k <= |right| && left[..k] == right[..k]
    ensures After(c, p, left, k) == After(c, p, right, k)
  {
    hide BarStep, Linked;
    if k > 0 {
      assert left[..k - 1] == left[..k][..k - 1] == right[..k][..k - 1] == right[..k - 1];
      assert left[k - 1] == left[..k][k - 1] == right[..k][k - 1] == right[k - 1];
      SameStateFromSamePrefix(c, p, left, right, k - 1);
      var r := After(c, p, left, k - 1);
      if r.Success? {
        SameStepFromSamePrefix(c, p, left, right, k - 1, r.value);
      }
    }
  }

  /** What a program is asked for depends on the present bar's time only. */
  lemma OnlyTheTimeIsSeen(c: Config, p: Program, seen: seq<Bar>, a: Bar, b: Bar, position: real, idle: bool)
    requires c.Valid() && a.timestamp == b.timestamp
    ensures Intended(c, p, seen, a, position, idle) == Intended(c, p, seen, b, position, idle)
  {}

  /** Tapes that agree before bar `k` and on bar `k`'s time alone, not its prices, produce the same state up to
      bar `k` and the same intent at every bar through `k`. */
  lemma NoAnticipation(c: Config, p: Program, left: seq<Bar>, right: seq<Bar>, k: nat, j: nat)
    requires c.Valid() && j <= k < |left| && k < |right|
    requires left[..k] == right[..k] && left[k].timestamp == right[k].timestamp
    requires After(c, p, left, j).Success?
    ensures After(c, p, left, j) == After(c, p, right, j)
    ensures IntentAt(c, p, left, j) == IntentAt(c, p, right, j)
  {
    hide After, Intended;
    assert left[..j] == left[..k][..j] == right[..k][..j] == right[..j];
    SameStateFromSamePrefix(c, p, left, right, j);
    if j < k {
      assert left[j] == left[..k][j] == right[..k][j] == right[j];
    }
    var sim := After(c, p, left, j).value;
    OnlyTheTimeIsSeen(c, p, left[..j], left[j], right[j], sim.book.position, sim.desk.pending == map[]);
  }

  /** A program sees no bar dated or published after the moment it decides, and no revised bar. */
  lemma {:induction false} HistoryIsCausal(bars: seq<Bar>, cutoff: int, bar: Bar)
    ensures bar in CausalHistory(bars, cutoff)
       <==> bar in bars && bar.availableAt <= cutoff && bar.timestamp <= cutoff && !bar.revised
  {
    if |bars| > 0 {
      HistoryIsCausal(bars[..|bars| - 1], cutoff, bar);
      assert bars == bars[..|bars| - 1] + [bars[|bars| - 1]];
    }
  }
}
