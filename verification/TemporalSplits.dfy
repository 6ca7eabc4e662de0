/** Purged k-fold and combinatorial purged cross-validation: which observations may train against which tests. */
module TemporalSplits {
  import opened Prelude

  datatype Split = Split(train: seq<nat>, test: seq<nat>, embargo: seq<nat>)

  datatype SplitError = InvalidFolds | InvalidEvents | InvalidGroups

  // ---- Boundaries -----------------------------------------------------------------------------

  /** Where group `i` of `k` begins among `n` observations. */
  function Boundary(n: nat, k: nat, i: nat): nat
    requires k > 0
  {
    i * n / k
  }

  lemma QuotientBounds(a: nat, k: nat)
    requires k > 0
    ensures k * (a / k) <= a < k * (a / k) + k
  {}

  lemma CancelFactor(p: nat, q: nat, k: nat)
    requires k > 0 && k * p < k * q
    ensures p < q
  {}

  lemma QuotientGrows(a: nat, b: nat, k: nat)
    requires k > 0 && a <= b
    ensures a / k <= b / k
    ensures a + k <= b ==> a / k + 1 <= b / k
  {
    QuotientBounds(a, k);
    QuotientBounds(b, k);
    var p, q := a / k, b / k;
    assert k * (q + 1) == k * q + k && k * (p + 1) == k * p + k;
    CancelFactor(p, q + 1, k);
    if a + k <= b {
      CancelFactor(p + 1, q + 1, k);
    }
  }

  lemma BoundaryEnds(n: nat, k: nat)
    requires k > 0
    ensures Boundary(n, k, 0) == 0 && Boundary(n, k, k) == n
  {
    WholeQuotient(n, k);
    assert 0 * n == 0;
  }

  lemma BoundaryStep(n: nat, k: nat, i: nat, j: nat)
    requires k > 0 && i <= j
    ensures Boundary(n, k, i) <= Boundary(n, k, j)
    ensures i < j && k <= n ==> Boundary(n, k, i) < Boundary(n, k, j)
  {
    ProductGrows(i, j, n);
    QuotientGrows(i * n, j * n, k);
    if i < j {
      ProductGrows(i + 1, j, n);
      OneMoreTimes(i, n);
    }
  }

  lemma OneMoreTimes(i: nat, n: nat)
    ensures (i + 1) * n == i * n + n
  {}

  lemma BoundaryGrows(n: nat, k: nat, i: nat, j: nat)
    requires k > 0 && i <= j <= k
    ensures Boundary(n, k, i) <= Boundary(n, k, j) <= n && Boundary(n, k, 0) == 0 && Boundary(n, k, k) == n
    ensures i < j && k <= n ==> Boundary(n, k, i) < Boundary(n, k, j)
  {
    hide Boundary;
    BoundaryEnds(n, k);
    BoundaryStep(n, k, i, j);
    BoundaryStep(n, k, j, k);
  }

  lemma ProductGrows(i: nat, j: nat, n: nat)
    requires i <= j
    ensures i * n <= j * n
  {
    assert j * n - i * n == (j - i) * n;
  }

  lemma WholeQuotient(n: nat, k: nat)
    requires k > 0
    ensures k * n / k == n
  {
    QuotientBounds(k * n, k);
    var q := k * n / k;
    assert k * (q + 1) == k * q + k && k * (n + 1) == k * n + k;
    CancelFactor(n, q + 1, k);
    CancelFactor(q, n + 1, k);
  }

  /** The group that holds an observation. */
  ghost function GroupOf(n: nat, k: nat, x: nat, upTo: nat): nat
    requires k > 0
  {
    if upTo == 0 || Boundary(n, k, upTo) <= x then upTo else GroupOf(n, k, x, upTo - 1)
  }

  lemma {:induction false} GroupOfHolds(n: nat, k: nat, x: nat, upTo: nat)
    requires k > 0 && upTo < k && x < Boundary(n, k, upTo + 1)
    ensures var g := GroupOf(n, k, x, upTo);
      g <= upTo && Boundary(n, k, g) <= x < Boundary(n, k, g + 1)
  {
    BoundaryGrows(n, k, 0, k);
    hide Boundary;
    if upTo > 0 && x < Boundary(n, k, upTo) {
      GroupOfHolds(n, k, x, upTo - 1);
    }
  }

  /** The groups cut the observations into consecutive pieces: every observation is in exactly one. */
  lemma GroupsPartition(n: nat, k: nat, x: nat) returns (g: nat)
    requires k > 0 && x < n
    ensures g < k && Boundary(n, k, g) <= x < Boundary(n, k, g + 1)
    ensures forall h | 0 <= h < k && Boundary(n, k, h) <= x < Boundary(n, k, h + 1) :: h == g
  {
    hide Boundary;
    BoundaryGrows(n, k, 0, k);
    g := GroupOf(n, k, x, k - 1);
    GroupOfHolds(n, k, x, k - 1);
    forall h | 0 <= h < k && Boundary(n, k, h) <= x < Boundary(n, k, h + 1) ensures h == g {
      if h < g {
        BoundaryGrows(n, k, h + 1, g);
      } else if g < h {
        BoundaryGrows(n, k, g + 1, h);
      }
    }
  }

  // ---- Splits ---------------------------------------------------------------------------------

  /** The members of a set below `n`, in ascending order. */
  function Sorted(n: nat, members: set<nat>): seq<nat> {
    if n == 0 then [] else Sorted(n - 1, members) + if n - 1 in members then [n - 1] else []
  }

  lemma {:induction false} SortedHolds(n: nat, members: set<nat>, x: nat)
    ensures x in Sorted(n, members) <==> x < n && x in members
  {
    if n > 0 {
      SortedHolds(n - 1, members, x);
    }
  }

  function Window(start: int, stop: int): (window: set<nat>)
    ensures forall x: nat :: x in window <==> start <= x < stop
    decreases stop
  {
    if stop <= start || stop <= 0 then {} else Window(start, stop - 1) + {stop - 1}
  }

  function Least(a: int, b: int): int {
    if a <= b then a else b
  }

  /** The observations right after a test window that may not train. */
  function Embargoed(n: nat, stop: nat, embargo: int): set<nat> {
    Window(stop, Least(n, stop + embargo))
  }

  predicate FoldTrains(ends: seq<int>, start: nat, stop: nat, embargo: int, x: nat)
    requires x < |ends|
  {
    x !in Window(start, stop) + Embargoed(|ends|, stop, embargo) && !(x < stop && ends[x] >= start)
  }

  function FoldTrain(ends: seq<int>, start: nat, stop: nat, embargo: int, n: nat): seq<nat>
    requires n <= |ends|
  {
    if n == 0 then []
    else FoldTrain(ends, start, stop, embargo, n - 1) + if FoldTrains(ends, start, stop, embargo, n - 1) then [n - 1] else []
  }

  function FoldOf(ends: seq<int>, folds: nat, embargo: int, fold: nat): Split
    requires folds > 0
  {
    var n := |ends|;
    var start, stop := Boundary(n, folds, fold), Boundary(n, folds, fold + 1);
    Split(FoldTrain(ends, start, stop, embargo, n), Sorted(n, Window(start, stop)), Sorted(n, Embargoed(n, stop, embargo)))
  }

  function TestSet(n: nat, groups: nat, selected: seq<nat>): set<nat>
    requires groups > 0
  {
    if |selected| == 0 then {}
    else
      var g := selected[|selected| - 1];
      TestSet(n, groups, selected[..|selected| - 1]) + Window(Boundary(n, groups, g), Boundary(n, groups, g + 1))
  }

  function EmbargoSet(n: nat, groups: nat, embargo: int, selected: seq<nat>): set<nat>
    requires groups > 0
  {
    if |selected| == 0 then {}
    else
      var g := selected[|selected| - 1];
      EmbargoSet(n, groups, embargo, selected[..|selected| - 1]) + Embargoed(n, Boundary(n, groups, g + 1), embargo)
  }

  lemma {:induction false} TestSetHolds(n: nat, groups: nat, selected: seq<nat>, x: nat) returns (g: nat)
    requires groups > 0 && x in TestSet(n, groups, selected)
    ensures g in selected && Boundary(n, groups, g) <= x < Boundary(n, groups, g + 1)
  {
    hide Boundary;
    g := selected[|selected| - 1];
    if !(Boundary(n, groups, g) <= x < Boundary(n, groups, g + 1)) {
      g := TestSetHolds(n, groups, selected[..|selected| - 1], x);
    }
  }

  lemma {:induction false} GroupIsInSets(n: nat, groups: nat, embargo: int, selected: seq<nat>, g: nat)
    requires groups > 0 && g in selected
    ensures Window(Boundary(n, groups, g), Boundary(n, groups, g + 1)) <= TestSet(n, groups, selected)
    ensures Embargoed(n, Boundary(n, groups, g + 1), embargo) <= EmbargoSet(n, groups, embargo, selected)
  {
    hide Boundary, Window, Embargoed;
    if selected[|selected| - 1] != g {
      GroupIsInSets(n, groups, embargo, selected[..|selected| - 1], g);
    }
  }

  predicate SplitTrains(ends: seq<int>, test: set<nat>, embargoed: set<nat>, x: nat)
    requires x < |ends|
  {
    x !in test + embargoed && !(exists t | t in test :: x < t + 1 && ends[x] >= t)
  }

  function SplitTrain(ends: seq<int>, test: set<nat>, embargoed: set<nat>, n: nat): seq<nat>
    requires n <= |ends|
  {
    if n == 0 then []
    else SplitTrain(ends, test, embargoed, n - 1) + if SplitTrains(ends, test, embargoed, n - 1) then [n - 1] else []
  }

  function SplitOf(ends: seq<int>, groups: nat, embargo: int, selected: seq<nat>): Split
    requires groups > 0
  {
    var n := |ends|;
    var test, embargoed := TestSet(n, groups, selected), EmbargoSet(n, groups, embargo, selected);
    Split(SplitTrain(ends, test, embargoed, n), Sorted(n, test), Sorted(n, embargoed))
  }

  /** Every way to choose `k` of the groups `from..groups`, ascending, in lexicographic order. */
  function Combinations(from: nat, groups: nat, k: nat): seq<seq<nat>>
    decreases if from <= groups then groups - from else 0
  {
    if k == 0 then [[]]
    else if from >= groups then []
    else Prefixed(from, Combinations(from + 1, groups, k - 1)) + Combinations(from + 1, groups, k)
  }

  function Prefixed(g: nat, choices: seq<seq<nat>>): seq<seq<nat>> {
    seq(|choices|, i requires 0 <= i < |choices| => [g] + choices[i])
  }

  // ---- The two generators ---------------------------------------------------------------------

  predicate EventsValid(ends: seq<int>) {
    forall i | 0 <= i < |ends| :: i <= ends[i] < |ends|
  }

  method PurgedKfold(ends: seq<int>, folds: int, embargo: int) returns (r: Result<seq<Split>, SplitError>)
    ensures r.Failure? <==> folds < 2 || folds > |ends| || embargo < 0 || !EventsValid(ends)
    ensures r.Success? ==> |r.value| == folds && forall f | 0 <= f < folds :: r.value[f] == FoldOf(ends, folds, embargo, f)
  {
    hide Boundary, Sorted;
    var n := |ends|;
    if folds < 2 || folds > n || embargo < 0 { return Failure(InvalidFolds); }
    for i := 0 to n
      invariant forall k | 0 <= k < i :: k <= ends[k] < n
    {
      if ends[i] < i || ends[i] >= n { return Failure(InvalidEvents); }
    }
    var splits: seq<Split> := [];
    for fold := 0 to folds
      invariant |splits| == fold
      invariant forall f | 0 <= f < fold :: splits[f] == FoldOf(ends, folds, embargo, f)
    {
      var start, stop := Boundary(n, folds, fold), Boundary(n, folds, fold + 1);
      var train: seq<nat> := [];
      for index := 0 to n
        invariant train == FoldTrain(ends, start, stop, embargo, index)
      {
        if FoldTrains(ends, start, stop, embargo, index) { train := train + [index]; }
      }
      splits := splits + [Split(train, Sorted(n, Window(start, stop)), Sorted(n, Embargoed(n, stop, embargo)))];
    }
    return Success(splits);
  }

  method CpcvSplits(ends: seq<int>, groups: int, testGroups: int, embargo: int) returns (r: Result<seq<Split>, SplitError>)
    ensures r.Failure? <==> groups < 2 || !(1 <= testGroups < groups)
    ensures r.Success? ==> var chosen := Combinations(0, groups, testGroups);
      |r.value| == |chosen| && forall c | 0 <= c < |chosen| :: r.value[c] == SplitOf(ends, groups, embargo, chosen[c])
  {
    hide Boundary, Sorted, Combinations, TestSet, EmbargoSet, SplitTrains;
    if groups < 2 || !(1 <= testGroups < groups) { return Failure(InvalidGroups); }
    var n := |ends|;
    var chosen := Combinations(0, groups, testGroups);
    var splits: seq<Split> := [];
    for c := 0 to |chosen|
      invariant |splits| == c
      invariant forall k | 0 <= k < c :: splits[k] == SplitOf(ends, groups, embargo, chosen[k])
    {
      var test, embargoed := TestSet(n, groups, chosen[c]), EmbargoSet(n, groups, embargo, chosen[c]);
      var train: seq<nat> := [];
      for index := 0 to n
        invariant train == SplitTrain(ends, test, embargoed, index)
      {
        if SplitTrains(ends, test, embargoed, index) { train := train + [index]; }
      }
      splits := splits + [Split(train, Sorted(n, test), Sorted(n, embargoed))];
    }
    return Success(splits);
  }

  // ---- What a split contains ------------------------------------------------------------------

  /** The events of two observations share a moment. */
  ghost predicate Overlap(ends: seq<int>, x: nat, t: nat)
    requires x < |ends| && t < |ends|
  {
    x <= ends[t] && t <= ends[x]
  }

  lemma {:induction false} FoldTrainHolds(ends: seq<int>, start: nat, stop: nat, embargo: int, n: nat, x: nat)
    requires n <= |ends|
    ensures x in FoldTrain(ends, start, stop, embargo, n) <==> x < n && FoldTrains(ends, start, stop, embargo, x)
  {
    if n > 0 {
      FoldTrainHolds(ends, start, stop, embargo, n - 1, x);
      hide FoldTrains;
    }
  }

  lemma {:induction false} SplitTrainHolds(ends: seq<int>, test: set<nat>, embargoed: set<nat>, n: nat, x: nat)
    requires n <= |ends|
    ensures x in SplitTrain(ends, test, embargoed, n) <==> x < n && SplitTrains(ends, test, embargoed, x)
  {
    if n > 0 {
      SplitTrainHolds(ends, test, embargoed, n - 1, x);
      hide SplitTrains;
    }
  }

  ghost predicate KfoldValid(ends: seq<int>, folds: nat, embargo: int) {
    2 <= folds <= |ends| && embargo >= 0 && EventsValid(ends)
  }

  /** Every observation is tested by exactly one fold. */
  lemma FoldsPartitionTheTape(ends: seq<int>, folds: nat, embargo: int, x: nat) returns (fold: nat)
    requires KfoldValid(ends, folds, embargo) && x < |ends|
    ensures fold < folds && x in FoldOf(ends, folds, embargo, fold).test
    ensures forall f | 0 <= f < folds && x in FoldOf(ends, folds, embargo, f).test :: f == fold
  {
    hide Boundary, FoldTrain;
    var n := |ends|;
    fold := GroupsPartition(n, folds, x);
    forall f | 0 <= f < folds
      ensures x in FoldOf(ends, folds, embargo, f).test <==> Boundary(n, folds, f) <= x < Boundary(n, folds, f + 1)
    {
      SortedHolds(n, Window(Boundary(n, folds, f), Boundary(n, folds, f + 1)), x);
    }
  }

  predicate Covers(ends: seq<int>, x: nat, moment: int)
    requires x < |ends|
  {
    x <= moment <= ends[x]
  }

  /** A fold trains on exactly the observations outside its embargo whose events miss its test window. */
  lemma FoldTrainsExactly(ends: seq<int>, folds: nat, embargo: int, fold: nat, x: nat)
    requires KfoldValid(ends, folds, embargo) && fold < folds
    ensures var start, stop := Boundary(|ends|, folds, fold), Boundary(|ends|, folds, fold + 1);
      (x in FoldOf(ends, folds, embargo, fold).train)
      == (x < |ends| && !(stop <= x < stop + embargo) && !(exists m :: Covers(ends, x, m) && start <= m < stop))
  {
    var n := |ends|;
    var start, stop := Boundary(n, folds, fold), Boundary(n, folds, fold + 1);
    FoldTrainHolds(ends, start, stop, embargo, n, x);
    BoundaryGrows(n, folds, fold, fold + 1);
    hide Boundary, Sorted, FoldTrain;
    if x < n {
      if x < start {
        assert ends[x] >= start ==> Covers(ends, x, start);
      } else {
        assert Covers(ends, x, x);
      }
    }
  }

  /** A combinatorial split trains on exactly the observations outside every embargo whose events cover no moment of
      any selected group. */
  lemma SplitTrainsExactly(ends: seq<int>, groups: nat, embargo: int, selected: seq<nat>, x: nat)
    requires groups > 0
    ensures var n := |ends|;
      (x in SplitOf(ends, groups, embargo, selected).train)
      == (x < n && x !in EmbargoSet(n, groups, embargo, selected) && x !in TestSet(n, groups, selected)
          && !(exists m, g :: Covers(ends, x, m) && g in selected
                 && Boundary(n, groups, g) <= m < Boundary(n, groups, g + 1)))
  {
    var n := |ends|;
    var test, embargoed := TestSet(n, groups, selected), EmbargoSet(n, groups, embargo, selected);
    SplitTrainHolds(ends, test, embargoed, n, x);
    hide Boundary, Sorted, SplitTrain, TestSet, EmbargoSet;
    if x < n {
      if m, g :| Covers(ends, x, m) && g in selected && Boundary(n, groups, g) <= m < Boundary(n, groups, g + 1) {
        GroupIsInSets(n, groups, embargo, selected, g);
        var t: nat := m;
        assert t in test && x < t + 1 && ends[x] >= t;
      }
      if t: nat :| t in test && Covers(ends, x, t) {
        var g := TestSetHolds(n, groups, selected, t);
      }
    }
  }

  /** No event a fold trains on shares a moment with an event it tests on. */
  ghost predicate LeakFree(ends: seq<int>, split: Split) {
    forall x, t | x in split.train && t in split.test && x < |ends| && t < |ends| :: !Overlap(ends, x, t)
  }

  /** Exactly when a fold leaks nothing: its embargo reaches the end of the tape or outlasts every test event. */
  lemma FoldLeaksNothingExactly(ends: seq<int>, folds: nat, embargo: int, fold: nat)
    requires KfoldValid(ends, folds, embargo) && fold < folds
    ensures var start, stop := Boundary(|ends|, folds, fold), Boundary(|ends|, folds, fold + 1);
      LeakFree(ends, FoldOf(ends, folds, embargo, fold))
      == (stop + embargo >= |ends| || forall t | start <= t < stop && t < |ends| :: ends[t] < stop + embargo)
  {
    var n := |ends|;
    var start, stop := Boundary(n, folds, fold), Boundary(n, folds, fold + 1);
    BoundaryGrows(n, folds, fold, fold + 1);
    BoundaryGrows(n, folds, fold + 1, folds);
    var split := FoldOf(ends, folds, embargo, fold);
    forall x: nat ensures x in split.train <==> x < n && FoldTrains(ends, start, stop, embargo, x) {
      FoldTrainHolds(ends, start, stop, embargo, n, x);
    }
    forall x: nat ensures x in split.test <==> start <= x < stop {
      SortedHolds(n, Window(start, stop), x);
    }
    hide Boundary, Sorted, FoldTrain, FoldOf;
    if stop + embargo < n {
      var first: nat := stop + embargo;
      assert first in split.train;
      if t: nat :| start <= t < stop && t < n && ends[t] >= first {
        assert t in split.test && Overlap(ends, first, t);
      }
    }
  }

  /** A later observation whose event and the test event reach each other. */
  predicate Reached(ends: seq<int>, t: nat, x: nat)
    requires t < |ends| && x < |ends|
  {
    t < x <= ends[t] && t <= ends[x]
  }

  /** Kept out of training: tested, embargoed, or with an event running into a later test moment. */
  predicate KeptOut(ends: seq<int>, test: set<nat>, embargoed: set<nat>, x: nat)
    requires x < |ends|
  {
    x in test || x in embargoed || exists later | later in test :: x < later <= ends[x]
  }

  lemma TrainsUnlessKeptOut(ends: seq<int>, test: set<nat>, embargoed: set<nat>, x: nat)
    requires x < |ends|
    ensures SplitTrains(ends, test, embargoed, x) ==> !KeptOut(ends, test, embargoed, x)
    ensures !KeptOut(ends, test, embargoed, x) ==>
              SplitTrains(ends, test, embargoed, x) && forall t | t in test && t < |ends| && Overlap(ends, x, t) :: t < x
  {}

  /** Exactly when a combinatorial split leaks nothing: every observation a test event reaches, and whose own event
      reaches back to it, is itself tested, embargoed, or has an event running into a later test moment. */
  lemma SplitLeaksNothingExactly(ends: seq<int>, groups: nat, embargo: int, selected: seq<nat>)
    requires groups > 0
    ensures var n := |ends|;
      var test, embargoed := TestSet(n, groups, selected), EmbargoSet(n, groups, embargo, selected);
      LeakFree(ends, SplitOf(ends, groups, embargo, selected))
      == forall t, x: nat | t in test && t < n && x < n && Reached(ends, t, x) :: KeptOut(ends, test, embargoed, x)
  {
    var n := |ends|;
    var test, embargoed := TestSet(n, groups, selected), EmbargoSet(n, groups, embargo, selected);
    var split := SplitOf(ends, groups, embargo, selected);
    forall x: nat ensures x in split.train <==> x < n && SplitTrains(ends, test, embargoed, x) {
      SplitTrainHolds(ends, test, embargoed, n, x);
    }
    forall x: nat ensures x in split.test <==> x < n && x in test {
      SortedHolds(n, test, x);
    }
    hide SplitOf, TestSet, EmbargoSet, Boundary, SplitTrains, KeptOut;
    forall x: nat | x < n
      ensures x in split.train <==> !KeptOut(ends, test, embargoed, x)
      ensures x in split.train ==> forall t | t in test && t < n && Overlap(ends, x, t) :: t < x
    {
      TrainsUnlessKeptOut(ends, test, embargoed, x);
    }
    if LeakFree(ends, split) {
      forall t, x: nat | t in test && t < n && x < n && Reached(ends, t, x) ensures KeptOut(ends, test, embargoed, x) {
        assert Overlap(ends, x, t) && t in split.test;
      }
    } else {
      var x, t :| x in split.train && t in split.test && x < n && t < n && Overlap(ends, x, t);
      assert Reached(ends, t, x);
    }
  }

  /** When no event is longer than the embargo, no fold leaks. */
  lemma EmbargoStopsLeaks(ends: seq<int>, folds: nat, embargo: int, fold: nat)
    requires KfoldValid(ends, folds, embargo) && fold < folds
    requires forall i | 0 <= i < |ends| :: ends[i] - i <= embargo
    ensures LeakFree(ends, FoldOf(ends, folds, embargo, fold))
  {
    hide Boundary, FoldOf;
    FoldLeaksNothingExactly(ends, folds, embargo, fold);
  }

  /** The same for any choice of test groups, adjacent or apart. */
  lemma EmbargoStopsLeaksAcrossGroups(ends: seq<int>, groups: nat, embargo: int, selected: seq<nat>)
    requires groups > 0 && embargo >= 0 && EventsValid(ends) && forall g | g in selected :: g < groups
    requires forall i | 0 <= i < |ends| :: ends[i] - i <= embargo
    ensures LeakFree(ends, SplitOf(ends, groups, embargo, selected))
  {
    var n := |ends|;
    var test, embargoed := TestSet(n, groups, selected), EmbargoSet(n, groups, embargo, selected);
    var split := SplitOf(ends, groups, embargo, selected);
    forall x, t | x in split.train && t in split.test && x < n && t < n ensures !Overlap(ends, x, t) {
      SplitTrainHolds(ends, test, embargoed, n, x);
      SortedHolds(n, test, t);
      TrainMissesTest(ends, groups, embargo, selected, x, t);
    }
  }

  lemma TrainMissesTest(ends: seq<int>, groups: nat, embargo: int, selected: seq<nat>, x: nat, t: nat)
    requires groups > 0 && embargo >= 0 && EventsValid(ends) && x < |ends| && t < |ends| && ends[t] - t <= embargo
    requires t in TestSet(|ends|, groups, selected)
    requires SplitTrains(ends, TestSet(|ends|, groups, selected), EmbargoSet(|ends|, groups, embargo, selected), x)
    ensures !Overlap(ends, x, t)
  {
    hide Boundary, TestSet, EmbargoSet;
    if t < x {
      var g := TestSetHolds(|ends|, groups, selected, t);
      GroupIsInSets(|ends|, groups, embargo, selected, g);
      var stop := Boundary(|ends|, groups, g + 1);
      assert x !in Window(Boundary(|ends|, groups, g), stop) && x !in Embargoed(|ends|, stop, embargo);
    }
  }

  // ---- The two generators agree ---------------------------------------------------------------

  lemma {:induction false} SameTrains(
    ends: seq<int>, start: nat, stop: nat, embargo: int, test: set<nat>, embargoed: set<nat>, n: nat)
    requires n <= |ends| && start < stop && EventsValid(ends)
    requires test == Window(start, stop) && embargoed == Embargoed(|ends|, stop, embargo)
    ensures SplitTrain(ends, test, embargoed, n) == FoldTrain(ends, start, stop, embargo, n)
  {
    if n > 0 {
      SameTrains(ends, start, stop, embargo, test, embargoed, n - 1);
      var x := n - 1;
      if x < stop && ends[x] >= start && x !in test {
        assert start in test && x < start + 1 && ends[x] >= start;
      }
    }
  }

  lemma OneGroup(n: nat, groups: nat, embargo: int, g: nat)
    requires groups > 0
    ensures TestSet(n, groups, [g]) == Window(Boundary(n, groups, g), Boundary(n, groups, g + 1))
    ensures EmbargoSet(n, groups, embargo, [g]) == Embargoed(n, Boundary(n, groups, g + 1), embargo)
  {
    hide Boundary;
    assert [g][..0] == [];
  }

  lemma {:induction false} Singletons(from: nat, groups: nat)
    requires from <= groups
    ensures |Combinations(from, groups, 1)| == groups - from
    ensures forall c | 0 <= c < groups - from :: Combinations(from, groups, 1)[c] == [from + c]
    decreases groups - from
  {
    if from < groups {
      Singletons(from + 1, groups);
      assert Combinations(from + 1, groups, 0) == [[]];
      var none: seq<seq<nat>> := [[]];
      assert |Prefixed(from, none)| == 1 && Prefixed(from, none)[0] == [from] + none[0] == [from];
    }
  }

  /** Combinatorial splits with a single test group are the purged folds, split for split. */
  lemma OneTestGroupIsKfold(ends: seq<int>, groups: nat, embargo: int, c: nat)
    requires KfoldValid(ends, groups, embargo) && c < groups
    ensures c < |Combinations(0, groups, 1)| == groups
    ensures SplitOf(ends, groups, embargo, Combinations(0, groups, 1)[c]) == FoldOf(ends, groups, embargo, c)
  {
    Singletons(0, groups);
    hide Boundary, Sorted, TestSet, EmbargoSet, Combinations;
    OneGroup(|ends|, groups, embargo, c);
    BoundaryGrows(|ends|, groups, c, c + 1);
    SameTrains(ends, Boundary(|ends|, groups, c), Boundary(|ends|, groups, c + 1), embargo,
      TestSet(|ends|, groups, [c]), EmbargoSet(|ends|, groups, embargo, [c]), |ends|);
  }

  // ---- Every group is tested equally often ----------------------------------------------------

  function Choose(n: nat, k: nat): nat {
    if k == 0 then 1 else if n == 0 then 0 else Choose(n - 1, k - 1) + Choose(n - 1, k)
  }

  function Holding(choices: seq<seq<nat>>, g: nat): nat {
    if |choices| == 0 then 0 else Holding(choices[..|choices| - 1], g) + if g in choices[|choices| - 1] then 1 else 0
  }

  lemma {:induction false} HoldingAppend(a: seq<seq<nat>>, b: seq<seq<nat>>, g: nat)
    ensures Holding(a + b, g) == Holding(a, g) + Holding(b, g)
  {
    if |b| == 0 {
      assert a + b == a;
    } else {
      assert (a + b)[..|a + b| - 1] == a + b[..|b| - 1];
      HoldingAppend(a, b[..|b| - 1], g);
    }
  }

  lemma {:induction false} HoldingPrefixed(p: nat, choices: seq<seq<nat>>, g: nat)
    ensures Holding(Prefixed(p, choices), g) == if p == g then |choices| else Holding(choices, g)
  {
    if |choices| > 0 {
      var front := choices[..|choices| - 1];
      assert Prefixed(p, choices)[..|choices| - 1] == Prefixed(p, front);
      HoldingPrefixed(p, front, g);
    }
  }

  lemma HoldingSplits(from: nat, groups: nat, k: nat, g: nat)
    requires from < groups && k > 0
    ensures Holding(Combinations(from, groups, k), g)
         == (if from == g then |Combinations(from + 1, groups, k - 1)| else Holding(Combinations(from + 1, groups, k - 1), g))
            + Holding(Combinations(from + 1, groups, k), g)
  {
    var within, without := Combinations(from + 1, groups, k - 1), Combinations(from + 1, groups, k);
    HoldingPrefixed(from, within, g);
    HoldingAppend(Prefixed(from, within), without, g);
  }

  lemma NothingHeld(g: nat)
    ensures Holding([[]], g) == 0
  {
    var one: seq<seq<nat>> := [[]];
    assert one[..0] == [];
  }

  lemma NothingToChoose(from: nat, groups: nat, k: nat, g: nat)
    requires k == 0 || from >= groups
    ensures Holding(Combinations(from, groups, k), g) == 0
  {
    if k == 0 {
      NothingHeld(g);
    }
  }

  lemma {:induction false} NoneBelow(from: nat, groups: nat, k: nat, g: nat)
    requires g < from
    ensures Holding(Combinations(from, groups, k), g) == 0
    decreases if from <= groups then groups - from else 0
  {
    hide Holding, Combinations, Prefixed;
    if k == 0 || from >= groups {
      NothingToChoose(from, groups, k, g);
    } else {
      NoneBelow(from + 1, groups, k - 1, g);
      NoneBelow(from + 1, groups, k, g);
      HoldingSplits(from, groups, k, g);
    }
  }

  lemma {:induction false} CountCombinations(from: nat, groups: nat, k: nat)
    requires from <= groups
    ensures |Combinations(from, groups, k)| == Choose(groups - from, k)
    decreases groups - from
  {
    if k > 0 && from < groups {
      CountCombinations(from + 1, groups, k - 1);
      CountCombinations(from + 1, groups, k);
    }
  }

  lemma PascalTop(n: nat, k: nat)
    requires n > 0 && k > 0
    ensures Choose(n, k) == Choose(n - 1, k - 1) + Choose(n - 1, k)
  {}

  /** There are as many splits as choices of test groups, and each group is tested in the same number of them:
      the choices of the remaining test groups from the remaining groups. */
  lemma {:induction false} GroupsAreTestedEqually(from: nat, groups: nat, k: nat, g: nat)
    requires from <= g < groups && k > 0
    ensures |Combinations(from, groups, k)| == Choose(groups - from, k)
    ensures Holding(Combinations(from, groups, k), g) == Choose(groups - from - 1, k - 1)
    decreases groups - from
  {
    hide Holding, Choose;
    CountCombinations(from, groups, k);
    HoldingSplits(from, groups, k, g);
    if g == from {
      CountCombinations(from + 1, groups, k - 1);
      NoneBelow(from + 1, groups, k, g);
    } else {
      GroupsAreTestedEqually(from + 1, groups, k, g);
      if k == 1 {
        assert Combinations(from + 1, groups, 0) == [[]];
        NothingHeld(g);
        NoChoiceLeft(groups - from - 1, groups - from - 2);
      } else {
        GroupsAreTestedEqually(from + 1, groups, k - 1, g);
        PascalTop(groups - from - 1, k - 1);
      }
    }
  }

  lemma NoChoiceLeft(a: nat, b: nat)
    ensures Choose(a, 0) == Choose(b, 0) == 1
  {}
}
