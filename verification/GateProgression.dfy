/** The fourteen-gate evaluation: how one gate is decided, and what a candidate's state says about its past. */
module GateProgression {
  import opened Prelude

  const GATES := 14

  const EvidenceClasses: seq<string> := [
    "research_contract", "duplicate_screen", "data_integrity", "feasibility", "cheap_economics", "backtest",
    "execution_economics", "out_of_sample", "statistics", "robustness", "independent_reproduction", "sealed_verdict",
    "forward_paper", "portfolio_risk"]

  const RequiredChecks: seq<seq<string>> := [
    ["measurable_objective", "data_evaluator_defined", "permitted_conduct", "lineage_present"],
    ["not_duplicate", "family_history_checked", "cooldown_clear", "no_known_invalidity"],
    ["point_in_time", "fresh_complete_data", "universe_survivorship", "no_label_leakage"],
    ["falsifiable_prediction", "empirical_or_mechanism_basis", "constraints_defined"],
    ["sample_available", "cost_bounds", "capacity_feasible", "benchmark_compared"],
    ["deterministic_replay", "complete_order_ledger", "dual_accounting", "all_costs_explicit"],
    ["historical_fees", "funding_borrow_known", "fill_fidelity", "capacity_stress", "latency_constraints"],
    ["predeclared_split", "no_tuning_leakage", "purge_embargo", "trial_history_complete"],
    ["method_applicable", "ledger_multiplicity", "dependence_accounted", "uncertainty_reported"],
    ["parameter_neighborhood", "cost_timing_perturbations", "universe_sensitivity", "no_slice_tuning"],
    ["independent_reproduction", "blind_reviews", "objections_resolved", "ablation_or_attribution"],
    ["sealed_isolation", "exposure_recorded", "query_budget_valid", "verdict_pass"],
    ["chronological_forward", "opportunity_count", "tca_reconciled", "operational_reliability", "cost_model_independence"],
    ["synchronized_portfolio", "portfolio_multiplicity", "tail_reverse_stress", "liquidity_capacity",
     "simple_challenger", "later_confirmation"]]

  datatype MetricStatus = Value | Undefined | InsufficientData | NumericError | NotApplicable

  datatype MetricRule = MetricRule(
    id: string, version: string, unit: string, lower: Option<real>, upper: Option<real>, tolerance: real)

  datatype MetricValue = MetricValue(
    id: string, version: string, unit: string, status: MetricStatus, value: Option<real>, reason: string)

  datatype EvidenceRole = Synthetic | Sealed | Forward | OtherRole

  /** One piece of evidence as the evaluator finds it. */
  datatype Evidence = Evidence(
    known: bool, trusted: bool, verified: bool, kind: string, role: EvidenceRole, producer: string, snapshot: string,
    availableAt: int, checks: set<string>, hardInvalidity: bool, unknowns: bool, opportunities: int,
    metrics: seq<MetricValue>)

  datatype Snapshot = Snapshot(
    artifact: string, rules: map<nat, seq<MetricRule>>, minimumForward: int, forwardAt: int)

  datatype GateInput = GateInput(
    strategy: string, snapshot: string, gate: nat, expectedVersion: nat, evidence: seq<Evidence>,
    metrics: seq<MetricValue>)

  datatype Decision = Pass | Borderline | Fail | Blocked

  datatype Reason =
    | EvidenceValid | CheckMissing | HardInvalidity | MaterialUnknowns | SyntheticCeiling | SelfCertified
    | SealedProtocolRequired | ForwardHorizonIncomplete | MetricsNotBound | MetricUndefined | MetricMismatch
    | CriterionFailed | ThresholdUncertain

  datatype Verdict = Verdict(decision: Decision, reason: Reason)

  // ---- One rule -------------------------------------------------------------------------------

  /** The last metric of that id, as a dictionary keeps it. */
  function Lookup(metrics: seq<MetricValue>, id: string): Option<MetricValue> {
    if |metrics| == 0 then None
    else if metrics[|metrics| - 1].id == id then Some(metrics[|metrics| - 1])
    else Lookup(metrics[..|metrics| - 1], id)
  }

  predicate Defined(metrics: seq<MetricValue>, r: MetricRule) {
    var m := Lookup(metrics, r.id);
    m.Some? && m.value.status.Value? && m.value.value.Some?
  }

  predicate Matches(metrics: seq<MetricValue>, r: MetricRule)
    requires Defined(metrics, r)
  {
    Lookup(metrics, r.id).value.version == r.version && Lookup(metrics, r.id).value.unit == r.unit
  }

  function Measured(metrics: seq<MetricValue>, r: MetricRule): real
    requires Defined(metrics, r)
  {
    Lookup(metrics, r.id).value.value.value
  }

  predicate OutOfBand(value: real, r: MetricRule) {
    (r.lower.Some? && value < r.lower.value) || (r.upper.Some? && value > r.upper.value)
  }

  predicate NearThreshold(value: real, r: MetricRule) {
    || (r.lower.Some? && Abs(value - r.lower.value) <= r.tolerance)
    || (r.upper.Some? && Abs(value - r.upper.value) <= r.tolerance)
  }

  /** One pass of the rule loop; `true` when the loop stops there. */
  function ApplyRule(v: Verdict, metrics: seq<MetricValue>, r: MetricRule): (Verdict, bool) {
    if v.decision.Fail? then (v, true)
    else if !Defined(metrics, r) then (Verdict(Blocked, MetricUndefined), true)
    else if !Matches(metrics, r) then (Verdict(Blocked, MetricMismatch), true)
    else
      var value := Measured(metrics, r);
      var v1 := if v.decision.Pass? && OutOfBand(value, r) then Verdict(Fail, CriterionFailed) else v;
      (if v1.decision.Pass? && NearThreshold(value, r) then Verdict(Borderline, ThresholdUncertain) else v1, false)
  }

  function ApplyRules(v: Verdict, metrics: seq<MetricValue>, rules: seq<MetricRule>): Verdict
    decreases |rules|
  {
    if |rules| == 0 then v
    else
      var (next, stop) := ApplyRule(v, metrics, rules[0]);
      if stop then next else ApplyRules(next, metrics, rules[1..])
  }

  // ---- The decision cascade -------------------------------------------------------------------

  predicate IsReport(e: Evidence, gate: nat)
    requires gate < GATES
  {
    e.kind == EvidenceClasses[gate]
  }

  predicate Checked(evidence: seq<Evidence>, gate: nat, check: string)
    requires gate < GATES
  {
    exists e | e in evidence :: IsReport(e, gate) && check in e.checks
  }

  predicate AllChecked(evidence: seq<Evidence>, gate: nat)
    requires gate < GATES
  {
    forall check | check in RequiredChecks[gate] :: Checked(evidence, gate, check)
  }

  function ReportedMetrics(evidence: seq<Evidence>, gate: nat): seq<MetricValue>
    requires gate < GATES
  {
    if |evidence| == 0 then []
    else ReportedMetrics(evidence[..|evidence| - 1], gate)
         + if IsReport(evidence[|evidence| - 1], gate) then evidence[|evidence| - 1].metrics else []
  }

  predicate Repeated(metrics: seq<MetricValue>) {
    exists i, j | 0 <= i < j < |metrics| :: metrics[i].id == metrics[j].id
  }

  /** No metric twice, and each exactly as the gate's own evidence reports it. */
  predicate Bound(request: GateInput)
    requires request.gate < GATES
  {
    && !Repeated(request.metrics)
    && forall m | m in request.metrics :: Lookup(ReportedMetrics(request.evidence, request.gate), m.id) == Some(m)
  }

  predicate ForwardReady(s: Snapshot, evidence: seq<Evidence>, now: int) {
    && s.forwardAt <= now && (exists e | e in evidence :: e.opportunities >= s.minimumForward)
    && (exists e | e in evidence :: e.role.Forward?)
  }

  function Cascade(s: Snapshot, request: GateInput, creator: string, now: int): Verdict
    requires request.gate < GATES
  {
    var gate, evidence := request.gate, request.evidence;
    var v0 := if AllChecked(evidence, gate) then Verdict(Pass, EvidenceValid) else Verdict(Blocked, CheckMissing);
    var v1 :=
      if exists e | e in evidence :: e.hardInvalidity then Verdict(Fail, HardInvalidity)
      else if exists e | e in evidence :: e.unknowns then Verdict(Blocked, MaterialUnknowns)
      else if gate >= 7 && forall e | e in evidence :: e.role.Synthetic? then Verdict(Blocked, SyntheticCeiling)
      else v0;
    var v2 := if gate >= 10 && exists e | e in evidence :: e.producer == creator then Verdict(Blocked, SelfCertified) else v1;
    var v3 :=
      if gate == 11 && !exists e | e in evidence :: e.kind == "sealed_verdict" && e.role.Sealed? then
        Verdict(Blocked, SealedProtocolRequired)
      else v2;
    var v4 := if gate == 12 && !ForwardReady(s, evidence, now) then Verdict(Blocked, ForwardHorizonIncomplete) else v3;
    if !v4.decision.Fail? && !Bound(request) then Verdict(Blocked, MetricsNotBound) else v4
  }

  function RulesOf(s: Snapshot, gate: nat): seq<MetricRule> {
    if gate in s.rules then s.rules[gate] else []
  }

  function Decide(s: Snapshot, request: GateInput, creator: string, now: int): Verdict
    requires request.gate < GATES
  {
    ApplyRules(Cascade(s, request, creator, now), request.metrics, RulesOf(s, request.gate))
  }

  // ---- What a pass means ----------------------------------------------------------------------

  /** The metric is defined, under contract, and clear of both thresholds by more than the tolerance. */
  predicate ClearOf(metrics: seq<MetricValue>, r: MetricRule) {
    && Defined(metrics, r) && Matches(metrics, r)
    && (r.lower.Some? ==> Measured(metrics, r) > r.lower.value + r.tolerance)
    && (r.upper.Some? ==> Measured(metrics, r) < r.upper.value - r.tolerance)
  }

  lemma RuleKeepsPassExactly(v: Verdict, metrics: seq<MetricValue>, r: MetricRule)
    requires r.tolerance >= 0.0
    ensures ApplyRule(v, metrics, r).0.decision.Pass? <==> v.decision.Pass? && ClearOf(metrics, r)
    ensures ApplyRule(v, metrics, r).0.decision.Pass? ==> ApplyRule(v, metrics, r) == (v, false)
  {}

  lemma {:induction false} RulesPassExactly(v: Verdict, metrics: seq<MetricValue>, rules: seq<MetricRule>)
    requires forall r | r in rules :: r.tolerance >= 0.0
    ensures ApplyRules(v, metrics, rules).decision.Pass? <==>
              v.decision.Pass? && forall r | r in rules :: ClearOf(metrics, r)
    decreases |rules|
  {
    if |rules| > 0 {
      hide ClearOf, ApplyRule;
      var r := rules[0];
      assert r in rules;
      RuleKeepsPassExactly(v, metrics, r);
      var (next, stop) := ApplyRule(v, metrics, r);
      RulesPassExactly(next, metrics, rules[1..]);
      assert rules == [r] + rules[1..];
      if !next.decision.Pass? {
        NeverPassesAgain(next, metrics, rules[1..]);
      }
    }
  }

  lemma {:induction false} NeverPassesAgain(v: Verdict, metrics: seq<MetricValue>, rules: seq<MetricRule>)
    requires !v.decision.Pass?
    ensures !ApplyRules(v, metrics, rules).decision.Pass?
    decreases |rules|
  {
    if |rules| > 0 {
      NeverPassesAgain(ApplyRule(v, metrics, rules[0]).0, metrics, rules[1..]);
    }
  }

  /** Everything the cascade asks of the evidence. */
  predicate EvidenceStands(s: Snapshot, request: GateInput, creator: string, now: int)
    requires request.gate < GATES
  {
    var gate, evidence := request.gate, request.evidence;
    && AllChecked(evidence, gate)
    && (forall e | e in evidence :: !e.hardInvalidity && !e.unknowns)
    && (gate >= 7 ==> exists e | e in evidence :: !e.role.Synthetic?)
    && (gate >= 10 ==> forall e | e in evidence :: e.producer != creator)
    && (gate == 11 ==> exists e | e in evidence :: e.kind == "sealed_verdict" && e.role.Sealed?)
    && (gate == 12 ==> ForwardReady(s, evidence, now))
    && Bound(request)
  }

  /** A gate passes exactly when all its evidence stands and every rule's metric is clear of its thresholds. */
  lemma PassesExactly(s: Snapshot, request: GateInput, creator: string, now: int)
    requires request.gate < GATES && forall r | r in RulesOf(s, request.gate) :: r.tolerance >= 0.0
    ensures Decide(s, request, creator, now).decision.Pass? <==>
              && EvidenceStands(s, request, creator, now)
              && forall r | r in RulesOf(s, request.gate) :: ClearOf(request.metrics, r)
  {
    hide AllChecked, ForwardReady, Bound, ClearOf, ApplyRules;
    RulesPassExactly(Cascade(s, request, creator, now), request.metrics, RulesOf(s, request.gate));
  }

  /** So the order the rules are listed in cannot turn a pass into anything else, or anything else into a pass. */
  lemma PassIgnoresRuleOrder(
    s: Snapshot, shuffled: Snapshot, request: GateInput, creator: string, now: int)
    requires request.gate < GATES && (forall r | r in RulesOf(s, request.gate) :: r.tolerance >= 0.0)
    requires shuffled == s.(rules := shuffled.rules)
    requires multiset(RulesOf(shuffled, request.gate)) == multiset(RulesOf(s, request.gate))
    ensures Decide(s, request, creator, now).decision.Pass? <==> Decide(shuffled, request, creator, now).decision.Pass?
  {
    forall r ensures r in RulesOf(s, request.gate) <==> r in RulesOf(shuffled, request.gate) {
      assert r in RulesOf(s, request.gate) <==> r in multiset(RulesOf(s, request.gate));
      assert r in RulesOf(shuffled, request.gate) <==> r in multiset(RulesOf(shuffled, request.gate));
    }
    hide Decide, ClearOf, AllChecked, Bound, RulesOf;
    PassesExactly(s, request, creator, now);
    PassesExactly(shuffled, request, creator, now);
  }

  /** The rule's metric is defined and under contract, and out of band. */
  predicate Breaks(metrics: seq<MetricValue>, r: MetricRule) {
    Defined(metrics, r) && Matches(metrics, r) && OutOfBand(Measured(metrics, r), r)
  }

  /** The metric of rule `i` is out of band and every rule before it is clear. */
  ghost predicate FailsAt(metrics: seq<MetricValue>, rules: seq<MetricRule>, i: int)
    requires 0 <= i < |rules|
  {
    && Breaks(metrics, rules[i])
    && forall j | 0 <= j < i :: ClearOf(metrics, rules[j])
  }

  /** From a pass, the rules fail the gate exactly when some rule's metric is out of band and every rule before it was
      clear: an earlier borderline or undefined metric shields a later failure. */
  lemma {:induction false} RulesFailExactly(v: Verdict, metrics: seq<MetricValue>, rules: seq<MetricRule>)
    requires v.decision.Pass? && forall r | r in rules :: r.tolerance >= 0.0
    ensures ApplyRules(v, metrics, rules).decision.Fail? <==> exists i | 0 <= i < |rules| :: FailsAt(metrics, rules, i)
    decreases |rules|
  {
    if |rules| > 0 {
      var r := rules[0];
      assert r in rules;
      RuleKeepsPassExactly(v, metrics, r);
      var (next, stop) := ApplyRule(v, metrics, r);
      if next.decision.Pass? {
        RulesFailExactly(next, metrics, rules[1..]);
        ShiftedFailure(metrics, rules);
      } else if next.decision.Fail? {
        FailStays(next, metrics, rules[1..]);
        assert FailsAt(metrics, rules, 0);
      } else {
        NeverFailsLater(next, metrics, rules[1..]);
        assert !ClearOf(metrics, rules[0]);
      }
    }
  }

  lemma ShiftedFailure(metrics: seq<MetricValue>, rules: seq<MetricRule>)
    requires |rules| > 0 && ClearOf(metrics, rules[0]) && rules[0].tolerance >= 0.0
    ensures (exists i | 0 <= i < |rules[1..]| :: FailsAt(metrics, rules[1..], i))
       <==> (exists i | 0 <= i < |rules| :: FailsAt(metrics, rules, i))
  {
    if i :| 0 <= i < |rules[1..]| && FailsAt(metrics, rules[1..], i) {
      forall j | 0 <= j < i + 1 ensures ClearOf(metrics, rules[j]) {
        if j > 0 {
          assert rules[1..][j - 1] == rules[j];
        }
      }
      assert FailsAt(metrics, rules, i + 1);
    }
    if i :| 0 <= i < |rules| && FailsAt(metrics, rules, i) {
      assert i > 0;
      forall j | 0 <= j < i - 1 ensures ClearOf(metrics, rules[1..][j]) {
        assert rules[1..][j] == rules[j + 1];
      }
      assert FailsAt(metrics, rules[1..], i - 1);
    }
  }

  lemma {:induction false} FailStays(v: Verdict, metrics: seq<MetricValue>, rules: seq<MetricRule>)
    requires v.decision.Fail?
    ensures ApplyRules(v, metrics, rules) == v
  {}

  lemma {:induction false} NeverFailsLater(v: Verdict, metrics: seq<MetricValue>, rules: seq<MetricRule>)
    requires v.decision.Borderline? || v.decision.Blocked?
    ensures !ApplyRules(v, metrics, rules).decision.Fail?
    decreases |rules|
  {
    if |rules| > 0 {
      NeverFailsLater(ApplyRule(v, metrics, rules[0]).0, metrics, rules[1..]);
    }
  }

  /** The rule stops short of a pass without failing: undefined, off contract, or near its threshold. */
  predicate Clouds(metrics: seq<MetricValue>, r: MetricRule) {
    !ClearOf(metrics, r) && !Breaks(metrics, r)
  }

  ghost predicate FailsIn(metrics: seq<MetricValue>, rules: seq<MetricRule>, v: Verdict) {
    ApplyRules(v, metrics, rules).decision.Fail?
  }

  /** The first rule that is not clear decides: the rules fail exactly when it breaks. */
  lemma FirstUnclearDecides(v: Verdict, metrics: seq<MetricValue>, rules: seq<MetricRule>, k: nat)
    requires v.decision.Pass? && (forall r | r in rules :: r.tolerance >= 0.0)
    requires k < |rules| && !ClearOf(metrics, rules[k]) && forall j | 0 <= j < k :: ClearOf(metrics, rules[j])
    ensures FailsIn(metrics, rules, v) <==> Breaks(metrics, rules[k])
  {
    RulesFailExactly(v, metrics, rules);
    if Breaks(metrics, rules[k]) {
      assert FailsAt(metrics, rules, k);
    }
    if FailsIn(metrics, rules, v) {
      var i :| 0 <= i < |rules| && FailsAt(metrics, rules, i);
      BreaksIsNotClear(metrics, rules[i]);
      assert i == k;
    }
  }

  lemma BreaksIsNotClear(metrics: seq<MetricValue>, r: MetricRule)
    requires r.tolerance >= 0.0 && Breaks(metrics, r)
    ensures !ClearOf(metrics, r)
  {}

  lemma {:induction false} FirstUnclear(metrics: seq<MetricValue>, rules: seq<MetricRule>, r: MetricRule) returns (k: nat)
    requires r in rules && !ClearOf(metrics, r)
    ensures k < |rules| && !ClearOf(metrics, rules[k]) && forall j | 0 <= j < k :: ClearOf(metrics, rules[j])
    decreases |rules|
  {
    hide ClearOf;
    if !ClearOf(metrics, rules[0]) {
      k := 0;
    } else {
      var rest := FirstUnclear(metrics, rules[1..], r);
      k := rest + 1;
      forall j | 0 <= j < k ensures ClearOf(metrics, rules[j]) {
        if j > 0 {
          assert rules[1..][j - 1] == rules[j];
        }
      }
    }
  }

  /** The same rules with one of them moved to the front. */
  lemma MovedToFront(rules: seq<MetricRule>, r: MetricRule) returns (moved: seq<MetricRule>)
    requires r in rules
    ensures |moved| > 0 && moved[0] == r && multiset(moved) == multiset(rules)
  {
    var i :| 0 <= i < |rules| && rules[i] == r;
    moved := [r] + rules[..i] + rules[i + 1..];
    assert rules == rules[..i] + [r] + rules[i + 1..];
  }

  /** Exactly when order matters to failing: the rules can be listed so that they fail and so that they do not,
      if and only if some rule breaks and some other rule clouds. */
  lemma OrderMattersExactly(v: Verdict, metrics: seq<MetricValue>, rules: seq<MetricRule>)
    requires v.decision.Pass? && forall r | r in rules :: r.tolerance >= 0.0
    ensures (exists a, b :: multiset(a) == multiset(rules) == multiset(b)
                          && FailsIn(metrics, a, v) && !FailsIn(metrics, b, v))
            <==> (exists r | r in rules :: Breaks(metrics, r)) && (exists r | r in rules :: Clouds(metrics, r))
  {
    hide ClearOf, Breaks, FailsIn;
    if a, b :| multiset(a) == multiset(rules) == multiset(b) && FailsIn(metrics, a, v) && !FailsIn(metrics, b, v) {
      SameMembers(a, rules);
      SameMembers(b, rules);
      var broken := FailingRule(v, metrics, a);
      BreaksIsNotClear(metrics, broken);
      var k := FirstUnclear(metrics, b, broken);
      FirstUnclearDecides(v, metrics, b, k);
      assert Clouds(metrics, b[k]);
    }
    if broken, cloud :| broken in rules && cloud in rules && Breaks(metrics, broken) && Clouds(metrics, cloud) {
      var a := MovedToFront(rules, broken);
      var b := MovedToFront(rules, cloud);
      SameMembers(a, rules);
      SameMembers(b, rules);
      BreaksIsNotClear(metrics, broken);
      FirstUnclearDecides(v, metrics, a, 0);
      FirstUnclearDecides(v, metrics, b, 0);
    }
  }

  lemma SameMembers(a: seq<MetricRule>, b: seq<MetricRule>)
    requires multiset(a) == multiset(b)
    ensures forall r :: r in a <==> r in b
  {
    forall r ensures r in a <==> r in b {
      assert r in a <==> r in multiset(a);
      assert r in b <==> r in multiset(b);
    }
  }

  lemma FailingRule(v: Verdict, metrics: seq<MetricValue>, rules: seq<MetricRule>) returns (r: MetricRule)
    requires v.decision.Pass? && (forall r | r in rules :: r.tolerance >= 0.0) && FailsIn(metrics, rules, v)
    ensures r in rules && Breaks(metrics, r)
  {
    RulesFailExactly(v, metrics, rules);
    var i :| 0 <= i < |rules| && FailsAt(metrics, rules, i);
    r := rules[i];
  }

  /** Short of a pass, order does decide: the same two rules and metrics fail in one order, and are merely
      borderline in the other. */
  lemma FailureDependsOnRuleOrder()
    ensures var low, edge := MetricRule("a", "1", "x", Some(1.0), Option.None, 0.0),
                             MetricRule("b", "1", "x", Some(1.0), Option.None, 0.0);
      var metrics := [MetricValue("a", "1", "x", Value, Some(0.0), ""), MetricValue("b", "1", "x", Value, Some(1.0), "")];
      && ApplyRules(Verdict(Pass, EvidenceValid), metrics, [low, edge]).decision == Fail
      && ApplyRules(Verdict(Pass, EvidenceValid), metrics, [edge, low]).decision == Borderline
  {
    var low, edge := MetricRule("a", "1", "x", Some(1.0), Option.None, 0.0), MetricRule("b", "1", "x", Some(1.0), Option.None, 0.0);
    var a, b := MetricValue("a", "1", "x", Value, Some(0.0), ""), MetricValue("b", "1", "x", Value, Some(1.0), "");
    var metrics := [a, b];
    assert metrics[..1] == [a] && "a" != "b";
    assert Lookup(metrics, "b") == Some(b);
    assert Lookup([a], "a") == Some(a) && Lookup(metrics, "a") == Some(a);
    assert [low, edge][1..] == [edge] && [edge, low][1..] == [low] && [edge][1..] == [] && [low][1..] == [];
    assert ApplyRule(Verdict(Pass, EvidenceValid), metrics, low).0.decision == Fail;
    assert ApplyRule(Verdict(Pass, EvidenceValid), metrics, edge) == (Verdict(Borderline, ThresholdUncertain), false);
    assert ApplyRule(Verdict(Borderline, ThresholdUncertain), metrics, low) == (Verdict(Borderline, ThresholdUncertain), false);
    hide ApplyRule;
    assert ApplyRules(Verdict(Borderline, ThresholdUncertain), metrics, [low]) == Verdict(Borderline, ThresholdUncertain);
    assert ApplyRules(Verdict(Pass, EvidenceValid), metrics, [edge, low]) == Verdict(Borderline, ThresholdUncertain);
  }

  /** Hard invalidity fails the gate exactly when no later ceiling speaks over it: below gate 10 always. */
  lemma HardInvalidityFailsExactly(s: Snapshot, request: GateInput, creator: string, now: int)
    requires request.gate < GATES && exists e | e in request.evidence :: e.hardInvalidity
    ensures Decide(s, request, creator, now).decision.Fail? <==>
              && !(request.gate >= 10 && exists e | e in request.evidence :: e.producer == creator)
              && !(request.gate == 11
                   && !exists e | e in request.evidence :: e.kind == "sealed_verdict" && e.role.Sealed?)
              && !(request.gate == 12 && !ForwardReady(s, request.evidence, now))
    ensures request.gate < 10 ==> Decide(s, request, creator, now) == Verdict(Fail, HardInvalidity)
  {
    hide AllChecked, ForwardReady, Bound, ApplyRules;
    var v := Cascade(s, request, creator, now);
    if v.decision.Fail? {
      FailStays(v, request.metrics, RulesOf(s, request.gate));
    } else {
      NeverFailsLater(v, request.metrics, RulesOf(s, request.gate));
    }
  }

  // ---- Candidates -----------------------------------------------------------------------------

  datatype Status = Idea | Passed | Failed | Frontier | Waiting

  datatype Candidate = Candidate(snapshot: string, gate: int, status: Status, version: nat)

  datatype Entry =
    | Decided(strategy: string, snapshot: string, gate: nat, decision: Decision)
    | Reentered(strategy: string, snapshot: string)

  datatype ResearchItem = ResearchItem(artifact: string, createdBy: string)

  datatype Operation = GateOp(actor: string, request: GateInput) | ReentryOp(actor: string, reentry: Reentry)

  datatype Reentry = Reentry(strategy: string, snapshot: string, expectedVersion: nat, reason: string)

  datatype World = World(
    snapshots: map<string, Snapshot>, invalidated: set<string>, items: map<string, ResearchItem>,
    candidates: map<string, Candidate>, log: seq<Entry>, operations: map<string, Operation>)

  datatype GateError =
    | IdempotencyConflict | StaleSnapshot | PromotionFrozen | CandidateMismatch | SelfCertification
    | ConcurrentModification | DependencyUnsatisfied | ReentryRequired | UnknownEvidence | UntrustedEvidence
    | EvidenceMismatch | EvidenceUnverified | EvidenceClassMissing | ReentryNotBlocked | ReentryNeedsNewSnapshot

  function StatusOf(decision: Decision): Status {
    match decision
    case Pass => Passed case Fail => Failed case Blocked => Waiting case Borderline => Frontier
  }

  function Admissible(e: Evidence, snapshot: string, now: int): Option<GateError> {
    if !e.known then Some(UnknownEvidence)
    else if !e.trusted then Some(UntrustedEvidence)
    else if e.availableAt > now || e.snapshot != snapshot then Some(EvidenceMismatch)
    else if !e.verified then Some(EvidenceUnverified)
    else None
  }

  /** The first inadmissible piece of evidence stops the gate. */
  function EvidenceError(evidence: seq<Evidence>, snapshot: string, now: int): Option<GateError> {
    if |evidence| == 0 then None
    else if EvidenceError(evidence[..|evidence| - 1], snapshot, now).Some? then
      EvidenceError(evidence[..|evidence| - 1], snapshot, now)
    else Admissible(evidence[|evidence| - 1], snapshot, now)
  }

  function PriorGate(w: World, strategy: string): int {
    if strategy in w.candidates then w.candidates[strategy].gate else -1
  }

  function PriorVersion(w: World, strategy: string): nat {
    if strategy in w.candidates then w.candidates[strategy].version else 0
  }

  /** Everything that must hold before a gate is decided at all. */
  function GateRefused(w: World, actor: string, request: GateInput, frozen: bool, now: int): Option<GateError>
    requires request.gate < GATES
  {
    if request.snapshot !in w.snapshots || request.snapshot in w.invalidated then Some(StaleSnapshot)
    else if frozen then Some(PromotionFrozen)
    else if request.strategy !in w.items || w.items[request.strategy].artifact != w.snapshots[request.snapshot].artifact then
      Some(CandidateMismatch)
    else if actor == w.items[request.strategy].createdBy then Some(SelfCertification)
    else if request.strategy in w.candidates && w.candidates[request.strategy].version != request.expectedVersion then
      Some(ConcurrentModification)
    else if (request.strategy in w.candidates && w.candidates[request.strategy].status in {Failed, Waiting, Frontier})
            || request.gate != PriorGate(w, request.strategy) + 1 then Some(DependencyUnsatisfied)
    else if request.strategy in w.candidates && w.candidates[request.strategy].snapshot != request.snapshot then
      Some(ReentryRequired)
    else if EvidenceError(request.evidence, request.snapshot, now).Some? then
      EvidenceError(request.evidence, request.snapshot, now)
    else if !exists e | e in request.evidence :: IsReport(e, request.gate) then Some(EvidenceClassMissing)
    else None
  }

  function Recorded(w: World, actor: string, request: GateInput, key: string, decision: Decision): World {
    var after := Candidate(request.snapshot, request.gate, StatusOf(decision), PriorVersion(w, request.strategy) + 1);
    w.(candidates := w.candidates[request.strategy := after],
       log := w.log + [Decided(request.strategy, request.snapshot, request.gate, decision)],
       operations := w.operations[key := GateOp(actor, request)])
  }

  function Gate(w: World, actor: string, request: GateInput, key: string, frozen: bool, now: int): Result<World, GateError>
    requires request.gate < GATES
  {
    if key in w.operations && w.operations[key].GateOp? then
      if w.operations[key] == GateOp(actor, request) then Success(w) else Failure(IdempotencyConflict)
    else if GateRefused(w, actor, request, frozen, now).Some? then Failure(GateRefused(w, actor, request, frozen, now).value)
    else if key in w.operations then Failure(IdempotencyConflict)
    else if request.expectedVersion != PriorVersion(w, request.strategy) then Failure(ConcurrentModification)
    else Success(Recorded(w, actor, request, key,
      Decide(w.snapshots[request.snapshot], request, w.items[request.strategy].createdBy, now).decision))
  }

  function Reenter(w: World, actor: string, r: Reentry, key: string): Result<World, GateError> {
    if key in w.operations then
      if w.operations[key] == ReentryOp(actor, r) then Success(w) else Failure(IdempotencyConflict)
    else if r.strategy !in w.candidates || w.candidates[r.strategy].version != r.expectedVersion then
      Failure(ConcurrentModification)
    else if !w.candidates[r.strategy].status.Waiting? then Failure(ReentryNotBlocked)
    else if r.snapshot !in w.snapshots || r.snapshot in w.invalidated then Failure(StaleSnapshot)
    else if w.candidates[r.strategy].snapshot == r.snapshot then Failure(ReentryNeedsNewSnapshot)
    else if r.strategy !in w.items || w.items[r.strategy].artifact != w.snapshots[r.snapshot].artifact then
      Failure(CandidateMismatch)
    else if w.items[r.strategy].createdBy == actor then Failure(SelfCertification)
    else Success(w.(
      candidates := w.candidates[r.strategy := Candidate(r.snapshot, -1, Idea, w.candidates[r.strategy].version + 1)],
      log := w.log + [Reentered(r.strategy, r.snapshot)], operations := w.operations[key := ReentryOp(actor, r)]))
  }

  // ---- Histories ------------------------------------------------------------------------------

  datatype Move =
    | AskGate(actor: string, request: GateInput, key: string, frozen: bool, now: int)
    | AskReentry(actor: string, reentry: Reentry, key: string)
    | Invalidate(snapshot: string)
    | Pin(snapshot: string, manifest: Snapshot)

  function Play(w: World, m: Move): World {
    match m
    case AskGate(actor, request, key, frozen, now) =>
      if request.gate >= GATES then w
      else (match Gate(w, actor, request, key, frozen, now) case Success(w') => w' case Failure(_) => w)
    case AskReentry(actor, r, key) => (match Reenter(w, actor, r, key) case Success(w') => w' case Failure(_) => w)
    case Invalidate(id) => w.(invalidated := w.invalidated + {id})
    case Pin(id, manifest) => if id in w.snapshots then w else w.(snapshots := w.snapshots[id := manifest])
  }

  function PlayAll(w: World, moves: seq<Move>): World {
    if |moves| == 0 then w else Play(PlayAll(w, moves[..|moves| - 1]), moves[|moves| - 1])
  }

  /** What was decided about a strategy since it last entered. */
  function Trail(log: seq<Entry>, strategy: string): seq<Entry> {
    if |log| == 0 then []
    else
      var last := log[|log| - 1];
      if last.strategy != strategy then Trail(log[..|log| - 1], strategy)
      else if last.Reentered? then []
      else Trail(log[..|log| - 1], strategy) + [last]
  }

  /** Gates `0..n` passed in order, all under one snapshot. */
  function Passes(strategy: string, snapshot: string, n: nat): seq<Entry> {
    if n == 0 then [] else Passes(strategy, snapshot, n - 1) + [Decided(strategy, snapshot, n - 1, Pass)]
  }

  ghost predicate CandidateOk(w: World, strategy: string)
    requires strategy in w.candidates
  {
    var c := w.candidates[strategy];
    match c.status
    case Idea => c.gate == -1 && Trail(w.log, strategy) == []
    case Passed => 0 <= c.gate < GATES && Trail(w.log, strategy) == Passes(strategy, c.snapshot, c.gate + 1)
    case Failed =>
      && 0 <= c.gate < GATES
      && Trail(w.log, strategy) == Passes(strategy, c.snapshot, c.gate) + [Decided(strategy, c.snapshot, c.gate, Fail)]
    case Frontier =>
      && 0 <= c.gate < GATES
      && Trail(w.log, strategy) == Passes(strategy, c.snapshot, c.gate) + [Decided(strategy, c.snapshot, c.gate, Borderline)]
    case Waiting =>
      && 0 <= c.gate < GATES
      && Trail(w.log, strategy) == Passes(strategy, c.snapshot, c.gate) + [Decided(strategy, c.snapshot, c.gate, Blocked)]
  }

  ghost predicate WorldOk(w: World) {
    && (forall strategy | strategy in w.candidates :: CandidateOk(w, strategy))
    && (forall strategy | strategy !in w.candidates :: Trail(w.log, strategy) == [])
  }

  lemma TrailAppend(log: seq<Entry>, last: Entry, strategy: string)
    ensures Trail(log + [last], strategy)
         == if last.strategy != strategy then Trail(log, strategy)
            else if last.Reentered? then [] else Trail(log, strategy) + [last]
  {
    assert (log + [last])[..|log|] == log;
  }

  /** Nothing about a strategy's trail or candidate moved. */
  lemma UntouchedKeeps(w: World, w': World, strategy: string)
    requires strategy in w.candidates && CandidateOk(w, strategy)
    requires strategy in w'.candidates && w'.candidates[strategy] == w.candidates[strategy]
    requires Trail(w'.log, strategy) == Trail(w.log, strategy)
    ensures CandidateOk(w', strategy)
  {
    hide Trail;
  }

  /** One strategy gets a new entry and a new candidate; the others keep theirs. */
  lemma OneMoves(w: World, w': World, last: Entry, moved: string)
    requires WorldOk(w) && last.strategy == moved && w'.log == w.log + [last]
    requires moved in w'.candidates && w'.candidates == w.candidates[moved := w'.candidates[moved]]
    requires CandidateOk(w', moved)
    ensures WorldOk(w')
  {
    hide CandidateOk;
    forall strategy | strategy != moved ensures Trail(w'.log, strategy) == Trail(w.log, strategy) {
      TrailAppend(w.log, last, strategy);
    }
    hide Trail;
    forall strategy | strategy in w'.candidates ensures CandidateOk(w', strategy) {
      if strategy != moved {
        UntouchedKeeps(w, w', strategy);
      }
    }
  }

  /** A candidate that may be decided has exactly the passes before its next gate behind it. */
  lemma ReadyTrail(w: World, request: GateInput)
    requires WorldOk(w) && request.gate == PriorGate(w, request.strategy) + 1
    requires request.strategy in w.candidates ==>
      w.candidates[request.strategy].status in {Idea, Passed} && w.candidates[request.strategy].snapshot == request.snapshot
    ensures Trail(w.log, request.strategy) == Passes(request.strategy, request.snapshot, request.gate)
  {
    hide Trail;
    if request.strategy in w.candidates {
      assert CandidateOk(w, request.strategy);
    }
  }

  lemma RecordedKeeps(w: World, actor: string, request: GateInput, key: string, decision: Decision)
    requires WorldOk(w) && request.gate < GATES && request.gate == PriorGate(w, request.strategy) + 1
    requires request.strategy in w.candidates ==>
      w.candidates[request.strategy].status in {Idea, Passed} && w.candidates[request.strategy].snapshot == request.snapshot
    ensures WorldOk(Recorded(w, actor, request, key, decision))
  {
    hide WorldOk, Trail;
    var w' := Recorded(w, actor, request, key, decision);
    var last := Decided(request.strategy, request.snapshot, request.gate, decision);
    ReadyTrail(w, request);
    TrailAppend(w.log, last, request.strategy);
    OneMoves(w, w', last, request.strategy);
  }

  lemma NotRefused(w: World, actor: string, request: GateInput, frozen: bool, now: int)
    requires request.gate < GATES && GateRefused(w, actor, request, frozen, now).None?
    ensures request.snapshot in w.snapshots && request.strategy in w.items
    ensures request.gate == PriorGate(w, request.strategy) + 1
    ensures request.strategy in w.candidates ==>
      w.candidates[request.strategy].status in {Idea, Passed} && w.candidates[request.strategy].snapshot == request.snapshot
  {
    hide EvidenceError;
    if request.strategy in w.candidates {
      var status := w.candidates[request.strategy].status;
      assert status !in {Failed, Waiting, Frontier};
      assert status.Idea? || status.Passed?;
    }
  }

  lemma GateKeeps(w: World, actor: string, request: GateInput, key: string, frozen: bool, now: int)
    requires WorldOk(w) && request.gate < GATES && Gate(w, actor, request, key, frozen, now).Success?
    ensures WorldOk(Gate(w, actor, request, key, frozen, now).value)
  {
    hide Decide, WorldOk, GateRefused, Recorded;
    if key !in w.operations {
      NotRefused(w, actor, request, frozen, now);
      RecordedKeeps(w, actor, request, key,
        Decide(w.snapshots[request.snapshot], request, w.items[request.strategy].createdBy, now).decision);
    }
  }

  lemma ReenterKeeps(w: World, actor: string, r: Reentry, key: string)
    requires WorldOk(w) && Reenter(w, actor, r, key).Success?
    ensures WorldOk(Reenter(w, actor, r, key).value)
  {
    hide WorldOk, Trail;
    if key !in w.operations {
      TrailAppend(w.log, Reentered(r.strategy, r.snapshot), r.strategy);
      OneMoves(w, Reenter(w, actor, r, key).value, Reentered(r.strategy, r.snapshot), r.strategy);
    }
  }

  lemma PlayKeeps(w: World, m: Move)
    requires WorldOk(w)
    ensures WorldOk(Play(w, m))
  {
    hide Gate, Reenter, CandidateOk;
    match m
    case AskGate(actor, request, key, frozen, now) =>
      if request.gate < GATES && Gate(w, actor, request, key, frozen, now).Success? {
        GateKeeps(w, actor, request, key, frozen, now);
      }
    case AskReentry(actor, r, key) => if Reenter(w, actor, r, key).Success? { ReenterKeeps(w, actor, r, key); }
    case _ =>
      forall strategy | strategy in w.candidates ensures CandidateOk(Play(w, m), strategy) {
        UntouchedKeeps(w, Play(w, m), strategy);
      }
  }

  lemma {:induction false} PlayAllKeeps(w: World, moves: seq<Move>)
    requires WorldOk(w)
    ensures WorldOk(PlayAll(w, moves))
  {
    hide WorldOk, Play;
    if |moves| > 0 {
      PlayAllKeeps(w, moves[..|moves| - 1]);
      PlayKeeps(PlayAll(w, moves[..|moves| - 1]), moves[|moves| - 1]);
    }
  }

  lemma {:induction false} PassesAre(strategy: string, snapshot: string, n: nat, g: nat)
    requires g < n
    ensures |Passes(strategy, snapshot, n)| == n && Passes(strategy, snapshot, n)[g] == Decided(strategy, snapshot, g, Pass)
    decreases n
  {
    if n > 1 {
      PassesAre(strategy, snapshot, n - 1, if g < n - 1 then g else 0);
    }
  }

  /** Over any moves from a world with no candidates: whoever holds the state of gate `g` has, since last entering,
      passed gates 0 through `g`, in order, once each, under the one snapshot it now holds. */
  lemma StateProvesThePath(w: World, moves: seq<Move>, strategy: string)
    requires w.candidates == map[] && w.log == []
    requires strategy in PlayAll(w, moves).candidates && PlayAll(w, moves).candidates[strategy].status.Passed?
    ensures var w', c := PlayAll(w, moves), PlayAll(w, moves).candidates[strategy];
      && 0 <= c.gate < GATES && |Trail(w'.log, strategy)| == c.gate + 1
      && forall g | 0 <= g <= c.gate :: Trail(w'.log, strategy)[g] == Decided(strategy, c.snapshot, g, Pass)
  {
    hide PlayAll;
    PlayAllKeeps(w, moves);
    var w', c := PlayAll(w, moves), PlayAll(w, moves).candidates[strategy];
    assert CandidateOk(w', strategy);
    PassesAre(strategy, c.snapshot, c.gate + 1, 0);
    forall g | 0 <= g <= c.gate ensures Trail(w'.log, strategy)[g] == Decided(strategy, c.snapshot, g, Pass) {
      PassesAre(strategy, c.snapshot, c.gate + 1, g);
    }
  }

  lemma PlayKeepsEnded(w: World, m: Move, strategy: string)
    requires strategy in w.candidates && w.candidates[strategy].status in {Failed, Frontier}
    ensures strategy in Play(w, m).candidates && Play(w, m).candidates[strategy] == w.candidates[strategy]
  {
    hide EvidenceError, Decide;
  }

  /** Failure and the borderline frontier are final: no decision and no re-entry changes the candidate again. */
  lemma {:induction false} EndsAreFinal(w: World, moves: seq<Move>, strategy: string)
    requires strategy in w.candidates && w.candidates[strategy].status in {Failed, Frontier}
    ensures strategy in PlayAll(w, moves).candidates && PlayAll(w, moves).candidates[strategy] == w.candidates[strategy]
  {
    hide Play;
    if |moves| > 0 {
      EndsAreFinal(w, moves[..|moves| - 1], strategy);
      PlayKeepsEnded(PlayAll(w, moves[..|moves| - 1]), moves[|moves| - 1], strategy);
    }
  }
}
