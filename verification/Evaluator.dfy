/** The evaluator as it runs: a decision reassigned through a cascade and a rule loop, then written to the candidate. */
module Evaluator {
  import opened Prelude
  import opened GateProgression

  method RunRules(v0: Verdict, metrics: seq<MetricValue>, rules: seq<MetricRule>) returns (v: Verdict)
    ensures v == ApplyRules(v0, metrics, rules)
  {
    hide Defined, Matches, Measured, OutOfBand, NearThreshold;
    v := v0;
    for i := 0 to |rules|
      invariant ApplyRules(v0, metrics, rules) == ApplyRules(v, metrics, rules[i..])
    {
      var rule := rules[i];
      assert rules[i..][0] == rule && rules[i..][1..] == rules[i + 1..];
      if v.decision.Fail? { return; }
      if !Defined(metrics, rule) { return Verdict(Blocked, MetricUndefined); }
      if !Matches(metrics, rule) { return Verdict(Blocked, MetricMismatch); }
      var value := Measured(metrics, rule);
      if v.decision.Pass? && OutOfBand(value, rule) { v := Verdict(Fail, CriterionFailed); }
      if v.decision.Pass? && NearThreshold(value, rule) { v := Verdict(Borderline, ThresholdUncertain); }
    }
  }

  method DecideGate(s: Snapshot, request: GateInput, creator: string, now: int) returns (v: Verdict)
    requires request.gate < GATES
    ensures v == Decide(s, request, creator, now)
  {
    hide AllChecked, ForwardReady, Bound, ApplyRules;
    var gate, evidence := request.gate, request.evidence;
    v := Verdict(Pass, EvidenceValid);
    if !AllChecked(evidence, gate) { v := Verdict(Blocked, CheckMissing); }
    if exists e | e in evidence :: e.hardInvalidity {
      v := Verdict(Fail, HardInvalidity);
    } else if exists e | e in evidence :: e.unknowns {
      v := Verdict(Blocked, MaterialUnknowns);
    } else if gate >= 7 && forall e | e in evidence :: e.role.Synthetic? {
      v := Verdict(Blocked, SyntheticCeiling);
    }
    if gate >= 10 && exists e | e in evidence :: e.producer == creator { v := Verdict(Blocked, SelfCertified); }
    if gate == 11 && !exists e | e in evidence :: e.kind == "sealed_verdict" && e.role.Sealed? {
      v := Verdict(Blocked, SealedProtocolRequired);
    }
    if gate == 12 {
      if !ForwardReady(s, evidence, now) { v := Verdict(Blocked, ForwardHorizonIncomplete); }
    }
    if !v.decision.Fail? && !Bound(request) { v := Verdict(Blocked, MetricsNotBound); }
    v := RunRules(v, request.metrics, RulesOf(s, gate));
  }

  method CheckEvidence(evidence: seq<Evidence>, snapshot: string, now: int) returns (error: Option<GateError>)
    ensures error == EvidenceError(evidence, snapshot, now)
  {
    hide Admissible;
    for i := 0 to |evidence|
      invariant EvidenceError(evidence[..i], snapshot, now) == None
    {
      assert evidence[..i + 1][..i] == evidence[..i];
      error := Admissible(evidence[i], snapshot, now);
      if error.Some? {
        FirstErrorStays(evidence, snapshot, now, i + 1, |evidence|);
        assert evidence[..|evidence|] == evidence;
        return;
      }
    }
    assert evidence[..|evidence|] == evidence;
    return None;
  }

  lemma {:induction false} FirstErrorStays(evidence: seq<Evidence>, snapshot: string, now: int, i: nat, n: nat)
    requires i <= n <= |evidence| && EvidenceError(evidence[..i], snapshot, now).Some?
    ensures EvidenceError(evidence[..n], snapshot, now) == EvidenceError(evidence[..i], snapshot, now)
  {
    if i < n {
      FirstErrorStays(evidence, snapshot, now, i, n - 1);
      assert evidence[..n][..n - 1] == evidence[..n - 1];
    }
  }

  class CandidateStore {
    var snapshots: map<string, Snapshot>
    var invalidated: set<string>
    var items: map<string, ResearchItem>
    var candidates: map<string, Candidate>
    var log: seq<Entry>
    var operations: map<string, Operation>

    function Contents(): World
      reads this
    {
      World(snapshots, invalidated, items, candidates, log, operations)
    }

    constructor ()
      ensures Contents() == World(map[], {}, map[], map[], [], map[])
    {
      snapshots, invalidated, items, candidates, log, operations := map[], {}, map[], map[], [], map[];
    }

    method Gate(actor: string, request: GateInput, key: string, frozen: bool, now: int) returns (error: Option<GateError>)
      requires request.gate < GATES
      modifies this
      ensures match GateProgression.Gate(old(Contents()), actor, request, key, frozen, now)
              case Success(w') => error.None? && Contents() == w'
              case Failure(e) => error == Some(e) && Contents() == old(Contents())
    {
      hide Decide;
      if key in operations && operations[key].GateOp? {
        return if operations[key] == GateOp(actor, request) then None else Some(IdempotencyConflict);
      }
      var refused := Refused(actor, request, frozen, now);
      if refused.Some? { return refused; }
      var verdict := DecideGate(snapshots[request.snapshot], request, items[request.strategy].createdBy, now);
      if key in operations { return Some(IdempotencyConflict); }
      var actual := PriorVersion(Contents(), request.strategy);
      if request.expectedVersion != actual { return Some(ConcurrentModification); }
      candidates := candidates[request.strategy :=
        Candidate(request.snapshot, request.gate, StatusOf(verdict.decision), actual + 1)];
      log := log + [Decided(request.strategy, request.snapshot, request.gate, verdict.decision)];
      operations := operations[key := GateOp(actor, request)];
      return None;
    }

    /** The checks made before a gate is decided, in order. */
    method Refused(actor: string, request: GateInput, frozen: bool, now: int) returns (error: Option<GateError>)
      requires request.gate < GATES
      ensures error == GateRefused(Contents(), actor, request, frozen, now)
    {
      hide EvidenceError;
      if request.snapshot !in snapshots || request.snapshot in invalidated { return Some(StaleSnapshot); }
      if frozen { return Some(PromotionFrozen); }
      if request.strategy !in items || items[request.strategy].artifact != snapshots[request.snapshot].artifact {
        return Some(CandidateMismatch);
      }
      if actor == items[request.strategy].createdBy { return Some(SelfCertification); }
      var entered := request.strategy in candidates;
      if entered && candidates[request.strategy].version != request.expectedVersion { return Some(ConcurrentModification); }
      if (entered && candidates[request.strategy].status in {Failed, Waiting, Frontier})
         || request.gate != PriorGate(Contents(), request.strategy) + 1 { return Some(DependencyUnsatisfied); }
      if entered && candidates[request.strategy].snapshot != request.snapshot { return Some(ReentryRequired); }
      var bad := CheckEvidence(request.evidence, request.snapshot, now);
      if bad.Some? { return bad; }
      if !exists e | e in request.evidence :: IsReport(e, request.gate) { return Some(EvidenceClassMissing); }
      return None;
    }

    method Reenter(actor: string, request: Reentry, key: string) returns (error: Option<GateError>)
      modifies this
      ensures match GateProgression.Reenter(old(Contents()), actor, request, key)
              case Success(w') => error.None? && Contents() == w'
              case Failure(e) => error == Some(e) && Contents() == old(Contents())
    {
      if key in operations {
        return if operations[key] == ReentryOp(actor, request) then None else Some(IdempotencyConflict);
      }
      if request.strategy !in candidates || candidates[request.strategy].version != request.expectedVersion {
        return Some(ConcurrentModification);
      }
      var current := candidates[request.strategy];
      if !current.status.Waiting? { return Some(ReentryNotBlocked); }
      if request.snapshot !in snapshots || request.snapshot in invalidated { return Some(StaleSnapshot); }
      if current.snapshot == request.snapshot { return Some(ReentryNeedsNewSnapshot); }
      if request.strategy !in items || items[request.strategy].artifact != snapshots[request.snapshot].artifact {
        return Some(CandidateMismatch);
      }
      if items[request.strategy].createdBy == actor { return Some(SelfCertification); }
      candidates := candidates[request.strategy := Candidate(request.snapshot, -1, Idea, current.version + 1)];
      log := log + [Reentered(request.strategy, request.snapshot)];
      operations := operations[key := ReentryOp(actor, request)];
      return None;
    }
  }
}
