/** A history in which a hard-invalid candidate is blocked, not failed, and enters again. */
module HardInvalidity {
  import opened Prelude
  import opened GateProgression

  const Manifest := Snapshot("artifact", map[], 0, 0)

  const Start := World(
    map["first" := Manifest, "second" := Manifest], {}, map["candidate" := ResearchItem("artifact", "researcher")],
    map[], [], map[])

  /** The gate's own report with every required check, perhaps admitting that the candidate is invalid. */
  function Reported(gate: nat, invalid: bool): Evidence
    requires gate < GATES
  {
    Evidence(true, true, true, EvidenceClasses[gate], OtherRole, "evaluator", "first", 0,
      (set check | check in RequiredChecks[gate]), invalid, false, 0, [])
  }

  function Asked(gate: nat): GateInput
    requires gate < GATES
  {
    GateInput("candidate", "first", gate, gate, [Reported(gate, gate == 11)], [])
  }

  function KeyAt(n: nat): string {
    seq(n, _ => 'k')
  }

  function MoveAt(gate: nat): Move
    requires gate < GATES
  {
    AskGate("evaluator", Asked(gate), KeyAt(gate), false, 0)
  }

  const Back := AskReentry("evaluator", Reentry("candidate", "second", 12, "new snapshot"), KeyAt(12))

  /** Gates 0 to 10, gate 11 on a hard-invalid report that is not sealed, and a re-entry. */
  const History: seq<Move> := seq(12, i requires 0 <= i < 12 => MoveAt(i)) + [Back]

  // ---- Gates 0 to 10 --------------------------------------------------------------------------

  /** Both snapshots are pinned and valid, and the researcher's candidate is registered. */
  ghost predicate Prepared(w: World) {
    && "first" in w.snapshots && w.snapshots["first"] == Manifest && "first" !in w.invalidated
    && "second" in w.snapshots && w.snapshots["second"] == Manifest && "second" !in w.invalidated
    && "candidate" in w.items && w.items["candidate"] == ResearchItem("artifact", "researcher")
  }

  ghost predicate Holds(w: World, c: Candidate) {
    "candidate" in w.candidates && w.candidates["candidate"] == c
  }

  /** The first `n` gates are decided, the last of them with `status`. */
  ghost predicate Reached(w: World, n: nat, status: Status) {
    && Prepared(w) && (forall key | key in w.operations :: |key| < n)
    && if n == 0 then "candidate" !in w.candidates else Holds(w, Candidate("first", n - 1, status, n))
  }

  lemma ReportStands(gate: nat)
    requires gate < GATES
    ensures AllChecked(Asked(gate).evidence, gate) && Bound(Asked(gate))
  {
    var report := Asked(gate).evidence[0];
    assert report in Asked(gate).evidence;
    hide RequiredChecks, EvidenceClasses;
    assert IsReport(report, gate);
    forall check | check in RequiredChecks[gate] ensures Checked(Asked(gate).evidence, gate, check) {
      assert check in report.checks;
    }
  }

  lemma Passes(gate: nat)
    requires gate < 11
    ensures Decide(Manifest, Asked(gate), "researcher", 0).decision.Pass?
  {
    ReportStands(gate);
    hide AllChecked, Bound, RequiredChecks, EvidenceClasses;
    var request := Asked(gate);
    assert request.evidence[0] in request.evidence;
    assert forall e | e in request.evidence :: e == Reported(gate, false);
    PassesExactly(Manifest, request, "researcher", 0);
  }

  lemma Blocks()
    ensures Decide(Manifest, Asked(11), "researcher", 0) == Verdict(Blocked, SealedProtocolRequired)
  {
    ReportStands(11);
    hide AllChecked, Bound, RequiredChecks;
    assert forall e | e in Asked(11).evidence :: e == Reported(11, true);
    assert Cascade(Manifest, Asked(11), "researcher", 0) == Verdict(Blocked, SealedProtocolRequired);
  }

  lemma ReportIsAdmissible(gate: nat, invalid: bool)
    requires gate < GATES
    ensures IsReport(Reported(gate, invalid), gate) && EvidenceError([Reported(gate, invalid)], "first", 0).None?
  {
    var report := Reported(gate, invalid);
    assert [report][..0] == [] && EvidenceError([], "first", 0).None?;
  }

  /** What a call must meet to be decided and recorded. */
  lemma GateDecides(w: World, actor: string, r: GateInput, key: string, now: int)
    requires r.gate < GATES && key !in w.operations && r.expectedVersion == PriorVersion(w, r.strategy)
    requires r.snapshot in w.snapshots && r.snapshot !in w.invalidated && r.strategy in w.items
    requires w.items[r.strategy].artifact == w.snapshots[r.snapshot].artifact && actor != w.items[r.strategy].createdBy
    requires r.gate == PriorGate(w, r.strategy) + 1
    requires r.strategy in w.candidates ==>
      w.candidates[r.strategy].status.Passed? && w.candidates[r.strategy].snapshot == r.snapshot
    requires EvidenceError(r.evidence, r.snapshot, now).None? && exists e | e in r.evidence :: IsReport(e, r.gate)
    ensures Gate(w, actor, r, key, false, now) == Success(Recorded(w, actor, r, key,
      Decide(w.snapshots[r.snapshot], r, w.items[r.strategy].createdBy, now).decision))
  {
    hide EvidenceError, IsReport, Decide, Recorded;
  }

  lemma Decides(w: World, gate: nat)
    requires gate < 12 && Reached(w, gate, Passed)
    ensures Reached(Play(w, MoveAt(gate)), gate + 1, if gate < 11 then Passed else Waiting)
  {
    hide Gate, Decide, Reported, Reenter, IsReport, EvidenceError, RequiredChecks, EvidenceClasses;
    var request := Asked(gate);
    ReportIsAdmissible(gate, gate == 11);
    assert Reported(gate, gate == 11) in request.evidence;
    assert |KeyAt(gate)| == gate;
    GateDecides(w, "evaluator", request, KeyAt(gate), 0);
    if gate < 11 {
      Passes(gate);
    } else {
      Blocks();
    }
    PlaysAsDecided(w, gate);
    hide KeyAt, Asked, Play;
  }

  lemma PlaysAsDecided(w: World, gate: nat)
    requires gate < GATES && Gate(w, "evaluator", Asked(gate), KeyAt(gate), false, 0).Success?
    ensures Play(w, MoveAt(gate)) == Gate(w, "evaluator", Asked(gate), KeyAt(gate), false, 0).value
  {
    hide Gate, Reported, KeyAt, Reenter;
  }

  lemma {:induction false} ReachesGate(n: nat)
    requires n <= 12
    ensures Reached(PlayAll(Start, History[..n]), n, if n < 12 then Passed else Waiting)
  {
    hide Reached, Play, MoveAt;
    if n == 0 {
      StartIsReached();
    } else {
      ReachesGate(n - 1);
      assert History[..n][..n - 1] == History[..n - 1] && History[..n][n - 1] == MoveAt(n - 1);
      Decides(PlayAll(Start, History[..n - 1]), n - 1);
    }
  }

  lemma StartIsReached()
    ensures Reached(Start, 0, Passed)
  {}

  lemma ReturnsToStart(w: World)
    requires Reached(w, 12, Waiting)
    ensures Holds(Play(w, Back), Candidate("second", -1, Idea, 13))
  {
    hide Gate;
    assert |KeyAt(12)| == 12;
    hide KeyAt;
  }

  /** At gate 11 a report that is hard-invalid but not a sealed verdict is recorded as blocked. The candidate that
      below gate 10 would have failed for good enters again on another snapshot. */
  lemma HardInvalidityCanBlock()
    ensures History[11].AskGate? && forall e | e in History[11].request.evidence :: e.hardInvalidity
    ensures Holds(PlayAll(Start, History[..12]), Candidate("first", 11, Waiting, 12))
    ensures Holds(PlayAll(Start, History), Candidate("second", -1, Idea, 13))
  {
    assert History[11] == MoveAt(11);
    assert forall e | e in Asked(11).evidence :: e == Reported(11, true);
    hide PlayAll, Play, MoveAt, Asked;
    ReachesGate(12);
    ReturnsToStart(PlayAll(Start, History[..12]));
    assert |History| == 13 && History[12] == Back;
    OneMoreMove();
  }

  lemma OneMoreMove()
    requires |History| == 13 && History[12] == Back
    ensures PlayAll(Start, History) == Play(PlayAll(Start, History[..12]), Back)
  {
    hide Play;
  }
}
