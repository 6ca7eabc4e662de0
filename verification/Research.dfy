/** Lineage, sealed holdouts and contamination: what a growing ancestor graph may never let through. */
module Research {
  import opened Prelude
  import opened Graphs

  datatype Parentage = Parentage(parent: string, edge: string)

  datatype ResearchObject = ResearchObject(
    id: string, kind: string, campaign: string, artifact: string, parents: seq<Parentage>)

  datatype Registration = Registration(item: ResearchObject, actor: string)

  datatype Holdout = Holdout(families: set<string>, budget: nat, queries: nat, retired: bool)

  datatype Query = Query(
    id: string, holdout: string, strategy: string, family: string, requestHash: string, category: string)

  datatype Trial = Trial(
    id: string, campaign: string, family: string, strategy: string, semantic: string,
    retryOf: Option<string>, infrastructureRetry: bool)

  /** Lineage edges run from child to parent. */
  datatype Lab = Lab(
    artifacts: set<string>, objects: map<string, Registration>, up: Edges, tags: set<(string, string)>,
    trials: map<string, Trial>, holdouts: map<string, Holdout>, queries: seq<Query>)

  datatype ResearchError =
    | NotFound | UnknownParent | IdempotencyConflict | ConstraintViolation | InvalidTrialLineage
    | NotARetry | RetryClassificationRequired | Unavailable | TrialNotDeclared | FamilyExposed | LineageExposed

  const EDGE_TYPES: set<string> := {
    "derived_from", "parameter_variant_of", "mechanism_variant_of", "data_variant_of", "execution_variant_of",
    "portfolio_variant_of", "independent_reimplementation_of", "ablation_of", "combination_of", "reproduction_of"}

  const SAW_SEALED := "saw_sealed_category"

  // ---- Registration ---------------------------------------------------------------------------

  predicate KnownParent(s: Lab, o: ResearchObject, p: Parentage) {
    p.parent in s.objects && s.objects[p.parent].item.campaign == o.campaign
  }

  predicate LegalEdge(o: ResearchObject, p: Parentage) {
    p.edge in EDGE_TYPES && p.parent != o.id
  }

  function EdgesOf(o: ResearchObject): Edges {
    set p | p in o.parents :: (o.id, p.parent)
  }

  function Inherited(tags: set<(string, string)>, o: ResearchObject): set<(string, string)> {
    set p, t | p in o.parents && t in tags && t.0 == p.parent :: (o.id, t.1)
  }

  function Register(s: Lab, o: ResearchObject, actor: string): Result<Lab, ResearchError> {
    if o.artifact !in s.artifacts then Failure(NotFound)
    else if exists p | p in o.parents :: !KnownParent(s, o, p) then Failure(UnknownParent)
    else if o.id in s.objects && s.objects[o.id] != Registration(o, actor) then Failure(IdempotencyConflict)
    else if exists p | p in o.parents :: !LegalEdge(o, p) then Failure(ConstraintViolation)
    else Success(s.(objects := s.objects[o.id := Registration(o, actor)],
                    up := s.up + EdgesOf(o), tags := s.tags + Inherited(s.tags, o)))
  }

  // ---- Trials ---------------------------------------------------------------------------------

  predicate RepeatsTrial(s: Lab, t: Trial) {
    && t.retryOf.Some? && t.retryOf.value in s.trials
    && s.trials[t.retryOf.value].semantic == t.semantic && s.trials[t.retryOf.value].family == t.family
    && s.trials[t.retryOf.value].strategy == t.strategy
  }

  function RecordTrial(s: Lab, t: Trial): Result<Lab, ResearchError> {
    if t.strategy !in s.objects || s.objects[t.strategy].item.campaign != t.campaign then Failure(InvalidTrialLineage)
    else if t.infrastructureRetry && !RepeatsTrial(s, t) then Failure(NotARetry)
    else if !t.infrastructureRetry && t.retryOf.Some? then Failure(RetryClassificationRequired)
    else if t.id in s.trials then if s.trials[t.id] == t then Success(s) else Failure(IdempotencyConflict)
    else Success(s.(trials := s.trials[t.id := t]))
  }

  // ---- Sealed queries -------------------------------------------------------------------------

  predicate Answers(q: Query, holdout: string, strategy: string) {
    q.holdout == holdout && q.strategy == strategy
  }

  predicate Declared(s: Lab, strategy: string, family: string) {
    strategy in s.objects
    && exists id | id in s.trials :: s.trials[id].strategy == strategy && s.trials[id].family == family
         && s.trials[id].campaign == s.objects[strategy].item.campaign && !s.trials[id].infrastructureRetry
  }

  ghost predicate Related(up: Edges, a: string, b: string) {
    exists n :: Reaches(up, a, n) && Reaches(up, b, n)
  }

  ghost function Descendants(s: Lab, strategy: string): set<string> {
    set d | d in s.objects && Reaches(s.up, d, strategy)
  }

  predicate Open(s: Lab, holdout: string, strategy: string, family: string) {
    && holdout in s.holdouts && strategy in s.objects && !s.holdouts[holdout].retired
    && family in s.holdouts[holdout].families && s.holdouts[holdout].queries < s.holdouts[holdout].budget
  }

  predicate FamilySeen(s: Lab, holdout: string, family: string) {
    exists q | q in s.queries :: q.holdout == holdout && q.family == family
  }

  ghost predicate LineageSeen(s: Lab, holdout: string, strategy: string) {
    exists q | q in s.queries :: q.holdout == holdout && q.strategy != strategy && Related(s.up, strategy, q.strategy)
  }

  function Record(s: Lab, q: Query, exposed: set<string>): Lab
    requires q.holdout in s.holdouts
  {
    var h := s.holdouts[q.holdout];
    s.(queries := s.queries + [q], holdouts := s.holdouts[q.holdout := h.(queries := h.queries + 1)],
       tags := s.tags + set d | d in exposed :: (d, SAW_SEALED))
  }

  predicate SameRequest(earlier: Query, asked: Query) {
    && earlier.requestHash == asked.requestHash && earlier.family == asked.family
    && earlier.category == asked.category
  }

  /** The new state and the recorded query that answers `asked`. */
  ghost function Sealed(s: Lab, asked: Query): Result<(Lab, Query), ResearchError> {
    if exists q | q in s.queries :: Answers(q, asked.holdout, asked.strategy) then
      var earlier :| earlier in s.queries && Answers(earlier, asked.holdout, asked.strategy);
      if SameRequest(earlier, asked) then Success((s, earlier)) else Failure(IdempotencyConflict)
    else if !Open(s, asked.holdout, asked.strategy, asked.family) then Failure(Unavailable)
    else if !Declared(s, asked.strategy, asked.family) then Failure(TrialNotDeclared)
    else if FamilySeen(s, asked.holdout, asked.family) then Failure(FamilyExposed)
    else if LineageSeen(s, asked.holdout, asked.strategy) then Failure(LineageExposed)
    else Success((Record(s, asked, Descendants(s, asked.strategy)), asked))
  }

  // ---- Runs -----------------------------------------------------------------------------------

  datatype Operation =
    | RegisterObject(item: ResearchObject, actor: string)
    | DeclareTrial(trial: Trial)
    | AskSealed(asked: Query)
    | StoreArtifact(artifact: string)
    | OpenHoldout(id: string, families: set<string>, budget: nat)
    | RetireHoldout(id: string)

  /** A refused operation rolls back and changes nothing. */
  ghost function Step(s: Lab, op: Operation): Lab {
    match op
    case RegisterObject(o, actor) => (match Register(s, o, actor) case Success(s') => s' case Failure(_) => s)
    case DeclareTrial(t) => (match RecordTrial(s, t) case Success(s') => s' case Failure(_) => s)
    case AskSealed(asked) => (match Sealed(s, asked) case Success(r) => r.0 case Failure(_) => s)
    case StoreArtifact(a) => s.(artifacts := s.artifacts + {a})
    case OpenHoldout(id, families, budget) =>
      if id in s.holdouts then s else s.(holdouts := s.holdouts[id := Holdout(families, budget, 0, false)])
    case RetireHoldout(id) =>
      if id in s.holdouts then s.(holdouts := s.holdouts[id := s.holdouts[id].(retired := true)]) else s
  }

  ghost function Run(s: Lab, ops: seq<Operation>): Lab {
    if |ops| == 0 then s else Step(Run(s, ops[..|ops| - 1]), ops[|ops| - 1])
  }

  const EmptyLab := Lab({}, map[], {}, {}, map[], map[], [])

  // ---- What every reachable lab keeps ---------------------------------------------------------

  ghost predicate LineageOk(s: Lab) {
    && (forall id | id in s.objects :: s.objects[id].item.id == id && EdgesOf(s.objects[id].item) <= s.up)
    && (forall e | e in s.up :: e.0 in s.objects && e.1 in s.objects)
    && Acyclic(s.up)
  }

  /** Every tag of a parent is a tag of its children. */
  ghost predicate TagsFlowDown(s: Lab) {
    forall e, t | e in s.up && t in s.tags && t.0 == e.1 :: (e.0, t.1) in s.tags
  }

  function CountFor(queries: seq<Query>, holdout: string): nat {
    if |queries| == 0 then 0
    else CountFor(queries[..|queries| - 1], holdout) + if queries[|queries| - 1].holdout == holdout then 1 else 0
  }

  ghost predicate Exclusive(up: Edges, a: Query, b: Query) {
    a.holdout == b.holdout ==> a.family != b.family && !Related(up, a.strategy, b.strategy)
  }

  ghost predicate ExposureOk(s: Lab) {
    && (forall q | q in s.queries :: q.strategy in s.objects && q.holdout in s.holdouts
          && (q.strategy, SAW_SEALED) in s.tags)
    && (forall i, j | 0 <= i < j < |s.queries| :: Exclusive(s.up, s.queries[i], s.queries[j]))
    && (forall h | h in s.holdouts :: CountFor(s.queries, h) == s.holdouts[h].queries <= s.holdouts[h].budget)
  }

  ghost predicate LabOk(s: Lab) {
    LineageOk(s) && TagsFlowDown(s) && ExposureOk(s)
  }

  /** Registering the same object again is a no-op; registering a new one only adds edges out of it. */
  lemma RegisterEffect(s: Lab, o: ResearchObject, actor: string)
    requires LabOk(s) && Register(s, o, actor).Success?
    ensures o.id in s.objects ==> Register(s, o, actor).value == s
    ensures o.id !in s.objects ==>
      Untouched(s.up + EdgesOf(o), o.id) && (forall e | e in EdgesOf(o) :: e.0 == o.id && e.1 in s.objects)
  {
    if o.id in s.objects {
      assert s.up + EdgesOf(o) == s.up;
      assert s.tags + Inherited(s.tags, o) == s.tags;
    } else {
      forall e | e in EdgesOf(o) ensures e.0 == o.id && e.1 in s.objects {
        var p :| p in o.parents && e == (o.id, p.parent);
        assert KnownParent(s, o, p);
      }
    }
  }

  lemma RegisterKeepsLineage(s: Lab, o: ResearchObject, actor: string)
    requires LabOk(s) && Register(s, o, actor).Success? && o.id !in s.objects
    ensures LineageOk(Register(s, o, actor).value)
    ensures forall a, n | a in s.objects :: Reaches(Register(s, o, actor).value.up, a, n) <==> Reaches(s.up, a, n)
  {
    RegisterEffect(s, o, actor);
    NewNodeKeepsAcyclic(s.up, EdgesOf(o), o.id);
    forall a, n | a in s.objects ensures Reaches(s.up + EdgesOf(o), a, n) <==> Reaches(s.up, a, n) {
      NewNodeChangesNoOther(s.up, EdgesOf(o), o.id, a, n);
    }
  }

  lemma RegisterKeepsTags(s: Lab, o: ResearchObject, actor: string)
    requires LabOk(s) && Register(s, o, actor).Success? && o.id !in s.objects
    ensures TagsFlowDown(Register(s, o, actor).value)
  {
    hide Acyclic, ExposureOk;
    RegisterEffect(s, o, actor);
    var s' := Register(s, o, actor).value;
    forall e, t | e in s'.up && t in s'.tags && t.0 == e.1 ensures (e.0, t.1) in s'.tags {
      if e in EdgesOf(o) {
        var p :| p in o.parents && e == (o.id, p.parent);
        assert (o.id, t.1) in Inherited(s.tags, o);
      }
    }
  }

  lemma RegisterKeeps(s: Lab, o: ResearchObject, actor: string)
    requires LabOk(s) && Register(s, o, actor).Success?
    ensures LabOk(Register(s, o, actor).value)
  {
    RegisterEffect(s, o, actor);
    if o.id !in s.objects {
      RegisterKeepsLineage(s, o, actor);
      RegisterKeepsTags(s, o, actor);
      hide LineageOk, TagsFlowDown, Inherited;
      var s' := Register(s, o, actor).value;
      forall i, j | 0 <= i < j < |s.queries| ensures Exclusive(s'.up, s.queries[i], s.queries[j]) {
        assert Exclusive(s.up, s.queries[i], s.queries[j]);
        assert s.queries[i] in s.queries && s.queries[j] in s.queries;
      }
    }
  }

  lemma {:induction false} CountForOther(queries: seq<Query>, holdout: string)
    requires forall q | q in queries :: q.holdout != holdout
    ensures CountFor(queries, holdout) == 0
  {
    if |queries| > 0 {
      CountForOther(queries[..|queries| - 1], holdout);
    }
  }

  lemma SealedKeepsTags(s: Lab, asked: Query)
    requires LabOk(s) && asked.holdout in s.holdouts && asked.strategy in s.objects
    ensures TagsFlowDown(Record(s, asked, Descendants(s, asked.strategy)))
  {
    hide Acyclic, ExposureOk;
    var s' := Record(s, asked, Descendants(s, asked.strategy));
    forall e, t | e in s'.up && t in s'.tags && t.0 == e.1 ensures (e.0, t.1) in s'.tags {
      if t !in s.tags {
        ReachesThrough(s.up, e.0, e.1, asked.strategy);
        assert e.0 in Descendants(s, asked.strategy);
      }
    }
  }

  lemma SealedKeeps(s: Lab, asked: Query)
    requires LabOk(s) && Sealed(s, asked).Success?
    ensures LabOk(Sealed(s, asked).value.0)
  {
    if !exists q | q in s.queries :: Answers(q, asked.holdout, asked.strategy) {
      SealedKeepsTags(s, asked);
      hide TagsFlowDown, Acyclic, Declared, Related;
      ReachesSelf(s.up, asked.strategy);
      var s' := Sealed(s, asked).value.0;
      assert asked.strategy in Descendants(s, asked.strategy);
      assert s'.queries[..|s.queries|] == s.queries;
      forall i, j | 0 <= i < j < |s'.queries| ensures Exclusive(s'.up, s'.queries[i], s'.queries[j]) {
        if j < |s.queries| {
          assert Exclusive(s.up, s.queries[i], s.queries[j]);
        } else if s'.queries[i].holdout == asked.holdout {
          var q := s'.queries[i];
          assert q in s.queries && !Answers(q, asked.holdout, asked.strategy);
          RelatedEitherWay(s.up, asked.strategy, q.strategy);
        }
      }
    }
  }

  lemma RelatedEitherWay(up: Edges, a: string, b: string)
    ensures Related(up, a, b) <==> Related(up, b, a)
  {}

  lemma StepKeeps(s: Lab, op: Operation)
    requires LabOk(s)
    ensures LabOk(Step(s, op))
  {
    match op
    case RegisterObject(o, actor) => if Register(s, o, actor).Success? { RegisterKeeps(s, o, actor); }
    case AskSealed(asked) => if Sealed(s, asked).Success? { SealedKeeps(s, asked); }
    case OpenHoldout(id, families, budget) =>
      if id !in s.holdouts {
        CountForOther(s.queries, id);
      }
    case _ =>
  }

  lemma {:induction false} RunKeeps(s: Lab, ops: seq<Operation>)
    requires LabOk(s)
    ensures LabOk(Run(s, ops))
  {
    hide LabOk, Step;
    if |ops| > 0 {
      RunKeeps(s, ops[..|ops| - 1]);
      StepKeeps(Run(s, ops[..|ops| - 1]), ops[|ops| - 1]);
    }
  }

  // ---- Main results ---------------------------------------------------------------------------

  /** In every reachable lab and for every holdout, exposed strategies share no ancestor and no family, and the
      number of exposures is the holdout's counter and within its budget. */
  lemma ExposuresStayExclusive(ops: seq<Operation>, i: nat, j: nat, h: string)
    ensures var s := Run(EmptyLab, ops);
      && (i < j < |s.queries| && s.queries[i].holdout == s.queries[j].holdout ==>
            && s.queries[i].family != s.queries[j].family
            && forall n :: !(Reaches(s.up, s.queries[i].strategy, n) && Reaches(s.up, s.queries[j].strategy, n)))
      && (h in s.holdouts ==> CountFor(s.queries, h) == s.holdouts[h].queries <= s.holdouts[h].budget)
  {
    hide Run;
    RunKeeps(EmptyLab, ops);
    var s := Run(EmptyLab, ops);
    if i < j < |s.queries| {
      assert Exclusive(s.up, s.queries[i], s.queries[j]);
    }
  }

  lemma StepFixesAncestors(s: Lab, op: Operation, a: string, n: string)
    requires LabOk(s) && a in s.objects
    ensures a in Step(s, op).objects && s.queries <= Step(s, op).queries
    ensures Reaches(Step(s, op).up, a, n) <==> Reaches(s.up, a, n)
  {
    if op.RegisterObject? && Register(s, op.item, op.actor).Success? {
      RegisterEffect(s, op.item, op.actor);
      if op.item.id !in s.objects {
        RegisterKeepsLineage(s, op.item, op.actor);
      }
    }
  }

  /** Nothing that happens later adds an ancestor to a registered object, or takes one away. */
  lemma {:induction false} AncestorsNeverChange(s: Lab, ops: seq<Operation>, a: string, n: string)
    requires LabOk(s) && a in s.objects
    ensures a in Run(s, ops).objects && s.queries <= Run(s, ops).queries
    ensures Reaches(Run(s, ops).up, a, n) <==> Reaches(s.up, a, n)
  {
    hide LabOk, Step;
    if |ops| > 0 {
      var front := ops[..|ops| - 1];
      AncestorsNeverChange(s, ops[..|ops| - 1], a, n);
      RunKeeps(s, front);
      StepFixesAncestors(Run(s, front), ops[|ops| - 1], a, n);
    }
  }

  /** Once a relative has been shown a holdout, every later request for it is refused, whatever is registered or
      recorded in between: no history makes the exposed relative's kin answerable again. */
  lemma RelativesAreRefusedForever(s: Lab, ops: seq<Operation>, shown: Query, asked: Query)
    requires LabOk(s) && shown in s.queries && asked.holdout == shown.holdout && asked.strategy != shown.strategy
    requires asked.strategy in s.objects && Related(s.up, asked.strategy, shown.strategy)
    ensures Sealed(Run(s, ops), asked).Failure?
  {
    hide Run, LabOk;
    var later := Run(s, ops);
    RunKeeps(s, ops);
    var n :| Reaches(s.up, asked.strategy, n) && Reaches(s.up, shown.strategy, n);
    assert shown.strategy in s.objects by { ShownIsRegistered(s, shown); }
    AncestorsNeverChange(s, ops, asked.strategy, n);
    AncestorsNeverChange(s, ops, shown.strategy, n);
    var i :| 0 <= i < |s.queries| && s.queries[i] == shown;
    assert later.queries[i] == shown && shown in later.queries;
    assert Related(later.up, asked.strategy, shown.strategy);
    if q :| q in later.queries && Answers(q, asked.holdout, asked.strategy) {
      RelatedNeverBothShown(later, q, shown);
      assert false;
    }
  }

  lemma RelatedNeverBothShown(s: Lab, a: Query, b: Query)
    requires LabOk(s) && a in s.queries && b in s.queries && a.holdout == b.holdout && a.strategy != b.strategy
    ensures !Related(s.up, a.strategy, b.strategy)
  {
    hide LineageOk, TagsFlowDown, Related;
    var i :| 0 <= i < |s.queries| && s.queries[i] == a;
    var j :| 0 <= j < |s.queries| && s.queries[j] == b;
    RelatedEitherWay(s.up, a.strategy, b.strategy);
    if i < j {
      assert Exclusive(s.up, s.queries[i], s.queries[j]);
    } else {
      assert i != j && Exclusive(s.up, s.queries[j], s.queries[i]);
    }
  }

  lemma ShownIsRegistered(s: Lab, shown: Query)
    requires LabOk(s) && shown in s.queries
    ensures shown.strategy in s.objects
  {}

  lemma {:induction false} TagsFollowPaths(s: Lab, p: seq<string>, d: string, a: string, tag: string)
    requires TagsFlowDown(s) && Joins(s.up, p, d, a) && (a, tag) in s.tags
    ensures (d, tag) in s.tags
  {
    if |p| > 1 {
      var rest := p[1..];
      assert (p[0], p[1]) in s.up;
      forall i | 0 <= i < |rest| - 1 ensures (rest[i], rest[i + 1]) in s.up {
        assert (p[i + 1], p[i + 2]) in s.up;
      }
      TagsFollowPaths(s, rest, p[1], a, tag);
      assert (p[1], tag) in s.tags;
    }
  }

  /** Every descendant of an exposed strategy is marked, whether it was registered before the exposure or after. */
  lemma DescendantsAreMarked(ops: seq<Operation>, shown: Query, d: string)
    requires shown in Run(EmptyLab, ops).queries && Reaches(Run(EmptyLab, ops).up, d, shown.strategy)
    ensures (d, SAW_SEALED) in Run(EmptyLab, ops).tags
  {
    hide Run;
    RunKeeps(EmptyLab, ops);
    var s := Run(EmptyLab, ops);
    var p :| Joins(s.up, p, d, shown.strategy);
    TagsFollowPaths(s, p, d, shown.strategy, SAW_SEALED);
  }

  /** A strategy gets one answer per holdout: asked again after any later history, the recorded answer comes back
      and nothing changes, or the request is refused. */
  lemma AnswersAreFinal(s: Lab, first: Query, ops: seq<Operation>, again: Query)
    requires LabOk(s) && Sealed(s, first).Success? && again.holdout == first.holdout && again.strategy == first.strategy
    ensures var later := Run(Sealed(s, first).value.0, ops);
      Sealed(later, again) == if SameRequest(first, again) then Success((later, Sealed(s, first).value.1))
                              else Failure(IdempotencyConflict)
  {
    var s', answer := Sealed(s, first).value.0, Sealed(s, first).value.1;
    AnswerIsRecorded(s, first);
    SealedKeeps(s, first);
    hide LabOk, Run, Sealed;
    var later := Run(s', ops);
    RunKeeps(s', ops);
    AncestorsNeverChange(s', ops, answer.strategy, answer.strategy) by {
      ShownIsRegistered(s', answer);
    }
    var i :| 0 <= i < |s'.queries| && s'.queries[i] == answer;
    assert later.queries[i] == answer;
    AnsweredFromTheLog(later, answer, again);
  }

  lemma AnswerIsRecorded(s: Lab, first: Query)
    requires Sealed(s, first).Success?
    ensures var s', answer := Sealed(s, first).value.0, Sealed(s, first).value.1;
      answer in s'.queries && Answers(answer, first.holdout, first.strategy) && SameRequest(answer, first)
  {
    hide Declared, Descendants, LineageSeen;
  }

  lemma AnsweredFromTheLog(s: Lab, answer: Query, again: Query)
    requires LabOk(s) && answer in s.queries && Answers(answer, again.holdout, again.strategy)
    ensures Sealed(s, again) == if SameRequest(answer, again) then Success((s, answer)) else Failure(IdempotencyConflict)
  {
    forall q | q in s.queries && Answers(q, again.holdout, again.strategy) ensures q == answer {
      OneAnswer(s, q, answer);
    }
    hide LabOk, Declared, Descendants, LineageSeen;
  }

  lemma OneAnswer(s: Lab, a: Query, b: Query)
    requires LabOk(s) && a in s.queries && b in s.queries && a.holdout == b.holdout && a.strategy == b.strategy
    ensures a == b
  {
    var i :| 0 <= i < |s.queries| && s.queries[i] == a;
    var j :| 0 <= j < |s.queries| && s.queries[j] == b;
    if i < j {
      StrategiesDiffer(s, i, j);
    } else if j < i {
      StrategiesDiffer(s, j, i);
    }
  }

  lemma StrategiesDiffer(s: Lab, i: nat, j: nat)
    requires LabOk(s) && i < j < |s.queries| && s.queries[i].holdout == s.queries[j].holdout
    ensures s.queries[i].strategy != s.queries[j].strategy
  {
    ReachesSelf(s.up, s.queries[i].strategy);
    assert Exclusive(s.up, s.queries[i], s.queries[j]);
  }

  // ---- Declared trials ------------------------------------------------------------------------

  ghost predicate TrialsOk(s: Lab) {
    && (forall id | id in s.trials :: s.trials[id].id == id && s.trials[id].strategy in s.objects)
    && (forall id | id in s.trials && s.trials[id].infrastructureRetry :: RepeatsTrial(s, s.trials[id]))
    && (forall id | id in s.trials && !s.trials[id].infrastructureRetry :: s.trials[id].retryOf.None?)
  }

  ghost predicate ExposuresDeclared(s: Lab) {
    forall q | q in s.queries :: Declared(s, q.strategy, q.family)
  }

  /** Later rows never take a declaration back. */
  lemma DeclaredStays(s: Lab, s': Lab, strategy: string, family: string)
    requires Declared(s, strategy, family) && s.trials.Keys <= s'.trials.Keys && s.objects.Keys <= s'.objects.Keys
    requires forall id | id in s.trials :: s'.trials[id] == s.trials[id]
    requires forall id | id in s.objects :: s'.objects[id] == s.objects[id]
    ensures Declared(s', strategy, family)
  {
    var id :| id in s.trials && s.trials[id].strategy == strategy && s.trials[id].family == family
      && s.trials[id].campaign == s.objects[strategy].item.campaign && !s.trials[id].infrastructureRetry;
    assert s'.trials[id] == s.trials[id];
  }

  lemma StepOnlyAdds(s: Lab, op: Operation)
    ensures var s' := Step(s, op);
      && s.trials.Keys <= s'.trials.Keys && s.objects.Keys <= s'.objects.Keys
      && (forall id | id in s.trials :: s'.trials[id] == s.trials[id])
      && (forall id | id in s.objects :: s'.objects[id] == s.objects[id])
  {}

  lemma StepKeepsTrials(s: Lab, op: Operation)
    requires TrialsOk(s) && ExposuresDeclared(s)
    ensures TrialsOk(Step(s, op)) && ExposuresDeclared(Step(s, op))
  {
    StepOnlyAdds(s, op);
    hide Declared, Related, Descendants, LineageSeen;
    var s' := Step(s, op);
    forall q | q in s'.queries ensures Declared(s', q.strategy, q.family) {
      if q in s.queries {
        DeclaredStays(s, s', q.strategy, q.family);
      } else {
        DeclaredStays(s, s', op.asked.strategy, op.asked.family);
      }
    }
  }

  /** In every reachable lab an infrastructure retry repeats the recorded trial it names, nothing else claims to be a
      retry, and whatever was exposed had been declared by a trial that is no such retry. */
  lemma {:induction false} RetriesChangeNoScience(ops: seq<Operation>)
    ensures TrialsOk(Run(EmptyLab, ops)) && ExposuresDeclared(Run(EmptyLab, ops))
  {
    hide Step, TrialsOk, ExposuresDeclared;
    if |ops| > 0 {
      RetriesChangeNoScience(ops[..|ops| - 1]);
      StepKeepsTrials(Run(EmptyLab, ops[..|ops| - 1]), ops[|ops| - 1]);
    } else {
      NoTrialsYet();
    }
  }

  lemma NoTrialsYet()
    ensures TrialsOk(EmptyLab) && ExposuresDeclared(EmptyLab)
  {}

  // ---- The tables and the transactions --------------------------------------------------------

  function Reversed(edges: Edges): Edges {
    set e | e in edges :: (e.1, e.0)
  }

  lemma {:induction false} PathReversed(edges: Edges, p: seq<string>, a: string, b: string)
    requires Joins(edges, p, a, b)
    ensures Reaches(Reversed(edges), b, a)
  {
    if |p| == 1 {
      ReachesSelf(Reversed(edges), a);
    } else {
      var rest := p[1..];
      assert (p[0], p[1]) in edges;
      forall i | 0 <= i < |rest| - 1 ensures (rest[i], rest[i + 1]) in edges {
        assert (p[i + 1], p[i + 2]) in edges;
      }
      PathReversed(edges, rest, p[1], b);
      assert (p[1], p[0]) in Reversed(edges);
      EdgeReaches(Reversed(edges), p[1], p[0]);
      ReachesTransitively(Reversed(edges), b, p[1], a);
    }
  }

  lemma ReachesReversed(edges: Edges, a: string, b: string)
    ensures Reaches(Reversed(edges), a, b) <==> Reaches(edges, b, a)
  {
    if Reaches(Reversed(edges), a, b) {
      var p :| Joins(Reversed(edges), p, a, b);
      PathReversed(Reversed(edges), p, a, b);
      assert Reversed(Reversed(edges)) == edges;
    }
    if Reaches(edges, b, a) {
      var p :| Joins(edges, p, b, a);
      PathReversed(edges, p, b, a);
    }
  }

  class ResearchStore {
    var artifacts: set<string>
    var objects: map<string, Registration>
    var up: Edges
    var tags: set<(string, string)>
    var trials: map<string, Trial>
    var holdouts: map<string, Holdout>
    var queries: seq<Query>

    function Contents(): Lab
      reads this
    {
      Lab(artifacts, objects, up, tags, trials, holdouts, queries)
    }

    constructor ()
      ensures Contents() == EmptyLab
    {
      artifacts, objects, up, tags, trials, holdouts, queries := {}, map[], {}, {}, map[], map[], [];
    }

    method RegisterObject(o: ResearchObject, actor: string) returns (error: Option<ResearchError>)
      modifies this
      ensures error.None? <==> Register(old(Contents()), o, actor).Success?
      ensures error.Some? ==> Register(old(Contents()), o, actor) == Failure(error.value) && Contents() == old(Contents())
      ensures error.None? ==> Contents() == Register(old(Contents()), o, actor).value
    {
      hide EdgesOf, Inherited, KnownParent, LegalEdge;
      ghost var s := Contents();
      NoParents(tags, o);
      if o.artifact !in artifacts { return Some(NotFound); }
      for i := 0 to |o.parents|
        invariant Contents() == s
        invariant forall k | 0 <= k < i :: KnownParent(Contents(), o, o.parents[k])
      {
        if !KnownParent(Contents(), o, o.parents[i]) { return Some(UnknownParent); }
      }
      if o.id in objects && objects[o.id] != Registration(o, actor) { return Some(IdempotencyConflict); }
      var edges, marked := up, tags;
      for i := 0 to |o.parents|
        invariant Contents() == s
        invariant forall k | 0 <= k < i :: LegalEdge(o, o.parents[k])
        invariant edges == up + EdgesOf(o.(parents := o.parents[..i]))
        invariant marked == tags + Inherited(tags, o.(parents := o.parents[..i]))
      {
        var p := o.parents[i];
        if !LegalEdge(o, p) { return Some(ConstraintViolation); }
        NotOwnParent(o, p);
        edges := edges + {(o.id, p.parent)};
        marked := marked + set t | t in marked && t.0 == p.parent :: (o.id, t.1);
        OneMoreParent(tags, o, i);
      }
      assert o.(parents := o.parents[..|o.parents|]) == o;
      objects, up, tags := objects[o.id := Registration(o, actor)], edges, marked;
      return Option.None;
    }

    lemma NoParents(tags: set<(string, string)>, o: ResearchObject)
      ensures EdgesOf(o.(parents := o.parents[..0])) == {} && Inherited(tags, o.(parents := o.parents[..0])) == {}
    {}

    lemma NotOwnParent(o: ResearchObject, p: Parentage)
      requires LegalEdge(o, p)
      ensures p.parent != o.id
    {}

    lemma OneMoreParent(tags: set<(string, string)>, o: ResearchObject, i: nat)
      requires i < |o.parents| && o.parents[i].parent != o.id
      ensures var before, now := o.(parents := o.parents[..i]), o.(parents := o.parents[..i + 1]);
        && EdgesOf(now) == EdgesOf(before) + {(o.id, o.parents[i].parent)}
        && tags + Inherited(tags, now)
             == (tags + Inherited(tags, before))
                + set t | t in tags + Inherited(tags, before) && t.0 == o.parents[i].parent :: (o.id, t.1)
    {
      var before, now := o.(parents := o.parents[..i]), o.(parents := o.parents[..i + 1]);
      assert now.parents == before.parents + [o.parents[i]];
      forall t | t in Inherited(tags, now) ensures
        t in (tags + Inherited(tags, before))
                + set t | t in tags + Inherited(tags, before) && t.0 == o.parents[i].parent :: (o.id, t.1)
      {
        var p, u :| p in now.parents && u in tags && u.0 == p.parent && t == (o.id, u.1);
        if p in before.parents {
          assert t in Inherited(tags, before);
        }
      }
      forall t | t in tags + Inherited(tags, before) && t.0 == o.parents[i].parent
        ensures (o.id, t.1) in Inherited(tags, now)
      {
        assert t in tags;
        assert o.parents[i] in now.parents;
      }
    }

    method DeclareTrial(t: Trial) returns (error: Option<ResearchError>)
      modifies this
      ensures match RecordTrial(old(Contents()), t)
              case Success(s') => error.None? && Contents() == s'
              case Failure(e) => error == Some(e) && Contents() == old(Contents())
    {
      if t.strategy !in objects || objects[t.strategy].item.campaign != t.campaign { return Some(InvalidTrialLineage); }
      if t.infrastructureRetry {
        if !RepeatsTrial(Contents(), t) { return Some(NotARetry); }
      } else if t.retryOf.Some? {
        return Some(RetryClassificationRequired);
      }
      if t.id in trials { return if trials[t.id] == t then Option.None else Some(IdempotencyConflict); }
      trials := trials[t.id := t];
      return Option.None;
    }

    method Ask(asked: Query) returns (r: Result<Query, ResearchError>)
      requires LabOk(Contents())
      modifies this
      ensures r.Failure? ==> Sealed(old(Contents()), asked) == Failure(r.error) && Contents() == old(Contents())
      ensures r.Success? ==> Sealed(old(Contents()), asked) == Success((Contents(), r.value))
    {
      hide Acyclic, TagsFlowDown;
      ghost var s := Contents();
      for i := 0 to |queries|
        invariant Contents() == s
        invariant forall k | 0 <= k < i :: !Answers(queries[k], asked.holdout, asked.strategy)
      {
        if Answers(queries[i], asked.holdout, asked.strategy) {
          forall q | q in queries && Answers(q, asked.holdout, asked.strategy) ensures q == queries[i] {
            OneAnswer(s, q, queries[i]);
          }
          return if SameRequest(queries[i], asked) then Success(queries[i]) else Failure(IdempotencyConflict);
        }
      }
      if !Open(Contents(), asked.holdout, asked.strategy, asked.family) { return Failure(Unavailable); }
      if !Declared(Contents(), asked.strategy, asked.family) { return Failure(TrialNotDeclared); }
      if FamilySeen(Contents(), asked.holdout, asked.family) { return Failure(FamilyExposed); }
      var current := Closure(up, asked.strategy);
      for i := 0 to |queries|
        invariant Contents() == s
        invariant forall k | 0 <= k < i ::
          queries[k].holdout == asked.holdout && queries[k].strategy != asked.strategy ==>
            !Related(up, asked.strategy, queries[k].strategy)
      {
        if queries[i].holdout == asked.holdout && queries[i].strategy != asked.strategy {
          var prior := Closure(up, queries[i].strategy);
          if !(current !! prior) {
            var n :| n in current && n in prior;
            assert Related(up, asked.strategy, queries[i].strategy);
            return Failure(LineageExposed);
          }
        }
      }
      var descendants := Closure(Reversed(up), asked.strategy);
      DescendantsByReverse(s, asked.strategy, descendants);
      var h := holdouts[asked.holdout];
      queries := queries + [asked];
      holdouts := holdouts[asked.holdout := h.(queries := h.queries + 1)];
      tags := tags + set d | d in descendants :: (d, SAW_SEALED);
      return Success(asked);
    }

    lemma DescendantsByReverse(s: Lab, strategy: string, found: set<string>)
      requires LabOk(s) && strategy in s.objects
      requires forall n :: n in found <==> Reaches(Reversed(s.up), strategy, n)
      ensures found == Descendants(s, strategy)
    {
      forall n ensures n in found <==> n in Descendants(s, strategy) {
        ReachesReversed(s.up, strategy, n);
        if Reaches(s.up, n, strategy) {
          var p :| Joins(s.up, p, n, strategy);
          assert |p| > 1 ==> (p[0], p[1]) in s.up;
        }
      }
    }
  }
}
