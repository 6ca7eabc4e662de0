/** The hash-chained event log: compare-and-set transitions, idempotent retries, and the audit that rebuilds state. */
module EventStore {
  import opened Prelude

  datatype Scalar = Number(n: int) | Text(text: string)

  /** A state document; only the members the log itself reads are told apart from the rest. */
  datatype Document = Document(
    gateId: Option<Scalar>, branchId: Option<string>, strategyVersionId: Option<string>, content: string)

  datatype Actor = Actor(principal: string, role: string, code: string, capabilities: set<string>)

  datatype Request = Request(
    kind: string, id: string, expectedVersion: nat, state: Document, eventType: string, actor: string,
    task: string, policy: string, evidence: seq<string>, artifacts: seq<string>, metadata: string)

  /** Everything hashed except the gate id, whose column keeps only its text. */
  datatype Body = Body(
    eventId: string, eventType: string, occurredAt: int, kind: string, id: string, version: nat, principal: string,
    actorType: string, task: string, branchId: Option<string>, strategyVersionId: Option<string>,
    artifacts: seq<string>, evidence: seq<string>, policy: string, code: string, environment: string,
    metadata: string, stateAfter: Document, previousHash: string, operationKey: string, operationHash: string)

  datatype Envelope = Envelope(body: Body, gateId: Option<Scalar>)

  datatype Event = Event(body: Body, gateText: Option<string>, eventHash: string)

  type Key = (string, string)

  datatype Projection = Projection(version: nat, state: Document)

  datatype Log = Log(
    events: seq<Event>, aggregates: map<Key, Projection>, evidence: set<string>, artifacts: set<string>)

  datatype StoreError =
    | Forbidden | InvalidTransition | IdempotencyConflict | ConcurrentModification | UnknownEvidence | UnknownArtifact
    | GateProjectionMismatch | IntegrityFailure | RevisionGap | ProjectionDrift

  const GENESIS := "GENESIS"

  /** The two uses of the content hash, and the environment the store runs in. */
  datatype Hashing = Hashing(envelope: Envelope -> string, request: Request -> string, environment: string)

  function Digits(n: nat): string {
    if n < 10 then ["0123456789"[n]] else Digits(n / 10) + ["0123456789"[n % 10]]
  }

  function Shown(x: Scalar): string {
    match x
    case Text(t) => t
    case Number(n) => if n < 0 then "-" + Digits(-n) else Digits(n)
  }

  function GateText(d: Document): Option<string> {
    if d.gateId.Some? then Some(Shown(d.gateId.value)) else None
  }

  // ---- Transitions ----------------------------------------------------------------------------

  datatype Call = Call(
    actor: Actor, capability: string, request: Request, operationKey: string, eventId: string, now: int)

  function HeadOf(events: seq<Event>): string {
    if |events| == 0 then GENESIS else events[|events| - 1].eventHash
  }

  function VersionOf(aggregates: map<Key, Projection>, key: Key): nat {
    if key in aggregates then aggregates[key].version else 0
  }

  predicate UsesKey(events: seq<Event>, operationKey: string) {
    exists e | e in events :: e.body.operationKey == operationKey
  }

  function EnvelopeOf(h: Hashing, events: seq<Event>, version: nat, c: Call): Envelope {
    var r := c.request;
    Envelope(Body(c.eventId, r.eventType, c.now, r.kind, r.id, version, c.actor.principal,
      if c.actor.role == "owner" then "human" else "deterministic_service", r.task, r.state.branchId,
      r.state.strategyVersionId, r.artifacts, r.evidence, r.policy, c.actor.code, h.environment, r.metadata, r.state,
      HeadOf(events), c.operationKey, h.request(r)), r.state.gateId)
  }

  function Stored(h: Hashing, e: Envelope): Event {
    Event(e.body, if e.gateId.Some? then Some(Shown(e.gateId.value)) else None, h.envelope(e))
  }

  function Append(h: Hashing, s: Log, c: Call): Log {
    var key, version := (c.request.kind, c.request.id), VersionOf(s.aggregates, (c.request.kind, c.request.id)) + 1;
    s.(events := s.events + [Stored(h, EnvelopeOf(h, s.events, version, c))],
       aggregates := s.aggregates[key := Projection(version, c.request.state)])
  }

  /** Refusals before the log is looked at. */
  function Screen(c: Call): Option<StoreError> {
    if c.capability !in c.actor.capabilities then Some(Forbidden)
    else if c.request.kind == "" || c.request.id == "" || c.operationKey == "" || c.request.task == "" || c.request.policy == ""
    then Some(InvalidTransition)
    else None
  }

  function Fresh(h: Hashing, s: Log, c: Call): Result<Log, StoreError> {
    var r := c.request;
    if r.expectedVersion != VersionOf(s.aggregates, (r.kind, r.id)) then Failure(ConcurrentModification)
    else if exists e | e in r.evidence :: e !in s.evidence then Failure(UnknownEvidence)
    else if exists a | a in r.artifacts :: a !in s.artifacts then Failure(UnknownArtifact)
    else Success(Append(h, s, c))
  }

  /** The log after a call. A repeated operation key returns the recorded event or is refused; it never appends. */
  function Transition(h: Hashing, s: Log, c: Call): Result<Log, StoreError> {
    if Screen(c).Some? then Failure(Screen(c).value)
    else if UsesKey(s.events, c.operationKey) then
      if exists e | e in s.events :: e.body.operationKey == c.operationKey && e.body.operationHash == h.request(c.request)
      then Success(s) else Failure(IdempotencyConflict)
    else Fresh(h, s, c)
  }

  function Attempt(h: Hashing, s: Log, c: Call): Log {
    match Transition(h, s, c) case Success(s') => s' case Failure(_) => s
  }

  function Play(h: Hashing, s: Log, calls: seq<Call>): Log {
    if |calls| == 0 then s else Attempt(h, Play(h, s, calls[..|calls| - 1]), calls[|calls| - 1])
  }

  // ---- Audit ----------------------------------------------------------------------------------

  datatype Rebuilt = Rebuilt(head: string, projections: map<Key, Projection>)

  function KeyOf(e: Event): Key {
    (e.body.kind, e.body.id)
  }

  /** The envelope as it was hashed: the gate id comes back from the state document with its own type. */
  function Reopened(e: Event): Envelope {
    Envelope(e.body, e.body.stateAfter.gateId)
  }

  function AuditEvent(h: Hashing, r: Rebuilt, e: Event): Result<Rebuilt, StoreError> {
    if e.gateText != GateText(e.body.stateAfter) then Failure(GateProjectionMismatch)
    else if e.body.previousHash != r.head || h.envelope(Reopened(e)) != e.eventHash then Failure(IntegrityFailure)
    else if e.body.version != VersionOf(r.projections, KeyOf(e)) + 1 then Failure(RevisionGap)
    else Success(Rebuilt(e.eventHash, r.projections[KeyOf(e) := Projection(e.body.version, e.body.stateAfter)]))
  }

  function AuditEvents(h: Hashing, events: seq<Event>): Result<Rebuilt, StoreError> {
    if |events| == 0 then Success(Rebuilt(GENESIS, map[]))
    else match AuditEvents(h, events[..|events| - 1])
      case Failure(e) => Failure(e)
      case Success(r) => AuditEvent(h, r, events[|events| - 1])
  }

  datatype Report = Report(events: nat, head: string, aggregates: nat)

  function Audit(h: Hashing, s: Log): Result<Report, StoreError> {
    match AuditEvents(h, s.events)
    case Failure(e) => Failure(e)
    case Success(r) =>
      if r.projections != s.aggregates then Failure(ProjectionDrift)
      else Success(Report(|s.events|, r.head, |r.projections|))
  }

  // ---- What an audited log is -----------------------------------------------------------------

  function Count(events: seq<Event>, key: Key): nat {
    if |events| == 0 then 0
    else Count(events[..|events| - 1], key) + if KeyOf(events[|events| - 1]) == key then 1 else 0
  }

  /** Event `i` links to its predecessor, hashes to what it says, and is the next version of its aggregate. */
  ghost predicate Genuine(h: Hashing, events: seq<Event>, i: nat)
    requires i < |events|
  {
    var e := events[i];
    && e.body.previousHash == HeadOf(events[..i]) && e.eventHash == h.envelope(Reopened(e))
    && e.gateText == GateText(e.body.stateAfter) && e.body.version == Count(events[..i], KeyOf(e)) + 1
  }

  /** The last word of the log about an aggregate. */
  function Latest(events: seq<Event>, key: Key): Option<Projection> {
    if |events| == 0 then None
    else
      var last := events[|events| - 1];
      if KeyOf(last) == key then Some(Projection(last.body.version, last.body.stateAfter))
      else Latest(events[..|events| - 1], key)
  }

  ghost predicate ProjectsLatest(events: seq<Event>, aggregates: map<Key, Projection>) {
    forall key :: (key in aggregates <==> Latest(events, key).Some?)
      && (key in aggregates ==> Latest(events, key) == Some(aggregates[key]))
  }

  ghost predicate AllGenuine(h: Hashing, events: seq<Event>) {
    forall i | 0 <= i < |events| :: Genuine(h, events, i)
  }

  lemma GenuinePrefix(h: Hashing, events: seq<Event>, i: nat)
    requires i < |events| - 1
    ensures Genuine(h, events[..|events| - 1], i) <==> Genuine(h, events, i)
  {
    assert events[..|events| - 1][..i] == events[..i];
  }

  lemma AllGenuineSplits(h: Hashing, events: seq<Event>)
    requires |events| > 0
    ensures AllGenuine(h, events) <==> AllGenuine(h, events[..|events| - 1]) && Genuine(h, events, |events| - 1)
  {
    hide Genuine;
    var front := events[..|events| - 1];
    if AllGenuine(h, events) {
      forall i | 0 <= i < |front| ensures Genuine(h, front, i) {
        GenuinePrefix(h, events, i);
      }
    }
    if AllGenuine(h, front) && Genuine(h, events, |events| - 1) {
      forall i | 0 <= i < |events| ensures Genuine(h, events, i) {
        if i < |front| {
          GenuinePrefix(h, events, i);
        }
      }
    }
  }

  lemma {:induction false} VersionsCount(h: Hashing, events: seq<Event>, aggregates: map<Key, Projection>, key: Key)
    requires AllGenuine(h, events) && ProjectsLatest(events, aggregates)
    ensures VersionOf(aggregates, key) == Count(events, key)
  {
    LatestCounts(h, events, key);
  }

  lemma {:induction false} LatestCounts(h: Hashing, events: seq<Event>, key: Key)
    requires AllGenuine(h, events)
    ensures Count(events, key) == if Latest(events, key).Some? then Latest(events, key).value.version else 0
  {
    if |events| > 0 {
      AllGenuineSplits(h, events);
      assert Genuine(h, events, |events| - 1);
      LatestCounts(h, events[..|events| - 1], key);
    }
  }

  lemma {:induction false} AuditEventsExactly(h: Hashing, events: seq<Event>)
    ensures AuditEvents(h, events).Success? <==> AllGenuine(h, events)
    ensures AuditEvents(h, events).Success? ==>
      var r := AuditEvents(h, events).value; r.head == HeadOf(events) && ProjectsLatest(events, r.projections)
  {
    if |events| > 0 {
      var front, last := events[..|events| - 1], events[|events| - 1];
      AuditEventsExactly(h, front);
      AllGenuineSplits(h, events);
      if AuditEvents(h, front).Success? {
        VersionsCount(h, front, AuditEvents(h, front).value.projections, KeyOf(last));
      }
    }
  }

  lemma SameProjections(events: seq<Event>, a: map<Key, Projection>, b: map<Key, Projection>)
    requires ProjectsLatest(events, a)
    ensures a == b <==> ProjectsLatest(events, b)
  {
    if ProjectsLatest(events, b) {
      forall key ensures key in a <==> key in b {}
      forall key | key in a ensures a[key] == b[key] {}
    }
  }

  /** The audit accepts exactly the logs whose every event is genuine and whose projections are the last words. */
  lemma AuditAcceptsExactly(h: Hashing, s: Log)
    ensures Audit(h, s).Success? <==> AllGenuine(h, s.events) && ProjectsLatest(s.events, s.aggregates)
    ensures Audit(h, s).Success? ==> Audit(h, s).value == Report(|s.events|, HeadOf(s.events), |s.aggregates|)
  {
    hide AllGenuine, ProjectsLatest, AuditEvents;
    AuditEventsExactly(h, s.events);
    if AuditEvents(h, s.events).Success? {
      SameProjections(s.events, AuditEvents(h, s.events).value.projections, s.aggregates);
    }
  }

  // ---- Transitions keep the log auditable -----------------------------------------------------

  ghost predicate OneEventPerKey(events: seq<Event>) {
    forall i, j | 0 <= i < j < |events| :: events[i].body.operationKey != events[j].body.operationKey
  }

  ghost predicate LogOk(h: Hashing, s: Log) {
    AllGenuine(h, s.events) && ProjectsLatest(s.events, s.aggregates) && OneEventPerKey(s.events)
  }

  lemma AppendKeeps(h: Hashing, s: Log, c: Call)
    requires LogOk(h, s) && !UsesKey(s.events, c.operationKey)
    ensures LogOk(h, Append(h, s, c))
  {
    hide OneEventPerKey;
    var s' := Append(h, s, c);
    assert s'.events[..|s.events|] == s.events;
    AllGenuineSplits(h, s'.events);
    VersionsCount(h, s.events, s.aggregates, (c.request.kind, c.request.id));
    hide AllGenuine;
    assert OneEventPerKey(s'.events) by { FreshKey(s.events, s'.events[|s.events|]); }
  }

  lemma FreshKey(events: seq<Event>, e: Event)
    requires OneEventPerKey(events) && !UsesKey(events, e.body.operationKey)
    ensures OneEventPerKey(events + [e])
  {}

  lemma TransitionKeeps(h: Hashing, s: Log, c: Call)
    requires LogOk(h, s)
    ensures LogOk(h, Attempt(h, s, c))
    ensures s.events <= Attempt(h, s, c).events
  {
    hide LogOk, Append;
    if !UsesKey(s.events, c.operationKey) {
      AppendKeeps(h, s, c);
    }
    assert s.events <= Attempt(h, s, c).events by { AppendOnly(h, s, c); }
  }

  lemma AppendOnly(h: Hashing, s: Log, c: Call)
    ensures s.events <= Append(h, s, c).events
  {}

  lemma {:induction false} PlayKeeps(h: Hashing, s: Log, calls: seq<Call>)
    requires LogOk(h, s)
    ensures LogOk(h, Play(h, s, calls)) && s.events <= Play(h, s, calls).events
  {
    hide LogOk, Attempt;
    if |calls| > 0 {
      PlayKeeps(h, s, calls[..|calls| - 1]);
      TransitionKeeps(h, Play(h, s, calls[..|calls| - 1]), calls[|calls| - 1]);
    }
  }

  ghost predicate Empty(s: Log) {
    s.events == [] && s.aggregates == map[]
  }

  /** Whatever calls are made, in whatever order and however often repeated, the log they leave audits clean, the
      projections are the log's last words, and each aggregate's versions count its events without a gap. */
  lemma EveryHistoryAudits(h: Hashing, s: Log, calls: seq<Call>, key: Key)
    requires Empty(s)
    ensures var s' := Play(h, s, calls);
      && Audit(h, s') == Success(Report(|s'.events|, HeadOf(s'.events), |s'.aggregates|))
      && ProjectsLatest(s'.events, s'.aggregates)
      && VersionOf(s'.aggregates, key) == Count(s'.events, key)
      && forall i | 0 <= i < |s'.events| :: s'.events[i].body.version == Count(s'.events[..i], KeyOf(s'.events[i])) + 1
  {
    hide Play;
    PlayKeeps(h, s, calls);
    var s' := Play(h, s, calls);
    AuditAcceptsExactly(h, s');
    VersionsCount(h, s'.events, s'.aggregates, key);
    forall i | 0 <= i < |s'.events|
      ensures s'.events[i].body.version == Count(s'.events[..i], KeyOf(s'.events[i])) + 1
    {
      assert Genuine(h, s'.events, i);
    }
  }

  /** After a call is accepted, making it again later succeeds and changes nothing, and reusing its key for a
      request with another hash is refused. */
  lemma RetriesAddNothing(h: Hashing, s: Log, c: Call, calls: seq<Call>, again: Call)
    requires LogOk(h, s) && Transition(h, s, c).Success?
    requires again.operationKey == c.operationKey && Screen(again).None?
    ensures var s' := Play(h, Attempt(h, s, c), calls);
      Transition(h, s', again)
        == if h.request(again.request) == h.request(c.request) then Success(s') else Failure(IdempotencyConflict)
  {
    var s1 := Attempt(h, s, c);
    var e := RecordedOnce(h, s, c);
    hide Transition, Attempt, Play;
    TransitionKeeps(h, s, c);
    PlayKeeps(h, s1, calls);
    var s' := Play(h, s1, calls);
    assert e in s'.events;
    forall other | other in s'.events && other.body.operationKey == c.operationKey ensures other == e {
      SameKeySameEvent(s'.events, e, other);
    }
    TransitionOnUsedKey(h, s', again, e);
  }

  lemma SameKeySameEvent(events: seq<Event>, a: Event, b: Event)
    requires OneEventPerKey(events) && a in events && b in events && a.body.operationKey == b.body.operationKey
    ensures a == b
  {}

  lemma RecordedOnce(h: Hashing, s: Log, c: Call) returns (e: Event)
    requires Transition(h, s, c).Success?
    ensures e in Attempt(h, s, c).events
    ensures e.body.operationKey == c.operationKey && e.body.operationHash == h.request(c.request)
  {
    if UsesKey(s.events, c.operationKey) {
      e :| e in s.events && e.body.operationKey == c.operationKey && e.body.operationHash == h.request(c.request);
    } else {
      var s' := Attempt(h, s, c);
      e := s'.events[|s.events|];
    }
  }

  lemma TransitionOnUsedKey(h: Hashing, s: Log, c: Call, e: Event)
    requires Screen(c).None? && e in s.events && e.body.operationKey == c.operationKey
    requires forall other | other in s.events && other.body.operationKey == c.operationKey :: other == e
    ensures Transition(h, s, c)
      == if h.request(c.request) == e.body.operationHash then Success(s) else Failure(IdempotencyConflict)
  {}

  /** A call of `second`'s own request, or one under another key: no one else takes its operation key. */
  ghost predicate KeyIsOwn(second: Call, calls: seq<Call>) {
    forall c | c in calls && c.operationKey == second.operationKey :: c.request == second.request
  }

  /** The version `second` read has been overtaken, and its key was never written. */
  ghost predicate Overtaken(s: Log, second: Call) {
    && !UsesKey(s.events, second.operationKey)
    && VersionOf(s.aggregates, (second.request.kind, second.request.id)) > second.request.expectedVersion
  }

  lemma AppendMoves(h: Hashing, s: Log, c: Call, key: Key, operationKey: string)
    ensures VersionOf(Append(h, s, c).aggregates, key)
         == VersionOf(s.aggregates, key) + if key == (c.request.kind, c.request.id) then 1 else 0
    ensures UsesKey(Append(h, s, c).events, operationKey) <==> UsesKey(s.events, operationKey) || operationKey == c.operationKey
  {
    var s' := Append(h, s, c);
    var e := s'.events[|s.events|];
    assert e in s'.events && forall other | other in s'.events :: other in s.events || other == e;
    assert forall other | other in s.events :: other in s'.events;
  }

  lemma StaysOvertaken(h: Hashing, s: Log, second: Call, c: Call)
    requires Overtaken(s, second) && (c.operationKey == second.operationKey ==> c.request == second.request)
    ensures Overtaken(Attempt(h, s, c), second)
  {
    AppendMoves(h, s, c, (second.request.kind, second.request.id), second.operationKey);
    hide Append, UsesKey, VersionOf;
  }

  lemma {:induction false} PlayStaysOvertaken(h: Hashing, s: Log, second: Call, calls: seq<Call>)
    requires Overtaken(s, second) && KeyIsOwn(second, calls)
    ensures Overtaken(Play(h, s, calls), second)
  {
    hide Attempt, Overtaken;
    if |calls| > 0 {
      PlayStaysOvertaken(h, s, second, calls[..|calls| - 1]);
      StaysOvertaken(h, Play(h, s, calls[..|calls| - 1]), second, calls[|calls| - 1]);
    }
  }

  /** Compare-and-set: of two callers who read the same version, the second to arrive is refused, whatever calls come
      between them and however often it retries. */
  lemma NoLostUpdate(h: Hashing, s: Log, first: Call, calls: seq<Call>, second: Call)
    requires !UsesKey(s.events, first.operationKey) && !UsesKey(s.events, second.operationKey)
    requires first.operationKey != second.operationKey && Screen(second).None? && KeyIsOwn(second, calls)
    requires first.request.kind == second.request.kind && first.request.id == second.request.id
    requires first.request.expectedVersion == second.request.expectedVersion
    requires Transition(h, s, first).Success?
    ensures Transition(h, Play(h, Attempt(h, s, first), calls), second) == Failure(ConcurrentModification)
  {
    AppendMoves(h, s, first, (second.request.kind, second.request.id), second.operationKey);
    hide Append, UsesKey, VersionOf, Play;
    PlayStaysOvertaken(h, Attempt(h, s, first), second, calls);
  }

  // ---- Tampering ------------------------------------------------------------------------------

  /** Two events of these very logs that say different things under one hash. */
  ghost predicate Clash(a: seq<Event>, b: seq<Event>, i: int, j: int)
    requires 0 <= i < |a| && 0 <= j < |b|
  {
    Reopened(a[i]) != Reopened(b[j]) && a[i].eventHash == b[j].eventHash
  }

  ghost predicate SomeClash(a: seq<Event>, b: seq<Event>) {
    exists i, j | 0 <= i < |a| && 0 <= j < |b| :: Clash(a, b, i, j)
  }

  /** An event of the log hashes to the marker of an empty log. */
  ghost predicate HashesToGenesis(events: seq<Event>) {
    exists e | e in events :: e.eventHash == GENESIS
  }

  lemma ClashInPrefixes(a: seq<Event>, b: seq<Event>)
    requires |a| > 0 && |b| > 0
    ensures SomeClash(a[..|a| - 1], b[..|b| - 1]) ==> SomeClash(a, b)
    ensures HashesToGenesis(a[..|a| - 1]) ==> HashesToGenesis(a)
    ensures HashesToGenesis(b[..|b| - 1]) ==> HashesToGenesis(b)
  {
    var a1, b1 := a[..|a| - 1], b[..|b| - 1];
    if SomeClash(a1, b1) {
      var i, j :| 0 <= i < |a1| && 0 <= j < |b1| && Clash(a1, b1, i, j);
      assert Clash(a, b, i, j);
    }
  }

  /** A verified head fixes the whole history: two logs that both audit clean under the same head hash are the same
      log, event by event and field by field; otherwise the logs themselves hold two different events with one hash,
      or an event that hashes to the genesis marker. */
  lemma {:induction false} HeadFixesHistory(h: Hashing, a: seq<Event>, b: seq<Event>)
    requires AllGenuine(h, a) && AllGenuine(h, b) && HeadOf(a) == HeadOf(b)
    ensures a == b || SomeClash(a, b) || HashesToGenesis(a) || HashesToGenesis(b)
  {
    if |a| > 0 && |b| > 0 {
      var x, y := a[|a| - 1], b[|b| - 1];
      assert Genuine(h, a, |a| - 1) && Genuine(h, b, |b| - 1);
      if Reopened(x) == Reopened(y) {
        AllGenuineSplits(h, a);
        AllGenuineSplits(h, b);
        HeadFixesHistory(h, a[..|a| - 1], b[..|b| - 1]);
        ClashInPrefixes(a, b);
        assert a == a[..|a| - 1] + [x] && b == b[..|b| - 1] + [y];
      } else {
        assert Clash(a, b, |a| - 1, |b| - 1);
      }
    } else if |a| > 0 {
      assert a[|a| - 1] in a;
    } else if |b| > 0 {
      assert b[|b| - 1] in b;
    }
  }

  lemma VerifiedHeadFixesTheStore(h: Hashing, a: Log, b: Log)
    requires Audit(h, a).Success? && Audit(h, b).Success? && Audit(h, a).value.head == Audit(h, b).value.head
    ensures (a.events == b.events && a.aggregates == b.aggregates) || SomeClash(a.events, b.events)
            || HashesToGenesis(a.events) || HashesToGenesis(b.events)
  {
    hide AllGenuine, SomeClash, HashesToGenesis, ProjectsLatest, Audit;
    AuditAcceptsExactly(h, a);
    AuditAcceptsExactly(h, b);
    HeadFixesHistory(h, a.events, b.events);
    if a.events == b.events {
      SameProjections(a.events, a.aggregates, b.aggregates);
    }
  }
}
