/** The event store as it runs: appends and projections updated in place, and the audit as one pass over the log. */
module AuditedStore {
  import opened Prelude
  import opened EventStore

  class Store {
    const hashing: Hashing
    var events: seq<Event>
    var aggregates: map<Key, Projection>
    var evidence: set<string>
    var artifacts: set<string>

    function Contents(): Log
      reads this
    {
      Log(events, aggregates, evidence, artifacts)
    }

    constructor (hashing: Hashing)
      ensures this.hashing == hashing && Empty(Contents())
    {
      this.hashing := hashing;
      events, aggregates, evidence, artifacts := [], map[], {}, {};
    }

    method Transition(c: Call) returns (r: Result<Event, StoreError>)
      modifies this
      ensures match EventStore.Transition(hashing, old(Contents()), c)
              case Success(s') => r.Success? && Contents() == s' && r.value in s'.events
                && r.value.body.operationKey == c.operationKey
                && r.value.body.operationHash == hashing.request(c.request)
              case Failure(e) => r == Failure(e) && Contents() == old(Contents())
    {
      if Screen(c).Some? { return Failure(Screen(c).value); }
      var requestHash := hashing.request(c.request);
      for i := 0 to |events|
        invariant Contents() == old(Contents())
        invariant forall k | 0 <= k < i ::
          events[k].body.operationKey != c.operationKey || events[k].body.operationHash != requestHash
      {
        if events[i].body.operationKey == c.operationKey && events[i].body.operationHash == requestHash {
          return Success(events[i]);
        }
      }
      if UsesKey(events, c.operationKey) { return Failure(IdempotencyConflict); }
      var request := c.request;
      var key := (request.kind, request.id);
      var actual := if key in aggregates then aggregates[key].version else 0;
      if request.expectedVersion != actual { return Failure(ConcurrentModification); }
      for i := 0 to |request.evidence|
        invariant Contents() == old(Contents())
        invariant forall k | 0 <= k < i :: request.evidence[k] in evidence
      {
        if request.evidence[i] !in evidence { return Failure(UnknownEvidence); }
      }
      for i := 0 to |request.artifacts|
        invariant Contents() == old(Contents())
        invariant forall k | 0 <= k < i :: request.artifacts[k] in artifacts
      {
        if request.artifacts[i] !in artifacts { return Failure(UnknownArtifact); }
      }
      var event := Stored(hashing, EnvelopeOf(hashing, events, actual + 1, c));
      events := events + [event];
      aggregates := aggregates[key := Projection(actual + 1, request.state)];
      return Success(event);
    }

    method Audit() returns (r: Result<Report, StoreError>)
      ensures r == EventStore.Audit(hashing, Contents())
    {
      hide AuditEvent;
      var previous, count := GENESIS, 0;
      var rebuilt: map<Key, Projection> := map[];
      for i := 0 to |events|
        invariant AuditEvents(hashing, events[..i]) == Success(Rebuilt(previous, rebuilt)) && count == i
      {
        AuditNext(hashing, events, i);
        var one := AuditOne(events[i], previous, rebuilt);
        if one.Failure? {
          AuditStops(hashing, events, i + 1, |events|);
          assert events[..|events|] == events;
          return Failure(one.error);
        }
        previous, rebuilt, count := one.value.head, one.value.projections, count + 1;
      }
      assert events[..|events|] == events;
      if |aggregates| != |rebuilt| { return Failure(ProjectionDrift); }
      var rows := aggregates.Keys;
      while rows != {}
        invariant rows <= aggregates.Keys
        invariant forall key | key in aggregates.Keys - rows :: key in rebuilt && rebuilt[key] == aggregates[key]
        decreases |rows|
      {
        var key :| key in rows;
        if key !in rebuilt || rebuilt[key] != aggregates[key] { return Failure(ProjectionDrift); }
        rows := rows - {key};
      }
      SameSizeSameMap(aggregates, rebuilt);
      return Success(Report(count, previous, |rebuilt|));
    }

    method AuditOne(e: Event, previous: string, rebuilt: map<Key, Projection>) returns (r: Result<Rebuilt, StoreError>)
      ensures r == AuditEvent(hashing, Rebuilt(previous, rebuilt), e)
    {
      if e.gateText != GateText(e.body.stateAfter) { return Failure(GateProjectionMismatch); }
      if e.body.previousHash != previous || hashing.envelope(Reopened(e)) != e.eventHash { return Failure(IntegrityFailure); }
      var key := KeyOf(e);
      var prior := if key in rebuilt then rebuilt[key].version else 0;
      if e.body.version != prior + 1 { return Failure(RevisionGap); }
      return Success(Rebuilt(e.eventHash, rebuilt[key := Projection(e.body.version, e.body.stateAfter)]));
    }
  }

  lemma AuditNext(h: Hashing, events: seq<Event>, i: nat)
    requires i < |events| && AuditEvents(h, events[..i]).Success?
    ensures AuditEvents(h, events[..i + 1]) == AuditEvent(h, AuditEvents(h, events[..i]).value, events[i])
  {
    assert events[..i + 1][..i] == events[..i];
  }

  lemma {:induction false} AuditStops(h: Hashing, events: seq<Event>, i: nat, n: nat)
    requires i <= n <= |events| && AuditEvents(h, events[..i]).Failure?
    ensures AuditEvents(h, events[..n]) == AuditEvents(h, events[..i])
  {
    if i < n {
      AuditStops(h, events, i, n - 1);
      assert events[..n][..n - 1] == events[..n - 1];
    }
  }

  lemma SameSizeSameMap(a: map<Key, Projection>, b: map<Key, Projection>)
    requires |a| == |b| && forall key | key in a :: key in b && b[key] == a[key]
    ensures a == b
  {
    assert a.Keys <= b.Keys;
    SubsetOfSameSize(a.Keys, b.Keys);
  }

  lemma SubsetOfSameSize<T>(a: set<T>, b: set<T>)
    requires a <= b && |a| == |b|
    ensures a == b
  {
    assert b == a + (b - a);
    assert |b - a| == 0;
  }
}
