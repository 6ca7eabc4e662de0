/** The inference backend as it runs: request and attempt rows updated in place. */
module InferenceStore {
  import opened Prelude
  import opened Inference

  class RequestRow {
    const cap: Option<real>
    var status: RequestStatus
    var reserved: real
    var accrued: real
    var completed: Option<string>
    var attempts: map<string, Attempt>
    var order: seq<string>
    var keys: set<Key>

    function Contents(): Request
      reads this
    {
      Request(cap, status, reserved, accrued, completed, attempts, order, keys)
    }

    constructor (cap: Option<real>)
      ensures Contents() == Opened(cap)
    {
      this.cap := cap;
      status, reserved, accrued, completed, attempts, order, keys := Admitted, 0.0, 0.0, Option.None, map[], [], {};
    }

    method Newest() returns (number: nat, fence: nat)
      ensures number == MaxNumber(attempts, order) && fence == MaxFence(attempts, order)
    {
      number, fence := 0, 0;
      for i := 0 to |order|
        invariant number == MaxNumber(attempts, order[..i]) && fence == MaxFence(attempts, order[..i])
      {
        assert order[..i + 1][..i] == order[..i];
        if order[i] in attempts {
          var a := attempts[order[i]];
          if a.number > number { number := a.number; }
          if a.fence > fence { fence := a.fence; }
        }
      }
      assert order[..|order|] == order;
    }

    method ClaimAttempt(now: int, id: string, lease: int) returns (r: Result<Attempt, InferenceError>)
      modifies this
      ensures match Claim(old(Contents()), now, id, lease)
              case Success(s') => r.Success? && Contents() == s' && id in s'.attempts && r.value == s'.attempts[id]
              case Failure(e) => r == Failure(e) && Contents() == old(Contents())
    {
      if lease <= 0 { return Failure(InvalidLease); }
      if completed.Some? { return Failure(ConcurrentModification); }
      if SomeoneWorking(Contents(), now) { return Failure(ConcurrentModification); }
      var number, fence := Newest();
      if id in attempts { return Failure(ConstraintViolation); }
      var attempt := Attempt(number + 1, fence + 1, now + lease, Created, 0.0, false);
      attempts := attempts[id := attempt];
      order := order + [id];
      status := Attempting;
      return Success(attempt);
    }

    method ReserveCost(id: string, amount: real) returns (r: Result<bool, InferenceError>)
      modifies this
      ensures match Reserve(old(Contents()), id, amount)
              case Success(x) => r == Success(x.1) && Contents() == x.0
              case Failure(e) => r == Failure(e) && Contents() == old(Contents())
    {
      if amount < 0.0 { return Failure(InvalidAmount); }
      if id !in attempts { return Failure(UnknownAttempt); }
      var attempt := attempts[id];
      if !attempt.status.Created? { return Success(false); }
      var reserved' := reserved - attempt.cost + amount;
      if cap.Some? && accrued + reserved' > cap.value { return Success(false); }
      if ReserveKey(id) in keys { return Failure(IdempotencyConflict); }
      if reserved' < 0.0 { return Failure(ConstraintViolation); }
      reserved := reserved';
      attempts := attempts[id := attempt.(cost := amount)];
      keys := keys + {ReserveKey(id)};
      return Success(true);
    }

    method FinishAttempt(now: int, id: string, o: Outcome) returns (r: Result<bool, InferenceError>)
      modifies this
      ensures match Finish(old(Contents()), now, id, o)
              case Success(x) => r == Success(x.1) && Contents() == x.0
              case Failure(e) => r == Failure(e) && Contents() == old(Contents())
    {
      if id !in attempts { return Success(false); }
      var stored := attempts[id];
      var number, newest := Newest();
      var stale := stored.fence != o.fence || newest != o.fence || stored.leaseUntil <= now
        || (completed.Some? && o.status.Completes());
      var persisted := if stale then Hibernated else o.status;
      var reserved', accrued' := reserved - stored.cost, accrued + o.cost;
      if FinishKey(id) in keys { return Failure(IdempotencyConflict); }
      if o.cost < 0.0 || reserved' < 0.0 || accrued' < 0.0 { return Failure(ConstraintViolation); }
      attempts := attempts[id := stored.(status := persisted, cost := o.cost, closed := o.closed)];
      reserved, accrued := reserved', accrued';
      if persisted.Completes() { completed := Some(id); }
      status := RequestStatusOf(persisted, status);
      keys := keys + {FinishKey(id)};
      return Success(!stale);
    }

    method ReconcileAttemptCost(id: string, billed: Billed) returns (r: Result<bool, InferenceError>)
      modifies this
      ensures match Reconcile(old(Contents()), id, billed)
              case Success(x) => r == Success(x.1) && Contents() == x.0
              case Failure(e) => r == Failure(e) && Contents() == old(Contents())
    {
      if billed.cost < 0.0 { return Failure(InvalidAmount); }
      if id !in attempts { return Failure(UnknownAttempt); }
      var attempt := attempts[id];
      if !attempt.closed { return Failure(Unfinished); }
      var matches := attempt.cost == billed.cost;
      var accrued' := accrued - attempt.cost + billed.cost;
      if ReconcileKey(id, billed) in keys { return Failure(IdempotencyConflict); }
      if accrued' < 0.0 { return Failure(ConstraintViolation); }
      attempts := attempts[id := attempt.(cost := billed.cost)];
      accrued := accrued';
      keys := keys + {ReconcileKey(id, billed)};
      return Success(matches);
    }

    method MarkDecisionUseful(id: string) returns (r: Result<bool, InferenceError>)
      modifies this
      ensures match MarkUseful(old(Contents()), id)
              case Success(x) => r == Success(x.1) && Contents() == x.0
              case Failure(e) => r == Failure(e) && Contents() == old(Contents())
    {
      if id !in attempts || completed != Some(id) { return Success(false); }
      var attempt := attempts[id];
      if attempt.status.DecisionUseful? { return Success(true); }
      if !attempt.status.SemanticAccepted? { return Success(false); }
      if UsefulKey(id) in keys { return Failure(IdempotencyConflict); }
      attempts := attempts[id := attempt.(status := DecisionUseful)];
      status := Useful;
      keys := keys + {UsefulKey(id)};
      return Success(true);
    }
  }
}
