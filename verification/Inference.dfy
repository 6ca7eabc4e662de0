/** Attempt fencing and cost reservation for one inference request. */
module Inference {
  import opened Prelude

  datatype AttemptStatus =
    | Created | TransportSuccess | SchemaSuccess | SemanticAccepted | DecisionUseful | RetryableFailure
    | NonretryableFailure | Hibernated
  {
    predicate Completes() {
      SemanticAccepted? || DecisionUseful?
    }
  }

  datatype RequestStatus = Admitted | Attempting | Accepted | Useful | Asleep

  /** `cost` is the reservation until the attempt finishes and the final cost afterwards. `closed` is whether the
      stored result carries a completion time. */
  datatype Attempt = Attempt(number: nat, fence: nat, leaseUntil: int, status: AttemptStatus, cost: real, closed: bool)

  /** A provider's corrected cost and how it was written. The operation key holds the text, so 10 and 10.0 are one
      cost under two keys. */
  datatype Billed = Billed(cost: real, text: string)

  /** What an event's operation key was derived from. A key can be used once: a repeat arrives at a later version of
      the request and is refused as a different request under the same key. */
  datatype Key =
    | ReserveKey(attempt: string) | FinishKey(attempt: string) | ReconcileKey(attempt: string, cost: Billed)
    | UsefulKey(attempt: string) | HibernateKey(reason: string) | ReviveKey(reason: string)

  datatype Request = Request(
    cap: Option<real>, status: RequestStatus, reserved: real, accrued: real, completed: Option<string>,
    attempts: map<string, Attempt>, order: seq<string>, keys: set<Key>)

  datatype InferenceError =
    | InvalidAmount | InvalidLease | ConcurrentModification | UnknownAttempt | IdempotencyConflict
    | ConstraintViolation | Unfinished

  function Opened(cap: Option<real>): Request {
    Request(cap, Admitted, 0.0, 0.0, Option.None, map[], [], {})
  }

  // ---- Claiming -------------------------------------------------------------------------------

  function MaxFence(attempts: map<string, Attempt>, order: seq<string>): nat {
    if |order| == 0 then 0
    else
      var earlier, last := MaxFence(attempts, order[..|order| - 1]), order[|order| - 1];
      if last in attempts && attempts[last].fence > earlier then attempts[last].fence else earlier
  }

  function MaxNumber(attempts: map<string, Attempt>, order: seq<string>): nat {
    if |order| == 0 then 0
    else
      var earlier, last := MaxNumber(attempts, order[..|order| - 1]), order[|order| - 1];
      if last in attempts && attempts[last].number > earlier then attempts[last].number else earlier
  }

  predicate Leased(a: Attempt, now: int) {
    a.status.Created? && a.leaseUntil > now
  }

  predicate SomeoneWorking(s: Request, now: int) {
    exists id | id in s.attempts :: Leased(s.attempts[id], now)
  }

  function Claim(s: Request, now: int, id: string, lease: int): Result<Request, InferenceError> {
    if lease <= 0 then Failure(InvalidLease)
    else if s.completed.Some? || SomeoneWorking(s, now) then Failure(ConcurrentModification)
    else if id in s.attempts then Failure(ConstraintViolation)
    else
      var a := Attempt(MaxNumber(s.attempts, s.order) + 1, MaxFence(s.attempts, s.order) + 1, now + lease, Created, 0.0, false);
      Success(s.(status := Attempting, attempts := s.attempts[id := a], order := s.order + [id]))
  }

  // ---- Reserving ------------------------------------------------------------------------------

  /** The new request and whether the reservation was made. */
  function Reserve(s: Request, id: string, amount: real): Result<(Request, bool), InferenceError> {
    if amount < 0.0 then Failure(InvalidAmount)
    else if id !in s.attempts then Failure(UnknownAttempt)
    else if !s.attempts[id].status.Created? then Success((s, false))
    else
      var reserved := s.reserved - s.attempts[id].cost + amount;
      if s.cap.Some? && s.accrued + reserved > s.cap.value then Success((s, false))
      else if ReserveKey(id) in s.keys then Failure(IdempotencyConflict)
      else if reserved < 0.0 then Failure(ConstraintViolation)
      else Success((s.(reserved := reserved, attempts := s.attempts[id := s.attempts[id].(cost := amount)],
                       keys := s.keys + {ReserveKey(id)}), true))
  }

  // ---- Finishing ------------------------------------------------------------------------------

  datatype Outcome = Outcome(fence: nat, status: AttemptStatus, cost: real, closed: bool)

  predicate Stale(s: Request, now: int, id: string, o: Outcome)
    requires id in s.attempts
  {
    || s.attempts[id].fence != o.fence || MaxFence(s.attempts, s.order) != o.fence
    || s.attempts[id].leaseUntil <= now || (s.completed.Some? && o.status.Completes())
  }

  function RequestStatusOf(status: AttemptStatus, before: RequestStatus): RequestStatus {
    match status
    case SemanticAccepted => Accepted
    case DecisionUseful => Useful
    case _ => before
  }

  /** The new request and whether the result was accepted as current rather than kept as a late duplicate. */
  function Finish(s: Request, now: int, id: string, o: Outcome): Result<(Request, bool), InferenceError> {
    if id !in s.attempts then Success((s, false))
    else
      var stale := Stale(s, now, id, o);
      var status := if stale then Hibernated else o.status;
      var reserved, accrued := s.reserved - s.attempts[id].cost, s.accrued + o.cost;
      if FinishKey(id) in s.keys then Failure(IdempotencyConflict)
      else if o.cost < 0.0 || reserved < 0.0 || accrued < 0.0 then Failure(ConstraintViolation)
      else Success((s.(
        status := RequestStatusOf(status, s.status), reserved := reserved, accrued := accrued,
        completed := if status.Completes() then Some(id) else s.completed,
        attempts := s.attempts[id := s.attempts[id].(status := status, cost := o.cost, closed := o.closed)],
        keys := s.keys + {FinishKey(id)}), !stale))
  }

  // ---- After finishing ------------------------------------------------------------------------

  function Reconcile(s: Request, id: string, billed: Billed): Result<(Request, bool), InferenceError> {
    if billed.cost < 0.0 then Failure(InvalidAmount)
    else if id !in s.attempts then Failure(UnknownAttempt)
    else if !s.attempts[id].closed then Failure(Unfinished)
    else
      var accrued := s.accrued - s.attempts[id].cost + billed.cost;
      if ReconcileKey(id, billed) in s.keys then Failure(IdempotencyConflict)
      else if accrued < 0.0 then Failure(ConstraintViolation)
      else Success((s.(accrued := accrued, attempts := s.attempts[id := s.attempts[id].(cost := billed.cost)],
                       keys := s.keys + {ReconcileKey(id, billed)}), s.attempts[id].cost == billed.cost))
  }

  function MarkUseful(s: Request, id: string): Result<(Request, bool), InferenceError> {
    if id !in s.attempts || s.completed != Some(id) then Success((s, false))
    else if s.attempts[id].status.DecisionUseful? then Success((s, true))
    else if !s.attempts[id].status.SemanticAccepted? then Success((s, false))
    else if UsefulKey(id) in s.keys then Failure(IdempotencyConflict)
    else Success((s.(status := Useful, attempts := s.attempts[id := s.attempts[id].(status := DecisionUseful)],
                     keys := s.keys + {UsefulKey(id)}), true))
  }

  function Hibernate(s: Request, reason: string): Result<Request, InferenceError> {
    if s.completed.Some? then Success(s)
    else if HibernateKey(reason) in s.keys then Failure(IdempotencyConflict)
    else Success(s.(status := Asleep, keys := s.keys + {HibernateKey(reason)}))
  }

  function Revive(s: Request, reason: string): Result<(Request, bool), InferenceError> {
    if !s.status.Asleep? || s.completed.Some? then Success((s, false))
    else if ReviveKey(reason) in s.keys then Failure(IdempotencyConflict)
    else Success((s.(status := Admitted, keys := s.keys + {ReviveKey(reason)}), true))
  }

  // ---- Histories ------------------------------------------------------------------------------

  datatype Operation =
    | DoClaim(id: string, lease: int)
    | DoReserve(id: string, amount: real)
    | DoFinish(id: string, outcome: Outcome)
    | DoReconcile(id: string, billed: Billed)
    | DoMarkUseful(id: string)
    | DoHibernate(reason: string)
    | DoRevive(reason: string)

  datatype Timed = Timed(at: int, op: Operation)

  function Pair(s: Request, r: Result<(Request, bool), InferenceError>): Request {
    match r case Success(x) => x.0 case Failure(_) => s
  }

  function Step(s: Request, now: int, op: Operation): Request {
    match op
    case DoClaim(id, lease) => (match Claim(s, now, id, lease) case Success(s') => s' case Failure(_) => s)
    case DoReserve(id, amount) => Pair(s, Reserve(s, id, amount))
    case DoFinish(id, outcome) => Pair(s, Finish(s, now, id, outcome))
    case DoReconcile(id, billed) => Pair(s, Reconcile(s, id, billed))
    case DoMarkUseful(id) => Pair(s, MarkUseful(s, id))
    case DoHibernate(reason) => (match Hibernate(s, reason) case Success(s') => s' case Failure(_) => s)
    case DoRevive(reason) => Pair(s, Revive(s, reason))
  }

  function After(s: Request, history: seq<Timed>): Request {
    if |history| == 0 then s
    else Step(After(s, history[..|history| - 1]), history[|history| - 1].at, history[|history| - 1].op)
  }

  /** No finished attempt is reported as still created: the caller's part of the protocol. */
  ghost predicate Honest(op: Operation) {
    op.DoFinish? ==> !op.outcome.status.Created?
  }

  // ---- What is kept ---------------------------------------------------------------------------

  predicate Settled(s: Request, id: string) {
    FinishKey(id) in s.keys
  }

  /** The summed cost of the attempts that have, or have not, finished. */
  ghost function CostOf(s: Request, order: seq<string>, settled: bool): real {
    if |order| == 0 then 0.0
    else
      var last := order[|order| - 1];
      CostOf(s, order[..|order| - 1], settled)
      + if last in s.attempts && Settled(s, last) == settled then s.attempts[last].cost else 0.0
  }

  /** Attempts are numbered and fenced one after another in the order they were claimed. */
  ghost predicate Fenced(s: Request) {
    && (forall id :: id in s.order <==> id in s.attempts)
    && (forall i, j | 0 <= i < j < |s.order| :: s.order[i] != s.order[j])
    && (forall i | 0 <= i < |s.order| :: s.order[i] in s.attempts
          && s.attempts[s.order[i]].fence == i + 1 && s.attempts[s.order[i]].number == i + 1)
  }

  ghost predicate AttemptsOk(s: Request) {
    && (forall id | id in s.attempts :: s.attempts[id].cost >= 0.0)
    && (forall id | id in s.attempts :: Settled(s, id) <==> !s.attempts[id].status.Created?)
    && (forall id | id in s.attempts && s.attempts[id].closed :: Settled(s, id))
    && (forall id | id in s.attempts && s.attempts[id].status.Completes() :: s.completed == Some(id))
    && (s.completed.Some? ==> s.completed.value in s.attempts && s.attempts[s.completed.value].status.Completes())
    && (forall id | Settled(s, id) :: id in s.attempts)
  }

  ghost predicate CostsOk(s: Request) {
    s.reserved == CostOf(s, s.order, false) && s.accrued == CostOf(s, s.order, true)
  }

  /** At most one attempt holds a live lease. */
  ghost predicate OneWorker(s: Request, now: int) {
    forall a, b | a in s.attempts && b in s.attempts && Leased(s.attempts[a], now) && Leased(s.attempts[b], now) :: a == b
  }

  ghost predicate RequestOk(s: Request, now: int) {
    Fenced(s) && AttemptsOk(s) && CostsOk(s) && OneWorker(s, now)
  }

  lemma {:induction false} MaxOfFenced(s: Request, n: nat)
    requires Fenced(s) && n <= |s.order|
    ensures MaxFence(s.attempts, s.order[..n]) == n && MaxNumber(s.attempts, s.order[..n]) == n
  {
    if n > 0 {
      assert s.order[..n][..n - 1] == s.order[..n - 1];
      MaxOfFenced(s, n - 1);
    }
  }

  lemma FenceOfNewest(s: Request)
    requires Fenced(s)
    ensures MaxFence(s.attempts, s.order) == |s.order| == MaxNumber(s.attempts, s.order)
  {
    MaxOfFenced(s, |s.order|);
    assert s.order[..|s.order|] == s.order;
  }

  // ---- Cost sums ------------------------------------------------------------------------------

  lemma {:induction false} CostFrame(s: Request, s': Request, order: seq<string>, settled: bool)
    requires forall id | id in order ::
      && (id in s.attempts <==> id in s'.attempts) && Settled(s, id) == Settled(s', id)
      && (id in s.attempts ==> s'.attempts[id].cost == s.attempts[id].cost)
    ensures CostOf(s', order, settled) == CostOf(s, order, settled)
  {
    if |order| > 0 {
      assert order[|order| - 1] in order;
      CostFrame(s, s', order[..|order| - 1], settled);
    }
  }

  ghost function Part(s: Request, id: string, settled: bool): real {
    if id in s.attempts && Settled(s, id) == settled then s.attempts[id].cost else 0.0
  }

  /** Changing one attempt moves the sum by exactly that attempt's change. */
  lemma {:induction false} CostMoves(s: Request, s': Request, order: seq<string>, settled: bool, id: string)
    requires forall i, j | 0 <= i < j < |order| :: order[i] != order[j]
    requires forall x | x in order && x != id ::
      && (x in s.attempts <==> x in s'.attempts) && Settled(s, x) == Settled(s', x)
      && (x in s.attempts ==> s'.attempts[x].cost == s.attempts[x].cost)
    ensures CostOf(s', order, settled) - CostOf(s, order, settled)
         == if id in order then Part(s', id, settled) - Part(s, id, settled) else 0.0
  {
    if |order| > 0 {
      var front, last := order[..|order| - 1], order[|order| - 1];
      CostMoves(s, s', front, settled, id);
      assert order == front + [last];
    }
  }

  // ---- Steps ----------------------------------------------------------------------------------

  /** What an accepted claim adds. */
  ghost predicate Joins(s: Request, s': Request, now: int, id: string, a: Attempt) {
    && id !in s.attempts && s'.order == s.order + [id] && s'.attempts == s.attempts[id := a]
    && s' == s.(status := s'.status, attempts := s'.attempts, order := s'.order)
    && a.fence == |s.order| + 1 == a.number && a.status.Created? && a.cost == 0.0 && !a.closed
    && !SomeoneWorking(s, now)
  }

  lemma ClaimJoins(s: Request, now: int, id: string, lease: int)
    requires Fenced(s) && Claim(s, now, id, lease).Success?
    ensures var s' := Claim(s, now, id, lease).value; id in s'.attempts && Joins(s, s', now, id, s'.attempts[id])
  {
    FenceOfNewest(s);
    hide MaxFence, MaxNumber, Fenced;
  }

  lemma JoinsKeepsCosts(s: Request, s': Request, now: int, id: string, a: Attempt)
    requires CostsOk(s) && Fenced(s) && Joins(s, s', now, id, a)
    ensures CostsOk(s')
  {
    assert s'.order[..|s'.order| - 1] == s.order;
    CostFrame(s, s', s.order, true);
    CostFrame(s, s', s.order, false);
    hide SomeoneWorking;
  }

  lemma JoinsKeepsFences(s: Request, s': Request, now: int, id: string, a: Attempt)
    requires Fenced(s) && Joins(s, s', now, id, a)
    ensures Fenced(s')
  {
    hide SomeoneWorking;
  }

  lemma JoinsKeepsAttempts(s: Request, s': Request, now: int, id: string, a: Attempt)
    requires AttemptsOk(s) && Joins(s, s', now, id, a)
    ensures AttemptsOk(s')
  {
    hide SomeoneWorking;
  }

  lemma ClaimKeeps(s: Request, now: int, id: string, lease: int)
    requires RequestOk(s, now) && Claim(s, now, id, lease).Success?
    ensures RequestOk(Claim(s, now, id, lease).value, now)
  {
    hide Fenced, AttemptsOk, CostsOk, Claim;
    ClaimJoins(s, now, id, lease);
    var s' := Claim(s, now, id, lease).value;
    JoinsKeepsCosts(s, s', now, id, s'.attempts[id]);
    JoinsKeepsFences(s, s', now, id, s'.attempts[id]);
    JoinsKeepsAttempts(s, s', now, id, s'.attempts[id]);
  }

  /** One attempt is replaced, keeping its number, fence and lease; its key may become settled. */
  ghost predicate Replaces(s: Request, s': Request, id: string) {
    && id in s.attempts && id in s'.attempts && s'.order == s.order
    && s'.attempts == s.attempts[id := s'.attempts[id]]
    && s'.attempts[id].number == s.attempts[id].number && s'.attempts[id].fence == s.attempts[id].fence
    && s'.attempts[id].leaseUntil == s.attempts[id].leaseUntil
    && (s'.attempts[id].status.Created? ==> s.attempts[id].status.Created?)
    && (forall x | x != id :: Settled(s', x) == Settled(s, x))
  }

  lemma ReplacesKeepsFences(s: Request, s': Request, id: string, now: int)
    requires Fenced(s) && OneWorker(s, now) && id in s.attempts && id in s'.attempts && Replaces(s, s', id)
    ensures Fenced(s') && OneWorker(s', now)
  {}

  lemma ReplacesMovesCosts(s: Request, s': Request, id: string)
    requires Fenced(s) && CostsOk(s) && id in s.attempts && id in s'.attempts && Replaces(s, s', id)
    requires s'.reserved - s.reserved == Part(s', id, false) - Part(s, id, false)
    requires s'.accrued - s.accrued == Part(s', id, true) - Part(s, id, true)
    ensures CostsOk(s')
  {
    CostMoves(s, s', s.order, false, id);
    CostMoves(s, s', s.order, true, id);
  }

  lemma ReplacesKeepsAttempts(s: Request, s': Request, id: string)
    requires AttemptsOk(s) && id in s.attempts && id in s'.attempts && Replaces(s, s', id)
    requires s'.attempts[id].cost >= 0.0
    requires Settled(s', id) <==> !s'.attempts[id].status.Created?
    requires s'.attempts[id].closed ==> Settled(s', id)
    requires s'.attempts[id].status.Completes() ==> s'.completed == Some(id)
    requires s'.completed == s.completed || (s.completed.None? && s'.completed == Some(id))
    requires s'.completed == Some(id) ==> s'.attempts[id].status.Completes()
    ensures AttemptsOk(s')
  {}

  lemma AttemptOk(s: Request, id: string)
    requires AttemptsOk(s) && id in s.attempts
    ensures s.attempts[id].cost >= 0.0 && (Settled(s, id) <==> !s.attempts[id].status.Created?)
    ensures s.attempts[id].closed ==> Settled(s, id)
    ensures s.attempts[id].status.Completes() <==> s.completed == Some(id)
  {}

  lemma ReserveKeeps(s: Request, now: int, id: string, amount: real)
    requires RequestOk(s, now) && Reserve(s, id, amount).Success?
    ensures RequestOk(Reserve(s, id, amount).value.0, now)
  {
    hide Fenced, CostsOk, OneWorker, AttemptsOk;
    var s' := Reserve(s, id, amount).value.0;
    if s' != s {
      ReplacesKeepsFences(s, s', id, now);
      AttemptOk(s, id);
      ReplacesMovesCosts(s, s', id);
      ReplacesKeepsAttempts(s, s', id);
    }
  }

  lemma FinishKeeps(s: Request, now: int, id: string, o: Outcome)
    requires RequestOk(s, now) && Finish(s, now, id, o).Success? && !o.status.Created?
    ensures RequestOk(Finish(s, now, id, o).value.0, now)
  {
    hide MaxFence, Fenced, CostsOk, OneWorker, AttemptsOk;
    var s' := Finish(s, now, id, o).value.0;
    if id in s.attempts {
      ReplacesKeepsFences(s, s', id, now);
      AttemptOk(s, id);
      ReplacesMovesCosts(s, s', id);
      ReplacesKeepsAttempts(s, s', id);
    }
  }

  lemma ReconcileKeeps(s: Request, now: int, id: string, billed: Billed)
    requires RequestOk(s, now) && Reconcile(s, id, billed).Success?
    ensures RequestOk(Reconcile(s, id, billed).value.0, now)
  {
    hide Fenced, CostsOk, OneWorker, AttemptsOk;
    AttemptOk(s, id);
    var s' := Reconcile(s, id, billed).value.0;
    ReplacesKeepsFences(s, s', id, now);
    ReplacesMovesCosts(s, s', id);
    ReplacesKeepsAttempts(s, s', id);
  }

  lemma MarkUsefulKeeps(s: Request, now: int, id: string)
    requires RequestOk(s, now) && MarkUseful(s, id).Success?
    ensures RequestOk(MarkUseful(s, id).value.0, now)
  {
    hide Fenced, CostsOk, OneWorker, AttemptsOk;
    var s' := MarkUseful(s, id).value.0;
    if s' != s {
      ReplacesKeepsFences(s, s', id, now);
      AttemptOk(s, id);
      ReplacesMovesCosts(s, s', id);
      ReplacesKeepsAttempts(s, s', id);
    }
  }

  lemma StatusAloneKeeps(s: Request, s': Request, now: int)
    requires RequestOk(s, now) && s' == s.(status := s'.status, keys := s'.keys)
    requires forall id :: Settled(s', id) == Settled(s, id)
    ensures RequestOk(s', now)
  {
    CostFrame(s, s', s.order, true);
    CostFrame(s, s', s.order, false);
  }

  lemma StepKeeps(s: Request, now: int, op: Operation)
    requires RequestOk(s, now) && Honest(op)
    ensures RequestOk(Step(s, now, op), now)
  {
    hide RequestOk, Claim, Reserve, Finish, Reconcile, MarkUseful;
    match op
    case DoClaim(id, lease) => if Claim(s, now, id, lease).Success? { ClaimKeeps(s, now, id, lease); }
    case DoReserve(id, amount) => if Reserve(s, id, amount).Success? { ReserveKeeps(s, now, id, amount); }
    case DoFinish(id, o) => if Finish(s, now, id, o).Success? { FinishKeeps(s, now, id, o); }
    case DoReconcile(id, billed) => if Reconcile(s, id, billed).Success? { ReconcileKeeps(s, now, id, billed); }
    case DoMarkUseful(id) => if MarkUseful(s, id).Success? { MarkUsefulKeeps(s, now, id); }
    case DoHibernate(reason) => if Hibernate(s, reason).Success? { StatusAloneKeeps(s, Hibernate(s, reason).value, now); }
    case DoRevive(reason) => if Revive(s, reason).Success? { StatusAloneKeeps(s, Revive(s, reason).value.0, now); }
  }

  ghost predicate Orderly(history: seq<Timed>, clock: int) {
    && (forall i | 0 <= i < |history| :: Honest(history[i].op) && clock <= history[i].at)
    && (forall i, j | 0 <= i < j < |history| :: history[i].at <= history[j].at)
  }

  ghost function ClockAfter(history: seq<Timed>, clock: int): int {
    if |history| == 0 then clock else history[|history| - 1].at
  }

  lemma TimePasses(s: Request, clock: int, now: int)
    requires RequestOk(s, clock) && clock <= now
    ensures RequestOk(s, now)
  {
    hide Fenced, AttemptsOk, CostsOk;
  }

  lemma OrderlyPrefix(history: seq<Timed>, clock: int)
    requires Orderly(history, clock) && |history| > 0
    ensures Orderly(history[..|history| - 1], clock)
    ensures ClockAfter(history[..|history| - 1], clock) <= history[|history| - 1].at && Honest(history[|history| - 1].op)
  {}

  lemma {:induction false} HistoryKeeps(s: Request, clock: int, history: seq<Timed>)
    requires RequestOk(s, clock) && Orderly(history, clock)
    ensures RequestOk(After(s, history), ClockAfter(history, clock))
  {
    hide RequestOk, Step, Orderly;
    if |history| > 0 {
      OrderlyPrefix(history, clock);
      var front, last := history[..|history| - 1], history[|history| - 1];
      HistoryKeeps(s, clock, front);
      TimePasses(After(s, front), ClockAfter(front, clock), last.at);
      StepKeeps(After(s, front), last.at, last.op);
    }
  }

  lemma OpenedOk(cap: Option<real>, now: int)
    ensures RequestOk(Opened(cap), now)
  {}

  // ---- Main results ---------------------------------------------------------------------------

  /** Over every history: the reservation and the bill are the exact sums over unfinished and finished attempts,
      fences follow the claims one by one, one attempt at most holds a live lease, and at most one attempt is the
      request's answer. */
  lemma CostsAndFencesAreExact(cap: Option<real>, clock: int, history: seq<Timed>, i: nat)
    requires Orderly(history, clock)
    ensures var s := After(Opened(cap), history);
      && s.reserved == CostOf(s, s.order, false) && s.accrued == CostOf(s, s.order, true)
      && (i < |s.order| ==> s.order[i] in s.attempts && s.attempts[s.order[i]].fence == i + 1)
      && OneWorker(s, ClockAfter(history, clock))
      && (forall id | id in s.attempts && s.attempts[id].status.Completes() :: s.completed == Some(id))
  {
    hide After, OneWorker;
    OpenedOk(cap, clock);
    HistoryKeeps(Opened(cap), clock, history);
  }

  /** The answer is written once. */
  lemma {:induction false} AnswerIsFinal(s: Request, history: seq<Timed>)
    requires s.completed.Some?
    ensures After(s, history).completed == s.completed
  {
    hide MaxFence, MaxNumber;
    if |history| > 0 {
      AnswerIsFinal(s, history[..|history| - 1]);
    }
  }

  /** A result is accepted as current only from the newest fence inside its lease. */
  lemma OnlyNewestIsAccepted(s: Request, now: int, id: string, o: Outcome)
    requires RequestOk(s, now) && Finish(s, now, id, o).Success? && Finish(s, now, id, o).value.1
    ensures id in s.attempts && s.order != [] && id == s.order[|s.order| - 1] && s.attempts[id].leaseUntil > now
    ensures o.status.Completes() ==> s.completed.None?
  {
    FenceOfNewest(s);
    var i :| 0 <= i < |s.order| && s.order[i] == id;
  }

  lemma StepGrowsOrder(s: Request, now: int, op: Operation)
    ensures s.order <= Step(s, now, op).order
  {
    hide MaxFence, MaxNumber;
  }

  lemma {:induction false} OrderGrows(s: Request, history: seq<Timed>)
    ensures s.order <= After(s, history).order
  {
    hide Step;
    if |history| > 0 {
      OrderGrows(s, history[..|history| - 1]);
      StepGrowsOrder(After(s, history[..|history| - 1]), history[|history| - 1].at, history[|history| - 1].op);
    }
  }

  /** Once a newer attempt has been claimed, an older one is never accepted again, however long its lease. */
  lemma OldFenceIsDead(s: Request, clock: int, history: seq<Timed>, i: nat, now: int, o: Outcome)
    requires RequestOk(s, clock) && Orderly(history, clock) && i < |s.order| - 1 && ClockAfter(history, clock) <= now
    ensures var r := Finish(After(s, history), now, s.order[i], o); r.Success? ==> !r.value.1
  {
    hide RequestOk, Step, Finish;
    HistoryKeeps(s, clock, history);
    OrderGrows(s, history);
    var later := After(s, history);
    TimePasses(later, ClockAfter(history, clock), now);
    var r := Finish(later, now, s.order[i], o);
    if r.Success? && r.value.1 {
      OnlyNewestIsAccepted(later, now, s.order[i], o);
      assert later.order[i] == s.order[i];
      NoRepeats(later, now, i);
    }
  }

  lemma NoRepeats(s: Request, now: int, i: nat)
    requires RequestOk(s, now) && i < |s.order| - 1
    ensures s.order[i] != s.order[|s.order| - 1]
  {}

  // ---- The cost cap ---------------------------------------------------------------------------

  function Committed(s: Request): real {
    s.reserved + s.accrued
  }

  lemma {:induction false} CostNonnegative(s: Request, order: seq<string>, settled: bool)
    requires forall id | id in s.attempts :: s.attempts[id].cost >= 0.0
    ensures CostOf(s, order, settled) >= 0.0
  {
    if |order| > 0 {
      CostNonnegative(s, order[..|order| - 1], settled);
    }
  }

  lemma {:induction false} CostCovers(s: Request, order: seq<string>, id: string)
    requires forall x | x in s.attempts :: s.attempts[x].cost >= 0.0
    requires id in order && id in s.attempts
    ensures CostOf(s, order, Settled(s, id)) >= s.attempts[id].cost
  {
    var front, last := order[..|order| - 1], order[|order| - 1];
    assert order == front + [last];
    if last == id {
      CostNonnegative(s, front, Settled(s, id));
    } else {
      CostCovers(s, front, id);
    }
  }

  /** An attempt's settlement is accepted exactly once, for any cost that is not negative: the reserved and accrued
      columns always cover it. */
  lemma FinishAcceptedExactly(s: Request, now: int, id: string, o: Outcome)
    requires RequestOk(s, now) && id in s.attempts
    ensures Finish(s, now, id, o).Success? <==> s.attempts[id].status.Created? && o.cost >= 0.0
  {
    AttemptOk(s, id);
    CostCovers(s, s.order, id);
    CostNonnegative(s, s.order, true);
    hide MaxFence, CostOf;
  }

  lemma ReconcileAcceptedExactly(s: Request, now: int, id: string, billed: Billed)
    requires RequestOk(s, now)
    ensures Reconcile(s, id, billed).Success?
       <==> id in s.attempts && s.attempts[id].closed && billed.cost >= 0.0 && ReconcileKey(id, billed) !in s.keys
  {
    if id in s.attempts {
      AttemptOk(s, id);
      CostCovers(s, s.order, id);
    }
    hide CostOf;
  }

  /** The check the code leaves out, on the request's own columns: a final or corrected cost that will be taken up may
      exceed the attempt's present cost by no more than the room under the cap. */
  predicate Fits(s: Request, op: Operation)
    requires s.cap.Some?
  {
    var room := s.cap.value - s.reserved - s.accrued;
    match op
    case DoFinish(id, o) =>
      id in s.attempts && s.attempts[id].status.Created? && o.cost >= 0.0 ==> o.cost - s.attempts[id].cost <= room
    case DoReconcile(id, billed) =>
      id in s.attempts && s.attempts[id].closed && billed.cost >= 0.0 && ReconcileKey(id, billed) !in s.keys ==>
        billed.cost - s.attempts[id].cost <= room
    case _ => true
  }

  lemma CapStays(s: Request, now: int, op: Operation)
    ensures Step(s, now, op).cap == s.cap
  {
    hide MaxFence, MaxNumber, Stale;
  }

  lemma StepFitsExactly(s: Request, now: int, op: Operation)
    requires RequestOk(s, now) && s.cap.Some? && Committed(s) <= s.cap.value
    ensures Committed(Step(s, now, op)) <= s.cap.value <==> Fits(s, op)
  {
    hide MaxFence, MaxNumber, Stale, RequestOk;
    if op.DoFinish? && op.id in s.attempts {
      FinishAcceptedExactly(s, now, op.id, op.outcome);
    } else if op.DoReconcile? {
      ReconcileAcceptedExactly(s, now, op.id, op.billed);
    }
  }

  ghost predicate WithinCap(s: Request) {
    s.cap.Some? ==> Committed(s) <= s.cap.value
  }

  ghost predicate FitsAt(s: Request, history: seq<Timed>, i: int)
    requires 0 <= i < |history|
  {
    var before := After(s, history[..i]);
    before.cap.Some? ==> Fits(before, history[i].op)
  }

  /** A whole history stays within its cap exactly when every settlement and correction it takes up fits the room left
      at that moment; claims and reservations never matter. */
  lemma {:induction false} CapHoldsExactly(s: Request, clock: int, history: seq<Timed>)
    requires RequestOk(s, clock) && Orderly(history, clock) && s.cap.Some? && Committed(s) <= s.cap.value
    ensures (forall i | 0 <= i <= |history| :: WithinCap(After(s, history[..i])))
       <==> (forall i | 0 <= i < |history| :: FitsAt(s, history, i))
    ensures After(s, history).cap == s.cap
  {
    hide RequestOk, Orderly, Step, Fits;
    assert history[..|history|] == history;
    if |history| > 0 {
      var front, last := history[..|history| - 1], history[|history| - 1];
      OrderlyPrefix(history, clock);
      CapHoldsExactly(s, clock, front);
      HistoryKeeps(s, clock, front);
      TimePasses(After(s, front), ClockAfter(front, clock), last.at);
      CapsOfPrefixes(s, history);
      CapStays(After(s, front), last.at, last.op);
      if WithinCap(After(s, front)) {
        StepFitsExactly(After(s, front), last.at, last.op);
      }
    } else {
      assert WithinCap(After(s, history[..0]));
    }
  }

  lemma CapsOfPrefixes(s: Request, history: seq<Timed>)
    requires |history| > 0
    ensures var front := history[..|history| - 1];
      && ((forall i | 0 <= i <= |history| :: WithinCap(After(s, history[..i])))
          <==> (forall i | 0 <= i <= |front| :: WithinCap(After(s, front[..i]))) && WithinCap(After(s, history)))
      && ((forall i | 0 <= i < |history| :: FitsAt(s, history, i))
          <==> (forall i | 0 <= i < |front| :: FitsAt(s, front, i)) && FitsAt(s, history, |front|))
      && ((forall i | 0 <= i <= |front| :: WithinCap(After(s, front[..i]))) ==> WithinCap(After(s, front)))
  {
    hide After, Fits, WithinCap;
    var front := history[..|history| - 1];
    assert history[..|history|] == history && front[..|front|] == front;
    forall i | 0 <= i <= |front| ensures front[..i] == history[..i] {}
    forall i | 0 <= i < |front| ensures FitsAt(s, front, i) == FitsAt(s, history, i) {
      assert front[..i] == history[..i] && front[i] == history[i];
    }
    if forall i | 0 <= i <= |history| :: WithinCap(After(s, history[..i])) {
      forall i | 0 <= i <= |front| ensures WithinCap(After(s, front[..i])) {
        assert WithinCap(After(s, history[..i]));
      }
      assert WithinCap(After(s, history[..|history|]));
    }
    if (forall i | 0 <= i <= |front| :: WithinCap(After(s, front[..i]))) && WithinCap(After(s, history)) {
      forall i | 0 <= i <= |history| ensures WithinCap(After(s, history[..i])) {
        if i <= |front| {
          assert WithinCap(After(s, front[..i]));
        }
      }
    }
    if forall i | 0 <= i <= |front| :: WithinCap(After(s, front[..i])) {
      assert WithinCap(After(s, front[..|front|]));
    }
  }

  /** Every cost stays within what was last reserved or recorded for its attempt. */
  ghost predicate WithinRecorded(s: Request, op: Operation) {
    && (op.DoFinish? && op.id in s.attempts ==> op.outcome.cost <= s.attempts[op.id].cost)
    && (op.DoReconcile? && op.id in s.attempts ==> op.billed.cost <= s.attempts[op.id].cost)
  }

  lemma RecordedKeepsCap(s: Request, now: int, op: Operation)
    requires s.cap.Some? && Committed(s) <= s.cap.value && WithinRecorded(s, op)
    ensures Step(s, now, op).cap == s.cap && Committed(Step(s, now, op)) <= s.cap.value
  {
    hide MaxFence, MaxNumber, Stale;
  }

  lemma {:induction false} CapHoldsThroughout(s: Request, history: seq<Timed>)
    requires s.cap.Some? && Committed(s) <= s.cap.value
    requires forall i | 0 <= i < |history| :: WithinRecorded(After(s, history[..i]), history[i].op)
    ensures After(s, history).cap == s.cap && Committed(After(s, history)) <= s.cap.value
  {
    hide Step, Reserve, Finish;
    if |history| > 0 {
      var front, last := history[..|history| - 1], history[|history| - 1];
      forall i | 0 <= i < |front| ensures WithinRecorded(After(s, front[..i]), front[i].op) {
        assert front[..i] == history[..i];
        assert WithinRecorded(After(s, history[..i]), history[i].op);
      }
      CapHoldsThroughout(s, front);
      assert WithinRecorded(After(s, history[..|front|]), history[|front|].op);
      RecordedKeepsCap(After(s, front), last.at, last.op);
    }
  }

  const Overrun: seq<Timed> := [
    Timed(0, DoClaim("A", 10)), Timed(1, DoReserve("A", 10.0)),
    Timed(2, DoFinish("A", Outcome(1, RetryableFailure, 2.0, true))),
    Timed(3, DoClaim("B", 10)), Timed(4, DoReserve("B", 8.0)), Timed(5, DoReconcile("A", Billed(10.0, "10")))]

  lemma AfterOneMore(s: Request, history: seq<Timed>, next: Timed)
    ensures After(s, history + [next]) == Step(After(s, history), next.at, next.op)
  {
    assert (history + [next])[..|history|] == history;
  }

  /** Keeping every final and reconciled cost within its own reservation is not enough. Attempt A reserves the whole
      cap of 10 and finishes at 2; B reserves the 8 that freed; then A's bill is corrected back up to 10. */
  lemma ReservationsDoNotBoundReconciliation()
    ensures var s := After(Opened(Some(10.0)), Overrun); s.accrued == 10.0 && s.reserved == 8.0
    ensures Orderly(Overrun, 0)
  {
    OverrunStarts();
    OverrunEnds();
  }

  const AfterThree := Request(Some(10.0), Attempting, 0.0, 2.0, Option.None,
    map["A" := Attempt(1, 1, 10, RetryableFailure, 2.0, true)], ["A"], {ReserveKey("A"), FinishKey("A")})

  lemma OverrunStarts()
    ensures After(Opened(Some(10.0)), Overrun[..3]) == AfterThree
  {
    var s0 := Opened(Some(10.0));
    var s1 := Request(Some(10.0), Attempting, 0.0, 0.0, Option.None, map["A" := Attempt(1, 1, 10, Created, 0.0, false)], ["A"], {});
    assert Step(s0, 0, DoClaim("A", 10)) == s1;
    var s2 := s1.(reserved := 10.0, attempts := map["A" := Attempt(1, 1, 10, Created, 10.0, false)], keys := {ReserveKey("A")});
    assert Step(s1, 1, DoReserve("A", 10.0)) == s2;
    OneFence(s2.attempts, "A");
    assert Step(s2, 2, DoFinish("A", Outcome(1, RetryableFailure, 2.0, true))) == AfterThree;
    hide Step;
    assert Overrun[..3] == Overrun[..2] + [Overrun[2]] && Overrun[..2] == Overrun[..1] + [Overrun[1]];
    assert Overrun[..1] == [] + [Overrun[0]];
    AfterOneMore(s0, [], Overrun[0]);
    AfterOneMore(s0, Overrun[..1], Overrun[1]);
    AfterOneMore(s0, Overrun[..2], Overrun[2]);
  }

  lemma OneFence(attempts: map<string, Attempt>, id: string)
    requires id in attempts
    ensures MaxFence(attempts, [id]) == attempts[id].fence && MaxNumber(attempts, [id]) == attempts[id].number
  {
    assert [id][..0] == [];
  }

  lemma OverrunEnds()
    requires After(Opened(Some(10.0)), Overrun[..3]) == AfterThree
    ensures var s := After(Opened(Some(10.0)), Overrun); s.accrued == 10.0 && s.reserved == 8.0
  {
    var s0 := Opened(Some(10.0));
    OneFence(AfterThree.attempts, "A");
    var s4 := Step(AfterThree, 3, DoClaim("B", 10));
    assert s4 == AfterThree.(attempts := AfterThree.attempts["B" := Attempt(2, 2, 13, Created, 0.0, false)], order := ["A", "B"]);
    var s5 := Step(s4, 4, DoReserve("B", 8.0));
    assert s5.reserved == 8.0 && s5.accrued == 2.0 && s5.attempts["A"] == AfterThree.attempts["A"];
    assert ReconcileKey("A", Billed(10.0, "10")) !in s5.keys;
    var s6 := Step(s5, 5, DoReconcile("A", Billed(10.0, "10")));
    assert s6.accrued == 10.0 && s6.reserved == 8.0;
    hide Step;
    assert Overrun == Overrun[..5] + [Overrun[5]] && Overrun[..5] == Overrun[..4] + [Overrun[4]];
    assert Overrun[..4] == Overrun[..3] + [Overrun[3]];
    AfterOneMore(s0, Overrun[..3], Overrun[3]);
    AfterOneMore(s0, Overrun[..4], Overrun[4]);
    AfterOneMore(s0, Overrun[..5], Overrun[5]);
  }
}
