/** At-least-once delivery with fenced leases: a lost sender is quarantined, never blindly resent. */
module Delivery {
  import opened Prelude

  datatype DeliveryStatus = Pending | Leased | Delivered | Quarantined

  datatype FailureKind = Transient | Permanent | UnknownDelivery

  datatype DeliveryResult = Receipt(text: string) | Failed(kind: FailureKind)

  /** What a finish reported, as its hash identifies it. */
  datatype Report = Report(result: DeliveryResult, retryAfter: int)

  /** `worker` and `report` are what the row's delivery record last said. */
  datatype Row = Row(
    topic: string, status: DeliveryStatus, attempts: nat, availableAt: int, token: Option<string>, expires: int,
    worker: Option<string>, report: Option<Report>)

  datatype Queue = Queue(rows: map<nat, Row>, ids: seq<nat>, receipts: seq<(nat, string)>, tokens: set<string>)

  datatype DeliveryError = InvalidLease | InvalidResult | StaleLease | WrongWorker | IdempotencyConflict | Collision

  const MAX_ATTEMPTS: nat := 5

  /** The topic whose deliveries leave a receipt. */
  const NOTIFICATIONS := "telegram.notification"

  function PowerOfTwo(n: nat): nat {
    if n == 0 then 1 else 2 * PowerOfTwo(n - 1)
  }

  // ---- Claim ----------------------------------------------------------------------------------

  predicate Lost(r: Row, topics: set<string>, now: int) {
    r.topic in topics && r.status.Leased? && r.expires <= now
  }

  /** The delivery record of a quarantined lease names neither a worker nor a result. */
  function Shelved(r: Row): Row {
    r.(status := Quarantined, worker := Option.None, report := Option.None)
  }

  function Shelve(rows: map<nat, Row>, topics: set<string>, now: int): (shelved: map<nat, Row>)
    ensures shelved.Keys == rows.Keys
  {
    map id | id in rows :: if Lost(rows[id], topics, now) then Shelved(rows[id]) else rows[id]
  }

  predicate Ready(r: Row, topics: set<string>, now: int) {
    r.topic in topics && r.status.Pending? && r.availableAt <= now
  }

  predicate Sooner(rows: map<nat, Row>, a: nat, b: nat)
    requires a in rows && b in rows
  {
    rows[a].availableAt < rows[b].availableAt || (rows[a].availableAt == rows[b].availableAt && a < b)
  }

  /** The ready row available longest, by id among equals. */
  function Earliest(rows: map<nat, Row>, ids: seq<nat>, topics: set<string>, now: int): (found: Option<nat>)
    ensures found.Some? ==> found.value in rows && Ready(rows[found.value], topics, now)
  {
    if |ids| == 0 then None
    else
      var earlier, last := Earliest(rows, ids[..|ids| - 1], topics, now), ids[|ids| - 1];
      if last in rows && Ready(rows[last], topics, now) && (earlier.None? || Sooner(rows, last, earlier.value)) then Some(last)
      else earlier
  }

  function Lease(r: Row, worker: string, token: string, expires: int): Row {
    r.(status := Leased, token := Some(token), expires := expires, attempts := r.attempts + 1, worker := Some(worker),
       report := Option.None)
  }

  /** The queue after a claim and the row handed out, if any. */
  function Claim(s: Queue, topics: set<string>, seconds: int, worker: string, token: string, now: int)
    : Result<(Queue, Option<nat>), DeliveryError>
  {
    if topics == {} || !(1 <= seconds <= 300) then Failure(InvalidLease)
    else if token in s.tokens then Failure(Collision)
    else
      var rows := Shelve(s.rows, topics, now);
      match Earliest(rows, s.ids, topics, now)
      case None => Success((s.(rows := rows), Option.None))
      case Some(id) =>
        Success((s.(rows := rows[id := Lease(rows[id], worker, token, now + seconds)], tokens := s.tokens + {token}), Some(id)))
  }

  // ---- Finish ---------------------------------------------------------------------------------

  function Later(a: int, b: int): int {
    if a >= b then a else b
  }

  function StatusAfter(r: Row, result: DeliveryResult): DeliveryStatus {
    if result.Receipt? then Delivered
    else if result.kind.Transient? && r.attempts < MAX_ATTEMPTS then Pending
    else Quarantined
  }

  function Settled(r: Row, report: Report, now: int): Row {
    r.(status := StatusAfter(r, report.result), report := Some(report),
       availableAt := now + Later(report.retryAfter, PowerOfTwo(r.attempts)))
  }

  function Finish(s: Queue, id: nat, token: string, worker: string, report: Report, now: int)
    : Result<(Queue, DeliveryStatus), DeliveryError>
  {
    if report.result == Receipt("") || !(1 <= report.retryAfter <= 86400) then Failure(InvalidResult)
    else if id !in s.rows || s.rows[id].token != Some(token) then Failure(StaleLease)
    else
      var r := s.rows[id];
      if !r.status.Leased? && r.report.None? then Failure(StaleLease)
      else if r.worker != Some(worker) then Failure(WrongWorker)
      else if !r.status.Leased? then if r.report == Some(report) then Success((s, r.status)) else Failure(IdempotencyConflict)
      else if r.expires <= now then Failure(StaleLease)
      else
        var r' := Settled(r, report, now);
        Success((s.(rows := s.rows[id := r'],
          receipts := if report.result.Receipt? && r.topic == NOTIFICATIONS then s.receipts + [(id, report.result.text)]
                      else s.receipts), r'.status))
  }

  // ---- Histories ------------------------------------------------------------------------------

  datatype Operation =
    | DoClaim(topics: set<string>, seconds: int, worker: string, token: string)
    | DoFinish(id: nat, token: string, worker: string, report: Report)
    | DoAdd(id: nat, topic: string)

  datatype Timed = Timed(at: int, op: Operation)

  function Step(s: Queue, now: int, op: Operation): Queue {
    match op
    case DoClaim(topics, seconds, worker, token) =>
      (match Claim(s, topics, seconds, worker, token, now) case Success(x) => x.0 case Failure(_) => s)
    case DoFinish(id, token, worker, report) =>
      (match Finish(s, id, token, worker, report, now) case Success(x) => x.0 case Failure(_) => s)
    case DoAdd(id, topic) =>
      if id in s.rows then s
      else s.(rows := s.rows[id := Row(topic, Pending, 0, now, None, now, None, None)], ids := s.ids + [id])
  }

  function After(s: Queue, history: seq<Timed>): Queue {
    if |history| == 0 then s
    else Step(After(s, history[..|history| - 1]), history[|history| - 1].at, history[|history| - 1].op)
  }

  // ---- What is kept ---------------------------------------------------------------------------

  ghost function ReceiptsFor(receipts: seq<(nat, string)>, id: nat): nat {
    if |receipts| == 0 then 0
    else ReceiptsFor(receipts[..|receipts| - 1], id) + if receipts[|receipts| - 1].0 == id then 1 else 0
  }

  ghost predicate RowOk(s: Queue, id: nat)
    requires id in s.rows
  {
    var r := s.rows[id];
    && r.attempts <= MAX_ATTEMPTS && (r.status.Pending? ==> r.attempts < MAX_ATTEMPTS)
    && (r.status.Leased? ==> r.token.Some? && r.worker.Some? && r.report.None?)
    && (r.token.Some? ==> r.token.value in s.tokens)
    && ReceiptsFor(s.receipts, id) == (if r.status.Delivered? && r.topic == NOTIFICATIONS then 1 else 0)
  }

  ghost predicate QueueOk(s: Queue) {
    && (forall id | id in s.rows :: RowOk(s, id))
    && (forall id | id !in s.rows :: ReceiptsFor(s.receipts, id) == 0)
    && (forall a, b | a in s.rows && b in s.rows && s.rows[a].token.Some? && s.rows[a].token == s.rows[b].token :: a == b)
  }

  const EmptyQueue := Queue(map[], [], [], {})

  lemma ReceiptsAppend(receipts: seq<(nat, string)>, more: (nat, string), id: nat)
    ensures ReceiptsFor(receipts + [more], id) == ReceiptsFor(receipts, id) + if more.0 == id then 1 else 0
  {
    assert (receipts + [more])[..|receipts|] == receipts;
  }

  lemma ClaimKeeps(s: Queue, topics: set<string>, seconds: int, worker: string, token: string, now: int)
    requires QueueOk(s) && Claim(s, topics, seconds, worker, token, now).Success?
    ensures QueueOk(Claim(s, topics, seconds, worker, token, now).value.0)
  {
    hide Earliest, ReceiptsFor;
    var s' := Claim(s, topics, seconds, worker, token, now).value.0;
    forall id | id in s'.rows ensures RowOk(s', id) {
      assert RowOk(s, id);
    }
  }

  predicate Receipted(s: Queue, s': Queue, id: nat, report: Report) {
    s' != s && report.result.Receipt? && id in s.rows && s.rows[id].topic == NOTIFICATIONS
  }

  lemma FinishKeeps(s: Queue, id: nat, token: string, worker: string, report: Report, now: int)
    requires QueueOk(s) && Finish(s, id, token, worker, report, now).Success?
    ensures QueueOk(Finish(s, id, token, worker, report, now).value.0)
  {
    hide PowerOfTwo;
    var s' := Finish(s, id, token, worker, report, now).value.0;
    forall x: nat ensures ReceiptsFor(s'.receipts, x)
      == ReceiptsFor(s.receipts, x) + if Receipted(s, s', id, report) && x == id then 1 else 0
    {
      if Receipted(s, s', id, report) {
        ReceiptsAppend(s.receipts, (id, report.result.text), x);
      }
    }
    hide ReceiptsFor;
    forall x | x in s'.rows ensures RowOk(s', x) {
      assert RowOk(s, x);
    }
  }

  lemma StepKeeps(s: Queue, now: int, op: Operation)
    requires QueueOk(s)
    ensures QueueOk(Step(s, now, op))
  {
    match op
    case DoClaim(topics, seconds, worker, token) =>
      hide QueueOk, Claim;
      if Claim(s, topics, seconds, worker, token, now).Success? { ClaimKeeps(s, topics, seconds, worker, token, now); }
    case DoFinish(id, token, worker, report) =>
      hide QueueOk, Finish;
      if Finish(s, id, token, worker, report, now).Success? { FinishKeeps(s, id, token, worker, report, now); }
    case DoAdd(id, topic) =>
      hide ReceiptsFor;
      forall x | x in Step(s, now, op).rows ensures RowOk(Step(s, now, op), x) {
        if x in s.rows {
          assert RowOk(s, x);
        }
      }
  }

  lemma {:induction false} HistoryKeeps(s: Queue, history: seq<Timed>)
    requires QueueOk(s)
    ensures QueueOk(After(s, history))
  {
    hide QueueOk, Step;
    if |history| > 0 {
      HistoryKeeps(s, history[..|history| - 1]);
      StepKeeps(After(s, history[..|history| - 1]), history[|history| - 1].at, history[|history| - 1].op);
    }
  }

  lemma EmptyQueueOk()
    ensures QueueOk(EmptyQueue)
  {}

  /** Over every history no row is sent more than five times, a notification has one receipt exactly when it is
      delivered and other topics have none, and no two rows share a lease token. */
  lemma SendsAndReceiptsAreBounded(history: seq<Timed>, id: nat)
    ensures var s := After(EmptyQueue, history);
      id in s.rows ==>
        && s.rows[id].attempts <= MAX_ATTEMPTS
        && ReceiptsFor(s.receipts, id)
             == (if s.rows[id].status.Delivered? && s.rows[id].topic == NOTIFICATIONS then 1 else 0)
        && forall other | other in s.rows && s.rows[id].token.Some? && s.rows[other].token == s.rows[id].token :: other == id
  {
    hide After, ReceiptsFor;
    EmptyQueueOk();
    HistoryKeeps(EmptyQueue, history);
    var s := After(EmptyQueue, history);
    assert id in s.rows ==> RowOk(s, id);
  }

  // ---- Finality -------------------------------------------------------------------------------

  lemma StepKeepsEnded(s: Queue, now: int, op: Operation, id: nat)
    requires id in s.rows && (s.rows[id].status.Delivered? || s.rows[id].status.Quarantined?)
    ensures id in Step(s, now, op).rows && Step(s, now, op).rows[id] == s.rows[id]
  {
    hide Earliest;
  }

  /** Delivered and quarantined rows are never touched again. */
  lemma {:induction false} EndedIsFinal(s: Queue, history: seq<Timed>, id: nat)
    requires id in s.rows && (s.rows[id].status.Delivered? || s.rows[id].status.Quarantined?)
    ensures id in After(s, history).rows && After(s, history).rows[id] == s.rows[id]
  {
    hide Step;
    if |history| > 0 {
      EndedIsFinal(s, history[..|history| - 1], id);
      StepKeepsEnded(After(s, history[..|history| - 1]), history[|history| - 1].at, history[|history| - 1].op, id);
    }
  }

  /** A sender that went silent past its lease: the row is still waiting to be found, or quarantined. */
  ghost predicate Abandoned(r: Row, lost: Row) {
    (r == lost || r == Shelved(lost))
  }

  lemma StepKeepsAbandoned(s: Queue, now: int, op: Operation, id: nat, lost: Row)
    requires id in s.rows && Abandoned(s.rows[id], lost) && lost.status.Leased? && lost.expires <= now
    ensures id in Step(s, now, op).rows && Abandoned(Step(s, now, op).rows[id], lost)
  {
    hide Earliest, PowerOfTwo;
  }

  /** A lease that expires unanswered may or may not have delivered, so it is never sent again and never counted as
      delivered: from then on the row is only ever found and quarantined. */
  lemma {:induction false} LostSendIsNeverRepeated(s: Queue, history: seq<Timed>, id: nat, clock: int)
    requires id in s.rows && s.rows[id].status.Leased? && s.rows[id].expires <= clock
    requires forall i | 0 <= i < |history| :: clock <= history[i].at
    ensures id in After(s, history).rows && Abandoned(After(s, history).rows[id], s.rows[id])
    ensures After(s, history).rows[id].attempts == s.rows[id].attempts && !After(s, history).rows[id].status.Delivered?
  {
    hide Step;
    if |history| > 0 {
      LostSendIsNeverRepeated(s, history[..|history| - 1], id, clock);
      StepKeepsAbandoned(After(s, history[..|history| - 1]), history[|history| - 1].at, history[|history| - 1].op, id, s.rows[id]);
    }
  }

  /** `token` was handed out once and is not the row's current lease. */
  ghost predicate Superseded(s: Queue, id: nat, token: string) {
    token in s.tokens && (id in s.rows ==> s.rows[id].token != Some(token))
  }

  lemma StepKeepsSuperseded(s: Queue, now: int, op: Operation, id: nat, token: string)
    requires Superseded(s, id, token)
    ensures Superseded(Step(s, now, op), id, token)
  {
    hide Earliest, PowerOfTwo;
  }

  /** A superseded token can never finish that row again, with any result, at any time. */
  lemma {:induction false} OldTokenIsDead(
    s: Queue, history: seq<Timed>, id: nat, token: string, worker: string, report: Report, now: int)
    requires Superseded(s, id, token)
    ensures Superseded(After(s, history), id, token) && Finish(After(s, history), id, token, worker, report, now).Failure?
  {
    hide Step;
    if |history| > 0 {
      OldTokenIsDead(s, history[..|history| - 1], id, token, worker, report, now);
      StepKeepsSuperseded(After(s, history[..|history| - 1]), history[|history| - 1].at, history[|history| - 1].op, id, token);
    }
  }

  /** The row as a settlement under `token` left it. */
  ghost predicate SettledAs(s: Queue, id: nat, token: string, worker: string, report: Report, status: DeliveryStatus) {
    && id in s.rows && s.rows[id].token == Some(token) && s.rows[id].worker == Some(worker)
    && s.rows[id].report == Some(report) && s.rows[id].status == status && !status.Leased?
  }

  lemma FinishSettles(s: Queue, id: nat, token: string, worker: string, report: Report, now: int)
    requires QueueOk(s) && Finish(s, id, token, worker, report, now).Success?
    ensures var x := Finish(s, id, token, worker, report, now).value;
      SettledAs(x.0, id, token, worker, report, x.1) && token in x.0.tokens
  {
    hide PowerOfTwo;
    assert RowOk(s, id);
  }

  lemma StepKeepsSettled(
    s: Queue, now: int, op: Operation, id: nat, token: string, worker: string, report: Report, status: DeliveryStatus)
    requires token in s.tokens && (SettledAs(s, id, token, worker, report, status) || Superseded(s, id, token))
    ensures var s' := Step(s, now, op);
      && token in s'.tokens && (SettledAs(s', id, token, worker, report, status) || Superseded(s', id, token))
      && (SettledAs(s, id, token, worker, report, status) && !status.Pending? ==>
            SettledAs(s', id, token, worker, report, status))
  {
    hide Earliest, PowerOfTwo;
  }

  lemma {:induction false} StaysSettled(
    s: Queue, history: seq<Timed>, id: nat, token: string, worker: string, report: Report, status: DeliveryStatus)
    requires token in s.tokens && SettledAs(s, id, token, worker, report, status)
    ensures var s' := After(s, history);
      && token in s'.tokens && (SettledAs(s', id, token, worker, report, status) || Superseded(s', id, token))
      && (!status.Pending? ==> SettledAs(s', id, token, worker, report, status))
  {
    hide Step, SettledAs, Superseded;
    if |history| > 0 {
      StaysSettled(s, history[..|history| - 1], id, token, worker, report, status);
      StepKeepsSettled(
        After(s, history[..|history| - 1]), history[|history| - 1].at, history[|history| - 1].op, id, token, worker, report, status);
    }
  }

  lemma FinishingAgain(
    s: Queue, id: nat, token: string, worker: string, report: Report, status: DeliveryStatus, again: Report, now: int)
    requires SettledAs(s, id, token, worker, report, status) || Superseded(s, id, token)
    requires again.result != Receipt("") && 1 <= again.retryAfter <= 86400
    ensures Finish(s, id, token, worker, again, now)
      == if Superseded(s, id, token) then Failure(StaleLease)
         else if again == report then Success((s, status)) else Failure(IdempotencyConflict)
  {
    hide PowerOfTwo;
  }

  /** A lease is settled once, whatever happens afterwards: reporting the same outcome again returns the same status
      and changes nothing, another outcome is refused, and once the row has been leased anew so is either. A row
      that ended answers its last report for ever. */
  lemma FinishingTwice(
    s: Queue, id: nat, token: string, worker: string, report: Report, now: int, history: seq<Timed>, again: Report, later: int)
    requires QueueOk(s) && Finish(s, id, token, worker, report, now).Success?
    requires again.result != Receipt("") && 1 <= again.retryAfter <= 86400
    ensures var x := Finish(s, id, token, worker, report, now).value;
      var s' := After(x.0, history);
      && Finish(s', id, token, worker, again, later)
           == (if Superseded(s', id, token) then Failure(StaleLease)
               else if again == report then Success((s', x.1)) else Failure(IdempotencyConflict))
      && (Superseded(s', id, token) ==> x.1.Pending?)
  {
    hide QueueOk, Finish, After, SettledAs;
    var x := Finish(s, id, token, worker, report, now).value;
    FinishSettles(s, id, token, worker, report, now);
    StaysSettled(x.0, history, id, token, worker, report, x.1);
    FinishingAgain(After(x.0, history), id, token, worker, report, x.1, again, later);
    SettledIsCurrent(After(x.0, history), id, token, worker, report, x.1);
  }

  lemma SettledIsCurrent(s: Queue, id: nat, token: string, worker: string, report: Report, status: DeliveryStatus)
    ensures SettledAs(s, id, token, worker, report, status) ==> !Superseded(s, id, token)
  {}

  // ---- The table and its transactions ---------------------------------------------------------

  class Outbox {
    var rows: map<nat, Row>
    var ids: seq<nat>
    var receipts: seq<(nat, string)>
    var tokens: set<string>

    function Contents(): Queue
      reads this
    {
      Queue(rows, ids, receipts, tokens)
    }

    constructor ()
      ensures Contents() == EmptyQueue
    {
      rows, ids, receipts, tokens := map[], [], [], {};
    }

    /** Quarantines every lost lease of the topics. */
    method Quarantine(topics: set<string>, now: int)
      modifies `rows
      ensures rows == Shelve(old(rows), topics, now)
    {
      var left := rows.Keys;
      while left != {}
        invariant left <= rows.Keys == old(rows).Keys
        invariant forall id | id in rows ::
          rows[id] == if id !in left && Lost(old(rows)[id], topics, now) then Shelved(old(rows)[id]) else old(rows)[id]
        decreases |left|
      {
        var id :| id in left;
        if Lost(rows[id], topics, now) { rows := rows[id := Shelved(rows[id])]; }
        left := left - {id};
      }
    }

    method FindReady(topics: set<string>, now: int) returns (found: Option<nat>)
      ensures found == Earliest(rows, ids, topics, now)
    {
      found := None;
      for i := 0 to |ids|
        invariant found == Earliest(rows, ids[..i], topics, now)
      {
        assert ids[..i + 1][..i] == ids[..i];
        var id := ids[i];
        if id in rows && Ready(rows[id], topics, now) && (found.None? || Sooner(rows, id, found.value)) { found := Some(id); }
      }
      assert ids[..|ids|] == ids;
    }

    method ClaimNext(topics: set<string>, seconds: int, worker: string, token: string, now: int)
      returns (r: Result<Option<nat>, DeliveryError>)
      modifies this
      ensures match Claim(old(Contents()), topics, seconds, worker, token, now)
              case Success(x) => r == Success(x.1) && Contents() == x.0
              case Failure(e) => r == Failure(e) && Contents() == old(Contents())
    {
      hide Earliest;
      if topics == {} || !(1 <= seconds <= 300) { return Failure(InvalidLease); }
      if token in tokens { return Failure(Collision); }
      Quarantine(topics, now);
      var found := FindReady(topics, now);
      if found.None? { return Success(Option.None); }
      var row := rows[found.value];
      rows := rows[found.value := row.(status := Leased, token := Some(token), expires := now + seconds,
        attempts := row.attempts + 1, worker := Some(worker), report := Option.None)];
      tokens := tokens + {token};
      return Success(found);
    }

    method FinishDelivery(id: nat, token: string, worker: string, report: Report, now: int)
      returns (r: Result<DeliveryStatus, DeliveryError>)
      modifies this
      ensures match Finish(old(Contents()), id, token, worker, report, now)
              case Success(x) => r == Success(x.1) && Contents() == x.0
              case Failure(e) => r == Failure(e) && Contents() == old(Contents())
    {
      if report.result == Receipt("") || !(1 <= report.retryAfter <= 86400) { return Failure(InvalidResult); }
      if id !in rows || rows[id].token != Some(token) { return Failure(StaleLease); }
      var row := rows[id];
      if !row.status.Leased? && row.report.None? { return Failure(StaleLease); }
      if row.worker != Some(worker) { return Failure(WrongWorker); }
      if !row.status.Leased? {
        return if row.report == Some(report) then Success(row.status) else Failure(IdempotencyConflict);
      }
      if row.expires <= now { return Failure(StaleLease); }
      var status := if report.result.Receipt? then Delivered
        else if report.result.kind.Transient? && row.attempts < MAX_ATTEMPTS then Pending else Quarantined;
      rows := rows[id := row.(status := status, report := Some(report),
        availableAt := now + Later(report.retryAfter, PowerOfTwo(row.attempts)))];
      if report.result.Receipt? && row.topic == NOTIFICATIONS { receipts := receipts + [(id, report.result.text)]; }
      return Success(status);
    }
  }
}
