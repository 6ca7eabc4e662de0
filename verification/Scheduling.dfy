/** Scheduler tables and transactions: dependencies, budgets, leases, retries and expiry. */
module Scheduling {
  import opened Prelude
  import opened Graphs

  datatype Campaign = Campaign(budget: real, committed: real, horizon: int)

  datatype Lane =
    | Exploit | Alternative | Novelty | Falsification | Replication | DataQa | ExecutionQa | SystemQa | Governance
  {
    predicate QualityAssurance() {
      DataQa? || ExecutionQa? || SystemQa?
    }
  }

  datatype TaskSpec = TaskSpec(
    id: string, campaign: string, parent: Option<string>, semantic: string, schema: string, resource: string, lane: Lane,
    budget: real, valueLowerBound: real, novelty: real, information: real, maxRetries: nat, timeout: int,
    independent: bool, dependencies: seq<string>)
  {
    predicate Valid() {
      budget >= 0.0 && 0.0 <= novelty <= 1.0 && information >= 0.0 && timeout > 0
    }
  }

  datatype TaskStatus = Queued | Running | Hibernating | Completed | Quarantined

  datatype Task = Task(spec: TaskSpec, status: TaskStatus, childAllocated: real, availableAt: int, createdAt: int)

  datatype RunStatus = Active | Succeeded | Failed | Expired

  /** A run together with its one lease. */
  datatype TaskRun = TaskRun(
    task: string, worker: string, resource: string, status: RunStatus, retryCount: nat, fence: string,
    expires: int, heartbeat: int, released: bool)

  /** `order` and `started` are the creation orders of tasks and runs; `added` the dependency requests already used. */
  datatype Board = Board(
    campaigns: map<string, Campaign>, tasks: map<string, Task>, order: seq<string>, deps: Edges,
    added: set<(string, string)>, runs: map<string, TaskRun>, started: seq<string>)

  datatype Policy = Policy(limits: map<string, nat>, explorationFloor: real) {
    function Limit(resource: string): nat {
      if resource in limits then limits[resource] else 0
    }
  }

  datatype SchedulerError =
    | UnknownResourceClass | NoPositiveInformationValue | CampaignUnavailable | InvalidParent
    | SubtreeBudgetExhausted | CampaignBudgetExhausted | IdempotencyConflict | InvalidDependency
    | InvalidDependencyDag | ConstraintViolation | StaleLease | ExpectedArtifactMissing | NotFound
    | ArtifactSchemaMismatch | UnknownArtifact | InvalidHorizon

  // ---- Enqueue --------------------------------------------------------------------------------

  predicate SameWork(s: Board, spec: TaskSpec, id: string) {
    id in s.tasks && s.tasks[id].spec.campaign == spec.campaign && s.tasks[id].spec.semantic == spec.semantic
  }

  /** The edges of the first `n` declared dependencies, or the error that stops the first bad one. The new task
      is already a row when its dependencies are checked, so naming itself fails on the self-edge constraint. */
  function DependenciesOf(tasks: map<string, Task>, spec: TaskSpec, n: nat): Result<Edges, SchedulerError>
    requires n <= |spec.dependencies|
  {
    if n == 0 then Success({})
    else match DependenciesOf(tasks, spec, n - 1)
      case Failure(e) => Failure(e)
      case Success(edges) =>
        var d := spec.dependencies[n - 1];
        if d == spec.id then Failure(ConstraintViolation)
        else if d !in tasks || tasks[d].spec.campaign != spec.campaign then Failure(InvalidDependency)
        else if (spec.id, d) in edges then Failure(ConstraintViolation)
        else Success(edges + {(spec.id, d)})
  }

  /** The campaigns and tasks after the new task's budget is taken from its parent or its campaign. */
  function Fund(s: Board, spec: TaskSpec): Result<(map<string, Campaign>, map<string, Task>), SchedulerError>
    requires spec.campaign in s.campaigns
  {
    match spec.parent
    case Some(p) =>
      if p !in s.tasks || s.tasks[p].spec.campaign != spec.campaign || s.tasks[p].status.Quarantined? then
        Failure(InvalidParent)
      else if s.tasks[p].childAllocated + spec.budget > s.tasks[p].spec.budget then Failure(SubtreeBudgetExhausted)
      else Success((s.campaigns,
        s.tasks[p := s.tasks[p].(childAllocated := s.tasks[p].childAllocated + spec.budget)]))
    case None =>
      var c := s.campaigns[spec.campaign];
      if c.committed + spec.budget > c.budget then Failure(CampaignBudgetExhausted)
      else Success((s.campaigns[spec.campaign := c.(committed := c.committed + spec.budget)], s.tasks))
  }

  function Refused(p: Policy, spec: TaskSpec): Option<SchedulerError> {
    if spec.resource !in p.limits then Some(UnknownResourceClass)
    else if spec.valueLowerBound <= 0.0 && !spec.lane.QualityAssurance() then Some(NoPositiveInformationValue)
    else None
  }

  /** A task not seen before in its campaign. */
  function EnqueueNew(s: Board, now: int, spec: TaskSpec): Result<Board, SchedulerError> {
    if spec.campaign !in s.campaigns || s.campaigns[spec.campaign].horizon <= now then Failure(CampaignUnavailable)
    else match Fund(s, spec)
      case Failure(e) => Failure(e)
      case Success(funded) =>
        if spec.id in s.tasks then Failure(IdempotencyConflict)
        else match DependenciesOf(s.tasks, spec, |spec.dependencies|)
          case Failure(e) => Failure(e)
          case Success(edges) =>
            Success(s.(campaigns := funded.0, tasks := funded.1[spec.id := Task(spec, Queued, 0.0, now, now)],
                       order := s.order + [spec.id], deps := s.deps + edges))
  }

  // ---- Dependencies added later ---------------------------------------------------------------

  ghost function AddDependency(s: Board, id: string, dependency: string): Result<Board, SchedulerError> {
    if Reaches(s.deps, dependency, id) || id !in s.tasks || dependency !in s.tasks
       || s.tasks[id].spec.campaign != s.tasks[dependency].spec.campaign || !s.tasks[id].status.Queued? then
      Failure(InvalidDependencyDag)
    else if (id, dependency) in s.added then Failure(IdempotencyConflict)
    else Success(s.(deps := s.deps + {(id, dependency)}, added := s.added + {(id, dependency)}))
  }

  // ---- Claim ----------------------------------------------------------------------------------

  predicate Live(r: TaskRun, resource: string, now: int) {
    !r.released && r.expires > now && r.resource == resource
  }

  function LiveCount(runs: map<string, TaskRun>, started: seq<string>, resource: string, now: int): nat {
    if |started| == 0 then 0
    else
      var last := started[|started| - 1];
      LiveCount(runs, started[..|started| - 1], resource, now)
      + if last in runs && Live(runs[last], resource, now) then 1 else 0
  }

  function RunsOf(runs: map<string, TaskRun>, started: seq<string>, task: string): nat {
    if |started| == 0 then 0
    else
      var last := started[|started| - 1];
      RunsOf(runs, started[..|started| - 1], task) + if last in runs && runs[last].task == task then 1 else 0
  }

  /** Every run ever, whatever became of it, counts toward its task's lane. */
  function LaneRuns(s: Board, started: seq<string>, lane: Lane): nat {
    if |started| == 0 then 0
    else
      var last := started[|started| - 1];
      LaneRuns(s, started[..|started| - 1], lane)
      + if last in s.runs && s.runs[last].task in s.tasks && s.tasks[s.runs[last].task].spec.lane == lane then 1 else 0
  }

  predicate DependenciesDone(tasks: map<string, Task>, deps: Edges, id: string) {
    forall e | e in deps && e.0 == id && e.1 in tasks :: tasks[e.1].status.Completed?
  }

  predicate ParentUsable(s: Board, spec: TaskSpec) {
    || spec.parent.None? || spec.independent
    || (spec.parent.value in s.tasks && !s.tasks[spec.parent.value].status.Quarantined?)
  }

  predicate Claimable(s: Board, now: int, resource: string, id: string) {
    && id in s.tasks && (s.tasks[id].status.Queued? || s.tasks[id].status.Hibernating?)
    && s.tasks[id].availableAt <= now && s.tasks[id].spec.resource == resource
    && s.tasks[id].spec.campaign in s.campaigns && s.campaigns[s.tasks[id].spec.campaign].horizon > now
    && DependenciesDone(s.tasks, s.deps, id) && ParentUsable(s, s.tasks[id].spec)
  }

  const CANDIDATE_LIMIT := 100

  /** Claimable tasks, oldest first. */
  function ClaimableIn(s: Board, now: int, resource: string, ids: seq<string>): seq<string> {
    if |ids| == 0 then []
    else
      var last := ids[|ids| - 1];
      ClaimableIn(s, now, resource, ids[..|ids| - 1]) + if Claimable(s, now, resource, last) then [last] else []
  }

  function Candidates(s: Board, now: int, resource: string): seq<string> {
    var all := ClaimableIn(s, now, resource, s.order);
    if |all| <= CANDIDATE_LIMIT then all else all[..CANDIDATE_LIMIT]
  }

  function InLane(s: Board, ids: seq<string>, lane: Lane): seq<string> {
    if |ids| == 0 then []
    else
      var last := ids[|ids| - 1];
      InLane(s, ids[..|ids| - 1], lane) + if last in s.tasks && s.tasks[last].spec.lane == lane then [last] else []
  }

  /** Novelty is protected while it is under its floor, then replication while there has been none. */
  function Pool(s: Board, p: Policy, candidates: seq<string>): seq<string> {
    var due := LaneRuns(s, s.started, Novelty) as real < p.explorationFloor * (|s.started| + 1) as real;
    var novel := if due then InLane(s, candidates, Novelty) else [];
    if novel != [] then novel
    else
      var replicas := if LaneRuns(s, s.started, Replication) == 0 then InLane(s, candidates, Replication) else [];
      if replicas != [] then replicas else candidates
  }

  function Density(t: Task): real
    requires t.spec.budget >= 0.0
  {
    t.spec.information / (t.spec.budget + 1.0)
  }

  /** Information per unit of budget, then age, then novelty. */
  predicate Better(a: Task, b: Task)
    requires a.spec.budget >= 0.0 && b.spec.budget >= 0.0
  {
    || Density(a) > Density(b)
    || (Density(a) == Density(b) && a.createdAt < b.createdAt)
    || (Density(a) == Density(b) && a.createdAt == b.createdAt && a.spec.novelty > b.spec.novelty)
  }

  predicate Priced(tasks: map<string, Task>) {
    forall id | id in tasks :: tasks[id].spec.Valid()
  }

  /** The first best of a nonempty pool. */
  function Best(tasks: map<string, Task>, pool: seq<string>): (best: string)
    requires Priced(tasks) && |pool| > 0 && forall id | id in pool :: id in tasks
    ensures best in pool
  {
    if |pool| == 1 then pool[0]
    else
      var earlier, last := Best(tasks, pool[..|pool| - 1]), pool[|pool| - 1];
      if Better(tasks[last], tasks[earlier]) then last else earlier
  }

  function Start(s: Board, now: int, id: string, run: string, worker: string, fence: string): Board
    requires id in s.tasks
  {
    var t := s.tasks[id];
    s.(tasks := s.tasks[id := t.(status := Running)],
       runs := s.runs[run := TaskRun(id, worker, t.spec.resource, Active, RunsOf(s.runs, s.started, id), fence,
                             now + t.spec.timeout, now, false)],
       started := s.started + [run])
  }

  predicate FenceUsed(s: Board, fence: string) {
    exists r | r in s.runs :: s.runs[r].fence == fence
  }

  datatype Claimed = Nothing | Collision | Claimed(task: string)

  function Claim(s: Board, p: Policy, now: int, resource: string, run: string, worker: string, fence: string)
    : (Board, Claimed)
    requires Priced(s.tasks)
  {
    if LiveCount(s.runs, s.started, resource, now) >= p.Limit(resource) then (s, Nothing)
    else
      var candidates := Candidates(s, now, resource);
      if candidates == [] then (s, Nothing)
      else
        PoolIsClaimable(s, p, now, resource);
        var chosen := Best(s.tasks, Pool(s, p, candidates));
        if run in s.runs || FenceUsed(s, fence) then (s, Collision)
        else (Start(s, now, chosen, run, worker, fence), Claimed(chosen))
  }

  lemma {:induction false} CandidatesAreClaimable(s: Board, now: int, resource: string, ids: seq<string>)
    ensures forall id :: id in ClaimableIn(s, now, resource, ids) <==> id in ids && Claimable(s, now, resource, id)
  {
    hide Claimable;
    if |ids| > 0 {
      CandidatesAreClaimable(s, now, resource, ids[..|ids| - 1]);
      assert ids == ids[..|ids| - 1] + [ids[|ids| - 1]];
    }
  }

  lemma {:induction false} InLaneIs(s: Board, ids: seq<string>, lane: Lane)
    ensures forall id :: id in InLane(s, ids, lane) <==> id in ids && id in s.tasks && s.tasks[id].spec.lane == lane
  {
    if |ids| > 0 {
      InLaneIs(s, ids[..|ids| - 1], lane);
      assert ids == ids[..|ids| - 1] + [ids[|ids| - 1]];
    }
  }

  lemma PoolIsPartOf(s: Board, p: Policy, candidates: seq<string>)
    ensures forall id | id in Pool(s, p, candidates) :: id in candidates
    ensures candidates != [] ==> Pool(s, p, candidates) != []
  {
    InLaneIs(s, candidates, Novelty);
    InLaneIs(s, candidates, Replication);
  }

  lemma PoolIsClaimable(s: Board, p: Policy, now: int, resource: string)
    requires Candidates(s, now, resource) != []
    ensures var pool := Pool(s, p, Candidates(s, now, resource));
      pool != [] && forall id | id in pool :: id in s.tasks && id in s.order && Claimable(s, now, resource, id)
  {
    hide Pool, Claimable, ClaimableIn;
    CandidatesAreClaimable(s, now, resource, s.order);
    PoolIsPartOf(s, p, Candidates(s, now, resource));
    forall id | id in Pool(s, p, Candidates(s, now, resource))
      ensures id in s.tasks && id in s.order && Claimable(s, now, resource, id)
    {
      assert id in ClaimableIn(s, now, resource, s.order);
      ClaimableExists(s, now, resource, id);
    }
  }

  lemma ClaimableExists(s: Board, now: int, resource: string, id: string)
    requires Claimable(s, now, resource, id)
    ensures id in s.tasks
  {}

  // ---- Leases ---------------------------------------------------------------------------------

  predicate Holds(s: Board, now: int, run: string, worker: string, fence: string) {
    && run in s.runs && s.runs[run].fence == fence && s.runs[run].worker == worker
    && !s.runs[run].released && s.runs[run].expires > now
  }

  function Heartbeat(s: Board, now: int, run: string, worker: string, fence: string): Result<Board, SchedulerError> {
    if !Holds(s, now, run, worker, fence) then Failure(StaleLease)
    else Success(s.(runs := s.runs[run := s.runs[run].(heartbeat := now)]))
  }

  /** The run gives its lease back and its task moves on. */
  function CloseRun(s: Board, run: string, outcome: RunStatus, status: TaskStatus, availableAt: int): Board
    requires run in s.runs && s.runs[run].task in s.tasks
  {
    var id := s.runs[run].task;
    s.(runs := s.runs[run := s.runs[run].(status := outcome, released := true)],
       tasks := s.tasks[id := s.tasks[id].(status := status, availableAt := availableAt)])
  }

  function Exhausted(s: Board, run: string): bool
    requires run in s.runs && s.runs[run].task in s.tasks
  {
    s.runs[run].retryCount >= s.tasks[s.runs[run].task].spec.maxRetries
  }

  function ArtifactError(schemas: map<string, string>, artifact: Option<string>, failed: bool, schema: string)
    : Option<SchedulerError>
  {
    if !failed && artifact.None? then Some(ExpectedArtifactMissing)
    else if !failed && artifact.value !in schemas then Some(NotFound)
    else if !failed && schemas[artifact.value] != schema then Some(ArtifactSchemaMismatch)
    else if artifact.Some? && artifact.value !in schemas then Some(UnknownArtifact)
    else None
  }

  /** `schemas` are the readable artifacts and the schema each was stored under. */
  function Finish(
    s: Board, now: int, run: string, worker: string, fence: string, schemas: map<string, string>,
    artifact: Option<string>, failed: bool): Result<(Board, TaskStatus), SchedulerError>
  {
    if !Holds(s, now, run, worker, fence) || s.runs[run].task !in s.tasks then Failure(StaleLease)
    else match ArtifactError(schemas, artifact, failed, s.tasks[s.runs[run].task].spec.schema)
      case Some(e) => Failure(e)
      case None =>
        var status := if !failed then Completed else if Exhausted(s, run) then Quarantined else Hibernating;
        Success((CloseRun(s, run, if failed then Failed else Succeeded, status,
                   now + s.tasks[s.runs[run].task].spec.timeout), status))
  }

  predicate Overdue(s: Board, now: int, run: string) {
    run in s.runs && !s.runs[run].released && s.runs[run].expires <= now && s.runs[run].task in s.tasks
  }

  function ExpireRun(s: Board, run: string): Board
    requires run in s.runs && s.runs[run].task in s.tasks
  {
    CloseRun(s, run, Expired, if Exhausted(s, run) then Quarantined else Queued,
      s.tasks[s.runs[run].task].availableAt)
  }

  /** Expires the overdue runs among `runs`, in order. */
  function Recover(s: Board, now: int, runs: seq<string>): (Board, nat) {
    if |runs| == 0 then (s, 0)
    else
      var (earlier, n) := Recover(s, now, runs[..|runs| - 1]);
      var last := runs[|runs| - 1];
      if Overdue(earlier, now, last) then (ExpireRun(earlier, last), n + 1) else (earlier, n)
  }

  // ---- Runs of the whole system ---------------------------------------------------------------

  datatype Operation =
    | DeclareCampaign(id: string, budget: real, horizon: int)
    | Enqueue(spec: TaskSpec)
    | Depend(task: string, dependency: string)
    | ClaimNext(resource: string, run: string, worker: string, fence: string)
    | Beat(run: string, worker: string, fence: string)
    | FinishRun(run: string, worker: string, fence: string, artifact: Option<string>, failed: bool)
    | RecoverAll

  ghost predicate Legal(op: Operation) {
    && (op.Enqueue? ==> op.spec.Valid())
    && (op.DeclareCampaign? ==> op.budget >= 0.0)
  }

  ghost function Step(s: Board, p: Policy, schemas: map<string, string>, now: int, op: Operation): Board
    requires Priced(s.tasks)
  {
    match op
    case DeclareCampaign(id, budget, horizon) =>
      if id in s.campaigns || horizon <= now then s
      else s.(campaigns := s.campaigns[id := Campaign(budget, 0.0, horizon)])
    case Enqueue(spec) =>
      if Refused(p, spec).Some? || exists id | id in s.tasks :: SameWork(s, spec, id) then s
      else (match EnqueueNew(s, now, spec) case Success(s') => s' case Failure(_) => s)
    case Depend(t, d) => (match AddDependency(s, t, d) case Success(s') => s' case Failure(_) => s)
    case ClaimNext(resource, run, worker, fence) => Claim(s, p, now, resource, run, worker, fence).0
    case Beat(run, worker, fence) => (match Heartbeat(s, now, run, worker, fence) case Success(s') => s' case Failure(_) => s)
    case FinishRun(run, worker, fence, artifact, failed) =>
      (match Finish(s, now, run, worker, fence, schemas, artifact, failed) case Success(r) => r.0 case Failure(_) => s)
    case RecoverAll => Recover(s, now, s.started).0
  }
}
