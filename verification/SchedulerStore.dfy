/** The scheduler's transactions as they run: tables updated in place, each method tied to its step. */
module SchedulerStore {
  import opened Prelude
  import opened Graphs
  import opened Scheduling

  class Scheduler {
    const policy: Policy
    var campaigns: map<string, Campaign>
    var tasks: map<string, Task>
    var order: seq<string>
    var deps: Edges
    var added: set<(string, string)>
    var runs: map<string, TaskRun>
    var started: seq<string>

    function Contents(): Board
      reads this
    {
      Board(campaigns, tasks, order, deps, added, runs, started)
    }

    constructor (policy: Policy)
      ensures this.policy == policy && Contents() == Board(map[], map[], [], {}, {}, map[], [])
    {
      this.policy := policy;
      campaigns, tasks, order, deps, added, runs, started := map[], map[], [], {}, {}, map[], [];
    }

    /** The already queued task with the same work, or the new task once it is funded and linked. */
    method Enqueue(now: int, spec: TaskSpec) returns (r: Result<string, SchedulerError>)
      modifies this
      ensures Refused(policy, spec).Some? ==> r == Failure(Refused(policy, spec).value) && Contents() == old(Contents())
      ensures Refused(policy, spec).None? && (exists id | id in old(tasks) :: SameWork(old(Contents()), spec, id)) ==>
                r.Success? && SameWork(old(Contents()), spec, r.value) && Contents() == old(Contents())
      ensures Refused(policy, spec).None? && !(exists id | id in old(tasks) :: SameWork(old(Contents()), spec, id)) ==>
                match EnqueueNew(old(Contents()), now, spec)
                case Success(s') => r == Success(spec.id) && Contents() == s'
                case Failure(e) => r == Failure(e) && Contents() == old(Contents())
    {
      hide DependenciesOf;
      ghost var s := Contents();
      if spec.resource !in policy.limits { return Failure(UnknownResourceClass); }
      if spec.valueLowerBound <= 0.0 && !spec.lane.QualityAssurance() { return Failure(NoPositiveInformationValue); }
      if id :| id in tasks && SameWork(Contents(), spec, id) { return Success(id); }
      if spec.campaign !in campaigns || campaigns[spec.campaign].horizon <= now { return Failure(CampaignUnavailable); }
      var campaigns', tasks' := campaigns, tasks;
      match spec.parent {
        case Some(p) =>
          if p !in tasks || tasks[p].spec.campaign != spec.campaign || tasks[p].status.Quarantined? {
            return Failure(InvalidParent);
          }
          if tasks[p].childAllocated + spec.budget > tasks[p].spec.budget { return Failure(SubtreeBudgetExhausted); }
          tasks' := tasks[p := tasks[p].(childAllocated := tasks[p].childAllocated + spec.budget)];
        case None =>
          var c := campaigns[spec.campaign];
          if c.committed + spec.budget > c.budget { return Failure(CampaignBudgetExhausted); }
          campaigns' := campaigns[spec.campaign := c.(committed := c.committed + spec.budget)];
      }
      if spec.id in tasks { return Failure(IdempotencyConflict); }
      var edges := LinkDependencies(spec);
      if edges.Failure? { return Failure(edges.error); }
      campaigns, tasks := campaigns', tasks'[spec.id := Task(spec, Queued, 0.0, now, now)];
      order, deps := order + [spec.id], deps + edges.value;
      return Success(spec.id);
    }

    method LinkDependencies(spec: TaskSpec) returns (r: Result<Edges, SchedulerError>)
      ensures r == DependenciesOf(tasks, spec, |spec.dependencies|)
    {
      var edges: Edges := {};
      for i := 0 to |spec.dependencies|
        invariant DependenciesOf(tasks, spec, i) == Success(edges)
      {
        var d := spec.dependencies[i];
        ErrorsStick(tasks, spec, i + 1, |spec.dependencies|);
        if d == spec.id { return Failure(ConstraintViolation); }
        if d !in tasks || tasks[d].spec.campaign != spec.campaign { return Failure(InvalidDependency); }
        if (spec.id, d) in edges { return Failure(ConstraintViolation); }
        edges := edges + {(spec.id, d)};
      }
      return Success(edges);
    }

    lemma {:induction false} ErrorsStick(tasks: map<string, Task>, spec: TaskSpec, i: nat, n: nat)
      requires i <= n <= |spec.dependencies|
      ensures DependenciesOf(tasks, spec, i).Failure? ==> DependenciesOf(tasks, spec, n) == DependenciesOf(tasks, spec, i)
    {
      if i < n {
        ErrorsStick(tasks, spec, i, n - 1);
      }
    }

    method AddDependency(id: string, dependency: string) returns (error: Option<SchedulerError>)
      modifies this
      ensures match Scheduling.AddDependency(old(Contents()), id, dependency)
              case Success(s') => error.None? && Contents() == s'
              case Failure(e) => error == Some(e) && Contents() == old(Contents())
    {
      var ancestors := Closure(deps, dependency);
      if id in ancestors || id !in tasks || dependency !in tasks
         || tasks[id].spec.campaign != tasks[dependency].spec.campaign || !tasks[id].status.Queued? {
        return Some(InvalidDependencyDag);
      }
      if (id, dependency) in added { return Some(IdempotencyConflict); }
      deps, added := deps + {(id, dependency)}, added + {(id, dependency)};
      return None;
    }

    method CountLive(resource: string, now: int) returns (n: nat)
      ensures n == LiveCount(runs, started, resource, now)
    {
      n := 0;
      for i := 0 to |started|
        invariant n == LiveCount(runs, started[..i], resource, now)
      {
        assert started[..i + 1][..i] == started[..i];
        if started[i] in runs && Live(runs[started[i]], resource, now) { n := n + 1; }
      }
      assert started[..|started|] == started;
    }

    method CountLane(lane: Lane) returns (n: nat)
      ensures n == LaneRuns(Contents(), started, lane)
    {
      n := 0;
      for i := 0 to |started|
        invariant n == LaneRuns(Contents(), started[..i], lane)
      {
        assert started[..i + 1][..i] == started[..i];
        if started[i] in runs && runs[started[i]].task in tasks && tasks[runs[started[i]].task].spec.lane == lane {
          n := n + 1;
        }
      }
      assert started[..|started|] == started;
    }

    method CountAttempts(task: string) returns (n: nat)
      ensures n == RunsOf(runs, started, task)
    {
      n := 0;
      for i := 0 to |started|
        invariant n == RunsOf(runs, started[..i], task)
      {
        assert started[..i + 1][..i] == started[..i];
        if started[i] in runs && runs[started[i]].task == task { n := n + 1; }
      }
      assert started[..|started|] == started;
    }

    method FindCandidates(now: int, resource: string) returns (found: seq<string>)
      ensures found == Candidates(Contents(), now, resource)
    {
      hide Claimable;
      found := [];
      for i := 0 to |order|
        invariant found == ClaimableIn(Contents(), now, resource, order[..i])
      {
        assert order[..i + 1][..i] == order[..i];
        if Claimable(Contents(), now, resource, order[i]) { found := found + [order[i]]; }
      }
      assert order[..|order|] == order;
      if |found| > CANDIDATE_LIMIT { found := found[..CANDIDATE_LIMIT]; }
    }

    method KeepLane(ids: seq<string>, lane: Lane) returns (kept: seq<string>)
      ensures kept == InLane(Contents(), ids, lane)
    {
      kept := [];
      for i := 0 to |ids|
        invariant kept == InLane(Contents(), ids[..i], lane)
      {
        assert ids[..i + 1][..i] == ids[..i];
        if ids[i] in tasks && tasks[ids[i]].spec.lane == lane { kept := kept + [ids[i]]; }
      }
      assert ids[..|ids|] == ids;
    }

    method ChoosePool(candidates: seq<string>) returns (pool: seq<string>)
      ensures pool == Pool(Contents(), policy, candidates)
    {
      hide LaneRuns, InLane;
      var novel := CountLane(Novelty);
      if novel as real < policy.explorationFloor * (|started| + 1) as real {
        pool := KeepLane(candidates, Novelty);
        if pool != [] { return; }
      }
      var replicas := CountLane(Replication);
      if replicas == 0 {
        pool := KeepLane(candidates, Replication);
        if pool != [] { return; }
      }
      return candidates;
    }

    method ChooseBest(pool: seq<string>) returns (best: string)
      requires Priced(tasks) && |pool| > 0 && forall id | id in pool :: id in tasks
      ensures best == Best(tasks, pool)
    {
      best := pool[0];
      assert pool[..1] == [pool[0]];
      for i := 1 to |pool|
        invariant best == Best(tasks, pool[..i])
      {
        assert pool[..i + 1][..i] == pool[..i];
        if Better(tasks[pool[i]], tasks[best]) { best := pool[i]; }
      }
      assert pool[..|pool|] == pool;
    }

    method Claim(now: int, resource: string, run: string, worker: string, fence: string) returns (r: Claimed)
      requires Priced(tasks)
      modifies this
      ensures (Contents(), r) == Scheduling.Claim(old(Contents()), policy, now, resource, run, worker, fence)
    {
      hide Candidates, Pool, Best, LiveCount, RunsOf;
      var live := CountLive(resource, now);
      if live >= policy.Limit(resource) { return Nothing; }
      var candidates := FindCandidates(now, resource);
      if candidates == [] { return Nothing; }
      PoolIsClaimable(Contents(), policy, now, resource);
      var pool := ChoosePool(candidates);
      var chosen := ChooseBest(pool);
      if run in runs || FenceUsed(Contents(), fence) { return Collision; }
      var attempts := CountAttempts(chosen);
      var t := tasks[chosen];
      runs := runs[run := TaskRun(chosen, worker, t.spec.resource, Active, attempts, fence, now + t.spec.timeout, now, false)];
      started := started + [run];
      tasks := tasks[chosen := t.(status := Running)];
      return Claimed(chosen);
    }

    method Heartbeat(now: int, run: string, worker: string, fence: string) returns (error: Option<SchedulerError>)
      modifies this
      ensures match Scheduling.Heartbeat(old(Contents()), now, run, worker, fence)
              case Success(s') => error.None? && Contents() == s'
              case Failure(e) => error == Some(e) && Contents() == old(Contents())
    {
      if !Holds(Contents(), now, run, worker, fence) { return Some(StaleLease); }
      runs := runs[run := runs[run].(heartbeat := now)];
      return None;
    }

    method Finish(
      now: int, run: string, worker: string, fence: string, schemas: map<string, string>, artifact: Option<string>,
      failed: bool) returns (r: Result<TaskStatus, SchedulerError>)
      modifies this
      ensures match Scheduling.Finish(old(Contents()), now, run, worker, fence, schemas, artifact, failed)
              case Success(x) => r == Success(x.1) && Contents() == x.0
              case Failure(e) => r == Failure(e) && Contents() == old(Contents())
    {
      if !Holds(Contents(), now, run, worker, fence) || runs[run].task !in tasks { return Failure(StaleLease); }
      var row := runs[run];
      var t := tasks[row.task];
      var refused := ArtifactError(schemas, artifact, failed, t.spec.schema);
      if refused.Some? { return Failure(refused.value); }
      var status := if !failed then Completed else if row.retryCount >= t.spec.maxRetries then Quarantined else Hibernating;
      tasks := tasks[row.task := t.(status := status, availableAt := now + t.spec.timeout)];
      runs := runs[run := row.(status := if failed then Failed else Succeeded, released := true)];
      return Success(status);
    }

    method Recover(now: int) returns (recovered: nat)
      modifies this
      ensures (Contents(), recovered) == Scheduling.Recover(old(Contents()), now, old(started))
    {
      hide Exhausted;
      ghost var s := Contents();
      recovered := 0;
      for i := 0 to |started|
        invariant started == s.started
        invariant (Contents(), recovered) == Scheduling.Recover(s, now, started[..i])
      {
        assert started[..i + 1][..i] == started[..i];
        var run := started[i];
        if Overdue(Contents(), now, run) {
          var row := runs[run];
          var t := tasks[row.task];
          var status := if Exhausted(Contents(), run) then Quarantined else Queued;
          tasks := tasks[row.task := t.(status := status)];
          runs := runs[run := row.(status := Expired, released := true)];
          recovered := recovered + 1;
        }
      }
      assert started[..|started|] == started;
    }
  }
}
