/** What the scheduler promises over whole histories. */
module SchedulingTheorems {
  import opened Prelude
  import opened Graphs
  import opened Scheduling
  import opened SchedulingSafety

  /** The board a history leads to from nothing. */
  ghost function Reached(p: Policy, schemas: map<string, string>, history: seq<Timed>): Board {
    After(p, schemas, EmptyBoard, history)
  }

  lemma ReachedOk(p: Policy, schemas: map<string, string>, history: seq<Timed>, clock: int)
    requires Orderly(history, clock)
    ensures BoardOk(p, Reached(p, schemas, history), ClockAfter(history, clock))
  {
    hide BoardOk;
    EmptyBoardOk(p, clock);
    HistoryKeeps(p, schemas, EmptyBoard, clock, history);
  }

  // ---- Dependencies ---------------------------------------------------------------------------

  /** The cycle check refuses exactly the edges that would close a cycle. */
  lemma RefusedExactlyForCycles(s: Board, id: string, dependency: string)
    requires GraphOk(s) && id in s.tasks && dependency in s.tasks && s.tasks[id].status.Queued?
    requires s.tasks[id].spec.campaign == s.tasks[dependency].spec.campaign && (id, dependency) !in s.added
    ensures AddDependency(s, id, dependency).Success? <==> Acyclic(s.deps + {(id, dependency)})
  {
    OneMoreEdge(s.deps, id, dependency);
  }

  /** Unfinished work that waits only on itself always has a task whose dependencies are all done: no deadlock. */
  lemma SomeTaskIsReady(
    p: Policy, schemas: map<string, string>, history: seq<Timed>, clock: int, waiting: set<string>) returns (ready: string)
    requires Orderly(history, clock) && waiting != {}
    requires var s := Reached(p, schemas, history);
      && (forall id | id in waiting :: id in s.tasks && !s.tasks[id].status.Completed?)
      && (forall e | e in s.deps && e.0 in waiting && e.1 in s.tasks && !s.tasks[e.1].status.Completed? :: e.1 in waiting)
    ensures ready in waiting
    ensures var s := Reached(p, schemas, history); DependenciesDone(s.tasks, s.deps, ready)
  {
    hide Reached, Orderly, RetriesOk, LeasesOk, MoneyOk, LimitsOk;
    ReachedOk(p, schemas, history, clock);
    ready := SomeMemberIsLast(Reached(p, schemas, history).deps, waiting);
  }

  lemma {:induction false} RecoverKeepsCompleted(s: Board, now: int, runs: seq<string>, id: string)
    requires LeasesOk(s.tasks, s.runs) && id in s.tasks && s.tasks[id].status.Completed?
    ensures var s' := Recover(s, now, runs).0;
      id in s'.tasks && s'.tasks[id].status.Completed? && LeasesOk(s'.tasks, s'.runs)
  {
    hide LeasesOk;
    if |runs| > 0 {
      RecoverKeepsCompleted(s, now, runs[..|runs| - 1], id);
      var earlier, last := Recover(s, now, runs[..|runs| - 1]).0, runs[|runs| - 1];
      if Overdue(earlier, now, last) {
        LeasedIsRunning(earlier.tasks, earlier.runs, last);
        CloseKeepsLeases(earlier, last, Expired, if Exhausted(earlier, last) then Quarantined else Queued,
          earlier.tasks[earlier.runs[last].task].availableAt);
      }
    }
  }

  lemma ClaimKeepsCompleted(
    p: Policy, s: Board, now: int, resource: string, run: string, worker: string, fence: string, id: string)
    requires Priced(s.tasks) && id in s.tasks && s.tasks[id].status.Completed?
    ensures Claim(s, p, now, resource, run, worker, fence).0.tasks.Keys == s.tasks.Keys
    ensures Claim(s, p, now, resource, run, worker, fence).0.tasks[id] == s.tasks[id]
  {
    hide Candidates, Pool, Best, DependenciesDone, ParentUsable, RunsOf;
    if Claim(s, p, now, resource, run, worker, fence).1.Claimed? {
      PoolIsClaimable(s, p, now, resource);
    }
  }

  lemma StepKeepsCompleted(p: Policy, s: Board, schemas: map<string, string>, now: int, op: Operation, id: string)
    requires BoardOk(p, s, now) && Priced(s.tasks) && Legal(op) && id in s.tasks && s.tasks[id].status.Completed?
    ensures var s' := Step(s, p, schemas, now, op); id in s'.tasks && s'.tasks[id].status.Completed?
  {
    hide BoardOk, EnqueueNew, Claim, Recover, Refused, SameWork, ArtifactError;
    LeasesOf(p, s, now);
    match op
    case DeclareCampaign(c, budget, horizon) =>
    case Enqueue(spec) =>
      if EnqueueNew(s, now, spec).Success? {
        var edges := EnqueueAdds(s, now, spec);
      }
    case Depend(t, d) =>
    case ClaimNext(resource, run, worker, fence) => ClaimKeepsCompleted(p, s, now, resource, run, worker, fence, id);
    case Beat(run, worker, fence) =>
    case FinishRun(run, worker, fence, artifact, failed) =>
      if Holds(s, now, run, worker, fence) { LeasedIsRunning(s.tasks, s.runs, run); }
    case RecoverAll => RecoverKeepsCompleted(s, now, s.started, id);
  }

  lemma LeasesOf(p: Policy, s: Board, clock: int)
    requires BoardOk(p, s, clock)
    ensures LeasesOk(s.tasks, s.runs) && ReadyOk(s.tasks, s.deps)
  {}

  /** A completed task stays completed, whatever happens later. */
  lemma {:induction false} CompletedIsForever(
    p: Policy, schemas: map<string, string>, s: Board, clock: int, history: seq<Timed>, id: string)
    requires BoardOk(p, s, clock) && Orderly(history, clock) && id in s.tasks && s.tasks[id].status.Completed?
    ensures var s' := After(p, schemas, s, history); id in s'.tasks && s'.tasks[id].status.Completed?
  {
    hide BoardOk, Step, Orderly;
    if |history| > 0 {
      OrderlyPrefix(history, clock);
      var front, last := history[..|history| - 1], history[|history| - 1];
      CompletedIsForever(p, schemas, s, clock, front, id);
      HistoryKeeps(p, schemas, s, clock, front);
      var earlier := After(p, schemas, s, front);
      TimePasses(p, earlier, ClockAfter(front, clock), last.at);
      StepKeepsCompleted(p, earlier, schemas, last.at, last.op, id);
    }
  }

  lemma {:induction false} RecoverCompletesNothing(s: Board, now: int, runs: seq<string>, id: string)
    requires id in s.tasks && !s.tasks[id].status.Completed?
    ensures var s' := Recover(s, now, runs).0; id in s'.tasks && !s'.tasks[id].status.Completed?
  {
    if |runs| > 0 {
      RecoverCompletesNothing(s, now, runs[..|runs| - 1], id);
    }
  }

  lemma ClaimCompletesNothing(
    p: Policy, s: Board, now: int, resource: string, run: string, worker: string, fence: string, id: string)
    requires Priced(s.tasks) && id in s.tasks && !s.tasks[id].status.Completed?
    ensures !Claim(s, p, now, resource, run, worker, fence).0.tasks[id].status.Completed?
  {
    hide Candidates, Pool, Best, RunsOf;
    if Claim(s, p, now, resource, run, worker, fence).1.Claimed? {
      PoolIsClaimable(s, p, now, resource);
    }
  }

  /** Completion is topological: when a task completes, its dependencies had completed in an earlier step. */
  lemma CompletesAfterDependencies(p: Policy, s: Board, schemas: map<string, string>, now: int, op: Operation, id: string)
    requires BoardOk(p, s, now) && Priced(s.tasks) && Legal(op)
    requires id in s.tasks && !s.tasks[id].status.Completed?
    requires var s' := Step(s, p, schemas, now, op); id in s'.tasks && s'.tasks[id].status.Completed?
    ensures op.FinishRun? && !op.failed && s.tasks[id].status.Running?
    ensures forall e | e in s.deps && e.0 == id :: e.1 in s.tasks && s.tasks[e.1].status.Completed?
  {
    hide BoardOk, EnqueueNew, Claim, Recover, Refused, SameWork, ArtifactError;
    LeasesOf(p, s, now);
    match op
    case DeclareCampaign(c, budget, horizon) =>
    case Enqueue(spec) =>
      if EnqueueNew(s, now, spec).Success? {
        var edges := EnqueueAdds(s, now, spec);
      }
    case Depend(t, d) =>
    case ClaimNext(resource, run, worker, fence) => ClaimCompletesNothing(p, s, now, resource, run, worker, fence, id);
    case Beat(run, worker, fence) =>
    case FinishRun(run, worker, fence, artifact, failed) =>
      if Holds(s, now, run, worker, fence) { LeasedIsRunning(s.tasks, s.runs, run); }
    case RecoverAll => RecoverCompletesNothing(s, now, s.started, id);
  }

  // ---- Budgets, retries and leases ------------------------------------------------------------

  /** The money theorem over every history: what a campaign committed is exactly what its tasks still keep, is what
      its root tasks were given, and is within its budget; and every task passed on no more than it had. */
  lemma BudgetsAreConserved(p: Policy, schemas: map<string, string>, history: seq<Timed>, clock: int, c: string, id: string)
    requires Orderly(history, clock)
    ensures var s := Reached(p, schemas, history);
      && (c in s.campaigns ==>
            && s.campaigns[c].committed == Kept(s.tasks, s.order, c) <= s.campaigns[c].budget
            && s.campaigns[c].committed == ChildTotal(s.tasks, s.order, Option.None, c))
      && (id in s.tasks ==>
            && 0.0 <= s.tasks[id].childAllocated <= s.tasks[id].spec.budget
            && s.tasks[id].childAllocated == ChildTotal(s.tasks, s.order, Some(id), s.tasks[id].spec.campaign))
  {
    hide Reached, Orderly, Indexed, GraphOk, ReadyOk, RetriesOk, LeasesOk, LimitsOk;
    ReachedOk(p, schemas, history, clock);
    var s := Reached(p, schemas, history);
    assert id in s.tasks ==> TaskMoneyOk(s, id);
    assert c in s.campaigns ==> CampaignMoneyOk(s, c);
  }

  /** No task is ever run more than its retries allow, it holds one lease exactly while it runs, and no class ever
      has more live leases than its limit. */
  lemma LeasesAndRetriesAreBounded(
    p: Policy, schemas: map<string, string>, history: seq<Timed>, clock: int, id: string, resource: string)
    requires Orderly(history, clock)
    ensures var s, now := Reached(p, schemas, history), ClockAfter(history, clock);
      && LiveCount(s.runs, s.started, resource, now) <= p.Limit(resource)
      && (id in s.tasks ==>
            && RunsOf(s.runs, s.started, id) <= s.tasks[id].spec.maxRetries + 1
            && (s.tasks[id].status.Running? <==> exists r :: Unreleased(s.runs, r, id))
            && forall a, b | Unreleased(s.runs, a, id) && Unreleased(s.runs, b, id) :: a == b)
  {
    hide Reached, Orderly, Indexed, GraphOk, ReadyOk, MoneyOk, RunsOf, LiveCount;
    ReachedOk(p, schemas, history, clock);
  }

  // ---- Fencing --------------------------------------------------------------------------------

  lemma {:induction false} RecoverKeepsReleased(s: Board, now: int, runs: seq<string>, run: string)
    requires run in s.runs && s.runs[run].released
    ensures var s' := Recover(s, now, runs).0; run in s'.runs && s'.runs[run] == s.runs[run]
  {
    if |runs| > 0 {
      RecoverKeepsReleased(s, now, runs[..|runs| - 1], run);
    }
  }

  lemma StepKeepsReleased(p: Policy, s: Board, schemas: map<string, string>, now: int, op: Operation, run: string)
    requires Priced(s.tasks) && run in s.runs && s.runs[run].released
    ensures var s' := Step(s, p, schemas, now, op); run in s'.runs && s'.runs[run] == s.runs[run]
  {
    hide Candidates, Pool, Best, RunsOf, Fund, DependenciesOf, Refused, SameWork, ArtifactError;
    match op
    case RecoverAll => RecoverKeepsReleased(s, now, s.started, run);
    case ClaimNext(resource, r, worker, fence) =>
      if Claim(s, p, now, resource, r, worker, fence).1.Claimed? { PoolIsClaimable(s, p, now, resource); }
    case _ =>
  }

  /** Once a run's lease is released, by finishing or by recovery, its fence can never finish or extend it again. */
  lemma {:induction false} ReleasedFenceIsDead(
    p: Policy, schemas: map<string, string>, s: Board, history: seq<Timed>, run: string, now: int,
    worker: string, fence: string, artifact: Option<string>, failed: bool)
    requires run in s.runs && s.runs[run].released
    ensures var s' := After(p, schemas, s, history);
      && run in s'.runs && s'.runs[run] == s.runs[run]
      && Finish(s', now, run, worker, fence, schemas, artifact, failed) == Failure(StaleLease)
      && Heartbeat(s', now, run, worker, fence) == Failure(StaleLease)
  {
    hide Step;
    if |history| > 0 {
      var front, last := history[..|history| - 1], history[|history| - 1];
      ReleasedFenceIsDead(p, schemas, s, front, run, now, worker, fence, artifact, failed);
      var earlier := After(p, schemas, s, front);
      if Priced(earlier.tasks) {
        StepKeepsReleased(p, earlier, schemas, last.at, last.op, run);
      }
    }
  }

  // ---- Choice ---------------------------------------------------------------------------------

  lemma BetterIsTransitive(a: Task, b: Task, c: Task)
    requires a.spec.budget >= 0.0 && b.spec.budget >= 0.0 && c.spec.budget >= 0.0
    ensures !Better(a, b) && !Better(b, c) ==> !Better(a, c)
    ensures Better(a, b) ==> !Better(b, a)
  {
    hide Density;
  }

  lemma {:induction false} BestIsUnbeaten(tasks: map<string, Task>, pool: seq<string>)
    requires Priced(tasks) && |pool| > 0 && forall id | id in pool :: id in tasks
    ensures forall id | id in pool :: !Better(tasks[id], tasks[Best(tasks, pool)])
  {
    if |pool| > 1 {
      var front, last := pool[..|pool| - 1], pool[|pool| - 1];
      BestIsUnbeaten(tasks, front);
      var earlier, best := Best(tasks, front), Best(tasks, pool);
      forall id | id in pool ensures !Better(tasks[id], tasks[best]) {
        BetterIsTransitive(tasks[id], tasks[earlier], tasks[best]);
        BetterIsTransitive(tasks[best], tasks[earlier], tasks[best]);
        assert id == last || id in front;
      }
    } else {
      BetterIsTransitive(tasks[pool[0]], tasks[pool[0]], tasks[pool[0]]);
    }
  }

  /** A claim hands out a ready task of the asked class that nothing in the chosen pool beats. */
  lemma ClaimPicksReadyAndBest(p: Policy, s: Board, now: int, resource: string, run: string, worker: string, fence: string)
    requires Priced(s.tasks) && Claim(s, p, now, resource, run, worker, fence).1.Claimed?
    ensures var id := Claim(s, p, now, resource, run, worker, fence).1.task;
      && Claimable(s, now, resource, id) && LiveCount(s.runs, s.started, resource, now) < p.Limit(resource)
      && forall other | other in Pool(s, p, Candidates(s, now, resource)) ::
           other in s.tasks && !Better(s.tasks[other], s.tasks[id])
  {
    hide Candidates, Pool, Best, Claimable, Start, Better;
    PoolIsClaimable(s, p, now, resource);
    BestIsUnbeaten(s.tasks, Pool(s, p, Candidates(s, now, resource)));
  }
}
