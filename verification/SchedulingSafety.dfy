/** What every run of the scheduler keeps: order, leases, retries, budgets and limits. */
module SchedulingSafety {
  import opened Prelude
  import opened Graphs
  import opened Scheduling

  // ---- What is kept ---------------------------------------------------------------------------

  ghost predicate Distinct(ids: seq<string>) {
    forall i, j | 0 <= i < j < |ids| :: ids[i] != ids[j]
  }

  ghost predicate Indexed(s: Board) {
    && Distinct(s.order) && (forall id :: id in s.order <==> id in s.tasks)
    && Distinct(s.started) && (forall r :: r in s.started <==> r in s.runs)
    && (forall id | id in s.tasks :: s.tasks[id].spec.id == id && s.tasks[id].spec.Valid())
  }

  ghost predicate GraphOk(s: Board) {
    && (forall e | e in s.deps :: e.0 in s.tasks && e.1 in s.tasks
          && s.tasks[e.0].spec.campaign == s.tasks[e.1].spec.campaign)
    && Acyclic(s.deps)
  }

  /** Whatever has left the queue has had all its dependencies completed. */
  ghost predicate ReadyOk(tasks: map<string, Task>, deps: Edges) {
    forall e | e in deps && e.0 in tasks && !tasks[e.0].status.Queued? ::
      e.1 in tasks && tasks[e.1].status.Completed?
  }

  ghost predicate Unreleased(runs: map<string, TaskRun>, r: string, task: string) {
    r in runs && !runs[r].released && runs[r].task == task
  }

  /** A task is running exactly when one of its leases is out, and then exactly one is. */
  ghost predicate LeasesOk(tasks: map<string, Task>, runs: map<string, TaskRun>) {
    && (forall r | r in runs :: runs[r].task in tasks && runs[r].resource == tasks[runs[r].task].spec.resource)
    && (forall r | r in runs :: runs[r].released <==> !runs[r].status.Active?)
    && (forall r, id | id in tasks && Unreleased(runs, r, id) :: tasks[id].status.Running?)
    && (forall id | id in tasks && tasks[id].status.Running? :: exists r :: Unreleased(runs, r, id))
    && (forall a, b, id | Unreleased(runs, a, id) && Unreleased(runs, b, id) :: a == b)
    && (forall a, b | a in runs && b in runs && runs[a].fence == runs[b].fence :: a == b)
  }

  ghost predicate RetriesOk(tasks: map<string, Task>, runs: map<string, TaskRun>, started: seq<string>) {
    && (forall id | id in tasks :: RunsOf(runs, started, id) <= tasks[id].spec.maxRetries + 1)
    && (forall id | id in tasks && (tasks[id].status.Queued? || tasks[id].status.Hibernating?) ::
          RunsOf(runs, started, id) <= tasks[id].spec.maxRetries)
    && (forall r, id | id in tasks && Unreleased(runs, r, id) :: runs[r].retryCount + 1 == RunsOf(runs, started, id))
  }

  ghost predicate LimitsOk(p: Policy, s: Board, clock: int) {
    forall resource :: LiveCount(s.runs, s.started, resource, clock) <= p.Limit(resource)
  }

  // ---- Money ----------------------------------------------------------------------------------

  /** What the campaign's tasks have not passed on to children. */
  ghost function Kept(tasks: map<string, Task>, ids: seq<string>, campaign: string): real {
    if |ids| == 0 then 0.0
    else
      var last := ids[|ids| - 1];
      Kept(tasks, ids[..|ids| - 1], campaign)
      + if last in tasks && tasks[last].spec.campaign == campaign then tasks[last].spec.budget - tasks[last].childAllocated
        else 0.0
  }

  ghost function ChildTotal(tasks: map<string, Task>, ids: seq<string>, parent: Option<string>, campaign: string): real {
    if |ids| == 0 then 0.0
    else
      var last := ids[|ids| - 1];
      ChildTotal(tasks, ids[..|ids| - 1], parent, campaign)
      + if last in tasks && tasks[last].spec.parent == parent && tasks[last].spec.campaign == campaign
        then tasks[last].spec.budget else 0.0
  }

  ghost predicate TaskMoneyOk(s: Board, id: string)
    requires id in s.tasks
  {
    var t := s.tasks[id];
    && t.spec.campaign in s.campaigns
    && (t.spec.parent.Some? ==>
          t.spec.parent.value in s.tasks && s.tasks[t.spec.parent.value].spec.campaign == t.spec.campaign)
    && 0.0 <= t.childAllocated <= t.spec.budget
    && t.childAllocated == ChildTotal(s.tasks, s.order, Some(id), t.spec.campaign)
  }

  /** Each campaign's commitment is what its root tasks were given and what all its tasks still keep, within budget. */
  ghost predicate CampaignMoneyOk(s: Board, c: string)
    requires c in s.campaigns
  {
    && s.campaigns[c].committed <= s.campaigns[c].budget
    && s.campaigns[c].committed == ChildTotal(s.tasks, s.order, Option.None, c)
    && s.campaigns[c].committed == Kept(s.tasks, s.order, c)
  }

  ghost predicate MoneyOk(s: Board) {
    && (forall id | id in s.tasks :: TaskMoneyOk(s, id))
    && (forall c | c in s.campaigns :: CampaignMoneyOk(s, c))
  }

  ghost predicate BoardOk(p: Policy, s: Board, clock: int) {
    && Indexed(s) && GraphOk(s) && ReadyOk(s.tasks, s.deps) && LeasesOk(s.tasks, s.runs)
    && RetriesOk(s.tasks, s.runs, s.started) && LimitsOk(p, s, clock) && MoneyOk(s)
  }

  // ---- Frames ---------------------------------------------------------------------------------

  ghost predicate SameSpecs(tasks: map<string, Task>, tasks': map<string, Task>, ids: seq<string>) {
    forall id | id in ids :: id in tasks && id in tasks' && tasks'[id].spec == tasks[id].spec
  }

  lemma {:induction false} ChildTotalFrame(
    tasks: map<string, Task>, tasks': map<string, Task>, ids: seq<string>, parent: Option<string>, campaign: string)
    requires SameSpecs(tasks, tasks', ids)
    ensures ChildTotal(tasks', ids, parent, campaign) == ChildTotal(tasks, ids, parent, campaign)
  {
    if |ids| > 0 {
      assert ids[|ids| - 1] in ids;
      ChildTotalFrame(tasks, tasks', ids[..|ids| - 1], parent, campaign);
    }
  }

  /** Passing `amount` to a child lowers what the parent's campaign keeps by as much, and no other campaign's. */
  lemma {:induction false} KeptAfterAllocation(
    tasks: map<string, Task>, ids: seq<string>, p: string, amount: real, campaign: string)
    requires p in tasks && Distinct(ids)
    ensures Kept(tasks[p := tasks[p].(childAllocated := tasks[p].childAllocated + amount)], ids, campaign)
         == Kept(tasks, ids, campaign) - if p in ids && tasks[p].spec.campaign == campaign then amount else 0.0
  {
    if |ids| > 0 {
      KeptAfterAllocation(tasks, ids[..|ids| - 1], p, amount, campaign);
      assert ids == ids[..|ids| - 1] + [ids[|ids| - 1]];
    }
  }

  lemma {:induction false} KeptFrame(
    tasks: map<string, Task>, tasks': map<string, Task>, ids: seq<string>, campaign: string)
    requires SameSpecs(tasks, tasks', ids)
    requires forall id | id in ids :: tasks'[id].childAllocated == tasks[id].childAllocated
    ensures Kept(tasks', ids, campaign) == Kept(tasks, ids, campaign)
  {
    if |ids| > 0 {
      assert ids[|ids| - 1] in ids;
      KeptFrame(tasks, tasks', ids[..|ids| - 1], campaign);
    }
  }

  lemma {:induction false} NoChildrenYet(
    tasks: map<string, Task>, ids: seq<string>, id: string, campaign: string)
    requires forall t | t in tasks && tasks[t].spec.parent.Some? :: tasks[t].spec.parent.value != id
    ensures ChildTotal(tasks, ids, Some(id), campaign) == 0.0
  {
    if |ids| > 0 {
      NoChildrenYet(tasks, ids[..|ids| - 1], id, campaign);
    }
  }

  lemma {:induction false} NothingInCampaign(tasks: map<string, Task>, ids: seq<string>, campaign: string)
    requires forall t | t in tasks :: tasks[t].spec.campaign != campaign
    ensures ChildTotal(tasks, ids, Option.None, campaign) == 0.0 && Kept(tasks, ids, campaign) == 0.0
  {
    if |ids| > 0 {
      NothingInCampaign(tasks, ids[..|ids| - 1], campaign);
    }
  }

  lemma {:induction false} RunsOfFrame(
    runs: map<string, TaskRun>, runs': map<string, TaskRun>, started: seq<string>, task: string)
    requires forall r | r in started :: r in runs && r in runs' && runs'[r].task == runs[r].task
    ensures RunsOf(runs', started, task) == RunsOf(runs, started, task)
  {
    if |started| > 0 {
      assert started[|started| - 1] in started;
      RunsOfFrame(runs, runs', started[..|started| - 1], task);
    }
  }

  lemma {:induction false} FewerLive(
    runs: map<string, TaskRun>, runs': map<string, TaskRun>, started: seq<string>, resource: string, now: int, later: int)
    requires forall r | r in started && r in runs' && Live(runs'[r], resource, later) ::
      r in runs && Live(runs[r], resource, now)
    ensures LiveCount(runs', started, resource, later) <= LiveCount(runs, started, resource, now)
  {
    if |started| > 0 {
      assert started[|started| - 1] in started;
      FewerLive(runs, runs', started[..|started| - 1], resource, now, later);
    }
  }

  // ---- Enqueue --------------------------------------------------------------------------------

  lemma {:induction false} DependenciesAre(tasks: map<string, Task>, spec: TaskSpec, n: nat)
    requires n <= |spec.dependencies| && DependenciesOf(tasks, spec, n).Success?
    ensures forall e | e in DependenciesOf(tasks, spec, n).value ::
      e.0 == spec.id && e.1 != spec.id && e.1 in tasks && tasks[e.1].spec.campaign == spec.campaign
    ensures forall i | 0 <= i < n :: (spec.id, spec.dependencies[i]) in DependenciesOf(tasks, spec, n).value
  {
    if n > 0 {
      DependenciesAre(tasks, spec, n - 1);
    }
  }

  lemma FundEffect(s: Board, spec: TaskSpec)
    requires spec.campaign in s.campaigns && Fund(s, spec).Success?
    ensures Fund(s, spec).value.1.Keys == s.tasks.Keys
    ensures forall id | id in s.tasks ::
      var t := Fund(s, spec).value.1[id];
      t == s.tasks[id].(childAllocated := t.childAllocated)
      && t.childAllocated == s.tasks[id].childAllocated + if spec.parent == Some(id) then spec.budget else 0.0
    ensures Fund(s, spec).value.0.Keys == s.campaigns.Keys
    ensures forall c | c in s.campaigns ::
      var k := Fund(s, spec).value.0[c];
      k == s.campaigns[c].(committed := k.committed)
      && k.committed == s.campaigns[c].committed + if spec.parent.None? && c == spec.campaign then spec.budget else 0.0
    ensures spec.parent.Some? ==>
      && spec.parent.value in s.tasks && s.tasks[spec.parent.value].spec.campaign == spec.campaign
      && s.tasks[spec.parent.value].childAllocated + spec.budget <= s.tasks[spec.parent.value].spec.budget
    ensures spec.parent.None? ==> s.campaigns[spec.campaign].committed + spec.budget <= s.campaigns[spec.campaign].budget
  {}

  /** The parts of an accepted enqueue that the proofs below need, with the funding detail left out. */
  ghost predicate Adds(s: Board, s': Board, now: int, spec: TaskSpec, edges: Edges) {
    && spec.Valid() && spec.id !in s.tasks && s'.order == s.order + [spec.id] && s'.tasks.Keys == s.tasks.Keys + {spec.id}
    && s'.tasks[spec.id] == Task(spec, Queued, 0.0, now, now)
    && (forall id | id in s.tasks :: s'.tasks[id].spec == s.tasks[id].spec && s'.tasks[id].status == s.tasks[id].status)
    && s'.deps == s.deps + edges && s'.runs == s.runs && s'.started == s.started
    && (forall e | e in edges :: e.0 == spec.id && e.1 != spec.id && e.1 in s.tasks
          && s.tasks[e.1].spec.campaign == spec.campaign)
  }

  lemma EnqueueAdds(s: Board, now: int, spec: TaskSpec) returns (edges: Edges)
    requires spec.Valid() && EnqueueNew(s, now, spec).Success?
    ensures Adds(s, EnqueueNew(s, now, spec).value, now, spec, edges)
  {
    hide Fund, DependenciesOf;
    FundEffect(s, spec);
    DependenciesAre(s.tasks, spec, |spec.dependencies|);
    edges := DependenciesOf(s.tasks, spec, |spec.dependencies|).value;
  }

  lemma AddsKeepsGraph(s: Board, s': Board, now: int, spec: TaskSpec, edges: Edges)
    requires Indexed(s) && GraphOk(s) && ReadyOk(s.tasks, s.deps) && Adds(s, s', now, spec, edges)
    ensures Indexed(s') && GraphOk(s') && ReadyOk(s'.tasks, s'.deps)
  {
    assert Untouched(s.deps + edges, spec.id);
    NewNodeKeepsAcyclic(s.deps, edges, spec.id);
  }

  lemma AddsKeepsLeases(p: Policy, s: Board, s': Board, now: int, spec: TaskSpec, edges: Edges, clock: int)
    requires LeasesOk(s.tasks, s.runs) && RetriesOk(s.tasks, s.runs, s.started) && LimitsOk(p, s, clock)
    requires Adds(s, s', now, spec, edges)
    ensures LeasesOk(s'.tasks, s'.runs) && RetriesOk(s'.tasks, s'.runs, s'.started) && LimitsOk(p, s', clock)
  {
    NeverRun(s.runs, s.started, spec.id);
  }

  lemma {:induction false} NeverRun(runs: map<string, TaskRun>, started: seq<string>, id: string)
    requires forall r | r in runs :: runs[r].task != id
    ensures RunsOf(runs, started, id) == 0
  {
    if |started| > 0 {
      NeverRun(runs, started[..|started| - 1], id);
    }
  }

  lemma ChildTotalOfNew(s: Board, s': Board, now: int, spec: TaskSpec, edges: Edges, parent: Option<string>, c: string)
    requires Indexed(s) && Adds(s, s', now, spec, edges)
    ensures ChildTotal(s'.tasks, s'.order, parent, c)
         == ChildTotal(s.tasks, s.order, parent, c) + if spec.parent == parent && spec.campaign == c then spec.budget else 0.0
  {
    assert s'.order[..|s'.order| - 1] == s.order;
    ChildTotalFrame(s.tasks, s'.tasks, s.order, parent, c);
  }

  lemma FundedKept(s: Board, spec: TaskSpec, c: string)
    requires Indexed(s) && spec.campaign in s.campaigns && Fund(s, spec).Success?
    ensures Kept(Fund(s, spec).value.1, s.order, c)
         == Kept(s.tasks, s.order, c) - if spec.parent.Some? && spec.campaign == c then spec.budget else 0.0
  {
    if spec.parent.Some? {
      KeptAfterAllocation(s.tasks, s.order, spec.parent.value, spec.budget, c);
    }
    hide Kept;
  }

  lemma KeptAppend(tasks: map<string, Task>, ids: seq<string>, id: string, c: string)
    requires id in tasks
    ensures Kept(tasks, ids + [id], c) == Kept(tasks, ids, c)
      + if tasks[id].spec.campaign == c then tasks[id].spec.budget - tasks[id].childAllocated else 0.0
  {
    assert (ids + [id])[..|ids|] == ids;
  }

  lemma EnqueuedTasks(s: Board, now: int, spec: TaskSpec)
    requires EnqueueNew(s, now, spec).Success?
    ensures spec.campaign in s.campaigns && Fund(s, spec).Success? && spec.id !in s.tasks
    ensures EnqueueNew(s, now, spec).value.tasks == Fund(s, spec).value.1[spec.id := Task(spec, Queued, 0.0, now, now)]
    ensures EnqueueNew(s, now, spec).value.order == s.order + [spec.id]
  {
    hide Fund, DependenciesOf;
  }

  lemma KeptOfNew(s: Board, now: int, spec: TaskSpec, edges: Edges, c: string)
    requires Indexed(s) && EnqueueNew(s, now, spec).Success? && Adds(s, EnqueueNew(s, now, spec).value, now, spec, edges)
    ensures var s' := EnqueueNew(s, now, spec).value;
      Kept(s'.tasks, s'.order, c)
        == Kept(s.tasks, s.order, c) + if spec.parent.None? && spec.campaign == c then spec.budget else 0.0
  {
    hide EnqueueNew, Fund, Kept, Adds;
    EnqueuedTasks(s, now, spec);
    FundEffect(s, spec);
    var s', funded := EnqueueNew(s, now, spec).value, Fund(s, spec).value.1;
    KeptFrame(funded, s'.tasks, s.order, c);
    KeptAppend(s'.tasks, s.order, spec.id, c);
    FundedKept(s, spec, c);
  }

  lemma EnqueueKeepsTaskMoney(s: Board, now: int, spec: TaskSpec, edges: Edges, id: string)
    requires Indexed(s) && MoneyOk(s) && EnqueueNew(s, now, spec).Success?
    requires var s' := EnqueueNew(s, now, spec).value; Adds(s, s', now, spec, edges) && id in s'.tasks
    ensures TaskMoneyOk(EnqueueNew(s, now, spec).value, id)
  {
    hide Fund, DependenciesOf, Indexed, Adds, ChildTotal, CampaignMoneyOk;
    var s' := EnqueueNew(s, now, spec).value;
    FundEffect(s, spec);
    AddedKeys(s, s', now, spec, edges);
    ChildTotalOfNew(s, s', now, spec, edges, Some(id), s'.tasks[id].spec.campaign);
    if id == spec.id {
      FreshHasNoChildren(s, spec.id, spec.campaign);
    } else {
      assert TaskMoneyOk(s, id);
    }
  }

  lemma EnqueueKeepsCampaignMoney(s: Board, now: int, spec: TaskSpec, edges: Edges, c: string)
    requires Indexed(s) && MoneyOk(s) && EnqueueNew(s, now, spec).Success?
    requires var s' := EnqueueNew(s, now, spec).value; Adds(s, s', now, spec, edges) && c in s'.campaigns
    ensures CampaignMoneyOk(EnqueueNew(s, now, spec).value, c)
  {
    hide Fund, DependenciesOf, Indexed, Adds, ChildTotal, Kept, TaskMoneyOk;
    var s' := EnqueueNew(s, now, spec).value;
    FundEffect(s, spec);
    assert CampaignMoneyOk(s, c);
    ChildTotalOfNew(s, s', now, spec, edges, Option.None, c);
    KeptOfNew(s, now, spec, edges, c);
  }

  lemma EnqueueKeepsMoney(s: Board, now: int, spec: TaskSpec, edges: Edges)
    requires Indexed(s) && MoneyOk(s) && EnqueueNew(s, now, spec).Success?
    requires Adds(s, EnqueueNew(s, now, spec).value, now, spec, edges)
    ensures MoneyOk(EnqueueNew(s, now, spec).value)
  {
    hide EnqueueNew, Indexed, Adds, TaskMoneyOk, CampaignMoneyOk;
    var s' := EnqueueNew(s, now, spec).value;
    forall id | id in s'.tasks ensures TaskMoneyOk(s', id) {
      hide MoneyOk;
      EnqueueKeepsTaskMoney(s, now, spec, edges, id);
    }
    forall c | c in s'.campaigns ensures CampaignMoneyOk(s', c) {
      hide MoneyOk;
      EnqueueKeepsCampaignMoney(s, now, spec, edges, c);
    }
  }

  lemma AddedKeys(s: Board, s': Board, now: int, spec: TaskSpec, edges: Edges)
    requires Adds(s, s', now, spec, edges)
    ensures spec.Valid() && spec.id !in s.tasks && s'.tasks.Keys == s.tasks.Keys + {spec.id}
    ensures s'.tasks[spec.id] == Task(spec, Queued, 0.0, now, now)
  {}

  lemma FreshHasNoChildren(s: Board, id: string, campaign: string)
    requires MoneyOk(s) && id !in s.tasks
    ensures ChildTotal(s.tasks, s.order, Some(id), campaign) == 0.0
  {
    forall t | t in s.tasks && s.tasks[t].spec.parent.Some? ensures s.tasks[t].spec.parent.value != id {
      assert TaskMoneyOk(s, t);
    }
    NoChildrenYet(s.tasks, s.order, id, campaign);
  }

  lemma EnqueueKeeps(p: Policy, s: Board, clock: int, now: int, spec: TaskSpec)
    requires BoardOk(p, s, clock) && spec.Valid() && EnqueueNew(s, now, spec).Success?
    ensures BoardOk(p, EnqueueNew(s, now, spec).value, clock)
  {
    hide Indexed, GraphOk, ReadyOk, LeasesOk, RetriesOk, LimitsOk, MoneyOk, EnqueueNew, Adds;
    var edges := EnqueueAdds(s, now, spec);
    var s' := EnqueueNew(s, now, spec).value;
    AddsKeepsGraph(s, s', now, spec, edges);
    AddsKeepsLeases(p, s, s', now, spec, edges, clock);
    EnqueueKeepsMoney(s, now, spec, edges);
  }

  // ---- Dependencies ---------------------------------------------------------------------------

  lemma DependKeeps(p: Policy, s: Board, clock: int, id: string, dependency: string)
    requires BoardOk(p, s, clock) && AddDependency(s, id, dependency).Success?
    ensures BoardOk(p, AddDependency(s, id, dependency).value, clock)
  {
    hide LeasesOk, RetriesOk, MoneyOk;
    OneMoreEdge(s.deps, id, dependency);
    var s' := AddDependency(s, id, dependency).value;
    MoneyIgnores(s, s');
  }

  /** Money depends only on campaigns, the order, and each task's spec and child allocation. */
  lemma MoneyIgnores(s: Board, s': Board)
    requires MoneyOk(s) && s'.campaigns == s.campaigns && s'.order == s.order && s'.tasks.Keys == s.tasks.Keys
    requires forall id | id in s.tasks ::
      s'.tasks[id].spec == s.tasks[id].spec && s'.tasks[id].childAllocated == s.tasks[id].childAllocated
    requires forall id | id in s.order :: id in s.tasks
    ensures MoneyOk(s')
  {
    forall id | id in s'.tasks ensures TaskMoneyOk(s', id) {
      assert TaskMoneyOk(s, id);
      ChildTotalFrame(s.tasks, s'.tasks, s.order, Some(id), s.tasks[id].spec.campaign);
    }
    forall c | c in s'.campaigns ensures CampaignMoneyOk(s', c) {
      assert CampaignMoneyOk(s, c);
      ChildTotalFrame(s.tasks, s'.tasks, s.order, Option.None, c);
      KeptFrame(s.tasks, s'.tasks, s.order, c);
    }
  }

  // ---- Starting a run -------------------------------------------------------------------------

  /** A task's status alone changes, and it keeps its dependencies' promise. */
  lemma StatusKeepsReady(tasks: map<string, Task>, deps: Edges, id: string, t: Task)
    requires ReadyOk(tasks, deps) && id in tasks && t.spec == tasks[id].spec && !tasks[id].status.Completed?
    requires t.status.Queued? || !tasks[id].status.Queued? || (
      forall e | e in deps && e.0 == id :: e.1 in tasks && tasks[e.1].status.Completed?)
    ensures ReadyOk(tasks[id := t], deps)
  {}

  lemma StartedUnreleased(s: Board, now: int, id: string, run: string, worker: string, fence: string)
    requires LeasesOk(s.tasks, s.runs) && id in s.tasks && !s.tasks[id].status.Running? && run !in s.runs
    ensures var s' := Start(s, now, id, run, worker, fence);
      forall a, t :: Unreleased(s'.runs, a, t) <==> (a == run && t == id) || Unreleased(s.runs, a, t)
  {
    hide RunsOf, LeasesOk;
  }

  lemma StartKeepsLeases(s: Board, now: int, id: string, run: string, worker: string, fence: string)
    requires LeasesOk(s.tasks, s.runs) && id in s.tasks && !s.tasks[id].status.Running?
    requires run !in s.runs && !FenceUsed(s, fence)
    ensures var s' := Start(s, now, id, run, worker, fence); LeasesOk(s'.tasks, s'.runs)
  {
    StartedUnreleased(s, now, id, run, worker, fence);
    IdleHasNoLease(s.tasks, s.runs, id);
    hide RunsOf, Unreleased;
    var s' := Start(s, now, id, run, worker, fence);
    forall t | t in s'.tasks && s'.tasks[t].status.Running? ensures exists r :: Unreleased(s'.runs, r, t) {
      if t == id {
        assert Unreleased(s'.runs, run, t);
      } else {
        var r :| Unreleased(s.runs, r, t);
        assert Unreleased(s'.runs, r, t);
      }
    }
  }

  lemma StartCounts(s: Board, now: int, id: string, run: string, worker: string, fence: string, t: string)
    requires Indexed(s) && id in s.tasks && run !in s.runs
    ensures var s' := Start(s, now, id, run, worker, fence);
      RunsOf(s'.runs, s'.started, t) == RunsOf(s.runs, s.started, t) + if t == id then 1 else 0
  {
    var s' := Start(s, now, id, run, worker, fence);
    assert s'.started[..|s'.started| - 1] == s.started;
    RunsOfFrame(s.runs, s'.runs, s.started, t);
  }

  /** Only task `id` moved; its own count and retries are argued separately. */
  lemma RetriesTransfer(
    tasks: map<string, Task>, runs: map<string, TaskRun>, started: seq<string>,
    tasks': map<string, Task>, runs': map<string, TaskRun>, started': seq<string>, id: string)
    requires RetriesOk(tasks, runs, started) && id in tasks && tasks'.Keys == tasks.Keys
    requires forall t | t in tasks && t != id ::
      tasks'[t] == tasks[t] && RunsOf(runs', started', t) == RunsOf(runs, started, t)
    requires forall r, t | t != id && Unreleased(runs', r, t) ::
      Unreleased(runs, r, t) && runs'[r].retryCount == runs[r].retryCount
    requires RunsOf(runs', started', id) <= tasks'[id].spec.maxRetries + 1
    requires tasks'[id].status.Queued? || tasks'[id].status.Hibernating? ==>
      RunsOf(runs', started', id) <= tasks'[id].spec.maxRetries
    requires forall r | Unreleased(runs', r, id) :: runs'[r].retryCount + 1 == RunsOf(runs', started', id)
    ensures RetriesOk(tasks', runs', started')
  {
    hide RunsOf, Unreleased;
  }

  lemma RetriesOf(tasks: map<string, Task>, runs: map<string, TaskRun>, started: seq<string>, id: string)
    requires RetriesOk(tasks, runs, started) && id in tasks
    ensures RunsOf(runs, started, id) <= tasks[id].spec.maxRetries + 1
    ensures tasks[id].status.Queued? || tasks[id].status.Hibernating? ==>
      RunsOf(runs, started, id) <= tasks[id].spec.maxRetries
    ensures forall r | Unreleased(runs, r, id) :: runs[r].retryCount + 1 == RunsOf(runs, started, id)
  {
    hide RunsOf;
  }

  lemma StartKeepsRetries(s: Board, now: int, id: string, run: string, worker: string, fence: string)
    requires Indexed(s) && RetriesOk(s.tasks, s.runs, s.started)
    requires id in s.tasks && (s.tasks[id].status.Queued? || s.tasks[id].status.Hibernating?)
    requires forall r :: !Unreleased(s.runs, r, id)
    requires run !in s.runs
    ensures var s' := Start(s, now, id, run, worker, fence); RetriesOk(s'.tasks, s'.runs, s'.started)
  {
    hide RunsOf, Indexed, RetriesOk;
    forall t {
      StartCounts(s, now, id, run, worker, fence, t);
    }
    RetriesOf(s.tasks, s.runs, s.started, id);
    var s' := Start(s, now, id, run, worker, fence);
    forall r | Unreleased(s'.runs, r, id) ensures r == run {
      assert r != run ==> Unreleased(s.runs, r, id);
    }
    RetriesTransfer(s.tasks, s.runs, s.started, s'.tasks, s'.runs, s'.started, id);
  }

  lemma StartKeepsLimits(p: Policy, s: Board, now: int, id: string, run: string, worker: string, fence: string)
    requires Indexed(s) && LimitsOk(p, s, now) && id in s.tasks && run !in s.runs
    requires LiveCount(s.runs, s.started, s.tasks[id].spec.resource, now) < p.Limit(s.tasks[id].spec.resource)
    ensures LimitsOk(p, Start(s, now, id, run, worker, fence), now)
  {
    hide RunsOf;
    var s' := Start(s, now, id, run, worker, fence);
    assert s'.started[..|s'.started| - 1] == s.started;
    forall resource ensures LiveCount(s'.runs, s'.started, resource, now) <= p.Limit(resource) {
      FewerLive(s.runs, s'.runs, s.started, resource, now, now);
    }
  }

  lemma ClaimKeeps(p: Policy, s: Board, now: int, resource: string, run: string, worker: string, fence: string)
    requires BoardOk(p, s, now) && Priced(s.tasks)
    ensures BoardOk(p, Claim(s, p, now, resource, run, worker, fence).0, now)
  {
    hide Candidates, Pool, Best, Acyclic, LeasesOk, RetriesOk, LimitsOk, MoneyOk, Start;
    if Claim(s, p, now, resource, run, worker, fence).1.Claimed? {
      PoolIsClaimable(s, p, now, resource);
      var id := Claim(s, p, now, resource, run, worker, fence).1.task;
      StartKeeps(p, s, now, id, run, worker, fence);
    }
  }

  /** One task changes only its status or availability; runs are untouched by this lemma. */
  lemma MovedTaskKeepsTables(s: Board, s': Board, id: string)
    requires Indexed(s) && GraphOk(s) && MoneyOk(s) && id in s.tasks
    requires s'.campaigns == s.campaigns && s'.order == s.order && s'.deps == s.deps
    requires s'.tasks.Keys == s.tasks.Keys && s'.tasks == s.tasks[id := s'.tasks[id]]
    requires s'.tasks[id].spec == s.tasks[id].spec && s'.tasks[id].childAllocated == s.tasks[id].childAllocated
    requires Distinct(s'.started) && (forall r :: r in s'.started <==> r in s'.runs)
    ensures Indexed(s') && GraphOk(s') && MoneyOk(s')
  {
    hide Acyclic, TaskMoneyOk, CampaignMoneyOk, MoneyOk, Distinct;
    MoneyIgnores(s, s');
  }

  lemma StartKeepsTables(s: Board, now: int, id: string, run: string, worker: string, fence: string)
    requires Indexed(s) && GraphOk(s) && MoneyOk(s) && id in s.tasks && run !in s.runs
    ensures var s' := Start(s, now, id, run, worker, fence); Indexed(s') && GraphOk(s') && MoneyOk(s')
  {
    hide RunsOf, GraphOk, MoneyOk;
    MovedTaskKeepsTables(s, Start(s, now, id, run, worker, fence), id);
  }

  lemma StartKeepsReady(s: Board, now: int, id: string, run: string, worker: string, fence: string)
    requires GraphOk(s) && ReadyOk(s.tasks, s.deps) && id in s.tasks && !s.tasks[id].status.Completed?
    requires DependenciesDone(s.tasks, s.deps, id)
    ensures var s' := Start(s, now, id, run, worker, fence); ReadyOk(s'.tasks, s'.deps)
  {
    hide RunsOf, Acyclic;
    StatusKeepsReady(s.tasks, s.deps, id, s.tasks[id].(status := Running));
  }

  lemma IdleHasNoLease(tasks: map<string, Task>, runs: map<string, TaskRun>, id: string)
    requires LeasesOk(tasks, runs) && id in tasks && !tasks[id].status.Running?
    ensures forall r :: !Unreleased(runs, r, id)
  {}

  lemma StartKeeps(p: Policy, s: Board, now: int, id: string, run: string, worker: string, fence: string)
    requires BoardOk(p, s, now) && id in s.tasks && (s.tasks[id].status.Queued? || s.tasks[id].status.Hibernating?)
    requires DependenciesDone(s.tasks, s.deps, id) && run !in s.runs && !FenceUsed(s, fence)
    requires LiveCount(s.runs, s.started, s.tasks[id].spec.resource, now) < p.Limit(s.tasks[id].spec.resource)
    ensures BoardOk(p, Start(s, now, id, run, worker, fence), now)
  {
    hide Start, Indexed, GraphOk, ReadyOk, LeasesOk, RetriesOk, LimitsOk, MoneyOk, DependenciesDone, FenceUsed;
    IdleHasNoLease(s.tasks, s.runs, id);
    StartKeepsLeases(s, now, id, run, worker, fence);
    StartKeepsRetries(s, now, id, run, worker, fence);
    StartKeepsLimits(p, s, now, id, run, worker, fence);
    StartKeepsTables(s, now, id, run, worker, fence);
    StartKeepsReady(s, now, id, run, worker, fence);
  }

  // ---- Closing a run --------------------------------------------------------------------------

  /** Where a task may go when its run ends: back for another try only if one is left. */
  ghost predicate MayBecome(s: Board, run: string, status: TaskStatus)
    requires run in s.runs && s.runs[run].task in s.tasks
  {
    !status.Running? && (status.Queued? || status.Hibernating? ==> !Exhausted(s, run))
  }

  lemma CloseKeepsLeases(s: Board, run: string, outcome: RunStatus, status: TaskStatus, availableAt: int)
    requires LeasesOk(s.tasks, s.runs) && run in s.runs && !s.runs[run].released && !outcome.Active? && !status.Running?
    ensures var s' := CloseRun(s, run, outcome, status, availableAt); LeasesOk(s'.tasks, s'.runs)
  {
    var id, s' := s.runs[run].task, CloseRun(s, run, outcome, status, availableAt);
    assert Unreleased(s.runs, run, id);
    forall r, t | Unreleased(s'.runs, r, t) ensures t != id && Unreleased(s.runs, r, t) {
      assert r != run;
      assert Unreleased(s.runs, r, t);
    }
    forall t | t in s'.tasks && s'.tasks[t].status.Running? ensures exists r :: Unreleased(s'.runs, r, t) {
      var r :| Unreleased(s.runs, r, t);
      assert Unreleased(s'.runs, r, t);
    }
  }

  lemma OneLease(tasks: map<string, Task>, runs: map<string, TaskRun>, a: string, b: string, id: string)
    requires LeasesOk(tasks, runs) && Unreleased(runs, a, id) && Unreleased(runs, b, id)
    ensures a == b
  {}

  lemma CloseKeepsRetries(s: Board, run: string, outcome: RunStatus, status: TaskStatus, availableAt: int)
    requires Indexed(s) && LeasesOk(s.tasks, s.runs) && RetriesOk(s.tasks, s.runs, s.started)
    requires run in s.runs && !s.runs[run].released && MayBecome(s, run, status)
    ensures var s' := CloseRun(s, run, outcome, status, availableAt); RetriesOk(s'.tasks, s'.runs, s'.started)
  {
    var id, s' := s.runs[run].task, CloseRun(s, run, outcome, status, availableAt);
    forall t ensures RunsOf(s'.runs, s'.started, t) == RunsOf(s.runs, s.started, t) {
      RunsOfFrame(s.runs, s'.runs, s.started, t);
    }
    hide RunsOf, LeasesOk, Indexed, RetriesOk;
    RetriesOf(s.tasks, s.runs, s.started, id);
    assert Unreleased(s.runs, run, id);
    forall r ensures !Unreleased(s'.runs, r, id) {
      if Unreleased(s.runs, r, id) {
        OneLease(s.tasks, s.runs, r, run, id);
      }
    }
    RetriesTransfer(s.tasks, s.runs, s.started, s'.tasks, s'.runs, s'.started, id);
  }

  lemma ReleasingKeepsLimits(p: Policy, s: Board, s': Board, clock: int, now: int)
    requires LimitsOk(p, s, clock) && clock <= now && s'.started == s.started
    requires forall r | r in s'.runs ::
      && r in s.runs && s'.runs[r].resource == s.runs[r].resource
      && s'.runs[r].expires == s.runs[r].expires && (s.runs[r].released ==> s'.runs[r].released)
    ensures LimitsOk(p, s', now)
  {
    forall resource ensures LiveCount(s'.runs, s'.started, resource, now) <= p.Limit(resource) {
      FewerLive(s.runs, s'.runs, s.started, resource, clock, now);
    }
  }

  lemma CloseKeepsTables(s: Board, run: string, outcome: RunStatus, status: TaskStatus, availableAt: int)
    requires Indexed(s) && GraphOk(s) && MoneyOk(s) && run in s.runs && s.runs[run].task in s.tasks
    ensures var s' := CloseRun(s, run, outcome, status, availableAt); Indexed(s') && GraphOk(s') && MoneyOk(s')
  {
    hide GraphOk, MoneyOk;
    MovedTaskKeepsTables(s, CloseRun(s, run, outcome, status, availableAt), s.runs[run].task);
  }

  lemma CloseKeepsReady(s: Board, run: string, outcome: RunStatus, status: TaskStatus, availableAt: int)
    requires ReadyOk(s.tasks, s.deps) && run in s.runs && s.runs[run].task in s.tasks
    requires s.tasks[s.runs[run].task].status.Running?
    ensures var s' := CloseRun(s, run, outcome, status, availableAt); ReadyOk(s'.tasks, s'.deps)
  {
    var id := s.runs[run].task;
    StatusKeepsReady(s.tasks, s.deps, id, s.tasks[id].(status := status, availableAt := availableAt));
  }

  lemma LeasedIsRunning(tasks: map<string, Task>, runs: map<string, TaskRun>, run: string)
    requires LeasesOk(tasks, runs) && run in runs && !runs[run].released
    ensures runs[run].task in tasks && tasks[runs[run].task].status.Running?
  {
    assert Unreleased(runs, run, runs[run].task);
  }

  lemma CloseKeeps(p: Policy, s: Board, now: int, run: string, outcome: RunStatus, status: TaskStatus, availableAt: int)
    requires BoardOk(p, s, now) && run in s.runs && !s.runs[run].released && !outcome.Active?
    requires s.runs[run].task in s.tasks && MayBecome(s, run, status)
    ensures BoardOk(p, CloseRun(s, run, outcome, status, availableAt), now)
  {
    hide Indexed, GraphOk, ReadyOk, LeasesOk, RetriesOk, LimitsOk, MoneyOk;
    LeasedIsRunning(s.tasks, s.runs, run);
    CloseKeepsLeases(s, run, outcome, status, availableAt);
    CloseKeepsRetries(s, run, outcome, status, availableAt);
    ReleasingKeepsLimits(p, s, CloseRun(s, run, outcome, status, availableAt), now, now);
    CloseKeepsTables(s, run, outcome, status, availableAt);
    CloseKeepsReady(s, run, outcome, status, availableAt);
  }

  lemma {:induction false} RecoverKeeps(p: Policy, s: Board, now: int, runs: seq<string>)
    requires BoardOk(p, s, now)
    ensures BoardOk(p, Recover(s, now, runs).0, now)
  {
    hide BoardOk, CloseRun, Exhausted;
    if |runs| > 0 {
      RecoverKeeps(p, s, now, runs[..|runs| - 1]);
      var earlier, last := Recover(s, now, runs[..|runs| - 1]).0, runs[|runs| - 1];
      if Overdue(earlier, now, last) {
        CloseKeeps(p, earlier, now, last, Expired, if Exhausted(earlier, last) then Quarantined else Queued,
          earlier.tasks[earlier.runs[last].task].availableAt);
      }
    }
  }

  lemma BeatKeepsLeases(tasks: map<string, Task>, runs: map<string, TaskRun>, run: string, r': TaskRun)
    requires LeasesOk(tasks, runs) && run in runs && r' == runs[run].(heartbeat := r'.heartbeat)
    ensures LeasesOk(tasks, runs[run := r'])
  {
    var runs' := runs[run := r'];
    forall r, t ensures Unreleased(runs', r, t) <==> Unreleased(runs, r, t) {}
    assert forall r | r in runs :: runs'[r] == runs[r].(heartbeat := runs'[r].heartbeat);
    hide Unreleased;
  }

  lemma BeatKeepsRetries(s: Board, run: string, r': TaskRun)
    requires Indexed(s) && RetriesOk(s.tasks, s.runs, s.started)
    requires run in s.runs && r' == s.runs[run].(heartbeat := r'.heartbeat)
    ensures RetriesOk(s.tasks, s.runs[run := r'], s.started)
  {
    var runs' := s.runs[run := r'];
    forall t ensures RunsOf(runs', s.started, t) == RunsOf(s.runs, s.started, t) {
      RunsOfFrame(s.runs, runs', s.started, t);
    }
    hide RunsOf, Indexed;
    forall r, t | Unreleased(runs', r, t) ensures Unreleased(s.runs, r, t) {}
  }

  lemma HeartbeatKeeps(p: Policy, s: Board, now: int, run: string, worker: string, fence: string)
    requires BoardOk(p, s, now) && Heartbeat(s, now, run, worker, fence).Success?
    ensures BoardOk(p, Heartbeat(s, now, run, worker, fence).value, now)
  {
    hide LeasesOk, RetriesOk, LimitsOk, MoneyOk, Acyclic, ReadyOk, Distinct;
    var s' := Heartbeat(s, now, run, worker, fence).value;
    ReleasingKeepsLimits(p, s, s', now, now);
    BeatKeepsLeases(s.tasks, s.runs, run, s'.runs[run]);
    BeatKeepsRetries(s, run, s'.runs[run]);
    MoneyIgnores(s, s');
  }

  lemma CampaignKeeps(p: Policy, s: Board, clock: int, id: string, budget: real, horizon: int)
    requires BoardOk(p, s, clock) && id !in s.campaigns && budget >= 0.0
    ensures BoardOk(p, s.(campaigns := s.campaigns[id := Campaign(budget, 0.0, horizon)]), clock)
  {
    hide Acyclic, ReadyOk, LeasesOk, RetriesOk, LiveCount;
    var s' := s.(campaigns := s.campaigns[id := Campaign(budget, 0.0, horizon)]);
    forall t | t in s'.tasks ensures TaskMoneyOk(s', t) && s.tasks[t].spec.campaign != id {
      assert TaskMoneyOk(s, t);
    }
    forall c | c in s'.campaigns ensures CampaignMoneyOk(s', c) {
      if c == id {
        NothingInCampaign(s.tasks, s.order, id);
      } else {
        assert CampaignMoneyOk(s, c);
      }
    }
  }

  // ---- Every step and every run ---------------------------------------------------------------

  lemma TimePasses(p: Policy, s: Board, clock: int, now: int)
    requires BoardOk(p, s, clock) && clock <= now
    ensures BoardOk(p, s, now) && Priced(s.tasks)
  {
    ReleasingKeepsLimits(p, s, s, clock, now);
    hide LimitsOk;
  }

  lemma StepKeeps(p: Policy, s: Board, schemas: map<string, string>, now: int, op: Operation)
    requires BoardOk(p, s, now) && Priced(s.tasks) && Legal(op)
    ensures BoardOk(p, Step(s, p, schemas, now, op), now)
  {
    hide BoardOk, EnqueueNew, AddDependency, Claim, Heartbeat, CloseRun, Recover, Refused, SameWork;
    match op
    case DeclareCampaign(id, budget, horizon) =>
      if id !in s.campaigns { CampaignKeeps(p, s, now, id, budget, horizon); }
    case Enqueue(spec) => if EnqueueNew(s, now, spec).Success? { EnqueueKeeps(p, s, now, now, spec); }
    case Depend(t, d) => if AddDependency(s, t, d).Success? { DependKeeps(p, s, now, t, d); }
    case ClaimNext(resource, run, worker, fence) => ClaimKeeps(p, s, now, resource, run, worker, fence);
    case Beat(run, worker, fence) =>
      if Heartbeat(s, now, run, worker, fence).Success? { HeartbeatKeeps(p, s, now, run, worker, fence); }
    case FinishRun(run, worker, fence, artifact, failed) =>
      var r := Finish(s, now, run, worker, fence, schemas, artifact, failed);
      if r.Success? {
        CloseKeeps(p, s, now, run, if failed then Failed else Succeeded, r.value.1,
          now + s.tasks[s.runs[run].task].spec.timeout);
      }
    case RecoverAll => RecoverKeeps(p, s, now, s.started);
  }

  /** Operations with the moments they happen at; the clock never runs backwards. */
  datatype Timed = Timed(at: int, op: Operation)

  ghost predicate Orderly(history: seq<Timed>, clock: int) {
    && (forall i | 0 <= i < |history| :: Legal(history[i].op) && clock <= history[i].at)
    && (forall i, j | 0 <= i < j < |history| :: history[i].at <= history[j].at)
  }

  ghost function ClockAfter(history: seq<Timed>, clock: int): int {
    if |history| == 0 then clock else history[|history| - 1].at
  }

  /** Board after a history. The priced test is never the reason to stop: see `HistoryKeeps`. */
  ghost function After(p: Policy, schemas: map<string, string>, s: Board, history: seq<Timed>): Board {
    if |history| == 0 then s
    else
      var earlier, last := After(p, schemas, s, history[..|history| - 1]), history[|history| - 1];
      if Priced(earlier.tasks) then Step(earlier, p, schemas, last.at, last.op) else earlier
  }

  lemma OrderlyPrefix(history: seq<Timed>, clock: int)
    requires Orderly(history, clock) && |history| > 0
    ensures Orderly(history[..|history| - 1], clock)
    ensures ClockAfter(history[..|history| - 1], clock) <= history[|history| - 1].at && Legal(history[|history| - 1].op)
  {}

  lemma {:induction false} HistoryKeeps(p: Policy, schemas: map<string, string>, s: Board, clock: int, history: seq<Timed>)
    requires BoardOk(p, s, clock) && Orderly(history, clock)
    ensures BoardOk(p, After(p, schemas, s, history), ClockAfter(history, clock))
  {
    hide BoardOk, Step, Orderly;
    if |history| > 0 {
      OrderlyPrefix(history, clock);
      var front, last := history[..|history| - 1], history[|history| - 1];
      HistoryKeeps(p, schemas, s, clock, front);
      var earlier := After(p, schemas, s, front);
      TimePasses(p, earlier, ClockAfter(front, clock), last.at);
      StepKeeps(p, earlier, schemas, last.at, last.op);
    }
  }

  const EmptyBoard := Board(map[], map[], [], {}, {}, map[], [])

  lemma EmptyBoardOk(p: Policy, clock: int)
    ensures BoardOk(p, EmptyBoard, clock)
  {
    forall resource: string ensures LiveCount(map[], [], resource, clock) == 0 {}
  }
}
