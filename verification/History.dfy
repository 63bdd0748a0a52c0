// Outside rollback nothing is forgotten: orders only grow, audit trails only grow, finished runs
// and artifacts stay as they are.
module History {
  import opened Records
  import opened Domain
  import opened Text
  import opened Projects
  import opened ProjectProofs
  import opened Leases
  import opened Machine
  import opened MachineProofs
  import opened Isolation
  import CV = ContractValidation

  ghost predicate TaskAfter(t: TaskBody, u: TaskBody) {
    && t.audit <= u.audit && t.dependsOn == u.dependsOn && t.kind == u.kind && t.planId == u.planId
    && t.inputRef == u.inputRef
  }

  ghost predicate RunAfter(r: RunBody, s: RunBody) {
    r.taskId == s.taskId && r.sandboxId == s.sandboxId && r.startedAt == s.startedAt && (r.status != Running ==> r == s)
  }

  ghost predicate TasksExtend(a: Slice<TaskBody>, b: Slice<TaskBody>) {
    a.order <= b.order && forall t | t in a.items :: t in b.items && TaskAfter(a.items[t].body, b.items[t].body)
  }

  ghost predicate RunsExtend(a: Slice<RunBody>, b: Slice<RunBody>) {
    a.order <= b.order && forall r | r in a.items :: r in b.items && RunAfter(a.items[r].body, b.items[r].body)
  }

  ghost predicate ArtifactsExtend(a: Slice<ArtifactBody>, b: Slice<ArtifactBody>) {
    a.order <= b.order && forall x | x in a.items :: x in b.items && b.items[x] == a.items[x]
  }

  ghost predicate Extends(a: ProjectState, b: ProjectState) {
    && a.requirements <= b.requirements && a.plans <= b.plans && a.contracts <= b.contracts
    && TasksExtend(a.tasks, b.tasks) && RunsExtend(a.runs, b.runs) && ArtifactsExtend(a.artifacts, b.artifacts)
  }

  // Project p of one world extended in another.
  ghost predicate ExtendsAt(w: World, v: World, p: Id) {
    p in w.live && p in v.live && Extends(w.live[p], v.live[p])
  }

  predicate IsRollback(e: Event) {
    e.EvRollback? || (e.EvMerge? && e.merge.simulateFailure)
  }

  lemma ExtendsTrans(a: ProjectState, b: ProjectState, c: ProjectState)
    requires Extends(a, b) && Extends(b, c)
    ensures Extends(a, c)
  {
    forall t | t in a.tasks.items
      ensures t in c.tasks.items && TaskAfter(a.tasks.items[t].body, c.tasks.items[t].body)
    {
      assert TaskAfter(a.tasks.items[t].body, b.tasks.items[t].body);
      assert TaskAfter(b.tasks.items[t].body, c.tasks.items[t].body);
    }
    forall r | r in a.runs.items ensures r in c.runs.items && RunAfter(a.runs.items[r].body, c.runs.items[r].body) {
      assert RunAfter(a.runs.items[r].body, b.runs.items[r].body);
      assert RunAfter(b.runs.items[r].body, c.runs.items[r].body);
    }
  }

  lemma Same(ps: ProjectState, qs: ProjectState)
    requires qs.requirements == ps.requirements && qs.plans == ps.plans && qs.contracts == ps.contracts
    requires qs.tasks == ps.tasks && qs.runs == ps.runs && qs.artifacts == ps.artifacts
    ensures Extends(ps, qs)
  {
  }

  lemma AddTaskExtends(ps: ProjectState, t: Task)
    requires t.id !in ps.tasks.items
    ensures Extends(ps, AddTask(ps, t))
  {
  }

  lemma PutTaskExtends(ps: ProjectState, t: Task)
    requires t.id in ps.tasks.items && TaskAfter(ps.tasks.items[t.id].body, t.body)
    ensures Extends(ps, PutTask(ps, t))
  {
  }

  lemma MovedAfter(t: TaskBody, next: TaskStatus, reason: string, now: Time)
    ensures TaskAfter(t, MovedOrSame(t, next, reason, now))
  {
  }

  lemma StartExtends(ps: ProjectState, t: Task, boxId: Id, runId: Id, made: bool, reason: string, now: Time)
    requires t.id in ps.tasks.items && ps.tasks.items[t.id] == t && runId !in ps.runs.items
    ensures var r := StartTaskRun(ps, t, boxId, runId, made, reason, now); r.Ok? ==> Extends(ps, r.value)
  {
    hide Ready, Allowed;
    var going := MovedOrSame(t.body, InProgress, reason, now);
    MovedAfter(t.body, InProgress, reason, now);
    MovedAfter(going, Failed, NO_WORKSPACE, now);
  }

  lemma {:induction false} BatchExtends(ps: ProjectState, ids: seq<Id>, unmade: set<Id>, n: Id, reason: string,
                                        now: Time, p: Id)
    requires ProjectOk(ps, p) && forall x | Uses(ps, x) :: x < n
    ensures Extends(ps, StartEach(ps, ids, unmade, n, reason, now).ps)
  {
    hide ProjectOk, StartTaskRun, Extends;
    if ids == [] {
      Same(ps, ps);
    } else {
      var front, x := ids[..|ids|-1], ids[|ids|-1];
      BatchExtends(ps, front, unmade, n, reason, now, p);
      StartEachOk(ps, front, unmade, n, reason, now, p);
      var b := StartEach(ps, front, unmade, n, reason, now);
      if b.whole && x in b.ps.tasks.items {
        var r := StartTaskRun(b.ps, b.ps.tasks.items[x], b.next, b.next + 1, x !in unmade, reason, now);
        TaskIdIs(b.ps, x, p);
        NextUnused(b.ps, b.next, n, ps);
        StartExtends(b.ps, b.ps.tasks.items[x], b.next, b.next + 1, x !in unmade, reason, now);
        if r.Ok? {
          ExtendsTrans(ps, b.ps, r.value);
        }
      }
    }
  }

  lemma CompleteExtends(ps: ProjectState, r: Id, t: Id, a: Id, uri: string, usage: Usage, summary: string, now: Time,
                        p: Id)
    requires ProjectOk(ps, p) && a !in ps.artifacts.items
    requires (r in ps.runs.items ==> ps.runs.items[r].body.status == Running)
    ensures Extends(ps, Projects.CompleteRun(ps, r, t, a, uri, usage, summary, now))
  {
    hide Protocol, DepsOk, OrderOk, AuditsOk, PlansOk, ContextsOk, SettledBody, MovedOrSame;
    if t in ps.tasks.items && r in ps.runs.items {
      MovedAfter(ps.tasks.items[t].body.(outputRef := uri), Done, RUN_COMPLETED, now);
      assert TaskAfter(ps.tasks.items[t].body, ps.tasks.items[t].body.(outputRef := uri));
      assert ps.tasks.items[t].id == t && ps.runs.items[r].id == r;
    }
  }

  lemma PutRunExtends(ps: ProjectState, run: Run)
    requires run.id in ps.runs.items && RunAfter(ps.runs.items[run.id].body, run.body)
    ensures Extends(ps, ps.(runs := PutInSlice(ps.runs, run)))
  {
  }

  lemma SettleExtends(ps: ProjectState, boxId: Id, status: SandboxStatus, failure: Option<string>, now: Time)
    ensures Extends(ps, SettleSandbox(ps, boxId, status, failure, now))
    ensures var n := SettleSandbox(ps, boxId, status, failure, now); n.tasks == ps.tasks && n.runs == ps.runs
  {
    hide SettledBody, Extends;
    Same(ps, SettleSandbox(ps, boxId, status, failure, now));
  }

  lemma FailExtends(ps: ProjectState, r: Id, failure: string, usage: Usage, now: Time, p: Id)
    requires ProjectOk(ps, p) && (r in ps.runs.items ==> ps.runs.items[r].body.status == Running)
    ensures Extends(ps, FailRun(ps, r, failure, usage, now))
  {
    hide Protocol, DepsOk, OrderOk, AuditsOk, PlansOk, ContextsOk, MovedOrSame, Extends, TaskAfter, PutTask,
      SettleSandbox;
    Same(ps, ps);
    if r in ps.runs.items {
      var run, t := ps.runs.items[r], ps.runs.items[r].body.taskId;
      assert run.id == r;
      var crashed := run.(body := run.body.(status := Crashed, failure := failure, usage := usage,
                                            endedAt := Some(now)));
      var ps0 := ps.(runs := PutInSlice(ps.runs, crashed));
      var ps1 := SettleSandbox(ps0, run.body.sandboxId, Broken, Some(failure), now);
      PutRunExtends(ps, crashed);
      SettleExtends(ps0, run.body.sandboxId, Broken, Some(failure), now);
      ExtendsTrans(ps, ps0, ps1);
      if t in ps.tasks.items {
        assert ps.tasks.items[t].id == t;
        var body := MovedOrSame(ps.tasks.items[t].body, Failed, RUN_FAILED, now);
        MovedAfter(ps.tasks.items[t].body, Failed, RUN_FAILED, now);
        PutTaskExtends(ps1, ps.tasks.items[t].(body := body));
        ExtendsTrans(ps, ps1, PutTask(ps1, ps.tasks.items[t].(body := body)));
      }
    }
  }

  // ----- Steps --------------------------------------------------------------------------

  lemma StaysExtends(w: World, p: Id)
    requires p in w.live
    ensures ExtendsAt(w, w, p)
  {
    Same(w.live[p], w.live[p]);
  }

  lemma PutExtends(w: World, p: Id, k: nat, ps: ProjectState)
    requires p in w.live && Extends(w.live[p], ps)
    ensures ExtendsAt(w, Put(Claim(w, p, k), p, ps), p)
  {
    hide Extends, Grant;
  }

  lemma RequirementAdded(ps: ProjectState, id: Id, title: string, content: string, now: Time)
    ensures Extends(ps, Projects.AddRequirement(ps, id, title, content, now))
  {
  }

  lemma RequirementExtends(w: World, p: Id, title: string, content: string, now: Time)
    requires Inv(w) && p in w.live
    ensures ExtendsAt(w, Machine.AddRequirement(w, p, title, content, now).world, p)
  {
    hide Inv, ProjectOk, Extends, Projects.AddRequirement, TrimSpace;
    Same(w.live[p], w.live[p]);
    RequirementAdded(w.live[p], w.nextId, TrimSpace(title), TrimSpace(content), now);
  }

  lemma ContractAdded(ps: ProjectState, c: Contract, now: Time)
    ensures Extends(ps, AddContract(ps, c, now))
  {
  }

  lemma ContractExtends(w: World, p: Id, now: Time)
    requires Inv(w) && p in w.live
    ensures ExtendsAt(w, GenerateContract(w, p, now).world, p)
  {
    hide Inv, ProjectOk, FindById, Extends, ExtendsAt, AddContract, CV.BuildContract, Put, Claim;
    StaysExtends(w, p);
    forall c ensures ExtendsAt(w, Put(Claim(w, p, 1), p, AddContract(w.live[p], c, now)), p) {
      ContractAdded(w.live[p], c, now);
      PutExtends(w, p, 1, AddContract(w.live[p], c, now));
    }
  }

  lemma ContextExtends(w: World, p: Id, taskId: Option<Id>, now: Time)
    requires Inv(w) && p in w.live
    ensures ExtendsAt(w, GenerateTaskContext(w, p, taskId, now).world, p)
  {
    hide Inv, ProjectOk, Extends, ExtendsAt, ResolveTask, ContextFor, AddContext, Put, Claim;
    StaysExtends(w, p);
    forall c ensures ExtendsAt(w, Put(Claim(w, p, 1), p, AddContext(w.live[p], c)), p) {
      ContextAdded(w.live[p], c);
      PutExtends(w, p, 1, AddContext(w.live[p], c));
    }
  }

  lemma ContextAdded(ps: ProjectState, c: Context)
    ensures Extends(ps, AddContext(ps, c))
  {
  }

  lemma PlanExtends(w: World, p: Id, now: Time)
    requires Inv(w) && p in w.live
    ensures ExtendsAt(w, Machine.GeneratePlan(w, p, now).world, p)
  {
    hide Inv, ProjectOk, Extends;
    var ps := w.live[p];
    Same(ps, ps);
    if ps.requirements != [] {
      Fresh(w, p, w.nextId + 1);
      var plan := BuildPlan(ps, w.nextId, now);
      var t := NewTask(w.nextId + 1, ps.project.id, w.nextId, "Implement " + plan.body.title, Sprint1, DEFAULT_AGENT,
                       [], PlanRef(w.nextId), now);
      PlanAppended(ps, plan);
      var ps1 := ps.(plans := ps.plans + [plan]);
      AddTaskExtends(ps1, t);
      Same(AddTask(ps1, t), Touch(AddTask(ps1, t), now));
      ExtendsTrans(ps, ps1, AddTask(ps1, t));
      ExtendsTrans(ps, AddTask(ps1, t), Touch(AddTask(ps1, t), now));
    }
  }

  lemma PlanAppended(ps: ProjectState, plan: Plan)
    ensures Extends(ps, ps.(plans := ps.plans + [plan]))
  {
  }

  lemma AddedAndTouched(ps: ProjectState, t: Task, now: Time)
    requires t.id !in ps.tasks.items
    ensures Extends(ps, Touch(AddTask(ps, t), now))
  {
  }

  lemma RetryExtends(w: World, p: Id, taskId: Option<Id>, now: Time)
    requires Inv(w) && p in w.live
    ensures ExtendsAt(w, RetryTask(w, p, taskId, now).world, p)
  {
    hide Inv, ProjectOk, Extends, ExtendsAt, ResolveTask, Put, Claim, Touch, AddTask, RetryOf;
    StaysExtends(w, p);
    Fresh(w, p, w.nextId);
    if ResolveTask(w.live[p], taskId).Ok? {
      var t := RetryOf(ResolveTask(w.live[p], taskId).value, w.nextId, now);
      RetryId(ResolveTask(w.live[p], taskId).value, w.nextId, now);
      AddedAndTouched(w.live[p], t, now);
      PutExtends(w, p, 1, Touch(AddTask(w.live[p], t), now));
    }
  }

  lemma RetryId(t: Task, id: Id, now: Time)
    ensures RetryOf(t, id, now).id == id
  {
  }

  lemma ValidateExtends(w: World, p: Id, contractId: Option<Id>, endpoints: seq<Endpoint>, schemas: seq<Schema>,
                        now: Time)
    requires Inv(w) && p in w.live
    ensures ExtendsAt(w, ValidateContract(w, p, contractId, endpoints, schemas, now).world, p)
  {
    hide Inv, ProjectOk, Extends, ExtendsAt, ResolveContract, CV.Report, Put, Claim, Touch, AddTask, ReworkTask;
    StaysExtends(w, p);
    Fresh(w, p, w.nextId);
    if ResolveContract(w.live[p], contractId).Ok? {
      var c := ResolveContract(w.live[p], contractId).value;
      ReworkId(w.live[p], c, w.nextId, now);
      AddedAndTouched(w.live[p], ReworkTask(w.live[p], c, w.nextId, now), now);
      PutExtends(w, p, 1, Touch(AddTask(w.live[p], ReworkTask(w.live[p], c, w.nextId, now)), now));
    }
  }

  lemma ReworkId(ps: ProjectState, c: Contract, id: Id, now: Time)
    ensures ReworkTask(ps, c, id, now).id == id
  {
  }

  lemma ThreeAdded(ps: ProjectState, a: Task, b: Task, c: Task, now: Time)
    requires a.id !in ps.tasks.items && b.id !in ps.tasks.items && c.id !in ps.tasks.items && a.id != b.id
    requires a.id != c.id && b.id != c.id
    ensures Extends(ps, Touch(AddTask(AddTask(AddTask(ps, a), b), c), now))
  {
    hide Extends;
    AddTaskExtends(ps, a);
    AddTaskExtends(AddTask(ps, a), b);
    AddedAndTouched(AddTask(AddTask(ps, a), b), c, now);
    ExtendsTrans(ps, AddTask(ps, a), AddTask(AddTask(ps, a), b));
    ExtendsTrans(ps, AddTask(AddTask(ps, a), b), Touch(AddTask(AddTask(AddTask(ps, a), b), c), now));
  }

  lemma DispatchExtends(w: World, p: Id, now: Time)
    requires Inv(w) && p in w.live
    ensures ExtendsAt(w, DispatchTasks(w, p, now).world, p)
  {
    hide Inv, ProjectOk, Extends, ExtendsAt, Dispatched, Dispatch, Put, Claim;
    var ps := w.live[p];
    StaysExtends(w, p);
    Fresh(w, p, w.nextId);
    Fresh(w, p, w.nextId + 1);
    Fresh(w, p, w.nextId + 2);
    if ps.plans != [] && ps.contracts != [] {
      DispatchAdds(ps, ps.plans[|ps.plans|-1], ps.contracts[|ps.contracts|-1], w.nextId, now);
      PutExtends(w, p, 3, Dispatch(ps, ps.plans[|ps.plans|-1], ps.contracts[|ps.contracts|-1], w.nextId, now));
    }
  }

  lemma DispatchAdds(ps: ProjectState, plan: Plan, contract: Contract, id: Id, now: Time)
    requires id !in ps.tasks.items && id + 1 !in ps.tasks.items && id + 2 !in ps.tasks.items
    ensures Extends(ps, Dispatch(ps, plan, contract, id, now))
  {
    hide Extends;
    ThreeAdded(ps,
               DispatchedTask(ps, id, plan, contract, "Build backend implementation for ", Backend, "go-backend-agent",
                              [], now),
               DispatchedTask(ps, id + 1, plan, contract, "Build frontend implementation for ", Frontend,
                              "vue-frontend-agent", [], now),
               DispatchedTask(ps, id + 2, plan, contract, "Merge and verify ", Integration, "integration-agent",
                              [id, id + 1], now), now);
  }

  lemma TouchedExtends(ps: ProjectState, now: Time)
    ensures Extends(ps, Touch(ps, now))
  {
  }

  lemma AdmitLockExtends(w: World, p: Id, l: CodeLock, now: Time)
    requires p in w.live
    ensures ExtendsAt(w, AdmitLock(w, p, l, now).world, p)
  {
    hide Extends, FirstClash, LockKey, LockOwner, LockLeases, Enqueue, Claim, Touch;
    TouchedExtends(w.live[p], now);
  }

  lemma LockExtends(w: World, p: Id, l: LockInput, now: Time)
    requires Inv(w) && p in w.live
    ensures ExtendsAt(w, ApplyCodeLock(w, p, l, now).world, p)
  {
    hide Inv, ProjectOk, Extends, ResolveTask, LockInputOk, LockOf, AdmitLock;
    Same(w.live[p], w.live[p]);
    AdmitLockExtends(w, p, LockOf(w.nextId, p, l, now), now);
  }

  lemma OverriddenExtends(ps: ProjectState, t: Task, reason: string, now: Time)
    requires t.id in ps.tasks.items && ps.tasks.items[t.id] == t
    ensures Extends(ps, Touch(PutTask(ps, t.(body := MovedOrSame(t.body, HumanOverride, reason, now))), now))
  {
    hide Extends, MovedOrSame;
    var u := t.(body := MovedOrSame(t.body, HumanOverride, reason, now));
    MovedAfter(t.body, HumanOverride, reason, now);
    PutTaskExtends(ps, u);
    Same(PutTask(ps, u), Touch(PutTask(ps, u), now));
    ExtendsTrans(ps, PutTask(ps, u), Touch(PutTask(ps, u), now));
  }

  lemma AdmitExtends(w: World, p: Id, t: Task, o: Override, now: Time)
    requires p in w.live && t.id in w.live[p].tasks.items && w.live[p].tasks.items[t.id] == t
    ensures ExtendsAt(w, AdmitOverride(w, p, t, o, now).world, p)
  {
    hide Extends, MovedOrSame, FirstClash, OverrideLease, OverrideLeases, OverrideOwner, Enqueue, Claim, Touch, PutTask;
    TouchedExtends(w.live[p], now);
    OverriddenExtends(w.live[p], t, OVERRIDE_REQUESTED + o.body.operator, now);
  }

  lemma OverrideExtends(w: World, p: Id, i: OverrideInput, now: Time)
    requires Inv(w) && p in w.live
    ensures ExtendsAt(w, ApplyHumanOverride(w, p, i, now).world, p)
  {
    hide Inv, ProjectOk, Extends, ResolveTask, OverrideOf, OverrideInputOk, OverrideMetaOk, AdmitOverride;
    Same(w.live[p], w.live[p]);
    if ResolveTask(w.live[p], i.taskId).Ok? {
      LiveOk(w, p);
      TaskResolved(w.live[p], i.taskId, p);
      var t := ResolveTask(w.live[p], i.taskId).value;
      AdmitExtends(w, p, t, OverrideOf(w.nextId, p, t.id, i, now), now);
    }
  }

  lemma StartStepExtends(w: World, p: Id, taskId: Option<Id>, allowed: bool, made: bool, now: Time)
    requires Inv(w) && p in w.live
    ensures ExtendsAt(w, StartRun(w, p, taskId, allowed, made, now).world, p)
  {
    hide Inv, ProjectOk, Extends, ExtendsAt, ResolveTask, StartTaskRun, Put, Claim;
    StaysExtends(w, p);
    LiveOk(w, p);
    Fresh(w, p, w.nextId + 1);
    if ResolveTask(w.live[p], taskId).Ok? {
      TaskResolved(w.live[p], taskId, p);
      var t := ResolveTask(w.live[p], taskId).value;
      var r := StartTaskRun(w.live[p], t, w.nextId, w.nextId + 1, made, RUN_STARTED, now);
      StartExtends(w.live[p], t, w.nextId, w.nextId + 1, made, RUN_STARTED, now);
      if r.Ok? {
        PutExtends(w, p, 2, r.value);
        var v := Put(Claim(w, p, 2), p, r.value);
        ExecsExtend(w, v, p, v.execs[w.nextId + 1 := Executor(p, t.id, Spawned)]);
      }
    }
  }


  lemma ParallelExtends(w: World, p: Id, ids: seq<Option<Id>>, allowed: bool, unmade: set<Id>, now: Time)
    requires Inv(w) && p in w.live
    ensures ExtendsAt(w, StartParallel(w, p, ids, allowed, unmade, now).world, p)
  {
    hide Inv, ProjectOk, Extends, ExtendsAt, Pick, StartEach, Spawn, Claim, Put;
    LiveOk(w, p);
    LiveBelow(w, p);
    StaysExtends(w, p);
    var picked := Pick(w.live[p], ids);
    if picked.Ok? && |ids| <= MAX_PARALLEL_TASKS && allowed {
      BatchExtends(w.live[p], picked.value.selected, unmade, w.nextId, PARALLEL_STARTED, now, p);
      var b := StartEach(w.live[p], picked.value.selected, unmade, w.nextId, PARALLEL_STARTED, now);
      PutExtends(w, p, b.next - w.nextId, b.ps);
      ExecsExtend(w, Put(Claim(w, p, b.next - w.nextId), p, b.ps), p, Spawn(w.execs, b.ps, p, b.runs));
    }
  }

  lemma ExecsExtend(w: World, v: World, p: Id, execs: map<Id, Executor>)
    requires ExtendsAt(w, v, p)
    ensures ExtendsAt(w, v.(execs := execs), p)
  {
    hide Extends;
  }

  lemma CheckpointExtends(w: World, r: Id, now: Time)
    requires Inv(w) && r in w.execs
    ensures ExtendsAt(w, Checkpoint(w, r, now), w.execs[r].projectId)
  {
    hide Inv, ProjectOk, Extends, LatestPending, TakeOverride, Takeable, Checkpoint, RunAs, Get, PutExec, At;
    ExecRun(w, r);
    var p := w.execs[r].projectId;
    var ps := w.live[p];
    Same(ps, ps);
    NotChecked(w, r, now);
    if At(w, r, Checked) {
      CheckpointCases(w, r, now);
      ExecOnly(w, r, w.execs[r].(phase := Failing(NO_RUN)));
      ExecOnly(w, r, w.execs[r].(phase := Failing(NO_TASK)));
      ExecOnly(w, r, w.execs[r].(phase := Armed));
      if r in ps.runs.items && ps.runs.items[r].body.taskId in ps.tasks.items {
        var t := ps.runs.items[r].body.taskId;
        var k := LatestPending(Get(w.overrides, p), ps.tasks.items[t].id, now);
        if k.Some? {
          PendingIn(Get(w.overrides, p), ps.tasks.items[t].id, now);
          LiveOk(w, p);
          TakenExtends(w, p, t, k.value, now);
          ExecOnly(TakeOverride(w, p, ps.tasks.items[t], k.value, now), r, w.execs[r].(phase := Armed));
        }
      }
    }
  }

  lemma ExecOnly(w: World, r: Id, x: Executor)
    ensures PutExec(w, r, x).live == w.live
  {
  }

  lemma PendingIn(s: seq<Override>, taskId: Id, now: Time)
    ensures LatestPending(s, taskId, now).Some? ==> LatestPending(s, taskId, now).value < |s|
  {
  }

  lemma NotChecked(w: World, r: Id, now: Time)
    ensures !At(w, r, Checked) ==> Checkpoint(w, r, now) == w
  {
  }

  lemma TakenExtends(w: World, p: Id, t: Id, k: nat, now: Time)
    requires p in w.live && ProjectOk(w.live[p], p) && t in w.live[p].tasks.items && k < |Get(w.overrides, p)|
    ensures p in TakeOverride(w, p, w.live[p].tasks.items[t], k, now).live
    ensures ExtendsAt(w, TakeOverride(w, p, w.live[p].tasks.items[t], k, now), p)
  {
    hide ProjectOk, Extends, MovedOrSame, PutTask, Applied, OVERRIDE_APPLIED, TakeOverride;
    var task := w.live[p].tasks.items[t];
    TaskIdIs(w.live[p], t, p);
    Same(w.live[p], w.live[p]);
    MovedAfter(task.body, InProgress, OVERRIDE_APPLIED, now);
    PutTaskExtends(w.live[p], task.(body := MovedOrSame(task.body, InProgress, OVERRIDE_APPLIED, now)));
    TakenLive(w, p, task, k, now);
  }

  lemma TakenLive(w: World, p: Id, task: Task, k: nat, now: Time)
    requires p in w.live && k < |Get(w.overrides, p)|
    ensures var v := TakeOverride(w, p, task, k, now);
      v.live == if task.body.status == HumanOverride
                then w.live[p := PutTask(w.live[p],
                                         task.(body := MovedOrSame(task.body, InProgress, OVERRIDE_APPLIED, now)))]
                else w.live
  {
    hide MovedOrSame, PutTask, Applied, OVERRIDE_APPLIED;
    if task.body.status == HumanOverride {
    } else {
    }
  }

  lemma EndExtends(w: World, r: Id, uri: string, usage: Usage, summary: string, now: Time)
    requires Inv(w) && r in w.execs
    ensures ExtendsAt(w, Complete(w, r, uri, usage, summary, now), w.execs[r].projectId)
    ensures ExtendsAt(w, Fail(w, r, usage, now), w.execs[r].projectId)
  {
    hide Inv, ProjectOk, Extends, ExtendsAt, Projects.CompleteRun, FailRun, Put, Claim, DropExec;
    ExecRun(w, r);
    var x, p := w.execs[r], w.execs[r].projectId;
    LiveOk(w, p);
    StaysExtends(w, p);
    Fresh(w, p, w.nextId);
    CompleteExtends(w.live[p], r, x.taskId, w.nextId, uri, usage, summary, now, p);
    var done := Projects.CompleteRun(w.live[p], r, x.taskId, w.nextId, uri, usage, summary, now);
    PutExtends(w, p, 1, done);
    DroppedExtends(w, Put(Claim(w, p, 1), p, done), p, r);
    if x.phase.Failing? {
      FailExtends(w.live[p], r, x.phase.failure, usage, now, p);
      var failed := FailRun(w.live[p], r, x.phase.failure, usage, now);
      PutExtends(w, p, 0, failed);
      ClaimsNothing(w, p);
      DroppedExtends(w, Put(w, p, failed), p, r);
    }
  }

  lemma DroppedExtends(w: World, v: World, p: Id, r: Id)
    requires ExtendsAt(w, v, p)
    ensures ExtendsAt(w, DropExec(v, r), p)
  {
    hide Extends;
  }

  lemma ClaimsNothing(w: World, p: Id)
    ensures Claim(w, p, 0) == w
  {
  }

  lemma SharedExtends(ps: ProjectState, box: Sandbox, status: SandboxStatus, failure: string, now: Time, later: Time)
    ensures Extends(ps, SettleShared(Touch(AddSandbox(ps, box), now), box, status, failure, later))
  {
  }

  lemma BlockedExtends(w: World, p: Id, box: Sandbox, c: Contract, now: Time, later: Time)
    requires p in w.live && w.nextId + 1 !in w.live[p].tasks.items
    ensures ExtendsAt(w, GateBlocked(w, p, box, c, now, later), p)
  {
    hide Extends, SettleShared;
    var ps, failure := w.live[p], GATE_FAILURE;
    var ps1 := SettleShared(Touch(AddSandbox(ps, box), now), box, Broken, failure, later);
    SharedExtends(ps, box, Broken, failure, now, later);
    SharedKeepsTasks(ps, box, Broken, failure, now, later);
    AddTaskExtends(ps1, ReworkTask(ps1, c, w.nextId + 1, later));
    ExtendsTrans(ps, ps1, AddTask(ps1, ReworkTask(ps1, c, w.nextId + 1, later)));
  }

  lemma MadeExtends(w: World, p: Id, box: Sandbox, status: SandboxStatus, failure: string, now: Time, later: Time)
    requires p in w.live
    ensures var v := SharedMade(w, p, box, status, failure, now, later);
      p in v.live && v.timelines == w.timelines && Extends(w.live[p], v.live[p])
  {
    hide Extends, SettleShared;
    SharedExtends(w.live[p], box, status, failure, now, later);
  }

  lemma GateExtends(w: World, p: Id, i: MergeInput, box: Sandbox, c: Option<Contract>, now: Time, later: Time)
    requires Inv(w) && p in w.live && p in w.timelines && !i.simulateFailure
    ensures ExtendsAt(w, MergeGate(w, p, i, box, c, now, later), p)
  {
    hide Inv, ProjectOk, Extends, GateBlocks, SharedMade, MergeUndone, GateBlocked, CurrentBranch, LatestSnapshot,
      Recorded;
    MadeExtends(w, p, box, Broken, MANIFEST_FAILURE, now, later);
    MadeExtends(w, p, box, Released, "", now, later);
    if GateBlocks(i, c) {
      GateHasContract(i, c);
      Fresh(w, p, w.nextId + 1);
      BlockedExtends(w, p, box, c.value, now, later);
    }
  }

  lemma MergeExtends(w: World, p: Id, i: MergeInput, now: Time, later: Time)
    requires Inv(w) && p in w.live && !i.simulateFailure
    ensures ExtendsAt(w, Merge(w, p, i, now, later).world, p)
  {
    hide Inv, ProjectOk, Extends, PickMerge, MergeContract, SharedBox, MergeGate;
    Same(w.live[p], w.live[p]);
    if p in w.timelines && PickMerge(w.live[p], i.ids).Ok? && MergeContract(w.live[p], i).Ok? {
      GateExtends(w, p, i, SharedBox(w, p, PickMerge(w.live[p], i.ids).value.tasks, now),
                  MergeContract(w.live[p], i).value, now, later);
    }
  }

  lemma SharedKeepsTasks(ps: ProjectState, box: Sandbox, status: SandboxStatus, failure: string, now: Time, later: Time)
    ensures SettleShared(Touch(AddSandbox(ps, box), now), box, status, failure, later).tasks == ps.tasks
  {
  }

  lemma PreviewExtends(w: World, p: Id, now: Time)
    requires p in w.live
    ensures ExtendsAt(w, StartPreview(w, p, now).world, p)
  {
    hide Extends, LatestShared, Claim, Touch;
    Same(w.live[p], w.live[p]);
    TouchedExtends(w.live[p], now);
  }

  // A step that is not a rollback forgets nothing about any project.
  lemma StepExtends(w: World, e: Event, p: Id)
    requires Inv(w) && !IsRollback(e) && p in w.live
    ensures ExtendsAt(w, Step(w, e), p)
  {
    hide Inv, Extends, CreateProject, Machine.AddRequirement, Machine.GeneratePlan, GenerateContract,
      GenerateTaskContext, DispatchTasks, ValidateContract, RetryTask, ApplyHumanOverride, ApplyCodeLock, StartRun,
      StartParallel, Checkpoint, Complete, Fail, Merge, StartPreview, StatesKept, ResolveTask, PreparedBy;
    Same(w.live[p], w.live[p]);
    StepOnly(w, e);
    StepOk(w, e);
    LiveStaysLive(w, Step(w, e), p);
    if p != Subject(w, e) {
      assert SameProject(w, Step(w, e), p);
    } else {
      match e
      case EvCreateProject(name, description, now) => NotYetLive(w);
      case EvAddRequirement(_, title, content, now) => RequirementExtends(w, p, title, content, now);
      case EvGeneratePlan(_, now) => PlanExtends(w, p, now);
      case EvGenerateContract(_, now) => ContractExtends(w, p, now);
      case EvGenerateTaskContext(_, taskId, now) => ContextExtends(w, p, taskId, now);
      case EvDispatchTasks(_, now) => DispatchExtends(w, p, now);
      case EvValidateContract(_, contractId, endpoints, schemas, now) => ValidateExtends(w, p, contractId, endpoints,
          schemas, now);
      case EvRetryTask(_, taskId, now) => RetryExtends(w, p, taskId, now);
      case EvMarkFault(_, taskId, reason) =>
      case EvApplyHumanOverride(_, i, now) => OverrideExtends(w, p, i, now);
      case EvApplyCodeLock(_, i, now) => LockExtends(w, p, i, now);
      case EvStartRun(_, taskId, allowed, made, now) => StartStepExtends(w, p, taskId, allowed, made, now);
      case EvStartParallel(_, ids, allowed, unmade, now) => ParallelExtends(w, p, ids, allowed, unmade, now);
      case EvMerge(_, i, now, later) => MergeExtends(w, p, i, now, later);
      case EvStartPreview(_, now) => PreviewExtends(w, p, now);
      case _ => ExecutorExtends(w, e, p);
    }
  }

  // These steps only move the executor on.
  lemma PhasesOnly(w: World, r: Id, failure: string)
    ensures Prepare(w, r).live == w.live && CheckFault(w, r).live == w.live && Break(w, r, failure).live == w.live
  {
    hide PreparedBy, CheckFault;
    FaultKeepsLive(w, r);
  }

  lemma FaultKeepsLive(w: World, r: Id)
    ensures CheckFault(w, r).live == w.live
  {
    hide TrimSpace;
    if At(w, r, Prepared) {
      var t := w.execs[r].taskId;
      if t in w.faults && TrimSpace(w.faults[t]) != "" {
      } else {
      }
    }
  }

  lemma ExecutorExtends(w: World, e: Event, p: Id)
    requires Inv(w) && OfExecutor(e) && p == Subject(w, e) && p in w.live && p in Step(w, e).live
    ensures ExtendsAt(w, Step(w, e), p)
  {
    hide Inv, Extends, CreateProject, Machine.AddRequirement, Machine.GeneratePlan, GenerateContract,
      GenerateTaskContext, DispatchTasks, ValidateContract, RetryTask, MarkFault, ApplyHumanOverride, ApplyCodeLock,
      StartRun, StartParallel, Checkpoint, Complete, Fail, Merge, Rollback, Prepare, CheckFault, Break;
    Same(w.live[p], w.live[p]);
    match e
    case EvPrepare(r) => PhasesOnly(w, r, "");
    case EvCheckFault(r) => PhasesOnly(w, r, "");
    case EvBreak(r, failure) => PhasesOnly(w, r, failure);
    case EvCheckpoint(r, now) => if r in w.execs { CheckpointExtends(w, r, now); } else { NoExecutor(w, e, r); }
    case EvComplete(r, uri, usage, summary, now) =>
      if r in w.execs {
        EndExtends(w, r, uri, usage, summary, now);
      } else {
        NoExecutor(w, e, r);
      }
    case EvFail(r, usage, now) =>
      if r in w.execs {
        EndExtends(w, r, "", usage, "", now);
      } else {
        NoExecutor(w, e, r);
      }
    case _ =>
  }

  lemma NotYetLive(w: World)
    requires Inv(w)
    ensures w.nextId !in w.live
  {
    hide StateOk, TimelinesOk, LeasesOk, ExecOk;
  }

  lemma LiveStaysLive(w: World, v: World, p: Id)
    requires Inv(w) && Inv(v) && Grown(w, v) && p in w.live
    ensures p in v.live
  {
    hide StatesOk, LeasesOk, ExecOk;
  }

  // Over any run without rollback: a finished task stays finished with the same audit trail, and
  // finished runs and artifacts are never touched again.
  lemma {:induction false} NothingForgotten(w: World, events: seq<Event>, p: Id)
    requires Inv(w) && p in w.live && forall i | 0 <= i < |events| :: !IsRollback(events[i])
    ensures ExtendsAt(w, After(w, events), p)
    ensures forall t | t in w.live[p].tasks.items && w.live[p].tasks.items[t].body.status in {Done, Failed} ::
      t in After(w, events).live[p].tasks.items
      && After(w, events).live[p].tasks.items[t].body.status == w.live[p].tasks.items[t].body.status
      && After(w, events).live[p].tasks.items[t].body.audit == w.live[p].tasks.items[t].body.audit
  {
    hide Inv, ProjectOk, Step, Extends;
    if events == [] {
      Same(w.live[p], w.live[p]);
    } else {
      var front, last := events[..|events|-1], events[|events|-1];
      assert forall i | 0 <= i < |front| :: front[i] == events[i];
      NothingForgotten(w, front, p);
      RunOk(w, front);
      StepExtends(After(w, front), last, p);
      ExtendsTrans(w.live[p], After(w, front).live[p], After(w, events).live[p]);
    }
    RunOk(w, events);
    LiveOk(w, p);
    LiveOk(After(w, events), p);
    forall t | t in w.live[p].tasks.items && w.live[p].tasks.items[t].body.status in {Done, Failed}
      ensures t in After(w, events).live[p].tasks.items
        && After(w, events).live[p].tasks.items[t].body.status == w.live[p].tasks.items[t].body.status
        && After(w, events).live[p].tasks.items[t].body.audit == w.live[p].tasks.items[t].body.audit
    {
      FinishedStays(w.live[p], After(w, events).live[p], p, t);
    }
  }

  lemma FinishedStays(a: ProjectState, b: ProjectState, p: Id, t: Id)
    requires ProjectOk(a, p) && ProjectOk(b, p) && Extends(a, b) && t in a.tasks.items
    requires a.tasks.items[t].body.status in {Done, Failed}
    ensures t in b.tasks.items && b.tasks.items[t].body.status == a.tasks.items[t].body.status
    ensures b.tasks.items[t].body.audit == a.tasks.items[t].body.audit
  {
    hide Protocol, DepsOk, OrderOk, PlansOk, ContextsOk, Shapes;
    var x, y := a.tasks.items[t].body, b.tasks.items[t].body;
    assert AuditOk(x) && TaskAfter(x, y);
    assert AuditOk(y);
    TerminalOnce(y);
    assert y.audit[|x.audit|-1] == x.audit[|x.audit|-1];
  }
}
