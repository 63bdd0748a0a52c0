// Runs under a clock that never goes back: no lease of a reachable state is from the future.
module Clock {
  import opened Records
  import opened Domain
  import opened Projects
  import opened Leases
  import opened Text
  import opened Machine
  import opened MachineProofs
  import Overlay
  import Theorems

  // The last reading of the clock in an event.
  function Reading(e: Event): Option<Time> {
    match e
    case EvMarkFault(_, _, _) => None
    case EvPrepare(_) => None
    case EvCheckFault(_) => None
    case EvBreak(_, _) => None
    case EvMerge(_, _, _, later) => Some(later)
    case _ => Some(e.now)
  }

  ghost predicate NoLater(e: Event, now: Time) {
    (Reading(e).Some? ==> Reading(e).value <= now) && (e.EvMerge? ==> e.now <= e.later)
  }

  // The clock never goes back from one event to a later one, or within one.
  ghost predicate Timely(events: seq<Event>) {
    && (forall i | 0 <= i < |events| && events[i].EvMerge? :: events[i].now <= events[i].later)
    && (forall i, j | 0 <= i < j < |events| && Reading(events[i]).Some? && Reading(events[j]).Some? ::
          Reading(events[i]).value <= Reading(events[j]).value)
  }

  // The last reading of the clock in a run.
  function Latest(events: seq<Event>): Option<Time> {
    if events == [] then None
    else if Reading(events[|events|-1]).Some? then Reading(events[|events|-1])
    else Latest(events[..|events|-1])
  }

  lemma {:induction false} LatestBounds(events: seq<Event>, now: Time)
    requires Timely(events) && (Latest(events).Some? ==> Latest(events).value <= now)
    ensures forall i | 0 <= i < |events| :: NoLater(events[i], now)
  {
    if events == [] {
    } else {
      var n := |events| - 1;
      if Reading(events[n]).None? {
        LatestBounds(events[..n], now);
      }
      forall i | 0 <= i < |events| ensures NoLater(events[i], now) {
        if i < n && Reading(events[n]).None? {
          assert events[..n][i] == events[i];
        }
      }
    }
  }

  // Every lease was made at `now` or before.
  ghost predicate Stamped(w: World, now: Time) {
    && (forall p, l | p in w.locks && l in w.locks[p] :: l.body.createdAt <= now)
    && (forall p, o | p in w.overrides && o in w.overrides[p] :: o.body.createdAt <= now)
  }

  ghost predicate SameLeases(w: World, v: World) {
    v.locks == w.locks && v.overrides == w.overrides
  }

  // Some leases more, all made at `now`.
  ghost predicate Leased(w: World, v: World, now: Time) {
    && (forall p, l | p in v.locks && l in v.locks[p] :: l in Get(w.locks, p) || l.body.createdAt == now)
    && (forall p, o | p in v.overrides && o in v.overrides[p] ::
          o.body.createdAt == now || exists k :: k in Get(w.overrides, p) && k.body.createdAt == o.body.createdAt)
  }

  lemma LeasedStamped(w: World, v: World, now: Time, bound: Time)
    requires Stamped(w, bound) && Leased(w, v, now) && now <= bound
    ensures Stamped(v, bound)
  {
  }

  lemma ClaimKeeps(w: World, p: Id, k: nat)
    ensures SameLeases(w, Claim(w, p, k)) && Claim(w, p, k).live == w.live
  {
    hide Grant;
  }

  lemma LockLeased(w: World, p: Id, i: LockInput, now: Time)
    ensures Leased(w, ApplyCodeLock(w, p, i, now).world, now)
  {
    hide LockInputOk, ResolveTask, AdmitLock;
    if p in w.live {
      AdmitLockLeased(w, p, LockOf(w.nextId, p, i, now), now);
    }
  }

  lemma AdmitLockLeased(w: World, p: Id, l: CodeLock, now: Time)
    requires p in w.live && l.body.createdAt == now
    ensures Leased(w, AdmitLock(w, p, l, now).world, now)
  {
    hide FirstClash, LockLeases, LockKey, LockOwner, Touch, Claim;
    ClaimKeeps(w, p, 1);
    ClaimKeeps(Claim(w, p, 1), p, 1);
  }

  lemma OverrideLeased(w: World, p: Id, i: OverrideInput, now: Time)
    ensures Leased(w, ApplyHumanOverride(w, p, i, now).world, now)
  {
    hide OverrideInputOk, OverrideMetaOk, ResolveTask, AdmitOverride;
    if p in w.live && ResolveTask(w.live[p], i.taskId).Ok? {
      var t := ResolveTask(w.live[p], i.taskId).value;
      AdmitOverrideLeased(w, p, t, OverrideOf(w.nextId, p, t.id, i, now), now);
    }
  }

  lemma AdmitOverrideLeased(w: World, p: Id, t: Task, o: Override, now: Time)
    requires p in w.live && o.body.createdAt == now
    ensures Leased(w, AdmitOverride(w, p, t, o, now).world, now)
  {
    hide FirstClash, OverrideLeases, OverrideOwner, Touch, Claim, MovedOrSame, PutTask, Leased;
    ClaimKeeps(w, p, 1);
    var v := AdmitOverride(w, p, t, o, now).world;
    assert v.locks == w.locks;
    assert (v.overrides == w.overrides || v.overrides == w.overrides[p := Get(w.overrides, p) + [o]]);
    if v.overrides == w.overrides {
      FewerLeased(w, v, now);
    } else {
      ReplacedLeased(w, v, p, Get(w.overrides, p) + [o], now);
    }
  }

  lemma ReplacedLeased(w: World, v: World, p: Id, s: seq<Override>, now: Time)
    requires v.locks == w.locks && v.overrides == w.overrides[p := s]
    requires forall o | o in s ::
      o.body.createdAt == now || exists k :: k in Get(w.overrides, p) && k.body.createdAt == o.body.createdAt
    ensures Leased(w, v, now)
  {
    forall q, o | q in v.overrides && o in v.overrides[q] && q != p
      ensures exists k :: k in Get(w.overrides, q) && k.body.createdAt == o.body.createdAt
    {
      assert o in Get(w.overrides, q);
    }
  }

  // A checkpoint marks an override as applied, and an override keeps its date.
  lemma CheckpointLeased(w: World, r: Id, now: Time)
    ensures Leased(w, Checkpoint(w, r, now), now)
  {
    hide LatestPending, TakeOverride, Takeable, Checkpoint, Leased, PutExec;
    StaysLeased(w, w, now);
    if At(w, r, Checked) {
      var p := w.execs[r].projectId;
      var ps := w.live[p];
      CheckpointCases(w, r, now);
      PhaseLeased(w, r, w.execs[r].(phase := Failing(NO_RUN)), now);
      PhaseLeased(w, r, w.execs[r].(phase := Failing(NO_TASK)), now);
      PhaseLeased(w, r, w.execs[r].(phase := Armed), now);
      if r in ps.runs.items && ps.runs.items[r].body.taskId in ps.tasks.items {
        var task := ps.tasks.items[ps.runs.items[r].body.taskId];
        var k := LatestPending(Get(w.overrides, p), task.id, now);
        if k.Some? {
          TakenLeased(w, p, task, k.value, now);
          TakenThen(w, TakeOverride(w, p, task, k.value, now), r, w.execs[r].(phase := Armed), now);
        }
      }
    } else {
      NoCheckpoint(w, r, now);
    }
  }

  lemma NoCheckpoint(w: World, r: Id, now: Time)
    requires !At(w, r, Checked)
    ensures Checkpoint(w, r, now) == w
  {
  }

  lemma StaysLeased(w: World, v: World, now: Time)
    requires SameLeases(w, v)
    ensures Leased(w, v, now)
  {
  }

  lemma PhaseLeased(w: World, r: Id, x: Executor, now: Time)
    ensures Leased(w, PutExec(w, r, x), now)
  {
    hide Leased;
    StaysLeased(w, PutExec(w, r, x), now);
  }

  lemma TakenThen(w: World, v: World, r: Id, x: Executor, now: Time)
    requires Leased(w, v, now)
    ensures Leased(w, PutExec(v, r, x), now)
  {
  }

  lemma TakenLeased(w: World, p: Id, task: Task, k: nat, now: Time)
    requires p in w.live && k < |Get(w.overrides, p)|
    ensures Leased(w, TakeOverride(w, p, task, k, now), now)
  {
    AppliedDates(Get(w.overrides, p), k, now);
    TakenFrom(w, p, task, k, now);
    hide TakeOverride, Leased, Applied, Get;
    ReplacedLeased(w, TakeOverride(w, p, task, k, now), p, Applied(Get(w.overrides, p), k, now), now);
  }

  lemma TakenFrom(w: World, p: Id, task: Task, k: nat, now: Time)
    requires p in w.live && k < |Get(w.overrides, p)|
    ensures var v := TakeOverride(w, p, task, k, now);
      v.locks == w.locks && v.overrides == w.overrides[p := Applied(Get(w.overrides, p), k, now)]
  {
    hide OVERRIDE_APPLIED, MovedOrSame, PutTask, Applied, Get;
    var v := TakeOverride(w, p, task, k, now);
    if task.body.status == HumanOverride {
      assert v == w.(overrides := v.overrides, live := v.live);
    } else {
      assert v == w.(overrides := v.overrides);
    }
  }

  lemma AppliedDates(s: seq<Override>, k: nat, now: Time)
    requires k < |s|
    ensures forall o | o in Applied(s, k, now) :: exists x :: x in s && x.body.createdAt == o.body.createdAt
  {
    var n := Applied(s, k, now);
    forall o | o in n ensures exists x :: x in s && x.body.createdAt == o.body.createdAt {
      var i :| 0 <= i < |n| && n[i] == o;
      assert s[i] in s && s[i].body.createdAt == o.body.createdAt;
    }
  }

  lemma FewerLeased(w: World, v: World, now: Time)
    requires v.locks == w.locks && v.overrides.Keys <= w.overrides.Keys
    requires forall p | p in v.overrides :: v.overrides[p] == w.overrides[p]
    ensures Leased(w, v, now)
  {
  }

  ghost predicate Fewer(w: World, v: World) {
    && v.locks == w.locks && v.overrides.Keys <= w.overrides.Keys
    && forall p | p in v.overrides :: v.overrides[p] == w.overrides[p]
  }

  lemma RollbackToFewer(w: World, p: Id, id: Id, reason: string, now: Time)
    requires p in w.live && p in w.timelines
    ensures Fewer(w, RollbackTo(w, p, id, reason, now).world)
  {
    hide FindById, Claim, Restored, RollbackBranch, Recorded, Elements;
    forall w', p' ensures SameLeases(w', Claim(w', p', 1)) {
      ClaimKeeps(w', p', 1);
    }
  }

  lemma MergeFewer(w: World, p: Id, i: MergeInput, now: Time, later: Time)
    ensures Fewer(w, Merge(w, p, i, now, later).world)
  {
    hide PickMerge, MergeContract, MergeGate;
    if p in w.live && p in w.timelines && Merge(w, p, i, now, later).refused.None? && i.ids != [] {
      GateFewer(w, p, i, SharedBox(w, p, PickMerge(w.live[p], i.ids).value.tasks, now),
                MergeContract(w.live[p], i).value, now, later);
    }
  }

  lemma GateFewer(w: World, p: Id, i: MergeInput, box: Sandbox, contract: Option<Contract>, now: Time, later: Time)
    requires p in w.live && p in w.timelines
    ensures Fewer(w, MergeGate(w, p, i, box, contract, now, later))
  {
    hide GateBlocks, GateBlocked, SharedMade, MergeUndone, MergeRecorded, Fewer;
    SharedFewer(w, p, box, Broken, MANIFEST_FAILURE, now, later);
    SharedFewer(w, p, box, Broken, SIMULATED_FAILURE, now, later);
    SharedFewer(w, p, box, Released, "", now, later);
    if contract.Some? {
      BlockedFewer(w, p, box, contract.value, now, later);
    } else {
      NoContractNoBlock(i);
    }
  }

  lemma NoContractNoBlock(i: MergeInput)
    ensures !GateBlocks(i, None)
  {
  }

  // ... and what follows the shared sandbox.
  lemma SharedFewer(w: World, p: Id, box: Sandbox, status: SandboxStatus, failure: string, now: Time, later: Time)
    requires p in w.live
    ensures var v := SharedMade(w, p, box, status, failure, now, later);
      Fewer(w, v) && Fewer(w, MergeUndone(v, p, later)) && Fewer(w, MergeRecorded(v, p, later))
  {
    hide Claim, SettleShared, AddSandbox, Touch, MergeUndone, MergeRecorded;
    ClaimKeeps(w, p, 1);
    var v := SharedMade(w, p, box, status, failure, now, later);
    UndoneFewer(v, p, later);
    RecordedFewer(v, p, later);
  }

  lemma BlockedFewer(w: World, p: Id, box: Sandbox, c: Contract, now: Time, later: Time)
    requires p in w.live
    ensures Fewer(w, GateBlocked(w, p, box, c, now, later))
  {
    hide Claim, SettleShared, AddSandbox, Touch, AddTask, ReworkTask;
    ClaimKeeps(w, p, 2);
  }

  lemma UndoneFewer(w: World, p: Id, later: Time)
    ensures Fewer(w, MergeUndone(w, p, later))
  {
    hide RollbackTo;
    if p in w.live && p in w.timelines && w.timelines[p].stable.Some? {
      RollbackToFewer(w, p, w.timelines[p].stable.value, INTEGRATION_FAILURE, later);
    }
  }

  lemma RecordedFewer(w: World, p: Id, later: Time)
    ensures Fewer(w, MergeRecorded(w, p, later))
  {
    hide Claim, Recorded;
    ClaimKeeps(w, p, 1);
  }

  lemma PutSame(w: World, p: Id, k: nat, ps: ProjectState)
    ensures SameLeases(w, Put(Claim(w, p, k), p, ps)) && SameLeases(w, w)
  {
    hide Grant;
  }

  lemma SameThen(w: World, v: World, u: World)
    requires SameLeases(w, v) && SameLeases(v, u)
    ensures SameLeases(w, u)
  {
  }

  lemma CreateSame(w: World, name: string, description: string, now: Time)
    ensures SameLeases(w, CreateProject(w, name, description, now).world)
  {
    hide Claim, TrimSpace, EmptyProject;
    ClaimKeeps(w, w.nextId, 1);
    var v := CreateProject(w, name, description, now).world;
    assert v == w.(live := v.live, timelines := v.timelines, owner := v.owner, nextId := v.nextId) by {
      ClaimIs(w, w.nextId, 1);
    }
  }

  lemma ClaimIs(w: World, p: Id, k: nat)
    ensures var v := Claim(w, p, k); v == w.(owner := v.owner, nextId := v.nextId)
  {
    hide Grant;
  }

  lemma RequirementSame(w: World, p: Id, title: string, content: string, now: Time)
    ensures SameLeases(w, Machine.AddRequirement(w, p, title, content, now).world)
  {
    hide Claim, Put, SameLeases, TrimSpace, Projects.AddRequirement;
    if p in w.live {
      PutSame(w, p, 1, Projects.AddRequirement(w.live[p], w.nextId, TrimSpace(title), TrimSpace(content), now));
    } else {
      PutSame(w, p, 1, EmptyProject(p, "", "", now));
    }
  }

  lemma PlanSame(w: World, p: Id, now: Time)
    ensures SameLeases(w, Machine.GeneratePlan(w, p, now).world)
  {
    hide Claim, Put, SameLeases, Projects.GeneratePlan;
    PutSame(w, p, 0, EmptyProject(p, "", "", now));
    if p in w.live && w.live[p].requirements != [] {
      PutSame(w, p, 2, Projects.GeneratePlan(w.live[p], w.nextId, w.nextId + 1, now));
    }
  }

  // Every other planning step stays or puts back one project.
  lemma PutsSame(w: World, p: Id, k: nat)
    ensures SameLeases(w, w)
    ensures forall ps {:trigger Put(Claim(w, p, k), p, ps)} :: SameLeases(w, Put(Claim(w, p, k), p, ps))
  {
    hide Claim, Put, SameLeases;
    forall ps ensures SameLeases(w, Put(Claim(w, p, k), p, ps)) && SameLeases(w, w) {
      PutSame(w, p, k, ps);
    }
    PutSame(w, p, k, EmptyProject(p, "", "", 0));
  }

  lemma ContractSame(w: World, p: Id, now: Time)
    ensures SameLeases(w, GenerateContract(w, p, now).world)
  {
    hide Claim, Put, SameLeases, FindById, AddContract, CV.BuildContract;
    PutsSame(w, p, 1);
  }

  lemma ContextSame(w: World, p: Id, t: Option<Id>, now: Time)
    ensures SameLeases(w, GenerateTaskContext(w, p, t, now).world)
  {
    hide Claim, Put, SameLeases, ContextFor, ResolveTask, AddContext;
    PutsSame(w, p, 1);
  }

  lemma DispatchSame(w: World, p: Id, now: Time)
    ensures SameLeases(w, DispatchTasks(w, p, now).world)
  {
    hide Claim, Put, SameLeases, Dispatched, Dispatch;
    PutsSame(w, p, 3);
  }

  lemma ValidateSame(w: World, p: Id, c: Option<Id>, endpoints: seq<Endpoint>, schemas: seq<Schema>, now: Time)
    ensures SameLeases(w, ValidateContract(w, p, c, endpoints, schemas, now).world)
  {
    hide Claim, Put, SameLeases, ResolveContract, CV.Report, Touch, AddTask, ReworkTask;
    PutsSame(w, p, 1);
  }

  lemma RetrySame(w: World, p: Id, t: Option<Id>, now: Time)
    ensures SameLeases(w, RetryTask(w, p, t, now).world)
  {
    hide Claim, Put, SameLeases, ResolveTask, Touch, AddTask, RetryOf;
    PutsSame(w, p, 1);
  }

  lemma PreviewSame(w: World, p: Id, now: Time)
    ensures SameLeases(w, StartPreview(w, p, now).world)
  {
    hide Claim, LatestShared, Touch;
    ClaimKeeps(w, p, 1);
    var v := StartPreview(w, p, now).world;
    assert v == w.(live := v.live, previews := v.previews, owner := v.owner, nextId := v.nextId) by {
      ClaimIs(w, p, 1);
    }
  }

  lemma MarkSame(w: World, p: Id, t: Option<Id>, why: string)
    ensures SameLeases(w, MarkFault(w, p, t, why).world)
  {
    hide ResolveTask, TrimSpace, SIMULATED_FAULT;
    var v := MarkFault(w, p, t, why).world;
    assert v == w.(faults := v.faults);
  }

  lemma StartSame(w: World, p: Id, t: Option<Id>, allowed: bool, made: bool, now: Time)
    ensures SameLeases(w, StartRun(w, p, t, allowed, made, now).world)
  {
    hide Claim, Put, SameLeases, ResolveTask, StartTaskRun, PutExec, RUN_STARTED;
    PutsSame(w, p, 2);
    if p in w.live && ResolveTask(w.live[p], t).Ok? {
      var task := ResolveTask(w.live[p], t).value;
      var r := StartTaskRun(w.live[p], task, w.nextId, w.nextId + 1, made, RUN_STARTED, now);
      if r.Ok? {
        var v := Put(Claim(w, p, 2), p, r.value);
        ExecsSame(v, v.execs[w.nextId + 1 := Executor(p, task.id, Spawned)]);
        ExecIs(v, w.nextId + 1, Executor(p, task.id, Spawned));
        SameThen(w, v, PutExec(v, w.nextId + 1, Executor(p, task.id, Spawned)));
      }
    }
  }

  lemma ExecsSame(w: World, execs: map<Id, Executor>)
    ensures SameLeases(w, w.(execs := execs))
  {
  }

  lemma ExecIs(w: World, r: Id, x: Executor)
    ensures PutExec(w, r, x) == w.(execs := w.execs[r := x])
  {
  }

  lemma ParallelSame(w: World, p: Id, ids: seq<Option<Id>>, allowed: bool, unmade: set<Id>, now: Time)
    ensures SameLeases(w, StartParallel(w, p, ids, allowed, unmade, now).world)
  {
    hide Claim, Put, SameLeases, Pick, StartEach, Spawn, PARALLEL_STARTED;
    PutsSame(w, p, 0);
    if p in w.live && Pick(w.live[p], ids).Ok? {
      var b := StartEach(w.live[p], Pick(w.live[p], ids).value.selected, unmade, w.nextId, PARALLEL_STARTED, now);
      var v := Put(Claim(w, p, b.next - w.nextId), p, b.ps);
      PutSame(w, p, b.next - w.nextId, b.ps);
      ExecsSame(v, Spawn(w.execs, b.ps, p, b.runs));
      SameThen(w, v, v.(execs := Spawn(w.execs, b.ps, p, b.runs)));
    }
  }

  lemma PrepareSame(w: World, r: Id)
    ensures SameLeases(w, Prepare(w, r))
  {
    hide PreparedBy;
  }

  lemma CheckFaultSame(w: World, r: Id)
    ensures SameLeases(w, CheckFault(w, r))
  {
    hide TrimSpace;
    if At(w, r, Prepared) {
      var v := CheckFault(w, r);
      assert v == w.(faults := v.faults, execs := v.execs);
    }
  }

  lemma BreakSame(w: World, r: Id, failure: string)
    ensures SameLeases(w, Break(w, r, failure))
  {
  }

  lemma CompleteSame(w: World, r: Id, uri: string, usage: Usage, summary: string, now: Time)
    ensures SameLeases(w, Complete(w, r, uri, usage, summary, now))
  {
    hide Claim, Projects.CompleteRun, At;
    if At(w, r, Armed) {
      ExecutorThere(w, r);
      ClaimKeeps(w, w.execs[r].projectId, 1);
    }
  }

  lemma ExecutorThere(w: World, r: Id)
    ensures At(w, r, Armed) ==> r in w.execs
  {
  }

  lemma FailSame(w: World, r: Id, usage: Usage, now: Time)
    ensures SameLeases(w, Fail(w, r, usage, now))
  {
    hide FailRun;
  }

  lemma SameStamped(w: World, v: World, bound: Time)
    requires Stamped(w, bound) && (SameLeases(w, v) || Fewer(w, v))
    ensures Stamped(v, bound)
  {
  }

  // ----- Every step ---------------------------------------------------------------------

  predicate Plans(e: Event) {
    e.EvCreateProject? || e.EvAddRequirement? || e.EvGeneratePlan? || e.EvGenerateContract? || e.EvGenerateTaskContext?
    || e.EvDispatchTasks? || e.EvValidateContract? || e.EvRetryTask? || e.EvMarkFault? || e.EvStartPreview?
  }

  lemma PlansSame(w: World, e: Event)
    requires Plans(e)
    ensures SameLeases(w, Step(w, e))
  {
    hide CreateProject, Machine.AddRequirement, Machine.GeneratePlan, GenerateContract, GenerateTaskContext,
      DispatchTasks, ValidateContract, RetryTask, MarkFault, ApplyHumanOverride, ApplyCodeLock, StartRun, StartParallel,
      Checkpoint, Complete, Fail, Merge, Rollback, StartPreview, Prepare, CheckFault, Break, SameLeases, Fewer, Leased,
      Stamped;
    match e
    case EvCreateProject(name, description, now) => CreateSame(w, name, description, now);
    case EvAddRequirement(p, title, content, now) => RequirementSame(w, p, title, content, now);
    case EvGeneratePlan(p, now) => PlanSame(w, p, now);
    case EvGenerateContract(p, now) => ContractSame(w, p, now);
    case EvGenerateTaskContext(p, t, now) => ContextSame(w, p, t, now);
    case EvDispatchTasks(p, now) => DispatchSame(w, p, now);
    case EvValidateContract(p, c, endpoints, schemas, now) => ValidateSame(w, p, c, endpoints, schemas, now);
    case EvRetryTask(p, t, now) => RetrySame(w, p, t, now);
    case EvMarkFault(p, t, reason) => MarkSame(w, p, t, reason);
    case EvStartPreview(p, now) => PreviewSame(w, p, now);
    case _ =>
  }

  lemma RollbackFewer(w: World, p: Id, id: Option<Id>, reason: string, now: Time)
    ensures Fewer(w, Rollback(w, p, id, reason, now).world)
  {
    hide RollbackTo, TrimSpace;
    if p in w.live && p in w.timelines && id.Some? {
      RollbackToFewer(w, p, id.value, if TrimSpace(reason) == "" then MANUAL_ROLLBACK else TrimSpace(reason), now);
    }
  }

  predicate Admits(e: Event) {
    e.EvApplyHumanOverride? || e.EvApplyCodeLock? || e.EvCheckpoint?
  }

  lemma AdmitsLeased(w: World, e: Event)
    requires Admits(e)
    ensures Leased(w, Step(w, e), e.now)
  {
    hide CreateProject, Machine.AddRequirement, Machine.GeneratePlan, GenerateContract, GenerateTaskContext,
      DispatchTasks, ValidateContract, RetryTask, MarkFault, ApplyHumanOverride, ApplyCodeLock, StartRun, StartParallel,
      Checkpoint, Complete, Fail, Merge, Rollback, StartPreview, Prepare, CheckFault, Break, SameLeases, Fewer, Leased,
      Stamped;
    match e
    case EvApplyHumanOverride(p, i, now) => OverrideLeased(w, p, i, now);
    case EvApplyCodeLock(p, i, now) => LockLeased(w, p, i, now);
    case EvCheckpoint(r, now) => CheckpointLeased(w, r, now);
    case _ =>
  }

  lemma OthersSame(w: World, e: Event)
    requires !Plans(e) && !Admits(e)
    ensures SameLeases(w, Step(w, e)) || Fewer(w, Step(w, e))
  {
    hide CreateProject, Machine.AddRequirement, Machine.GeneratePlan, GenerateContract, GenerateTaskContext,
      DispatchTasks, ValidateContract, RetryTask, MarkFault, ApplyHumanOverride, ApplyCodeLock, StartRun, StartParallel,
      Checkpoint, Complete, Fail, Merge, Rollback, StartPreview, Prepare, CheckFault, Break, SameLeases, Fewer, Leased,
      Stamped;
    match e
    case EvStartRun(p, t, allowed, made, now) => StartSame(w, p, t, allowed, made, now);
    case EvStartParallel(p, ids, allowed, unmade, now) => ParallelSame(w, p, ids, allowed, unmade, now);
    case EvMerge(p, i, now, later) => MergeFewer(w, p, i, now, later);
    case EvRollback(p, id, reason, now) => RollbackFewer(w, p, id, reason, now);
    case EvPrepare(r) => PrepareSame(w, r);
    case EvCheckFault(r) => CheckFaultSame(w, r);
    case EvBreak(r, failure) => BreakSame(w, r, failure);
    case EvComplete(r, uri, usage, summary, now) => CompleteSame(w, r, uri, usage, summary, now);
    case EvFail(r, usage, now) => FailSame(w, r, usage, now);
    case _ =>
  }

  lemma StepStamped(w: World, e: Event, bound: Time)
    requires Stamped(w, bound) && NoLater(e, bound)
    ensures Stamped(Step(w, e), bound)
  {
    hide Step, SameLeases, Fewer, Leased, Stamped;
    if Plans(e) {
      PlansSame(w, e);
      SameStamped(w, Step(w, e), bound);
    } else if Admits(e) {
      AdmitsLeased(w, e);
      LeasedStamped(w, Step(w, e), e.now, bound);
    } else {
      OthersSame(w, e);
      SameStamped(w, Step(w, e), bound);
    }
  }

  lemma {:induction false} RunStamped(events: seq<Event>, bound: Time)
    requires forall i | 0 <= i < |events| :: NoLater(events[i], bound)
    ensures Stamped(After(Init(), events), bound)
  {
    hide Step;
    if events == [] {
    } else {
      var n := |events| - 1;
      forall i | 0 <= i < n ensures NoLater(events[..n][i], bound) {
        assert events[..n][i] == events[i];
      }
      RunStamped(events[..n], bound);
      StepStamped(After(Init(), events[..n]), events[n], bound);
    }
  }

  // At any time since the last reading of the clock, no lease is from the future.
  lemma LeasesFromThePast(events: seq<Event>, now: Time)
    requires Timely(events) && (Latest(events).Some? ==> Latest(events).value <= now)
    ensures Stamped(After(Init(), events), now)
  {
    LatestBounds(events, now);
    RunStamped(events, now);
  }

  // At one time the leases in force on one scope have one owner.
  ghost predicate OneHolderAt(s: seq<Lease>, now: Time) {
    forall i, j | 0 <= i < |s| && 0 <= j < |s| && s[i].scope == s[j].scope && Holds(s[i], now) && Holds(s[j], now) ::
      s[i].owner == s[j].owner
  }

  // So in every reachable state, read no earlier than its last step, code locks and pending
  // overrides exclude each other scope by scope ...
  lemma LeasesExclusiveNow(events: seq<Event>, p: Id, now: Time)
    requires Timely(events) && (Latest(events).Some? ==> Latest(events).value <= now)
    ensures OneHolderAt(LockLeases(Get(After(Init(), events).locks, p)), now)
    ensures OneHolderAt(OverrideLeases(Get(After(Init(), events).overrides, p)), now)
  {
    LeasesFromThePast(events, now);
    Theorems.LeasesExclusive(events, p);
    hide After, Timely, Latest, LockKey, LockOwner, OverrideOwner, ScopeName, Holds;
  }

  // ... and the overlay of the locks finds no two owners on one scope.
  lemma OwnersAgreeNow(events: seq<Event>, p: Id, taskId: Id, now: Time)
    requires Timely(events) && (Latest(events).Some? ==> Latest(events).value <= now)
    ensures Overlay.OwnerNotes(Get(After(Init(), events).locks, p), taskId, now) == []
  {
    LeasesFromThePast(events, now);
    hide After, Timely, Latest;
    Overlay.OwnersAgreeEverywhere(events, p, taskId, now);
  }
}
