// Steps work on one project and lose nothing that is stored.
module Isolation {
  import opened Records
  import opened Domain
  import opened Text
  import opened Projects
  import opened ProjectProofs
  import opened Leases
  import opened Machine
  import opened MachineProofs

  // ----- Isolation of projects ----------------------------------------------------------

  // The project an event works on.
  function Subject(w: World, e: Event): Id {
    match e
    case EvCreateProject(_, _, _) => w.nextId
    case EvAddRequirement(p, _, _, _) => p
    case EvGeneratePlan(p, _) => p
    case EvGenerateContract(p, _) => p
    case EvGenerateTaskContext(p, _, _) => p
    case EvDispatchTasks(p, _) => p
    case EvValidateContract(p, _, _, _, _) => p
    case EvRetryTask(p, _, _) => p
    case EvMarkFault(p, _, _) => p
    case EvApplyHumanOverride(p, _, _) => p
    case EvApplyCodeLock(p, _, _) => p
    case EvStartRun(p, _, _, _, _) => p
    case EvStartParallel(p, _, _, _, _) => p
    case EvMerge(p, _, _, _) => p
    case EvRollback(p, _, _, _) => p
    case EvStartPreview(p, _) => p
    case EvPrepare(r) => Home(w, r)
    case EvCheckFault(r) => Home(w, r)
    case EvCheckpoint(r, _) => Home(w, r)
    case EvBreak(r, _) => Home(w, r)
    case EvComplete(r, _, _, _, _) => Home(w, r)
    case EvFail(r, _, _) => Home(w, r)
  }

  function Home(w: World, r: Id): Id {
    if r in w.execs then w.execs[r].projectId else w.nextId
  }

  // Everything about project q is as it was.
  ghost predicate SameProject(w: World, v: World, q: Id) {
    && (q in v.live <==> q in w.live) && (q in w.live ==> v.live[q] == w.live[q])
    && (q in v.timelines <==> q in w.timelines) && (q in w.timelines ==> v.timelines[q] == w.timelines[q])
    && Get(v.overrides, q) == Get(w.overrides, q) && Get(v.locks, q) == Get(w.locks, q)
    && Get(v.queue, q) == Get(w.queue, q) && Get(v.previews, q) == Get(w.previews, q)
    && (forall r | r in w.execs && w.execs[r].projectId == q :: r in v.execs && v.execs[r] == w.execs[r])
    && (forall r | r in v.execs && v.execs[r].projectId == q :: r in w.execs && v.execs[r] == w.execs[r])
    && (forall t | t in w.owner && w.owner[t] == q ::
          (t in v.faults <==> t in w.faults) && (t in w.faults ==> v.faults[t] == w.faults[t]))
  }

  // Stored snapshot states are never changed or dropped.
  ghost predicate StatesKept(w: World, v: World) {
    forall s | s in w.states :: s in v.states && v.states[s] == w.states[s]
  }

  ghost predicate Grown(w: World, v: World) {
    && StatesKept(w, v)
    && (forall q | q in w.timelines :: q in v.timelines && w.timelines[q].snapshots <= v.timelines[q].snapshots)
    && w.nextId <= v.nextId && (forall i | i in w.owner :: i in v.owner && v.owner[i] == w.owner[i])
  }

  // v differs from w only in project p, and nothing stored is lost.
  ghost predicate Only(w: World, v: World, p: Id) {
    Grown(w, v) && forall q | q != p :: SameProject(w, v, q)
  }

  lemma ClaimOnly(w: World, p: Id, k: nat)
    requires Inv(w)
    ensures Only(w, Claim(w, p, k), p)
  {
    hide StatesOk, TimelinesOk, LeasesOk, ExecOk;
  }

  lemma PutOnly(w: World, p: Id, ps: ProjectState, k: nat)
    requires Inv(w)
    ensures Only(w, Put(Claim(w, p, k), p, ps), p)
  {
    hide StatesOk, TimelinesOk, LeasesOk, ExecOk;
  }

  lemma OnlyTrans(w: World, v: World, u: World, p: Id)
    requires Only(w, v, p) && Only(v, u, p)
    ensures Only(w, u, p)
  {
    forall q | q in w.timelines ensures q in u.timelines && w.timelines[q].snapshots <= u.timelines[q].snapshots {
      assert v.timelines[q].snapshots <= u.timelines[q].snapshots;
    }
    forall q | q != p ensures SameProject(w, u, q) {
      assert SameProject(w, v, q) && SameProject(v, u, q);
    }
  }

  lemma PreviewOnly(w: World, p: Id, now: Time)
    requires Inv(w)
    ensures Only(w, StartPreview(w, p, now).world, p)
  {
    hide Only, Inv, Put, Claim, LatestShared, Touch;
    SelfOnly(w, p);
    if p in w.live {
      PutOnly(w, p, Touch(w.live[p], now), 1);
      var v := Put(Claim(w, p, 1), p, Touch(w.live[p], now));
      var r := StartPreview(w, p, now);
      if r.refused.None? {
        PreviewsOnly(v, p, r.world.previews[p]);
        OnlyTrans(w, v, r.world, p);
      }
    }
  }

  lemma PreviewsOnly(w: World, p: Id, s: seq<Preview>)
    ensures Only(w, w.(previews := w.previews[p := s]), p)
  {
  }

  lemma QueueOnly(w: World, p: Id, s: seq<QueueEntry>)
    ensures Only(w, w.(queue := w.queue[p := s]), p)
  {
  }

  lemma EnqueueOnly(w: World, p: Id, scope: string, resourceId: Id, requested: string, current: string, now: Time)
    requires Inv(w)
    ensures Only(w, Enqueue(w, p, scope, resourceId, requested, current, now), p)
  {
    hide Inv, Only, Claim;
    ClaimOnly(w, p, 1);
    var v := Claim(w, p, 1);
    QueueOnly(v, p,
              Get(v.queue, p) + [Record(w.nextId, p, QueueBody(scope, resourceId, requested, current, true, now))]);
    OnlyTrans(w, v, Enqueue(w, p, scope, resourceId, requested, current, now), p);
  }

  lemma PlanningOnly(w: World, p: Id, title: string, content: string, taskId: Option<Id>, now: Time)
    requires Inv(w)
    ensures Only(w, Machine.AddRequirement(w, p, title, content, now).world, p)
    ensures Only(w, Machine.GeneratePlan(w, p, now).world, p)
    ensures Only(w, GenerateContract(w, p, now).world, p)
    ensures Only(w, GenerateTaskContext(w, p, taskId, now).world, p)
    ensures Only(w, DispatchTasks(w, p, now).world, p)
    ensures Only(w, RetryTask(w, p, taskId, now).world, p)
  {
    hide Only, Inv, Put, Claim, Projects.AddRequirement, Projects.GeneratePlan, AddContract, AddContext, Dispatch,
      RetryOf, ResolveTask, FindById, TaskContract, Dispatched;
    forall ps, k: nat ensures Only(w, Put(Claim(w, p, k), p, ps), p) {
      PutOnly(w, p, ps, k);
    }
    SelfOnly(w, p);
  }

  lemma SelfOnly(w: World, p: Id)
    ensures Only(w, w, p)
  {
  }

  lemma LivePutOnly(w: World, p: Id, ps: ProjectState)
    ensures Only(w, Put(w, p, ps), p)
  {
  }

  lemma LocksOnly(w: World, p: Id, s: seq<CodeLock>)
    ensures Only(w, w.(locks := w.locks[p := s]), p)
  {
  }

  lemma OverridesOnly(w: World, p: Id, s: seq<Override>)
    ensures Only(w, w.(overrides := w.overrides[p := s]), p)
  {
  }

  lemma QueuedOnly(w: World, v: World, p: Id, scope: string, resourceId: Id, requested: string, current: string,
                   ps: ProjectState, now: Time)
    requires Inv(w) && Inv(v) && Only(w, v, p)
    ensures Only(w, Put(Enqueue(v, p, scope, resourceId, requested, current, now), p, ps), p)
  {
    hide Only, Inv, Enqueue, Put;
    var u := Enqueue(v, p, scope, resourceId, requested, current, now);
    EnqueueOnly(v, p, scope, resourceId, requested, current, now);
    LivePutOnly(u, p, ps);
    OnlyTrans(w, v, u, p);
    OnlyTrans(w, u, Put(u, p, ps), p);
  }

  lemma AdmitLockOnly(w: World, p: Id, l: CodeLock, now: Time)
    requires Inv(w) && p in w.live
    ensures Only(w, AdmitLock(w, p, l, now).world, p)
  {
    hide Only, Inv, FirstClash, LockKey, LockOwner, LockLease, Enqueue, Claim, Touch;
    var s := Get(w.locks, p);
    var clash := FirstClash(LockLeases(s), LockScope(LockKey(l.body)), LockOwner(l.body), now);
    ClaimOnly(w, p, 1);
    ClaimOk(w, p, 1);
    if clash.Some? {
      QueuedOnly(w, Claim(w, p, 1), p, LockKey(l.body), s[clash.value].id, LockOwner(l.body),
                 LockOwner(s[clash.value].body), Touch(w.live[p], now), now);
    } else {
      var v := Put(Claim(w, p, 1), p, Touch(w.live[p], now));
      PutOnly(w, p, Touch(w.live[p], now), 1);
      LocksOnly(v, p, s + [l]);
      OnlyTrans(w, v, v.(locks := v.locks[p := s + [l]]), p);
    }
  }

  lemma LockOnly(w: World, p: Id, i: LockInput, now: Time)
    requires Inv(w)
    ensures Only(w, ApplyCodeLock(w, p, i, now).world, p)
  {
    hide Only, Inv, LockInputOk, LockOf, ResolveTask, AdmitLock;
    SelfOnly(w, p);
    if p in w.live {
      AdmitLockOnly(w, p, LockOf(w.nextId, p, i, now), now);
    }
  }

  lemma AdmitOverrideOnly(w: World, p: Id, t: Task, o: Override, now: Time)
    requires Inv(w) && p in w.live
    ensures Only(w, AdmitOverride(w, p, t, o, now).world, p)
  {
    hide Only, Inv, FirstClash, OverrideOwner, ScopeName, Enqueue, Claim, Touch, PutTask, MovedOrSame;
    var s, l := Get(w.overrides, p), OverrideLease(o.body);
    var clash := FirstClash(OverrideLeases(s), l.scope, o.body.owner, now);
    if clash.Some? {
      SelfOnly(w, p);
      QueuedOnly(w, w, p, l.scope.name, s[clash.value].id, o.body.owner, OverrideOwner(s[clash.value].body),
                 Touch(w.live[p], now), now);
    } else {
      var moved := MovedOrSame(t.body, HumanOverride, OVERRIDE_REQUESTED + o.body.operator, now);
      var ps := Touch(PutTask(w.live[p], t.(body := moved)), now);
      var v := Put(Claim(w, p, 1), p, ps);
      PutOnly(w, p, ps, 1);
      OverridesOnly(v, p, s + [o]);
      OnlyTrans(w, v, v.(overrides := v.overrides[p := s + [o]]), p);
    }
  }

  lemma OverrideOnly(w: World, p: Id, i: OverrideInput, now: Time)
    requires Inv(w)
    ensures Only(w, ApplyHumanOverride(w, p, i, now).world, p)
  {
    hide Only, Inv, OverrideInputOk, OverrideMetaOk, OverrideOf, ResolveTask, AdmitOverride;
    SelfOnly(w, p);
    if p in w.live && ResolveTask(w.live[p], i.taskId).Ok? {
      var t := ResolveTask(w.live[p], i.taskId).value;
      AdmitOverrideOnly(w, p, t, OverrideOf(w.nextId, p, t.id, i, now), now);
    }
  }

  lemma FaultOnly(w: World, p: Id, taskId: Option<Id>, reason: string)
    requires Inv(w)
    ensures Only(w, MarkFault(w, p, taskId, reason).world, p)
  {
    hide Inv, Only, ProjectOk, ResolveTask, TrimSpace, SIMULATED_FAULT;
    SelfOnly(w, p);
    if p in w.live && ResolveTask(w.live[p], taskId).Ok? {
      LiveOk(w, p);
      TaskResolved(w.live[p], taskId, p);
      var t := ResolveTask(w.live[p], taskId).value;
      var v := MarkFault(w, p, taskId, reason).world;
      TaskOwned(w, p, t.id);
      FaultsOnly(w, p, t.id, v.faults[t.id]);
      assert v == w.(faults := w.faults[t.id := v.faults[t.id]]);
    }
  }

  lemma FaultsOnly(w: World, p: Id, t: Id, why: string)
    requires t in w.owner && w.owner[t] == p
    ensures Only(w, w.(faults := w.faults[t := why]), p)
  {
  }

  lemma ExecsBelow(w: World)
    requires Inv(w)
    ensures forall r | r in w.execs :: r < w.nextId
  {
    forall r | r in w.execs ensures r < w.nextId {
      assert ExecOk(w, r);
    }
  }

  lemma ExecsOnly(w: World, r: Id, x: Executor, p: Id)
    requires x.projectId == p && (r in w.execs ==> w.execs[r].projectId == p)
    ensures Only(w, PutExec(w, r, x), p)
    ensures Only(w, DropExec(w, r), p)
  {
    hide Only;
    ExecPutOnly(w, r, x, p);
    ExecDropOnly(w, r, p);
  }

  lemma ExecPutOnly(w: World, r: Id, x: Executor, p: Id)
    requires x.projectId == p && (r in w.execs ==> w.execs[r].projectId == p)
    ensures Only(w, PutExec(w, r, x), p)
  {
  }

  lemma ExecDropOnly(w: World, r: Id, p: Id)
    requires r in w.execs ==> w.execs[r].projectId == p
    ensures Only(w, DropExec(w, r), p)
  {
  }

  lemma StartRunOnly(w: World, p: Id, taskId: Option<Id>, allowed: bool, made: bool, now: Time)
    requires Inv(w)
    ensures Only(w, StartRun(w, p, taskId, allowed, made, now).world, p)
  {
    hide Only, Inv, StartTaskRun, ResolveTask;
    SelfOnly(w, p);
    ExecsBelow(w);
    forall ps, k: nat ensures Only(w, Put(Claim(w, p, k), p, ps), p) {
      PutOnly(w, p, ps, k);
    }
    forall ps, t ensures Only(w, PutExec(Put(Claim(w, p, 2), p, ps), w.nextId + 1, Executor(p, t, Spawned)), p) {
      var w1 := Put(Claim(w, p, 2), p, ps);
      PutOnly(w, p, ps, 2);
      ExecsOnly(w1, w.nextId + 1, Executor(p, t, Spawned), p);
      OnlyTrans(w, w1, PutExec(w1, w.nextId + 1, Executor(p, t, Spawned)), p);
    }
  }

  lemma StartParallelOnly(w: World, p: Id, ids: seq<Option<Id>>, allowed: bool, unmade: set<Id>, now: Time)
    requires Inv(w)
    ensures Only(w, StartParallel(w, p, ids, allowed, unmade, now).world, p)
  {
    hide Only, Inv, StartEach, Pick, ProjectOk, PARALLEL_STARTED, Spawn, Claim;
    SelfOnly(w, p);
    ExecsBelow(w);
    if p in w.live && Pick(w.live[p], ids).Ok? {
      var picked := Pick(w.live[p], ids).value.selected;
      var b := StartEach(w.live[p], picked, unmade, w.nextId, PARALLEL_STARTED, now);
      LiveOk(w, p);
      LiveBelow(w, p);
      StartEachOk(w.live[p], picked, unmade, w.nextId, PARALLEL_STARTED, now, p);
      PutOnly(w, p, b.ps, b.next - w.nextId);
      var w1 := Put(Claim(w, p, b.next - w.nextId), p, b.ps);
      ClaimedStates(w, p, b.next - w.nextId, b.ps);
      SpawnedOnly(w, w1, p, b.ps, b.runs);
    }
  }

  lemma SpawnedOnly(w: World, v: World, p: Id, ps: ProjectState, runs: seq<Id>)
    requires Only(w, v, p) && v.execs == w.execs && forall r | r in w.execs :: r < w.nextId
    requires forall r | r in runs :: r >= w.nextId
    ensures Only(w, v.(execs := Spawn(w.execs, ps, p, runs)), p)
  {
    forall q | q != p ensures SameProject(w, v.(execs := Spawn(w.execs, ps, p, runs)), q) {
      assert SameProject(w, v, q);
    }
  }

  lemma NextOnly(w: World, r: Id, phase: Phase)
    requires r in w.execs
    ensures Only(w, Machine.Next(w, r, phase), w.execs[r].projectId)
  {
  }

  lemma PrepareOnly(w: World, r: Id)
    requires Inv(w) && r in w.execs
    ensures Only(w, Prepare(w, r), w.execs[r].projectId)
  {
    hide Only, Inv, PreparedBy;
    var p := w.execs[r].projectId;
    SelfOnly(w, p);
    if p in w.live {
      ExecRun(w, r);
      PreparedKeeps(w.execs[r], w.live[p], r);
      ExecsOnly(w, r, PreparedBy(w.execs[r], w.live[p], r), p);
    }
  }

  lemma CompleteOnly(w: World, r: Id, uri: string, usage: Usage, summary: string, now: Time)
    requires Inv(w) && r in w.execs
    ensures Only(w, Complete(w, r, uri, usage, summary, now), w.execs[r].projectId)
  {
    hide Only, Inv, Projects.CompleteRun;
    var p := w.execs[r].projectId;
    SelfOnly(w, p);
    if At(w, r, Armed) {
      var ps := Projects.CompleteRun(w.live[p], r, w.execs[r].taskId, w.nextId, uri, usage, summary, now);
      var w1 := Put(Claim(w, p, 1), p, ps);
      PutOnly(w, p, ps, 1);
      ExecsOnly(w1, r, w.execs[r], p);
      OnlyTrans(w, w1, DropExec(w1, r), p);
    }
  }

  lemma FailOnly(w: World, r: Id, usage: Usage, now: Time)
    requires Inv(w) && r in w.execs
    ensures Only(w, Fail(w, r, usage, now), w.execs[r].projectId)
  {
    hide Only, Inv, FailRun;
    var p := w.execs[r].projectId;
    SelfOnly(w, p);
    if w.execs[r].phase.Failing? && p in w.live {
      var ps := FailRun(w.live[p], r, w.execs[r].phase.failure, usage, now);
      LivePutOnly(w, p, ps);
      ExecsOnly(Put(w, p, ps), r, w.execs[r], p);
      OnlyTrans(w, Put(w, p, ps), DropExec(Put(w, p, ps), r), p);
    }
  }

  lemma FaultDropOnly(w: World, p: Id, t: Id)
    requires t in w.owner && w.owner[t] == p
    ensures Only(w, w.(faults := w.faults - {t}), p)
  {
  }

  lemma CheckFaultOnly(w: World, r: Id)
    requires Inv(w) && r in w.execs
    ensures Only(w, CheckFault(w, r), w.execs[r].projectId)
  {
    hide Only, StatesOk, TimelinesOk, LeasesOk;
    assert ExecOk(w, r);
    var p, t := w.execs[r].projectId, w.execs[r].taskId;
    SelfOnly(w, p);
    NextOnly(w, r, Checked);
    if At(w, r, Prepared) && t in w.faults {
      var w1 := w.(faults := w.faults - {t});
      FaultDropOnly(w, p, t);
      NextOnly(w1, r, Failing(TrimSpace(w.faults[t])));
      OnlyTrans(w, w1, Machine.Next(w1, r, Failing(TrimSpace(w.faults[t]))), p);
    }
  }

  lemma CheckpointOnly(w: World, r: Id, now: Time)
    requires Inv(w) && r in w.execs
    ensures Only(w, Checkpoint(w, r, now), w.execs[r].projectId)
  {
    hide Only, Inv, LatestPending, TakeOverride;
    var p := w.execs[r].projectId;
    SelfOnly(w, p);
    forall phase ensures Only(w, Machine.Next(w, r, phase), p) {
      NextOnly(w, r, phase);
    }
    if At(w, r, Checked) && r in w.live[p].runs.items && w.live[p].runs.items[r].body.taskId in w.live[p].tasks.items {
      var task := w.live[p].tasks.items[w.live[p].runs.items[r].body.taskId];
      var k := LatestPending(Get(w.overrides, p), task.id, now);
      if k.Some? {
        TakenOnly(w, r, task, k.value, now);
      }
    }
  }

  lemma TakenOnly(w: World, r: Id, task: Task, k: nat, now: Time)
    requires Inv(w) && r in w.execs && w.execs[r].projectId in w.live && k < |Get(w.overrides, w.execs[r].projectId)|
    ensures var p := w.execs[r].projectId;
      Only(w, PutExec(TakeOverride(w, p, task, k, now), r, w.execs[r].(phase := Armed)), p)
  {
    hide Only, Inv, MovedOrSame;
    var p := w.execs[r].projectId;
    var w0 := w.(overrides := w.overrides[p := Applied(Get(w.overrides, p), k, now)]);
    OverridesOnly(w, p, Applied(Get(w.overrides, p), k, now));
    var w1 := TakeOverride(w, p, task, k, now);
    if task.body.status == HumanOverride {
      LivePutOnly(w0, p, w1.live[p]);
      OnlyTrans(w, w0, w1, p);
    }
    ExecsOnly(w1, r, w.execs[r].(phase := Armed), p);
    OnlyTrans(w, w1, PutExec(w1, r, w.execs[r].(phase := Armed)), p);
  }

  lemma BreakOnly(w: World, r: Id, failure: string)
    requires r in w.execs
    ensures Only(w, Break(w, r, failure), w.execs[r].projectId)
  {
    hide Only;
    SelfOnly(w, w.execs[r].projectId);
    NextOnly(w, r, Failing(failure));
  }

  lemma AddSnapshotOnly(w: World, p: Id, snap: Snapshot)
    requires Inv(w) && p in w.live && p in w.timelines && snap.id == w.nextId
    ensures Only(w, AddSnapshot(w, p, snap), p)
  {
    hide ProjectOk, StateOk, TimelineOk, LeasesOk, ExecOk;
  }

  lemma RestoreOnly(w: World, p: Id, s: Id, now: Time)
    requires Inv(w) && p in w.live && p in w.timelines && s in w.states
    ensures var tl := w.timelines[p].(branchSeq := w.timelines[p].branchSeq + 1);
      Only(w, RestoreProject(w.(timelines := w.timelines[p := tl]), p, w.states[s], now), p)
  {
    hide TimelinesOk, LeasesOk, ExecOk, ProjectOk, StatesOk, Restored;
    LiveOk(w, p);
    OrderOwned(w, p);
  }

  lemma OrderOwned(w: World, p: Id)
    requires Inv(w) && p in w.live
    ensures forall t | t in w.live[p].tasks.order :: t in w.owner && w.owner[t] == p
  {
    hide TimelinesOk, LeasesOk, ExecOk;
    LiveOk(w, p);
    forall t | t in w.live[p].tasks.order ensures t in w.owner && w.owner[t] == p {
      assert t in w.live[p].tasks.items;
      TaskOwned(w, p, t);
    }
  }

  lemma RollbackToOnly(w: World, p: Id, id: Id, reason: string, now: Time)
    requires Inv(w) && p in w.live && p in w.timelines
    ensures Only(w, RollbackTo(w, p, id, reason, now).world, p)
  {
    hide Only, Inv, RestoreProject, FindById, AddSnapshot;
    SelfOnly(w, p);
    var tl := w.timelines[p];
    var found := FindById(tl.snapshots, id);
    if found.Some? && id in w.states {
      var w0 := w.(timelines := w.timelines[p := tl.(branchSeq := tl.branchSeq + 1)]);
      TimelineOf(w, p);
      SnapshotFound(tl, p, w.owner, w.states, id);
      BranchSeqOk(w, p);
      RestoreProjectOk(w0, p, id, now);
      RestoreKeeps(w0, p, id, now);
      RestoreOnly(w, p, id, now);
      var w1 := RestoreProject(w0, p, w.states[id], now);
      var b := RollbackBranch(tl, found.value.body.branch);
      var snap := Record(w1.nextId, p,
                         SnapshotBody(if TrimSpace(b) == "" then CurrentBranch(w1.timelines[p]) else b, Some(id),
                                      TrimSpace(reason), found.value.body.stable, now));
      AddSnapshotOnly(w1, p, snap);
      OnlyTrans(w, w1, AddSnapshot(w1, p, snap), p);
    }
  }

  lemma RollbackOnly(w: World, p: Id, id: Option<Id>, reason: string, now: Time)
    requires Inv(w)
    ensures Only(w, Rollback(w, p, id, reason, now).world, p)
  {
    hide Only, Inv, RollbackTo;
    SelfOnly(w, p);
    if p in w.live && p in w.timelines && id.Some? {
      RollbackToOnly(w, p, id.value, if TrimSpace(reason) == "" then MANUAL_ROLLBACK else TrimSpace(reason), now);
    }
  }

  lemma MergeUndoneOnly(w: World, p: Id, later: Time)
    requires Inv(w) && p in w.live && p in w.timelines
    ensures Only(w, MergeUndone(w, p, later), p)
  {
    hide Only, Inv, RollbackTo;
    SelfOnly(w, p);
    if w.timelines[p].stable.Some? {
      RollbackToOnly(w, p, w.timelines[p].stable.value, INTEGRATION_FAILURE, later);
    }
  }

  lemma MergeRecordedOnly(w: World, p: Id, later: Time)
    requires Inv(w) && p in w.live && p in w.timelines
    ensures Only(w, MergeRecorded(w, p, later), p)
  {
    hide Only, Inv, AddSnapshot;
    var tl, b := w.timelines[p], CurrentBranch(w.timelines[p]);
    AddSnapshotOnly(w, p,
                    Record(w.nextId, p,
                           SnapshotBody(if TrimSpace(b) == "" then CurrentBranch(tl) else b, LatestSnapshot(tl),
                                        TrimSpace(MERGE_CHECKPOINT), true, later)));
  }

  lemma MergeOnly(w: World, p: Id, i: MergeInput, now: Time, later: Time)
    requires Inv(w)
    ensures Only(w, Merge(w, p, i, now, later).world, p)
  {
    hide Only, Inv, PickMerge, MergeContract, GateBlocks, SharedMade, MergeUndone, MergeRecorded, GateBlocked;
    SelfOnly(w, p);
    if p in w.live && p in w.timelines && PickMerge(w.live[p], i.ids).Ok? && MergeContract(w.live[p], i).Ok? {
      var box := SharedBox(w, p, PickMerge(w.live[p], i.ids).value.tasks, now);
      SharedThen(w, p, box, Broken, MANIFEST_FAILURE, now, later);
      SharedThen(w, p, box, Broken, SIMULATED_FAILURE, now, later);
      SharedThen(w, p, box, Released, "", now, later);
      if GateBlocks(i, MergeContract(w.live[p], i).value) {
        GateHasContract(i, MergeContract(w.live[p], i).value);
        BlockedOnly(w, p, box, MergeContract(w.live[p], i).value.value, now, later);
      }
    }
  }

  lemma BlockedOnly(w: World, p: Id, box: Sandbox, c: Contract, now: Time, later: Time)
    requires Inv(w) && p in w.live
    ensures Only(w, GateBlocked(w, p, box, c, now, later), p)
  {
    hide Only, Inv, SettleShared, ReworkTask;
    PutOnly(w, p, GateBlocked(w, p, box, c, now, later).live[p], 2);
  }

  lemma SharedThen(w: World, p: Id, box: Sandbox, status: SandboxStatus, failure: string, now: Time, later: Time)
    requires Inv(w) && p in w.live && p in w.timelines && box.projectId == p && box.id == w.nextId
    requires box.body.scope == Shared
    ensures var w1 := SharedMade(w, p, box, status, failure, now, later);
      && p in w1.live && p in w1.timelines && Only(w, w1, p) && Only(w, MergeUndone(w1, p, later), p)
      && Only(w, MergeRecorded(w1, p, later), p)
  {
    hide Only, Inv, SettleShared, MergeUndone, MergeRecorded;
    var w1 := SharedMade(w, p, box, status, failure, now, later);
    SharedStep(w, p, box, status, failure, now, later);
    PutOnly(w, p, w1.live[p], 1);
    MergeUndoneOnly(w1, p, later);
    MergeRecordedOnly(w1, p, later);
    OnlyTrans(w, w1, MergeUndone(w1, p, later), p);
    OnlyTrans(w, w1, MergeRecorded(w1, p, later), p);
  }

  lemma ValidateOnly(w: World, p: Id, contractId: Option<Id>, endpoints: seq<Endpoint>, schemas: seq<Schema>, now: Time)
    requires Inv(w)
    ensures Only(w, ValidateContract(w, p, contractId, endpoints, schemas, now).world, p)
  {
    hide Only, Inv, ResolveContract, ReworkTask;
    SelfOnly(w, p);
    forall ps, k: nat ensures Only(w, Put(Claim(w, p, k), p, ps), p) {
      PutOnly(w, p, ps, k);
    }
  }

  lemma NewTimelineOnly(w: World, p: Id, tl: Timeline)
    requires p !in w.timelines
    ensures Only(w, w.(timelines := w.timelines[p := tl]), p)
  {
  }

  lemma CreateOnly(w: World, name: string, description: string, now: Time)
    requires Inv(w)
    ensures Only(w, CreateProject(w, name, description, now).world, w.nextId)
  {
    hide Only, Inv;
    var p := w.nextId;
    SelfOnly(w, p);
    var ps := EmptyProject(p, TrimSpace(name), TrimSpace(description), now);
    var w1 := Put(Claim(w, p, 1), p, ps);
    NoTimelineYet(w);
    PutOnly(w, p, ps, 1);
    NewTimelineOnly(w1, p, Timeline([], "main", None, 0));
    OnlyTrans(w, w1, w1.(timelines := w1.timelines[p := Timeline([], "main", None, 0)]), p);
  }

  lemma NoTimelineYet(w: World)
    requires Inv(w)
    ensures w.nextId !in w.timelines
  {
    hide StateOk, TimelineOk, LeasesOk, ExecOk;
  }

  // A step works on one project: it leaves every other project's tasks, runs, leases, queue,
  // timeline, executors and faults as they were, and drops or changes no stored snapshot.
  lemma StepOnly(w: World, e: Event)
    requires Inv(w)
    ensures Only(w, Step(w, e), Subject(w, e))
  {
    hide Inv, Only, CreateProject, Machine.AddRequirement, Machine.GeneratePlan, GenerateContract, GenerateTaskContext,
      DispatchTasks, ValidateContract, RetryTask, MarkFault, ApplyHumanOverride, ApplyCodeLock, StartRun, StartParallel,
      Prepare, CheckFault, Checkpoint, Break, Complete, Fail, Merge, Rollback, StartPreview;
    match e
    case EvCreateProject(name, description, now) => CreateOnly(w, name, description, now);
    case EvAddRequirement(p, title, content, now) => PlanningOnly(w, p, title, content, None, now);
    case EvGeneratePlan(p, now) => PlanningOnly(w, p, "", "", None, now);
    case EvGenerateContract(p, now) => PlanningOnly(w, p, "", "", None, now);
    case EvGenerateTaskContext(p, taskId, now) => PlanningOnly(w, p, "", "", taskId, now);
    case EvDispatchTasks(p, now) => PlanningOnly(w, p, "", "", None, now);
    case EvValidateContract(p, contractId, endpoints, schemas, now) => ValidateOnly(w, p, contractId, endpoints,
        schemas, now);
    case EvRetryTask(p, taskId, now) => PlanningOnly(w, p, "", "", taskId, now);
    case EvMarkFault(p, taskId, reason) => FaultOnly(w, p, taskId, reason);
    case EvApplyHumanOverride(p, i, now) => OverrideOnly(w, p, i, now);
    case EvApplyCodeLock(p, i, now) => LockOnly(w, p, i, now);
    case EvStartRun(p, taskId, allowed, made, now) => StartRunOnly(w, p, taskId, allowed, made, now);
    case EvStartParallel(p, ids, allowed, unmade, now) => StartParallelOnly(w, p, ids, allowed, unmade, now);
    case EvMerge(p, i, now, later) => MergeOnly(w, p, i, now, later);
    case EvRollback(p, id, reason, now) => RollbackOnly(w, p, id, reason, now);
    case EvStartPreview(p, now) => PreviewOnly(w, p, now);
    case _ => ExecutorOnly(w, e);
  }

  predicate OfExecutor(e: Event) {
    e.EvPrepare? || e.EvCheckFault? || e.EvBreak? || e.EvCheckpoint? || e.EvComplete? || e.EvFail?
  }

  lemma ExecutorOnly(w: World, e: Event)
    requires Inv(w) && OfExecutor(e)
    ensures Only(w, Step(w, e), Subject(w, e))
  {
    hide Inv, Only, CreateProject, Machine.AddRequirement, Machine.GeneratePlan, GenerateContract, GenerateTaskContext,
      DispatchTasks, ValidateContract, RetryTask, MarkFault, ApplyHumanOverride, ApplyCodeLock, StartRun, StartParallel,
      Prepare, CheckFault, Checkpoint, Break, Complete, Fail, Merge, Rollback, StartPreview;
    match e
    case EvPrepare(r) => if r in w.execs { PrepareOnly(w, r); } else { NoExecutor(w, e, r); }
    case EvCheckFault(r) => if r in w.execs { CheckFaultOnly(w, r); } else { NoExecutor(w, e, r); }
    case EvCheckpoint(r, now) => if r in w.execs { CheckpointOnly(w, r, now); } else { NoExecutor(w, e, r); }
    case EvBreak(r, failure) => if r in w.execs { BreakOnly(w, r, failure); } else { NoExecutor(w, e, r); }
    case EvComplete(r, uri, usage, summary, now) =>
      if r in w.execs {
        CompleteOnly(w, r, uri, usage, summary, now);
      } else {
        NoExecutor(w, e, r);
      }
    case EvFail(r, usage, now) => if r in w.execs { FailOnly(w, r, usage, now); } else { NoExecutor(w, e, r); }
    case _ =>
  }

  // A step of an executor that does not exist is no step.
  lemma NoExecutor(w: World, e: Event, r: Id)
    requires r !in w.execs
    requires e == EvPrepare(r) || e == EvCheckFault(r) || (e.EvCheckpoint? && e.r == r) || (e.EvBreak? && e.r == r)
      || (e.EvComplete? && e.r == r) || (e.EvFail? && e.r == r)
    ensures Step(w, e) == w && Only(w, w, Subject(w, e))
  {
    hide Only, Projects.CompleteRun, FailRun, LatestPending, TakeOverride, TrimSpace, PreparedBy;
    SelfOnly(w, Subject(w, e));
  }

  // Over a whole run: timelines only grow, and a stored state is the same for ever.
  lemma {:induction false} RunGrows(w: World, events: seq<Event>)
    requires Inv(w)
    ensures Grown(w, After(w, events))
  {
    hide Inv, Step;
    if events == [] {
    } else {
      var front := events[..|events|-1];
      RunGrows(w, front);
      RunOk(w, front);
      StepOnly(After(w, front), events[|events|-1]);
      GrownTrans(w, After(w, front), After(w, events));
    }
  }

  lemma GrownTrans(w: World, v: World, u: World)
    requires Grown(w, v) && Grown(v, u)
    ensures Grown(w, u)
  {
    forall q | q in w.timelines ensures q in u.timelines && w.timelines[q].snapshots <= u.timelines[q].snapshots {
      assert v.timelines[q].snapshots <= u.timelines[q].snapshots;
    }
  }
}
