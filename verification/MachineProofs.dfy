// The invariant of the machine and its preservation by every step.
module MachineProofs {
  import opened Records
  import opened Domain
  import opened Text
  import opened Projects
  import opened ProjectProofs
  import opened Leases
  import opened Machine
  import CV = ContractValidation

  // ----- The invariant ------------------------------------------------------------------

  ghost predicate OwnedBy(ps: ProjectState, p: Id, owner: map<Id, Id>) {
    forall x | Uses(ps, x) :: x in owner && owner[x] == p
  }

  ghost predicate StateOk(ps: ProjectState, p: Id, owner: map<Id, Id>) {
    ProjectOk(ps, p) && OwnedBy(ps, p, owner)
  }

  function RollbackName(base: string, m: nat): string {
    base + "-rollback-" + Decimal(m)
  }

  // A branch is main or was opened by one of the first n rollbacks.
  ghost predicate BranchOk(b: string, n: nat) {
    b != "" && TrimSpace(b) == b && (b == "main" || exists base, m :: 0 <= m <= n && b == RollbackName(base, m))
  }

  function LastStable(s: seq<Snapshot>): Option<Id> {
    if s == [] then None else if s[|s|-1].body.stable then Some(s[|s|-1].id) else LastStable(s[..|s|-1])
  }

  // A snapshot is built from an earlier one.
  ghost predicate LinkOk(s: seq<Snapshot>, i: nat)
    requires i < |s|
  {
    s[i].body.source.Some? ==> exists j :: 0 <= j < i && s[j].id == s[i].body.source.value
  }

  ghost predicate TimelineOk(tl: Timeline, p: Id, owner: map<Id, Id>, states: map<Id, ProjectState>) {
    && (forall i | 0 <= i < |tl.snapshots| :: Owned(tl.snapshots[i], owner) && tl.snapshots[i].projectId == p
          && tl.snapshots[i].id in states && BranchOk(tl.snapshots[i].body.branch, tl.branchSeq))
    && (forall i, j | 0 <= i < j < |tl.snapshots| :: tl.snapshots[i].id != tl.snapshots[j].id)
    && (forall i | 0 <= i < |tl.snapshots| :: LinkOk(tl.snapshots, i))
    && BranchOk(tl.branch, tl.branchSeq)
    && tl.stable == LastStable(tl.snapshots)
  }

  // A run looks the same to its executor wherever it is found: RUNNING, for the executor's task.
  ghost predicate RunAs(ps: ProjectState, r: Id, t: Id) {
    r in ps.runs.items ==> ps.runs.items[r].body.status == Running && ps.runs.items[r].body.taskId == t
  }

  ghost predicate ExecOk(w: World, r: Id)
    requires r in w.execs
  {
    var x := w.execs[r];
    && x.projectId in w.live && r in w.owner && w.owner[r] == x.projectId
    && x.taskId in w.owner && w.owner[x.taskId] == x.projectId
    && RunAs(w.live[x.projectId], r, x.taskId)
    && (forall s | s in w.states && s in w.owner && w.owner[s] == x.projectId :: RunAs(w.states[s], r, x.taskId))
  }

  ghost predicate LeasesOk(w: World) {
    && (forall p | p in w.overrides :: p in w.live && Exclusive(OverrideLeases(w.overrides[p])))
    && (forall p | p in w.locks :: p in w.live && Exclusive(LockLeases(w.locks[p])))
  }

  ghost predicate StatesOk(w: World) {
    && (forall p | p in w.live :: p in w.owner && w.owner[p] == p && StateOk(w.live[p], p, w.owner))
    && (forall s | s in w.states :: s in w.owner && w.owner[s] in w.live && StateOk(w.states[s], w.owner[s], w.owner))
  }

  ghost predicate TimelinesOk(w: World) {
    && w.timelines.Keys == w.live.Keys
    && (forall p | p in w.timelines :: TimelineOk(w.timelines[p], p, w.owner, w.states))
  }

  ghost predicate Inv(w: World) {
    && (forall i | i in w.owner :: i < w.nextId)
    && StatesOk(w)
    && TimelinesOk(w)
    && LeasesOk(w)
    && (forall r | r in w.execs :: ExecOk(w, r))
  }

  lemma InitOk()
    ensures Inv(Init())
  {
  }

  // ----- Ids ----------------------------------------------------------------------------

  lemma ContextIdsAdd(contexts: map<Id, seq<Context>>, c: Context)
    ensures ContextIds(contexts[c.body.taskId := Get(contexts, c.body.taskId) + [c]]) == ContextIds(contexts) + {c.id}
  {
    var n, s := contexts[c.body.taskId := Get(contexts, c.body.taskId) + [c]], Get(contexts, c.body.taskId);
    forall x | x in ContextIds(contexts) ensures x in ContextIds(n) {
      var t, i :| t in contexts && 0 <= i < |contexts[t]| && contexts[t][i].id == x;
      assert n[t][i].id == x;
    }
    assert n[c.body.taskId][|s|].id == c.id;
    forall x | x in ContextIds(n) ensures x in ContextIds(contexts) + {c.id} {
      var t, i :| t in n && 0 <= i < |n[t]| && n[t][i].id == x;
      if t == c.body.taskId && i == |s| {
      } else {
        assert t in contexts && contexts[t][i].id == x;
      }
    }
  }

  // ----- Replacing one project's state --------------------------------------------------

  // The new ids come from those just handed out.
  ghost predicate Grows(before: ProjectState, after: ProjectState, n: Id, k: nat) {
    forall x | Uses(after, x) :: Uses(before, x) || n <= x < n + k
  }

  ghost predicate RunsFit(w: World, p: Id, ps: ProjectState) {
    forall r | r in w.execs && w.execs[r].projectId == p :: RunAs(ps, r, w.execs[r].taskId)
  }

  lemma OwnedGrows(ps: ProjectState, p: Id, owner: map<Id, Id>, owner': map<Id, Id>)
    requires StateOk(ps, p, owner) && forall i | i in owner :: i in owner' && owner'[i] == owner[i]
    ensures StateOk(ps, p, owner')
  {
  }

  lemma ClaimStates(w: World, p: Id, k: nat)
    requires Inv(w) && p in w.live
    ensures StatesOk(Claim(w, p, k))
  {
    hide StateOk, TimelinesOk, LeasesOk, ExecOk;
    var v := Claim(w, p, k);
    forall q | q in v.live ensures StateOk(v.live[q], q, v.owner) {
      OwnedGrows(w.live[q], q, w.owner, v.owner);
    }
    forall s | s in v.states ensures StateOk(v.states[s], v.owner[s], v.owner) {
      OwnedGrows(w.states[s], w.owner[s], w.owner, v.owner);
    }
  }

  lemma ClaimExecs(w: World, p: Id, k: nat, r: Id)
    requires Inv(w) && p in w.live && r in w.execs
    ensures ExecOk(Claim(w, p, k), r)
  {
    hide StateOk, TimelinesOk, LeasesOk;
    var v := Claim(w, p, k);
    assert ExecOk(w, r);
  }

  lemma ClaimTimelines(w: World, p: Id, k: nat)
    requires Inv(w) && p in w.live
    ensures TimelinesOk(Claim(w, p, k))
  {
    hide StatesOk, LeasesOk, ExecOk, TimelineOk;
    var v := Claim(w, p, k);
    forall q | q in v.timelines ensures TimelineOk(v.timelines[q], q, v.owner, v.states) {
      TimelineGrows(w.timelines[q], q, w.owner, w.states, v.owner, v.states);
    }
  }

  lemma ClaimLeases(w: World, p: Id, k: nat)
    requires LeasesOk(w)
    ensures LeasesOk(Claim(w, p, k))
  {
    hide Exclusive;
  }

  lemma ClaimOk(w: World, p: Id, k: nat)
    requires Inv(w) && p in w.live
    ensures Inv(Claim(w, p, k))
  {
    hide StatesOk, ExecOk, TimelinesOk, LeasesOk;
    ClaimStates(w, p, k);
    ClaimTimelines(w, p, k);
    ClaimLeases(w, p, k);
    forall r | r in Claim(w, p, k).execs ensures ExecOk(Claim(w, p, k), r) {
      ClaimExecs(w, p, k, r);
    }
  }

  lemma PutOk(w: World, p: Id, ps: ProjectState)
    requires Inv(w) && p in w.live && StateOk(ps, p, w.owner) && RunsFit(w, p, ps)
    ensures Inv(Put(w, p, ps))
  {
    hide StateOk, TimelineOk;
    var v := Put(w, p, ps);
    forall r | r in v.execs ensures ExecOk(v, r) {
      assert ExecOk(w, r);
    }
  }

  lemma CommitOk(w: World, p: Id, ps: ProjectState, k: nat)
    requires Inv(w) && p in w.live && ProjectOk(ps, p) && Grows(w.live[p], ps, w.nextId, k) && RunsFit(w, p, ps)
    ensures Inv(Put(Claim(w, p, k), p, ps))
  {
    hide Inv, StateOk, Grows, RunsFit;
    ClaimOk(w, p, k);
    GrownOk(w, p, ps, k);
    PutOk(Claim(w, p, k), p, ps);
  }

  lemma GrownOk(w: World, p: Id, ps: ProjectState, k: nat)
    requires Inv(w) && p in w.live && ProjectOk(ps, p) && Grows(w.live[p], ps, w.nextId, k) && RunsFit(w, p, ps)
    ensures p in Claim(w, p, k).live && StateOk(ps, p, Claim(w, p, k).owner) && RunsFit(Claim(w, p, k), p, ps)
  {
    hide ProjectOk, TimelinesOk, LeasesOk, ExecOk, Uses;
    assert StateOk(w.live[p], p, w.owner);
  }

  lemma SameRuns(w: World, p: Id, ps: ProjectState)
    requires Inv(w) && p in w.live && ps.runs == w.live[p].runs
    ensures RunsFit(w, p, ps)
  {
    forall r | r in w.execs && w.execs[r].projectId == p ensures RunAs(ps, r, w.execs[r].taskId) {
      assert ExecOk(w, r);
    }
  }

  lemma LiveOk(w: World, p: Id)
    requires Inv(w) && p in w.live
    ensures ProjectOk(w.live[p], p) && p in w.timelines && w.live[p].project.id == p
  {
    assert StateOk(w.live[p], p, w.owner);
  }

  // An id not handed out yet occurs nowhere in a project.
  lemma Fresh(w: World, p: Id, x: Id)
    requires Inv(w) && p in w.live && x >= w.nextId
    ensures x !in w.live[p].tasks.items && x !in w.live[p].runs.items && x !in w.live[p].artifacts.items
    ensures x !in Ids(w.live[p].requirements) && x !in Ids(w.live[p].plans) && x !in Ids(w.live[p].contracts)
    ensures x !in Ids(w.live[p].sandboxes) && x !in ContextIds(w.live[p].contexts)
  {
    assert !Uses(w.live[p], x);
  }

  // ----- Requirements, plans, contracts, contexts ---------------------------------------

  lemma AddRequirementStep(w: World, p: Id, title: string, content: string, now: Time)
    requires Inv(w)
    ensures Inv(Machine.AddRequirement(w, p, title, content, now).world)
  {
    hide ProjectOk, Inv;
    if Machine.AddRequirement(w, p, title, content, now).refused.None? {
      var ps := w.live[p];
      var after := Projects.AddRequirement(ps, w.nextId, TrimSpace(title), TrimSpace(content), now);
      Fresh(w, p, w.nextId);
      LiveOk(w, p);
      AddRequirementOk(ps, w.nextId, TrimSpace(title), TrimSpace(content), now, p);
      IdsAppend(ps.requirements, Record(w.nextId, p, RequirementBody(TrimSpace(title), TrimSpace(content), now)));
      SameRuns(w, p, after);
      CommitOk(w, p, after, 1);
    }
  }

  lemma GeneratePlanIds(ps: ProjectState, n: Id, now: Time)
    requires ps.requirements != []
    ensures Grows(ps, Projects.GeneratePlan(ps, n, n + 1, now), n, 2)
    ensures Projects.GeneratePlan(ps, n, n + 1, now).runs == ps.runs
  {
    hide NewTask;
    IdsAppend(ps.plans, BuildPlan(ps, n, now));
    var after := Projects.GeneratePlan(ps, n, n + 1, now);
    assert after.plans == ps.plans + [BuildPlan(ps, n, now)];
    assert after.tasks.items.Keys == ps.tasks.items.Keys + {n + 1} by {
      NewTaskId(n + 1, ps.project.id, n, "Implement " + BuildPlan(ps, n, now).body.title, Sprint1, DEFAULT_AGENT, [],
                PlanRef(n), now);
    }
  }

  lemma NewTaskId(id: Id, p: Id, planId: Id, name: string, kind: TaskKind, assignee: string, dependsOn: seq<Id>,
                  inputRef: Ref, now: Time)
    ensures NewTask(id, p, planId, name, kind, assignee, dependsOn, inputRef, now).id == id
  {
  }

  lemma GeneratePlanStep(w: World, p: Id, now: Time)
    requires Inv(w)
    ensures Inv(Machine.GeneratePlan(w, p, now).world)
  {
    hide ProjectOk, Inv, Projects.GeneratePlan, Grows;
    if Machine.GeneratePlan(w, p, now).refused.None? {
      var ps := w.live[p];
      var after := Projects.GeneratePlan(ps, w.nextId, w.nextId + 1, now);
      Fresh(w, p, w.nextId);
      Fresh(w, p, w.nextId + 1);
      LiveOk(w, p);
      GeneratePlanOk(ps, w.nextId, w.nextId + 1, now, p);
      GeneratePlanIds(ps, w.nextId, now);
      SameRuns(w, p, after);
      CommitOk(w, p, after, 2);
    }
  }

  lemma GenerateContractStep(w: World, p: Id, now: Time)
    requires Inv(w)
    ensures Inv(GenerateContract(w, p, now).world)
  {
    hide ProjectOk, Inv;
    if GenerateContract(w, p, now).refused.None? {
      var ps := w.live[p];
      var plan := ps.plans[|ps.plans|-1];
      var req := FindById(ps.requirements, plan.body.requirementId).value;
      var c := CV.BuildContract(w.nextId, p, req, plan, |ps.contracts| + 1, now);
      var after := AddContract(ps, c, now);
      Fresh(w, p, w.nextId);
      LiveOk(w, p);
      AddContractOk(ps, c, now, p);
      IdsAppend(ps.contracts, c);
      SameRuns(w, p, after);
      CommitOk(w, p, after, 1);
    }
  }

  lemma GenerateTaskContextStep(w: World, p: Id, taskId: Option<Id>, now: Time)
    requires Inv(w)
    ensures Inv(GenerateTaskContext(w, p, taskId, now).world)
  {
    hide ProjectOk, Inv;
    if GenerateTaskContext(w, p, taskId, now).refused.None? {
      var ps := w.live[p];
      LiveOk(w, p);
      TaskResolved(ps, taskId, p);
      var t := ResolveTask(ps, taskId).value;
      var plan := FindById(ps.plans, t.body.planId).value;
      var contract := TaskContract(ps, t.body).value;
      var req := FindById(ps.requirements, plan.body.requirementId).value;
      var c := Record(w.nextId, p, ContextBody(t.id, |Get(ps.contexts, t.id)| + 1, plan.id, contract.id, req.id, now));
      Fresh(w, p, w.nextId);
      ContextIdFresh(ps, t.id, w.nextId);
      AddContextOk(ps, c, p);
      ContextIdsAdd(ps.contexts, c);
      SameRuns(w, p, AddContext(ps, c));
      CommitOk(w, p, AddContext(ps, c), 1);
    }
  }

  // The request is for task x: the one it names, or the newest one when it names none.
  ghost predicate Asks(ps: ProjectState, taskId: Option<Id>, x: Id) {
    if taskId.Some? then x == taskId.value else ps.tasks.order != [] && x == ps.tasks.order[|ps.tasks.order|-1]
  }

  // The task asked for is the task found; nothing is found exactly when there is none.
  lemma AskedFound(ps: ProjectState, taskId: Option<Id>, p: Id)
    requires ProjectOk(ps, p)
    ensures forall x | Asks(ps, taskId, x) ::
      if x in ps.tasks.items then ResolveTask(ps, taskId) == Ok(ps.tasks.items[x]) && ps.tasks.items[x].id == x
      else ResolveTask(ps, taskId) == Refused(NotFound)
    ensures (forall x :: !Asks(ps, taskId, x)) ==> ResolveTask(ps, taskId) == Refused(Invalid)
  {
    assert SliceOk(ps.tasks, p);
    if taskId.Some? {
      assert Asks(ps, taskId, taskId.value);
    } else if ps.tasks.order != [] {
      assert Asks(ps, taskId, ps.tasks.order[|ps.tasks.order|-1]);
    }
  }

  lemma TaskResolved(ps: ProjectState, taskId: Option<Id>, p: Id)
    requires ProjectOk(ps, p) && ResolveTask(ps, taskId).Ok?
    ensures var t := ResolveTask(ps, taskId).value;
      t.id in ps.tasks.items && ps.tasks.items[t.id] == t && t.projectId == p
  {
    assert SliceOk(ps.tasks, p);
    var x := if taskId.Some? then taskId.value else ps.tasks.order[|ps.tasks.order|-1];
    assert x in ps.tasks.items && ps.tasks.items[x].id == x;
  }

  lemma ContextIdFresh(ps: ProjectState, t: Id, x: Id)
    requires x !in ContextIds(ps.contexts)
    ensures x !in Ids(Get(ps.contexts, t))
  {
    forall i | 0 <= i < |Get(ps.contexts, t)| ensures Get(ps.contexts, t)[i].id != x {
      assert ps.contexts[t][i].id in ContextIds(ps.contexts);
    }
  }

  // ----- Tasks --------------------------------------------------------------------------

  lemma DispatchTasksStep(w: World, p: Id, now: Time)
    requires Inv(w)
    ensures Inv(DispatchTasks(w, p, now).world)
  {
    hide ProjectOk, Inv;
    if DispatchTasks(w, p, now).world != w {
      var ps := w.live[p];
      var plan, contract := ps.plans[|ps.plans|-1], ps.contracts[|ps.contracts|-1];
      var after := Dispatch(ps, plan, contract, w.nextId, now);
      Fresh(w, p, w.nextId);
      Fresh(w, p, w.nextId + 1);
      Fresh(w, p, w.nextId + 2);
      LiveOk(w, p);
      DispatchOk(ps, plan, contract, w.nextId, now, p);
      SameRuns(w, p, after);
      CommitOk(w, p, after, 3);
    }
  }

  lemma ValidateContractStep(w: World, p: Id, contractId: Option<Id>, endpoints: seq<Endpoint>, schemas: seq<Schema>,
                             now: Time)
    requires Inv(w)
    ensures Inv(ValidateContract(w, p, contractId, endpoints, schemas, now).world)
  {
    hide ProjectOk, Inv;
    if ValidateContract(w, p, contractId, endpoints, schemas, now).world != w {
      var ps := w.live[p];
      var c := ResolveContract(ps, contractId).value;
      ContractResolved(ps, contractId);
      Fresh(w, p, w.nextId);
      LiveOk(w, p);
      ReworkOk(ps, c, w.nextId, now, p);
      var after := AddTask(ps, ReworkTask(ps, c, w.nextId, now));
      TouchOk(after, now, p);
      SameRuns(w, p, Touch(after, now));
      CommitOk(w, p, Touch(after, now), 1);
    }
  }

  lemma ContractResolved(ps: ProjectState, contractId: Option<Id>)
    requires ResolveContract(ps, contractId).Ok?
    ensures ResolveContract(ps, contractId).value in ps.contracts
  {
    if contractId.Some? {
      FindByIdIn(ps.contracts, contractId.value);
    }
  }

  lemma RetryTaskStep(w: World, p: Id, taskId: Option<Id>, now: Time)
    requires Inv(w)
    ensures Inv(RetryTask(w, p, taskId, now).world)
  {
    hide ProjectOk, Inv;
    if RetryTask(w, p, taskId, now).refused.None? {
      var ps := w.live[p];
      LiveOk(w, p);
      TaskResolved(ps, taskId, p);
      var t := ResolveTask(ps, taskId).value;
      var after := Touch(AddTask(ps, RetryOf(t, w.nextId, now)), now);
      Fresh(w, p, w.nextId);
      RetryOk(ps, t, w.nextId, now, p);
      SameRuns(w, p, after);
      CommitOk(w, p, after, 1);
    }
  }

  lemma FaultsOk(w: World, faults: map<Id, string>)
    requires Inv(w)
    ensures Inv(w.(faults := faults))
  {
    hide ProjectOk, StateOk, TimelineOk;
    var v := w.(faults := faults);
    forall r | r in v.execs ensures ExecOk(v, r) {
      assert ExecOk(w, r);
    }
  }

  // ----- Leases -------------------------------------------------------------------------

  lemma QueueOk(w: World, queue: map<Id, seq<QueueEntry>>)
    requires Inv(w)
    ensures Inv(w.(queue := queue))
  {
    hide ProjectOk, StateOk, TimelineOk;
    var v := w.(queue := queue);
    forall r | r in v.execs ensures ExecOk(v, r) {
      assert ExecOk(w, r);
    }
  }

  lemma LocksOk(w: World, p: Id, s: seq<CodeLock>)
    requires Inv(w) && p in w.live && Exclusive(LockLeases(s))
    ensures Inv(w.(locks := w.locks[p := s]))
  {
    hide ProjectOk, StateOk, TimelineOk;
    var v := w.(locks := w.locks[p := s]);
    forall r | r in v.execs ensures ExecOk(v, r) {
      assert ExecOk(w, r);
    }
  }

  lemma OverridesOk(w: World, p: Id, s: seq<Override>)
    requires Inv(w) && p in w.live && Exclusive(OverrideLeases(s))
    ensures Inv(w.(overrides := w.overrides[p := s]))
  {
    hide ProjectOk, StateOk, TimelineOk;
    var v := w.(overrides := w.overrides[p := s]);
    forall r | r in v.execs ensures ExecOk(v, r) {
      assert ExecOk(w, r);
    }
  }

  lemma EnqueueOk(w: World, p: Id, scope: string, resourceId: Id, requested: string, current: string, now: Time)
    requires Inv(w) && p in w.live
    ensures Inv(Enqueue(w, p, scope, resourceId, requested, current, now))
  {
    hide Inv;
    ClaimOk(w, p, 1);
    QueueOk(Claim(w, p, 1), Enqueue(w, p, scope, resourceId, requested, current, now).queue);
  }

  lemma TouchStep(w: World, p: Id, now: Time)
    requires Inv(w) && p in w.live
    ensures Inv(Put(w, p, Touch(w.live[p], now)))
  {
    hide ProjectOk, Inv;
    LiveOk(w, p);
    TouchOk(w.live[p], now, p);
    SameRuns(w, p, Touch(w.live[p], now));
    CommitOk(w, p, Touch(w.live[p], now), 0);
  }

  lemma LeasesOf(w: World, p: Id)
    requires Inv(w)
    ensures Exclusive(OverrideLeases(Get(w.overrides, p))) && Exclusive(LockLeases(Get(w.locks, p)))
  {
  }

  lemma ApplyCodeLockStep(w: World, p: Id, i: LockInput, now: Time)
    requires Inv(w)
    ensures Inv(ApplyCodeLock(w, p, i, now).world)
  {
    hide Inv, LockInputOk, AdmitLock, LockOf, ResolveTask;
    if p in w.live {
      LockDated(w.nextId, p, i, now);
      AdmitLockStep(w, p, LockOf(w.nextId, p, i, now), now);
    }
  }

  lemma LockDated(id: Id, p: Id, i: LockInput, now: Time)
    ensures LockOf(id, p, i, now).body.createdAt == now
  {
    hide TrimSpace, NormalMode, FirstNonBlank;
  }

  lemma AdmitLockStep(w: World, p: Id, l: CodeLock, now: Time)
    requires Inv(w) && p in w.live && l.body.createdAt == now
    ensures Inv(AdmitLock(w, p, l, now).world)
  {
    hide ProjectOk, Inv, FirstClash, LockKey, LockOwner, LockLeases, Touch, Enqueue, Claim;
    var s := Get(w.locks, p);
    var clash := FirstClash(LockLeases(s), LockScope(LockKey(l.body)), LockOwner(l.body), now);
    var w1 := Claim(w, p, 1);
    ClaimOk(w, p, 1);
    LeasesOf(w, p);
    ClaimLists(w, p, 1);
    LeasesCount(s);
    if clash.Some? {
      var current := LockOwner(s[clash.value].body);
      EnqueueOk(w1, p, LockKey(l.body), s[clash.value].id, LockOwner(l.body), current, now);
      EnqueueLive(w1, p, LockKey(l.body), s[clash.value].id, LockOwner(l.body), current, now);
      TouchStep(Enqueue(w1, p, LockKey(l.body), s[clash.value].id, LockOwner(l.body), current, now), p, now);
    } else {
      TouchStep(w1, p, now);
      AdmitKeeps(LockLeases(s), LockLease(l.body));
      LocksAppend(s, l);
      LocksOk(Put(w1, p, Touch(w1.live[p], now)), p, s + [l]);
    }
  }

  lemma LeasesCount(s: seq<CodeLock>)
    ensures |LockLeases(s)| == |s|
  {
  }

  lemma ClaimLists(w: World, p: Id, k: nat)
    ensures var v := Claim(w, p, k);
      v.live == w.live && v.locks == w.locks && v.overrides == w.overrides && v.queue == w.queue
  {
    hide Grant;
  }

  lemma EnqueueLive(w: World, p: Id, scope: string, resourceId: Id, requested: string, current: string, now: Time)
    ensures Enqueue(w, p, scope, resourceId, requested, current, now).live == w.live
  {
    hide Grant;
  }

  lemma ApplyHumanOverrideStep(w: World, p: Id, i: OverrideInput, now: Time)
    requires Inv(w)
    ensures Inv(ApplyHumanOverride(w, p, i, now).world)
  {
    hide ProjectOk, Inv;
    if ApplyHumanOverride(w, p, i, now).world != w {
      LiveOk(w, p);
      TaskResolved(w.live[p], i.taskId, p);
      var t := ResolveTask(w.live[p], i.taskId).value;
      var o := OverrideOf(w.nextId, p, t.id, i, now);
      var l := OverrideLease(o.body);
      var s := Get(w.overrides, p);
      var clash := FirstClash(OverrideLeases(s), l.scope, o.body.owner, now);
      LeasesOf(w, p);
      OwnerSettled([i.owner, i.actor, TrimSpace(i.operator)], o.body.operator);
      if clash.Some? {
        var current := OverrideOwner(s[clash.value].body);
        EnqueueOk(w, p, l.scope.name, s[clash.value].id, o.body.owner, current, now);
        TouchStep(Enqueue(w, p, l.scope.name, s[clash.value].id, o.body.owner, current, now), p, now);
      } else {
        OverrideAdmitted(w, p, t, o, now);
      }
    }
  }

  lemma OverrideAdmitted(w: World, p: Id, t: Task, o: Override, now: Time)
    requires Inv(w) && p in w.live && t.id in w.live[p].tasks.items && w.live[p].tasks.items[t.id] == t
    requires Busy(t.body.status)
    requires var l := OverrideLease(o.body);
      l.createdAt == now && FirstClash(OverrideLeases(Get(w.overrides, p)), l.scope, l.owner, now).None?
    ensures var moved := MovedOrSame(t.body, HumanOverride, OVERRIDE_REQUESTED + o.body.operator, now);
      var w1 := Put(Claim(w, p, 1), p, Touch(PutTask(w.live[p], t.(body := moved)), now));
      Inv(w1.(overrides := w1.overrides[p := Get(w.overrides, p) + [o]]))
  {
    hide ProjectOk, Inv;
    var s := Get(w.overrides, p);
    var reason := OVERRIDE_REQUESTED + o.body.operator;
    var ps := PutTask(w.live[p], t.(body := MovedOrSame(t.body, HumanOverride, reason, now)));
    LiveOk(w, p);
    BusyMoveOk(w.live[p], t, HumanOverride, reason, now, p);
    TouchOk(ps, now, p);
    SameRuns(w, p, Touch(ps, now));
    CommitOk(w, p, Touch(ps, now), 1);
    LeasesOf(w, p);
    AdmitKeeps(OverrideLeases(s), OverrideLease(o.body));
    OverridesAppend(s, o);
    OverridesOk(Put(Claim(w, p, 1), p, Touch(ps, now)), p, s + [o]);
  }

  // ----- Starting runs ------------------------------------------------------------------

  lemma ExecAdded(w: World, r: Id, p: Id, t: Id)
    requires Inv(w) && p in w.live && r in w.owner && w.owner[r] == p && RunAs(w.live[p], r, t) && t in w.owner
    requires w.owner[t] == p
    requires forall s | s in w.states :: r !in w.states[s].runs.items
    ensures Inv(PutExec(w, r, Executor(p, t, Spawned)))
  {
    hide ProjectOk, StateOk, TimelineOk;
    var v := PutExec(w, r, Executor(p, t, Spawned));
    forall q | q in v.execs ensures ExecOk(v, q) {
      if q != r {
        assert ExecOk(w, q);
      }
    }
  }

  // Snapshots hold no id that is yet to be handed out.
  lemma UnusedInStates(w: World, x: Id)
    requires Inv(w) && x >= w.nextId
    ensures forall s | s in w.states :: x !in w.states[s].runs.items
  {
    hide ProjectOk;
    forall s | s in w.states ensures x !in w.states[s].runs.items {
      assert StateOk(w.states[s], w.owner[s], w.owner);
      assert !Uses(w.states[s], x);
    }
  }

  lemma RunsKept(w: World, p: Id, ps: ProjectState)
    requires Inv(w) && p in w.live
    requires forall r | r in w.live[p].runs.items :: r in ps.runs.items && ps.runs.items[r] == w.live[p].runs.items[r]
    requires forall r | r in ps.runs.items :: r in w.live[p].runs.items || r >= w.nextId
    ensures RunsFit(w, p, ps)
  {
    forall r | r in w.execs && w.execs[r].projectId == p ensures RunAs(ps, r, w.execs[r].taskId) {
      assert ExecOk(w, r);
    }
  }

  lemma StartRunStep(w: World, p: Id, taskId: Option<Id>, allowed: bool, made: bool, now: Time)
    requires Inv(w)
    ensures Inv(StartRun(w, p, taskId, allowed, made, now).world)
  {
    hide ProjectOk, Inv, StartTaskRun;
    if p in w.live && ResolveTask(w.live[p], taskId).Ok? && allowed {
      LiveOk(w, p);
      TaskResolved(w.live[p], taskId, p);
      var t := ResolveTask(w.live[p], taskId).value;
      if Ready(w.live[p].tasks.items, t.body) {
        Started(w, p, t, made, now);
      } else {
        NotReadyRefused(w.live[p], t, w.nextId, w.nextId + 1, made, RUN_STARTED, now);
      }
    }
  }

  lemma Started(w: World, p: Id, t: Task, made: bool, now: Time)
    requires Inv(w) && p in w.live && t.id in w.live[p].tasks.items && w.live[p].tasks.items[t.id] == t
    requires Ready(w.live[p].tasks.items, t.body)
    ensures var r := StartTaskRun(w.live[p], t, w.nextId, w.nextId + 1, made, RUN_STARTED, now);
      r.Ok? && Inv(Put(Claim(w, p, 2), p, r.value))
        && Inv(if made then PutExec(Put(Claim(w, p, 2), p, r.value), w.nextId + 1, Executor(p, t.id, Spawned))
               else Put(Claim(w, p, 2), p, r.value))
  {
    hide ProjectOk, Inv, StartTaskRun;
    var ps, reason := w.live[p], RUN_STARTED;
    var r := StartTaskRun(ps, t, w.nextId, w.nextId + 1, made, reason, now);
    LiveOk(w, p);
    Fresh(w, p, w.nextId);
    Fresh(w, p, w.nextId + 1);
    StartTaskRunOk(ps, t, w.nextId, w.nextId + 1, made, reason, now, p);
    StartTaskRunAdds(ps, t, w.nextId, w.nextId + 1, made, reason, now);
    RunsKept(w, p, r.value);
    CommitOk(w, p, r.value, 2);
    if made {
      TaskOwned(w, p, t.id);
      UnusedInStates(w, w.nextId + 1);
      ExecAdded(Put(Claim(w, p, 2), p, r.value), w.nextId + 1, p, t.id);
    }
  }

  lemma TaskOwned(w: World, p: Id, t: Id)
    requires Inv(w) && p in w.live && t in w.live[p].tasks.items
    ensures t in w.owner && w.owner[t] == p
  {
    hide ProjectOk;
    assert StateOk(w.live[p], p, w.owner) && Uses(w.live[p], t);
  }

  lemma RunTaskOwned(w: World, p: Id, r: Id)
    requires Inv(w) && p in w.live && r in w.live[p].runs.items
    ensures w.live[p].runs.items[r].body.taskId in w.owner && w.owner[w.live[p].runs.items[r].body.taskId] == p
  {
    hide TimelinesOk, LeasesOk, ExecOk;
    var ps := w.live[p];
    LiveOk(w, p);
    assert RunFits(ps.runs.items[r], ps.tasks.items, ps.artifacts.items, IndexList(ps.sandboxes));
    TaskOwned(w, p, ps.runs.items[r].body.taskId);
  }

  lemma StartParallelStep(w: World, p: Id, ids: seq<Option<Id>>, allowed: bool, unmade: set<Id>, now: Time)
    requires Inv(w)
    ensures Inv(StartParallel(w, p, ids, allowed, unmade, now).world)
  {
    hide ProjectOk, Inv, StartEach, Pick, PARALLEL_STARTED, Claim, Spawn;
    if p in w.live && Pick(w.live[p], ids).Ok? && allowed {
      var picked := Pick(w.live[p], ids).value.selected;
      var b := StartEach(w.live[p], picked, unmade, w.nextId, PARALLEL_STARTED, now);
      LiveOk(w, p);
      LiveBelow(w, p);
      StartEachOk(w.live[p], picked, unmade, w.nextId, PARALLEL_STARTED, now, p);
      RunsKept(w, p, b.ps);
      CommitOk(w, p, b.ps, b.next - w.nextId);
      if b.whole {
        forall r | r in b.runs ensures forall s | s in w.states :: r !in w.states[s].runs.items {
          UnusedInStates(w, r);
        }
        ClaimedStates(w, p, b.next - w.nextId, b.ps);
        SpawnOk(Put(Claim(w, p, b.next - w.nextId), p, b.ps), p, b.runs);
      }
    }
  }

  lemma ClaimedStates(w: World, p: Id, k: nat, ps: ProjectState)
    ensures var v := Put(Claim(w, p, k), p, ps);
      && v.states == w.states && v.execs == w.execs && p in v.live && v.live[p] == ps
      && forall i | w.nextId <= i < w.nextId + k :: i in v.owner && v.owner[i] == p
  {
    hide Grant;
  }

  lemma LiveBelow(w: World, p: Id)
    requires Inv(w) && p in w.live
    ensures forall x | Uses(w.live[p], x) :: x < w.nextId
  {
    hide ProjectOk;
    assert StateOk(w.live[p], p, w.owner);
  }

  lemma SpawnOk(w: World, p: Id, runs: seq<Id>)
    requires Inv(w) && p in w.live
    requires forall r | r in runs ::
      r in w.owner && w.owner[r] == p && r in w.live[p].runs.items && w.live[p].runs.items[r].body.status == Running
    requires forall r | r in runs :: forall s | s in w.states :: r !in w.states[s].runs.items
    ensures Inv(w.(execs := Spawn(w.execs, w.live[p], p, runs)))
  {
    hide ProjectOk, StateOk, TimelineOk;
    var v := w.(execs := Spawn(w.execs, w.live[p], p, runs));
    forall r | r in v.execs ensures ExecOk(v, r) {
      if r in runs {
        RunTaskOwned(w, p, r);
      } else {
        assert ExecOk(w, r);
      }
    }
  }

  // ----- Executors ----------------------------------------------------------------------

  lemma PhaseOk(w: World, r: Id, x: Executor)
    requires Inv(w) && r in w.execs && x.projectId == w.execs[r].projectId
    requires x.taskId == w.execs[r].taskId
    ensures Inv(PutExec(w, r, x))
  {
    hide ProjectOk, StateOk, TimelineOk;
    var v := PutExec(w, r, x);
    forall q | q in v.execs ensures ExecOk(v, q) {
      assert ExecOk(w, q);
    }
  }

  lemma DropOk(w: World, r: Id)
    requires Inv(w)
    ensures Inv(DropExec(w, r))
  {
    hide ProjectOk, StateOk, TimelineOk;
    var v := DropExec(w, r);
    forall q | q in v.execs ensures ExecOk(v, q) {
      assert ExecOk(w, q);
    }
  }

  lemma ExecRun(w: World, r: Id)
    requires Inv(w) && r in w.execs
    ensures var x := w.execs[r]; x.projectId in w.live && RunAs(w.live[x.projectId], r, x.taskId)
  {
    assert ExecOk(w, r);
  }

  // Reading the run tells its executor nothing new about whom it works for.
  lemma PreparedKeeps(x: Executor, ps: ProjectState, r: Id)
    requires RunAs(ps, r, x.taskId)
    ensures PreparedBy(x, ps, r).projectId == x.projectId && PreparedBy(x, ps, r).taskId == x.taskId
  {
  }

  lemma PrepareStep(w: World, r: Id)
    requires Inv(w)
    ensures Inv(Prepare(w, r))
  {
    hide Inv, PreparedBy;
    if At(w, r, Spawned) {
      var x := PreparedBy(w.execs[r], w.live[w.execs[r].projectId], r);
      ExecRun(w, r);
      PreparedKeeps(w.execs[r], w.live[w.execs[r].projectId], r);
      PhaseOk(w, r, x);
    }
  }

  lemma CheckFaultStep(w: World, r: Id)
    requires Inv(w)
    ensures Inv(CheckFault(w, r))
  {
    hide Inv;
    if At(w, r, Prepared) {
      FaultsOk(w, CheckFault(w, r).faults);
      PhaseOk(w.(faults := CheckFault(w, r).faults), r, CheckFault(w, r).execs[r]);
    }
  }

  // Where a checkpoint leads.
  lemma CheckpointCases(w: World, r: Id, now: Time)
    requires At(w, r, Checked)
    ensures var p := w.execs[r].projectId; var ps := w.live[p];
      && (r !in ps.runs.items ==> Checkpoint(w, r, now) == PutExec(w, r, w.execs[r].(phase := Failing(NO_RUN))))
      && (r in ps.runs.items && ps.runs.items[r].body.taskId !in ps.tasks.items ==>
            Checkpoint(w, r, now) == PutExec(w, r, w.execs[r].(phase := Failing(NO_TASK))))
      && (r in ps.runs.items && ps.runs.items[r].body.taskId in ps.tasks.items ==>
            var task := ps.tasks.items[ps.runs.items[r].body.taskId]; var k := LatestPending(Get(w.overrides, p),
                task.id, now);
            && (k.None? ==> Checkpoint(w, r, now) == PutExec(w, r, w.execs[r].(phase := Armed)))
            && (k.Some? ==>
                  Checkpoint(w, r, now)
                    == PutExec(TakeOverride(w, p, task, k.value, now), r, w.execs[r].(phase := Armed))))
  {
    hide TakeOverride, LatestPending;
  }

  lemma CheckpointStep(w: World, r: Id, now: Time)
    requires Inv(w)
    ensures Inv(Checkpoint(w, r, now))
  {
    hide Inv, ProjectOk, LatestPending, TakeOverride;
    if At(w, r, Checked) {
      var p := w.execs[r].projectId;
      var ps, s := w.live[p], Get(w.overrides, p);
      PhaseOk(w, r, w.execs[r].(phase := Failing(NO_RUN)));
      PhaseOk(w, r, w.execs[r].(phase := Failing(NO_TASK)));
      PhaseOk(w, r, w.execs[r].(phase := Armed));
      if r in ps.runs.items && ps.runs.items[r].body.taskId in ps.tasks.items {
        var task := ps.tasks.items[ps.runs.items[r].body.taskId];
        LiveOk(w, p);
        TaskIdIs(ps, ps.runs.items[r].body.taskId, p);
        var k := LatestPending(s, task.id, now);
        if k.Some? {
          OverrideTaken(w, p, task, k.value, now, r);
        }
      }
    }
  }

  lemma OverrideTaken(w: World, p: Id, task: Task, k: nat, now: Time, r: Id)
    requires Inv(w) && p in w.live && task.id in w.live[p].tasks.items && w.live[p].tasks.items[task.id] == task
    requires k < |Get(w.overrides, p)| && r in w.execs
    ensures Inv(PutExec(TakeOverride(w, p, task, k, now), r, w.execs[r].(phase := Armed)))
  {
    hide Inv, ProjectOk;
    var s := Get(w.overrides, p);
    var w1 := w.(overrides := w.overrides[p := Applied(s, k, now)]);
    LeasesOf(w, p);
    AppliedExclusive(s, k, now);
    OverridesOk(w, p, Applied(s, k, now));
    if task.body.status == HumanOverride {
      var reason := OVERRIDE_APPLIED;
      var ps1 := PutTask(w.live[p], task.(body := MovedOrSame(task.body, InProgress, reason, now)));
      LiveOk(w, p);
      BusyMoveOk(w.live[p], task, InProgress, reason, now, p);
      SameRuns(w1, p, ps1);
      CommitOk(w1, p, ps1, 0);
    }
    PhaseOk(TakeOverride(w, p, task, k, now), r, w.execs[r].(phase := Armed));
  }

  lemma BreakStep(w: World, r: Id, failure: string)
    requires Inv(w)
    ensures Inv(Break(w, r, failure))
  {
    hide Inv;
    if Break(w, r, failure) != w {
      PhaseOk(w, r, Break(w, r, failure).execs[r]);
    }
  }

  // Ending a run leaves other runs alone and adds at most an artifact.
  lemma CompleteRunAdds(ps: ProjectState, r: Id, t: Id, a: Id, uri: string, usage: Usage, summary: string, now: Time,
                        p: Id)
    requires ProjectOk(ps, p)
    ensures var n := Projects.CompleteRun(ps, r, t, a, uri, usage, summary, now);
      && (forall x | Uses(n, x) :: Uses(ps, x) || x == a)
      && (forall q | q in n.runs.items && q != r :: q in ps.runs.items && n.runs.items[q] == ps.runs.items[q])
  {
    if t in ps.tasks.items && r in ps.runs.items {
      BoxIdsKept(ps, ps.runs.items[r].body.sandboxId, Released, None, now, p);
    }
  }

  lemma FailRunAdds(ps: ProjectState, r: Id, failure: string, usage: Usage, now: Time, p: Id)
    requires ProjectOk(ps, p)
    ensures var n := FailRun(ps, r, failure, usage, now);
      && (forall x | Uses(n, x) :: Uses(ps, x))
      && (forall q | q in n.runs.items && q != r :: q in ps.runs.items && n.runs.items[q] == ps.runs.items[q])
  {
    if r in ps.runs.items {
      BoxIdsKept(ps, ps.runs.items[r].body.sandboxId, Broken, Some(failure), now, p);
    }
  }

  lemma BoxIdsKept(ps: ProjectState, boxId: Id, status: SandboxStatus, failure: Option<string>, now: Time, p: Id)
    requires ProjectOk(ps, p) && boxId in IndexList(ps.sandboxes)
    ensures var box := IndexList(ps.sandboxes)[boxId];
      Ids(PutInList(ps.sandboxes, box.(body := SettledBody(box.body, status, failure, now)))) == Ids(ps.sandboxes)
  {
    var i := IndexListAt(ps.sandboxes, boxId);
    PutKeepsIds(ps.sandboxes, ps.sandboxes[i].(body := SettledBody(ps.sandboxes[i].body, status, failure, now)), p);
  }

  // Every other executor of the project still fits when one executor's run has ended.
  lemma OthersFit(w: World, p: Id, r: Id, ps: ProjectState)
    requires Inv(w) && r in w.execs && p in w.live
    requires forall q | q in ps.runs.items && q != r ::
      q in w.live[p].runs.items && ps.runs.items[q] == w.live[p].runs.items[q]
    ensures RunsFit(DropExec(w, r), p, ps)
  {
    hide StatesOk, TimelinesOk, LeasesOk;
    forall q | q in DropExec(w, r).execs && w.execs[q].projectId == p ensures RunAs(ps, q, w.execs[q].taskId) {
      assert ExecOk(w, q);
    }
  }

  lemma CompleteStep(w: World, r: Id, uri: string, usage: Usage, summary: string, now: Time)
    requires Inv(w)
    ensures Inv(Complete(w, r, uri, usage, summary, now))
  {
    hide Inv, ProjectOk, Projects.CompleteRun;
    if At(w, r, Armed) {
      var p := w.execs[r].projectId;
      var ps := Projects.CompleteRun(w.live[p], r, w.execs[r].taskId, w.nextId, uri, usage, summary, now);
      ExecRun(w, r);
      LiveOk(w, p);
      Fresh(w, p, w.nextId);
      CompleteRunOk(w.live[p], r, w.execs[r].taskId, w.nextId, uri, usage, summary, now, p);
      CompleteRunAdds(w.live[p], r, w.execs[r].taskId, w.nextId, uri, usage, summary, now, p);
      OthersFit(w, p, r, ps);
      DropOk(w, r);
      CommitOk(DropExec(w, r), p, ps, 1);
    }
  }

  lemma FailStep(w: World, r: Id, usage: Usage, now: Time)
    requires Inv(w)
    ensures Inv(Fail(w, r, usage, now))
  {
    hide Inv, ProjectOk, FailRun;
    if r in w.execs && w.execs[r].phase.Failing? && w.execs[r].projectId in w.live {
      var p := w.execs[r].projectId;
      var ps := FailRun(w.live[p], r, w.execs[r].phase.failure, usage, now);
      ExecRun(w, r);
      LiveOk(w, p);
      FailRunOk(w.live[p], r, w.execs[r].phase.failure, usage, now, p);
      FailRunAdds(w.live[p], r, w.execs[r].phase.failure, usage, now, p);
      OthersFit(w, p, r, ps);
      DropOk(w, r);
      CommitOk(DropExec(w, r), p, ps, 0);
    }
  }

  // ----- Snapshots ----------------------------------------------------------------------

  lemma {:induction false} LastStableIn(s: seq<Snapshot>)
    ensures LastStable(s).Some? ==>
      exists i ::
        && 0 <= i < |s| && s[i].id == LastStable(s).value && s[i].body.stable
        && forall j | i < j < |s| :: !s[j].body.stable
    ensures LastStable(s).None? ==> forall i | 0 <= i < |s| :: !s[i].body.stable
  {
    if s == [] {
    } else {
      var t := s[..|s|-1];
      LastStableIn(t);
      assert forall i | 0 <= i < |t| :: t[i] == s[i];
      if s[|s|-1].body.stable {
        assert s[|s|-1].id == LastStable(s).value;
      } else if LastStable(t).Some? {
        var i :| 0 <= i < |t| && t[i].id == LastStable(t).value && t[i].body.stable
          && forall j | i < j < |t| :: !t[j].body.stable;
        assert s[i].id == LastStable(s).value;
      }
    }
  }

  lemma RecordedOk(tl: Timeline, p: Id, owner: map<Id, Id>, states: map<Id, ProjectState>, snap: Snapshot,
                   owner': map<Id, Id>, states': map<Id, ProjectState>)
    requires TimelineOk(tl, p, owner, states)
    requires forall i | i in owner :: i in owner' && owner'[i] == owner[i]
    requires forall s | s in states :: s in states'
    requires Owned(snap, owner') && snap.projectId == p && snap.id in states' && snap.id !in owner
    requires BranchOk(snap.body.branch, tl.branchSeq)
    requires snap.body.source.Some? ==>
      exists j :: 0 <= j < |tl.snapshots| && tl.snapshots[j].id == snap.body.source.value
    ensures TimelineOk(Recorded(tl, snap), p, owner', states')
  {
    hide BranchOk, LinkOk, LastStable;
    LinksKept(tl.snapshots, snap);
    IdsKept(tl.snapshots, snap, owner);
    StableRecorded(tl.snapshots, snap);
    EachRecorded(tl, p, owner, states, snap, owner', states');
  }

  lemma StableRecorded(s: seq<Snapshot>, snap: Snapshot)
    ensures LastStable(s + [snap]) == if snap.body.stable then Some(snap.id) else LastStable(s)
  {
    assert (s + [snap])[..|s + [snap]|-1] == s;
  }

  lemma EachRecorded(tl: Timeline, p: Id, owner: map<Id, Id>, states: map<Id, ProjectState>, snap: Snapshot,
                     owner': map<Id, Id>, states': map<Id, ProjectState>)
    requires TimelineOk(tl, p, owner, states)
    requires forall i | i in owner :: i in owner' && owner'[i] == owner[i]
    requires forall s | s in states :: s in states'
    requires Owned(snap, owner') && snap.projectId == p && snap.id in states'
    requires BranchOk(snap.body.branch, tl.branchSeq)
    ensures var s := tl.snapshots + [snap];
      forall i | 0 <= i < |s| ::
        Owned(s[i], owner') && s[i].projectId == p && s[i].id in states' && BranchOk(s[i].body.branch, tl.branchSeq)
  {
    hide BranchOk, LinkOk, LastStable;
  }

  lemma IdsKept(s: seq<Snapshot>, snap: Snapshot, owner: map<Id, Id>)
    requires (forall i | 0 <= i < |s| :: s[i].id in owner) && snap.id !in owner
    requires forall i, j | 0 <= i < j < |s| :: s[i].id != s[j].id
    ensures forall i, j | 0 <= i < j < |s + [snap]| :: (s + [snap])[i].id != (s + [snap])[j].id
  {
  }

  lemma LinksKept(s: seq<Snapshot>, snap: Snapshot)
    requires forall i | 0 <= i < |s| :: LinkOk(s, i)
    requires snap.body.source.Some? ==> exists j :: 0 <= j < |s| && s[j].id == snap.body.source.value
    ensures forall i | 0 <= i < |s + [snap]| :: LinkOk(s + [snap], i)
  {
    var n := s + [snap];
    forall i | 0 <= i < |n| ensures LinkOk(n, i) {
      if i < |s| {
        assert LinkOk(s, i);
        if s[i].body.source.Some? {
          var j :| 0 <= j < i && s[j].id == s[i].body.source.value;
          assert n[j].id == n[i].body.source.value;
        }
      } else if snap.body.source.Some? {
        var j :| 0 <= j < |s| && s[j].id == snap.body.source.value;
        assert n[j].id == n[i].body.source.value;
      }
    }
  }

  lemma AddSnapshotTimelines(w: World, p: Id, snap: Snapshot)
    requires Inv(w) && p in w.live && p in w.timelines && snap.id == w.nextId && snap.projectId == p
    requires BranchOk(snap.body.branch, w.timelines[p].branchSeq)
    requires snap.body.source.Some? ==>
      exists j :: 0 <= j < |w.timelines[p].snapshots| && w.timelines[p].snapshots[j].id == snap.body.source.value
    ensures TimelinesOk(AddSnapshot(w, p, snap))
  {
    hide StateOk, BranchOk, TimelineOk, Recorded;
    var v := AddSnapshot(w, p, snap);
    forall q | q in v.timelines ensures TimelineOk(v.timelines[q], q, v.owner, v.states) {
      assert TimelineOk(w.timelines[q], q, w.owner, w.states);
      if q == p {
        RecordedOk(w.timelines[p], p, w.owner, w.states, snap, v.owner, v.states);
      } else {
        TimelineGrows(w.timelines[q], q, w.owner, w.states, v.owner, v.states);
      }
    }
  }

  lemma AddSnapshotOk(w: World, p: Id, snap: Snapshot)
    requires Inv(w) && p in w.live && p in w.timelines && snap.id == w.nextId && snap.projectId == p
    requires BranchOk(snap.body.branch, w.timelines[p].branchSeq)
    requires snap.body.source.Some? ==>
      exists j :: 0 <= j < |w.timelines[p].snapshots| && w.timelines[p].snapshots[j].id == snap.body.source.value
    ensures Inv(AddSnapshot(w, p, snap))
  {
    hide StateOk, BranchOk, TimelineOk, Recorded, Exclusive, RunAs;
    var v, c := AddSnapshot(w, p, snap), Claim(w, p, 1);
    ClaimOk(w, p, 1);
    AddSnapshotTimelines(w, p, snap);
    assert StatesOk(v) && LeasesOk(v);
    hide StatesOk, TimelinesOk, LeasesOk;
    forall r | r in v.execs ensures ExecOk(v, r) {
      assert ExecOk(c, r);
    }
  }

  lemma TimelineGrows(tl: Timeline, p: Id, owner: map<Id, Id>, states: map<Id, ProjectState>, owner': map<Id, Id>,
                      states': map<Id, ProjectState>)
    requires TimelineOk(tl, p, owner, states)
    requires forall i | i in owner :: i in owner' && owner'[i] == owner[i]
    requires forall s | s in states :: s in states'
    ensures TimelineOk(tl, p, owner', states')
  {
    hide BranchOk, LinkOk;
  }

  // ----- Rollback -----------------------------------------------------------------------

  lemma BranchLater(b: string, m: nat, n: nat)
    requires BranchOk(b, m) && m <= n
    ensures BranchOk(b, n)
  {
    if b != "main" {
      var base, k :| 0 <= k <= m && b == RollbackName(base, k);
    }
  }

  lemma RollbackNameOk(base: string, n: nat)
    requires base != "" && TrimSpace(base) == base
    ensures BranchOk(RollbackName(base, n), n)
  {
    var b := RollbackName(base, n);
    TrimmedEdges(base);
    var d := Decimal(n);
    assert b[0] == base[0] && b[|b|-1] == d[|d|-1];
    assert IsDigit(d[|d|-1]);
    EdgesStay(b);
  }

  lemma RestoredOk(state: ProjectState, now: Time, p: Id)
    requires ProjectOk(state, p)
    ensures ProjectOk(Restored(state, now), p)
    ensures forall x | Uses(Restored(state, now), x) :: Uses(state, x)
  {
    assert ContextIds(map[]) == {};
  }

  lemma BranchSeqTimeline(tl: Timeline, p: Id, owner: map<Id, Id>, states: map<Id, ProjectState>)
    requires TimelineOk(tl, p, owner, states)
    ensures TimelineOk(tl.(branchSeq := tl.branchSeq + 1), p, owner, states)
  {
    hide StateOk, BranchOk, LinkOk;
    BranchLater(tl.branch, tl.branchSeq, tl.branchSeq + 1);
    forall i | 0 <= i < |tl.snapshots| ensures BranchOk(tl.snapshots[i].body.branch, tl.branchSeq + 1) {
      BranchLater(tl.snapshots[i].body.branch, tl.branchSeq, tl.branchSeq + 1);
    }
  }

  lemma BranchSeqOk(w: World, p: Id)
    requires Inv(w) && p in w.timelines
    ensures Inv(w.(timelines := w.timelines[p := w.timelines[p].(branchSeq := w.timelines[p].branchSeq + 1)]))
  {
    hide StateOk, TimelineOk, Exclusive, RunAs;
    var tl := w.timelines[p];
    var v := w.(timelines := w.timelines[p := tl.(branchSeq := tl.branchSeq + 1)]);
    BranchSeqTimeline(tl, p, w.owner, w.states);
    assert StatesOk(v) && TimelinesOk(v) && LeasesOk(v);
    hide StatesOk, TimelinesOk, LeasesOk;
    forall r | r in v.execs ensures ExecOk(v, r) {
      assert ExecOk(w, r);
    }
  }

  // Dropping overrides and faults harms nothing.
  lemma DropLeasesOk(w: World, overrides: map<Id, seq<Override>>, faults: map<Id, string>)
    requires Inv(w) && overrides.Keys <= w.overrides.Keys
    requires forall p | p in overrides :: overrides[p] == w.overrides[p]
    ensures Inv(w.(overrides := overrides, faults := faults))
  {
    var v := w.(overrides := overrides, faults := faults);
    hide StateOk, TimelineOk, Exclusive, RunAs;
    assert StatesOk(v) && TimelinesOk(v) && LeasesOk(v);
    hide StatesOk, TimelinesOk, LeasesOk;
    forall r | r in v.execs ensures ExecOk(v, r) {
      assert ExecOk(w, r);
    }
  }

  lemma RestoreProjectOk(w: World, p: Id, s: Id, now: Time)
    requires Inv(w) && p in w.live && s in w.states && w.owner[s] == p
    ensures Inv(RestoreProject(w, p, w.states[s], now))
  {
    var ps := Restored(w.states[s], now);
    assert StateOk(w.states[s], p, w.owner);
    RestoredOk(w.states[s], now, p);
    hide ProjectOk, StatesOk, TimelinesOk, LeasesOk, Restored;
    forall r | r in w.execs && w.execs[r].projectId == p ensures RunAs(ps, r, w.execs[r].taskId) {
      assert ExecOk(w, r);
      RestoredRuns(w.states[s], now);
    }
    PutOk(w, p, ps);
    hide Inv;
    DropLeasesOk(Put(w, p, ps), w.overrides - {p}, w.faults - Elements(w.live[p].tasks.order));
  }

  lemma RestoredRuns(state: ProjectState, now: Time)
    ensures Restored(state, now).runs == state.runs
  {
  }

  lemma SnapshotFound(tl: Timeline, p: Id, owner: map<Id, Id>, states: map<Id, ProjectState>, id: Id)
    requires TimelineOk(tl, p, owner, states) && FindById(tl.snapshots, id).Some?
    ensures FindById(tl.snapshots, id).value.id == id && id in states && id in owner && owner[id] == p
    ensures BranchOk(FindById(tl.snapshots, id).value.body.branch, tl.branchSeq)
    ensures exists j :: 0 <= j < |tl.snapshots| && tl.snapshots[j] == FindById(tl.snapshots, id).value
  {
    FindByIdIn(tl.snapshots, id);
    var snap := FindById(tl.snapshots, id).value;
    var j :| 0 <= j < |tl.snapshots| && tl.snapshots[j] == snap;
  }

  lemma TimelineOf(w: World, p: Id)
    requires Inv(w) && p in w.timelines
    ensures p in w.live && TimelineOk(w.timelines[p], p, w.owner, w.states)
  {
  }

  lemma RollbackToStep(w: World, p: Id, id: Id, reason: string, now: Time)
    requires Inv(w) && p in w.live && p in w.timelines
    ensures Inv(RollbackTo(w, p, id, reason, now).world)
  {
    hide Inv, BranchOk, TimelineOk, RestoreProject, AddSnapshot, TrimSpace, RollbackBranch, RollbackName, CurrentBranch;
    var tl := w.timelines[p];
    TimelineOf(w, p);
    if FindById(tl.snapshots, id).Some? && id in w.states {
      SnapshotFound(tl, p, w.owner, w.states, id);
      var snap := FindById(tl.snapshots, id).value;
      var branch := RollbackBranch(tl, snap.body.branch);
      var w0 := w.(timelines := w.timelines[p := tl.(branchSeq := tl.branchSeq + 1)]);
      BranchSeqOk(w, p);
      RestoreProjectOk(w0, p, id, now);
      RestoreKeeps(w0, p, id, now);
      RollbackBranchOk(tl, snap.body.branch);
      AddSnapshotOk(RestoreProject(w0, p, w.states[id], now), p,
                    Record(w.nextId, p, SnapshotBody(branch, Some(id), TrimSpace(reason), snap.body.stable, now)));
    }
  }

  lemma RestoreKeeps(w: World, p: Id, s: Id, now: Time)
    requires p in w.live && s in w.states
    ensures var v := RestoreProject(w, p, w.states[s], now);
      p in v.live && v.timelines == w.timelines && v.nextId == w.nextId && v.states == w.states
  {
  }

  lemma RollbackBranchOk(tl: Timeline, base: string)
    requires BranchOk(base, tl.branchSeq)
    ensures RollbackBranch(tl, base) == RollbackName(base, tl.branchSeq + 1)
    ensures BranchOk(RollbackBranch(tl, base), tl.branchSeq + 1) && TrimSpace(RollbackBranch(tl, base)) != ""
  {
    RollbackNameOk(base, tl.branchSeq + 1);
  }

  lemma RollbackStep(w: World, p: Id, id: Option<Id>, reason: string, now: Time)
    requires Inv(w)
    ensures Inv(Rollback(w, p, id, reason, now).world)
  {
    hide Inv, RollbackTo;
    if p in w.live && p in w.timelines && id.Some? {
      RollbackToStep(w, p, id.value, if TrimSpace(reason) == "" then MANUAL_ROLLBACK else TrimSpace(reason), now);
    }
  }

  // ----- Merging ------------------------------------------------------------------------

  lemma SettledShared(ps: ProjectState, box: Sandbox, status: SandboxStatus, failure: string, now: Time, later: Time,
                      p: Id)
    requires ProjectOk(ps, p) && box.projectId == p && box.id !in Ids(ps.sandboxes) && box.body.scope == Shared
    ensures var n := SettleShared(Touch(AddSandbox(ps, box), now), box, status, failure, later);
      && ProjectOk(n, p) && n.runs == ps.runs && n.contracts == ps.contracts && n.tasks == ps.tasks
      && forall x | Uses(n, x) :: Uses(ps, x) || x == box.id
  {
    hide ProjectOk;
    var ps1 := AddSandbox(ps, box);
    AddSharedOk(ps, box, p);
    TouchOk(ps1, now, p);
    IdsAppend(ps.sandboxes, box);
    var b := box.(body := box.body.(status := status, failure := failure, updatedAt := later));
    PutSharedOk(Touch(ps1, now), b, p);
    SandboxesFiled(ps1, p);
    PutKeepsIds(ps1.sandboxes, b, p);
  }

  lemma SandboxesFiled(ps: ProjectState, p: Id)
    requires ProjectOk(ps, p)
    ensures Filed(ps.sandboxes, p)
  {
  }

  lemma GateBlockedStep(w: World, p: Id, box: Sandbox, c: Contract, now: Time, later: Time)
    requires Inv(w) && p in w.live && box.projectId == p && box.id == w.nextId && box.body.scope == Shared
    requires c in w.live[p].contracts
    ensures Inv(GateBlocked(w, p, box, c, now, later))
  {
    hide Inv, ProjectOk, SettleShared;
    var ps := w.live[p];
    var ps1 := SettleShared(Touch(AddSandbox(ps, box), now), box, Broken, GATE_FAILURE, later);
    LiveOk(w, p);
    Fresh(w, p, w.nextId);
    Fresh(w, p, w.nextId + 1);
    SettledShared(ps, box, Broken, GATE_FAILURE, now, later, p);
    ReworkOk(ps1, c, w.nextId + 1, later, p);
    var after := AddTask(ps1, ReworkTask(ps1, c, w.nextId + 1, later));
    SameRuns(w, p, after);
    CommitOk(w, p, after, 2);
  }

  lemma SharedStep(w: World, p: Id, box: Sandbox, status: SandboxStatus, failure: string, now: Time, later: Time)
    requires Inv(w) && p in w.live && box.projectId == p && box.id == w.nextId && box.body.scope == Shared
    ensures var v := SharedMade(w, p, box, status, failure, now, later);
      Inv(v) && p in v.live && v.timelines == w.timelines
  {
    hide Inv, ProjectOk, SettleShared;
    var after := SettleShared(Touch(AddSandbox(w.live[p], box), now), box, status, failure, later);
    LiveOk(w, p);
    Fresh(w, p, w.nextId);
    SettledShared(w.live[p], box, status, failure, now, later, p);
    SameRuns(w, p, after);
    CommitOk(w, p, after, 1);
  }

  lemma MergeUndoneStep(w: World, p: Id, later: Time)
    requires Inv(w) && p in w.live && p in w.timelines
    ensures Inv(MergeUndone(w, p, later))
  {
    hide Inv, RollbackTo;
    if w.timelines[p].stable.Some? {
      RollbackToStep(w, p, w.timelines[p].stable.value, INTEGRATION_FAILURE, later);
    }
  }

  lemma MergeRecordedStep(w: World, p: Id, later: Time)
    requires Inv(w) && p in w.live && p in w.timelines
    ensures Inv(MergeRecorded(w, p, later))
  {
    hide Inv, BranchOk, TimelineOk;
    TimelineOf(w, p);
    var tl := w.timelines[p];
    TimelineBranch(tl, p, w.owner, w.states);
    AddSnapshotOk(w, p,
                  Record(w.nextId, p,
                         SnapshotBody(CurrentBranch(tl), LatestSnapshot(tl), TrimSpace(MERGE_CHECKPOINT), true,
                                      later)));
  }

  lemma TimelineBranch(tl: Timeline, p: Id, owner: map<Id, Id>, states: map<Id, ProjectState>)
    requires TimelineOk(tl, p, owner, states)
    ensures CurrentBranch(tl) == tl.branch && BranchOk(tl.branch, tl.branchSeq) && TrimSpace(tl.branch) != ""
    ensures LatestSnapshot(tl).Some? ==>
      exists j :: 0 <= j < |tl.snapshots| && tl.snapshots[j].id == LatestSnapshot(tl).value
  {
    if tl.snapshots != [] {
      assert tl.snapshots[|tl.snapshots|-1].id == LatestSnapshot(tl).value;
    }
  }

  lemma MergeGateStep(w: World, p: Id, i: MergeInput, box: Sandbox, contract: Option<Contract>, now: Time, later: Time)
    requires Inv(w) && p in w.live && p in w.timelines && box.projectId == p && box.id == w.nextId
    requires box.body.scope == Shared
    requires contract.Some? ==> contract.value in w.live[p].contracts
    ensures Inv(MergeGate(w, p, i, box, contract, now, later))
  {
    hide Inv, GateBlocks, GateBlocked, SharedMade, MergeUndone, MergeRecorded;
    if GateBlocks(i, contract) {
      GateHasContract(i, contract);
      GateBlockedStep(w, p, box, contract.value, now, later);
    } else {
      SharedStep(w, p, box, Broken, MANIFEST_FAILURE, now, later);
      SharedStep(w, p, box, Broken, SIMULATED_FAILURE, now, later);
      SharedStep(w, p, box, Released, "", now, later);
      MergeUndoneStep(SharedMade(w, p, box, Broken, SIMULATED_FAILURE, now, later), p, later);
      MergeRecordedStep(SharedMade(w, p, box, Released, "", now, later), p, later);
    }
  }

  lemma GateHasContract(i: MergeInput, contract: Option<Contract>)
    requires GateBlocks(i, contract)
    ensures contract.Some?
  {
  }

  lemma MergeStep(w: World, p: Id, i: MergeInput, now: Time, later: Time)
    requires Inv(w)
    ensures Inv(Merge(w, p, i, now, later).world)
  {
    hide Inv, PickMerge, MergeGate, MergeContract;
    if p in w.live && p in w.timelines && PickMerge(w.live[p], i.ids).Ok? && MergeContract(w.live[p], i).Ok? {
      MergeContractListed(w.live[p], i);
      MergeGateStep(w, p, i, SharedBox(w, p, PickMerge(w.live[p], i.ids).value.tasks, now),
                    MergeContract(w.live[p], i).value, now, later);
    }
  }

  lemma MergeContractListed(ps: ProjectState, i: MergeInput)
    requires MergeContract(ps, i).Ok?
    ensures MergeContract(ps, i).value.Some? ==> MergeContract(ps, i).value.value in ps.contracts
  {
    if ResolveContract(ps, i.contractId).Ok? {
      ContractResolved(ps, i.contractId);
    }
  }

  // ----- Every step, every run ----------------------------------------------------------

  lemma ProjectAddedStates(w: World, p: Id, ps: ProjectState)
    requires Inv(w) && p == w.nextId && ProjectOk(ps, p) && forall x :: !Uses(ps, x)
    ensures StatesOk(Put(Claim(w, p, 1), p, ps))
  {
    hide ProjectOk, StateOk, TimelinesOk, LeasesOk, ExecOk;
    var v := Put(Claim(w, p, 1), p, ps);
    assert StateOk(ps, p, v.owner) by {
      Unused(ps, p, v.owner);
    }
    forall q | q in v.live ensures StateOk(v.live[q], q, v.owner) {
      if q != p {
        OwnedGrows(w.live[q], q, w.owner, v.owner);
      }
    }
    forall s | s in v.states ensures StateOk(v.states[s], v.owner[s], v.owner) {
      OwnedGrows(w.states[s], w.owner[s], w.owner, v.owner);
    }
  }

  lemma Unused(ps: ProjectState, p: Id, owner: map<Id, Id>)
    requires ProjectOk(ps, p) && forall x :: !Uses(ps, x)
    ensures StateOk(ps, p, owner)
  {
    hide ProjectOk;
  }

  lemma NewTimelineOk(tl: Timeline, p: Id, owner: map<Id, Id>, states: map<Id, ProjectState>)
    requires tl == Timeline([], "main", None, 0)
    ensures TimelineOk(tl, p, owner, states)
  {
    EdgesStay("main");
  }

  lemma ProjectAdded(w: World, p: Id, ps: ProjectState, tl: Timeline)
    requires Inv(w) && p == w.nextId && ProjectOk(ps, p) && forall x :: !Uses(ps, x)
    requires tl == Timeline([], "main", None, 0)
    ensures var v := Put(Claim(w, p, 1), p, ps); Inv(v.(timelines := v.timelines[p := tl]))
  {
    hide ProjectOk, StateOk, TimelineOk, StatesOk, TimelinesOk, LeasesOk, ExecOk;
    ProjectAddedStates(w, p, ps);
    var v0 := Put(Claim(w, p, 1), p, ps);
    var v := v0.(timelines := v0.timelines[p := tl]);
    ProjectAddedTimelines(w, p, ps, tl);
    ProjectAddedRest(w, p, ps, tl);
    StatesSame(v0, v);
  }

  lemma StatesSame(w: World, v: World)
    requires StatesOk(w) && v == w.(timelines := v.timelines)
    ensures StatesOk(v)
  {
    hide StateOk;
  }

  lemma ProjectAddedTimelines(w: World, p: Id, ps: ProjectState, tl: Timeline)
    requires Inv(w) && p == w.nextId && tl == Timeline([], "main", None, 0)
    ensures var v := Put(Claim(w, p, 1), p, ps); TimelinesOk(v.(timelines := v.timelines[p := tl]))
  {
    hide StatesOk, LeasesOk, ExecOk, TimelineOk;
    var v0 := Put(Claim(w, p, 1), p, ps);
    var v := v0.(timelines := v0.timelines[p := tl]);
    NewTimelineOk(tl, p, v.owner, v.states);
    forall q | q in v.timelines ensures TimelineOk(v.timelines[q], q, v.owner, v.states) {
      if q != p {
        TimelineGrows(w.timelines[q], q, w.owner, w.states, v.owner, v.states);
      }
    }
  }

  lemma ProjectAddedRest(w: World, p: Id, ps: ProjectState, tl: Timeline)
    requires Inv(w) && p == w.nextId
    ensures var v0 := Put(Claim(w, p, 1), p, ps); var v := v0.(timelines := v0.timelines[p := tl]);
      LeasesOk(v) && forall r | r in v.execs :: ExecOk(v, r)
  {
    hide StateOk, TimelinesOk, Exclusive;
    var v0 := Put(Claim(w, p, 1), p, ps);
    var v := v0.(timelines := v0.timelines[p := tl]);
    assert p !in w.live;
    forall r | r in v.execs ensures ExecOk(v, r) {
      assert ExecOk(w, r);
    }
  }

  lemma CreateProjectStep(w: World, name: string, description: string, now: Time)
    requires Inv(w)
    ensures Inv(CreateProject(w, name, description, now).world)
  {
    hide Inv, ProjectOk;
    if CreateProject(w, name, description, now).refused.None? {
      var ps := EmptyProject(w.nextId, TrimSpace(name), TrimSpace(description), now);
      EmptyOk(ps, w.nextId);
      ProjectAdded(w, w.nextId, ps, Timeline([], "main", None, 0));
    }
  }

  lemma EmptyOk(ps: ProjectState, p: Id)
    requires ps == EmptyProject(p, ps.project.name, ps.project.description, ps.project.createdAt)
    ensures ProjectOk(ps, p) && forall x :: !Uses(ps, x)
  {
    assert ContextIds(map[]) == {};
  }

  lemma StartPreviewStep(w: World, p: Id, now: Time)
    requires Inv(w)
    ensures Inv(StartPreview(w, p, now).world)
  {
    hide ProjectOk, Inv, LatestShared;
    if p in w.live {
      LiveOk(w, p);
      TouchOk(w.live[p], now, p);
      SameRuns(w, p, Touch(w.live[p], now));
      CommitOk(w, p, Touch(w.live[p], now), 1);
      PreviewsOk(Put(Claim(w, p, 1), p, Touch(w.live[p], now)), StartPreview(w, p, now).world.previews);
    }
  }

  lemma PreviewsOk(w: World, previews: map<Id, seq<Preview>>)
    requires Inv(w)
    ensures Inv(w.(previews := previews))
  {
    hide ProjectOk, StateOk, TimelineOk;
    var v := w.(previews := previews);
    forall r | r in v.execs ensures ExecOk(v, r) {
      assert ExecOk(w, r);
    }
  }

  // Every step keeps the invariant, whatever the environment does.
  lemma StepOk(w: World, e: Event)
    requires Inv(w)
    ensures Inv(Step(w, e))
  {
    hide Inv, CreateProject, Machine.AddRequirement, Machine.GeneratePlan, GenerateContract, GenerateTaskContext,
      DispatchTasks, ValidateContract, RetryTask, MarkFault, ApplyHumanOverride, ApplyCodeLock, StartRun, StartParallel,
      Prepare, CheckFault, Checkpoint, Break, Complete, Fail, Merge, Rollback, StartPreview;
    match e
    case EvCreateProject(name, description, now) => CreateProjectStep(w, name, description, now);
    case EvAddRequirement(p, title, content, now) => AddRequirementStep(w, p, title, content, now);
    case EvGeneratePlan(p, now) => GeneratePlanStep(w, p, now);
    case EvGenerateContract(p, now) => GenerateContractStep(w, p, now);
    case EvGenerateTaskContext(p, taskId, now) => GenerateTaskContextStep(w, p, taskId, now);
    case EvDispatchTasks(p, now) => DispatchTasksStep(w, p, now);
    case EvValidateContract(p, contractId, endpoints, schemas, now) => ValidateContractStep(w, p, contractId, endpoints,
        schemas, now);
    case EvRetryTask(p, taskId, now) => RetryTaskStep(w, p, taskId, now);
    case EvMarkFault(p, taskId, reason) => MarkFaultStep(w, p, taskId, reason);
    case EvApplyHumanOverride(p, i, now) => ApplyHumanOverrideStep(w, p, i, now);
    case EvApplyCodeLock(p, i, now) => ApplyCodeLockStep(w, p, i, now);
    case EvStartRun(p, taskId, allowed, made, now) => StartRunStep(w, p, taskId, allowed, made, now);
    case EvStartParallel(p, ids, allowed, unmade, now) => StartParallelStep(w, p, ids, allowed, unmade, now);
    case EvPrepare(r) => PrepareStep(w, r);
    case EvCheckFault(r) => CheckFaultStep(w, r);
    case EvCheckpoint(r, now) => CheckpointStep(w, r, now);
    case EvBreak(r, failure) => BreakStep(w, r, failure);
    case EvComplete(r, uri, usage, summary, now) => CompleteStep(w, r, uri, usage, summary, now);
    case EvFail(r, usage, now) => FailStep(w, r, usage, now);
    case EvMerge(p, i, now, later) => MergeStep(w, p, i, now, later);
    case EvRollback(p, id, reason, now) => RollbackStep(w, p, id, reason, now);
    case EvStartPreview(p, now) => StartPreviewStep(w, p, now);
  }

  lemma MarkFaultStep(w: World, p: Id, taskId: Option<Id>, reason: string)
    requires Inv(w)
    ensures Inv(MarkFault(w, p, taskId, reason).world)
  {
    hide Inv;
    FaultsOk(w, MarkFault(w, p, taskId, reason).world.faults);
  }

  // The invariant holds in every reachable state, for every sequence of events.
  lemma {:induction false} RunOk(w: World, events: seq<Event>)
    requires Inv(w)
    ensures Inv(After(w, events))
  {
    hide Inv, Step;
    if events == [] {
    } else {
      RunOk(w, events[..|events|-1]);
      StepOk(After(w, events[..|events|-1]), events[|events|-1]);
    }
  }

  lemma Reachable(events: seq<Event>)
    ensures Inv(After(Init(), events))
  {
    hide Inv, Init, After;
    InitOk();
    RunOk(Init(), events);
  }
}
