// The orchestrator as a state machine.  Every section that runs under the service mutex is one
// atomic step; executors are the goroutines between their locked sections.  Whatever the
// environment decides (inputs, clock, whether a sandbox could be made, how a run ends) is part
// of the event, so a run of the system is a sequence of events.
module Machine {
  import opened Records
  import opened Domain
  import opened Text
  import opened Projects
  import opened Leases
  import CV = ContractValidation

  const MAX_PROJECT_NAME := 256
  const MAX_PROJECT_DESCRIPTION := 4096
  const MAX_REQUIREMENT_TITLE := 512
  const MAX_REQUIREMENT_CONTENT := 65536
  const MAX_OVERRIDE_INSTRUCTION := 8192
  const MAX_OVERRIDE_OPERATOR := 256
  const MAX_OVERRIDE_OWNER := 256
  const MAX_OVERRIDE_LOCK_SCOPE := 64
  const MAX_LOCK_CONTENT := 65536
  const MAX_LOCK_PATH := 1024
  const MAX_LOCK_CREATED_BY := 256
  const MAX_PARALLEL_TASKS := 50

  const RUN_STARTED := "single agent execution started"
  const PARALLEL_STARTED := "parallel execution started"
  const OVERRIDE_REQUESTED := "human override requested by "
  const OVERRIDE_APPLIED := "human override applied at safety checkpoint"
  const MANUAL_ROLLBACK := "manual snapshot rollback"
  const SIMULATED_FAULT := "simulated sandbox failure"
  const NO_RUN := "run not found"
  const NO_TASK := "task not found"
  const NO_PLAN := "plan not found"

  datatype Timeline = Timeline(snapshots: seq<Snapshot>, branch: string, stable: Option<Id>, branchSeq: nat)

  // Where an executor is between two locked sections.
  datatype Phase = Spawned | Prepared | Checked | Armed | Failing(failure: string)
  datatype Executor = Executor(projectId: Id, taskId: Id, phase: Phase)

  // `states` holds the project state of each snapshot; `owner` the project every id was handed
  // out for; `nextId` is the next id, so that new ids are fresh even against snapshots.
  datatype World = World(
    live: map<Id, ProjectState>,
    overrides: map<Id, seq<Override>>,
    locks: map<Id, seq<CodeLock>>,
    queue: map<Id, seq<QueueEntry>>,
    previews: map<Id, seq<Preview>>,
    faults: map<Id, string>,
    timelines: map<Id, Timeline>,
    states: map<Id, ProjectState>,
    execs: map<Id, Executor>,
    owner: map<Id, Id>,
    nextId: Id)

  // The world after a call, and whether the call was refused.
  datatype Reply = Reply(world: World, refused: Option<Error>)

  function Init(): World {
    World(map[], map[], map[], map[], map[], map[], map[], map[], map[], map[], 0)
  }

  function Refuse(w: World, e: Error): Reply {
    Reply(w, Some(e))
  }

  function Grant(owner: map<Id, Id>, p: Id, n: Id, k: nat): (m: map<Id, Id>)
    ensures forall i :: i in m <==> i in owner || n <= i < n + k
    ensures forall i | i in m :: m[i] == if n <= i < n + k then p else owner[i]
  {
    if k == 0 then owner else Grant(owner, p, n, k - 1)[n + k - 1 := p]
  }

  // Hand out k ids to project p.
  function Claim(w: World, p: Id, k: nat): World {
    w.(owner := Grant(w.owner, p, w.nextId, k), nextId := w.nextId + k)
  }

  function Put(w: World, p: Id, ps: ProjectState): World {
    w.(live := w.live[p := ps])
  }

  function PutExec(w: World, r: Id, x: Executor): World {
    w.(execs := w.execs[r := x])
  }

  function DropExec(w: World, r: Id): World {
    w.(execs := w.execs - {r})
  }

  // ----- Requirements, plans, contracts, contexts ---------------------------------------

  function CreateProject(w: World, name: string, description: string, now: Time): Reply {
    if TrimSpace(name) == "" || |TrimSpace(name)| > MAX_PROJECT_NAME
      || |TrimSpace(description)| > MAX_PROJECT_DESCRIPTION then Refuse(w, Invalid)
    else
      var p := w.nextId;
      var w1 := Put(Claim(w, p, 1), p, EmptyProject(p, TrimSpace(name), TrimSpace(description), now));
      Reply(w1.(timelines := w1.timelines[p := Timeline([], "main", None, 0)]), None)
  }

  function AddRequirement(w: World, p: Id, title: string, content: string, now: Time): Reply {
    var (t, c) := (TrimSpace(title), TrimSpace(content));
    if t == "" || c == "" || |t| > MAX_REQUIREMENT_TITLE || |c| > MAX_REQUIREMENT_CONTENT then Refuse(w, Invalid)
    else if p !in w.live then Refuse(w, NotFound)
    else Reply(Put(Claim(w, p, 1), p, Projects.AddRequirement(w.live[p], w.nextId, t, c, now)), None)
  }

  function GeneratePlan(w: World, p: Id, now: Time): Reply {
    if p !in w.live then Refuse(w, NotFound)
    else if w.live[p].requirements == [] then Refuse(w, Invalid)
    else Reply(Put(Claim(w, p, 2), p, Projects.GeneratePlan(w.live[p], w.nextId, w.nextId + 1, now)), None)
  }

  function GenerateContract(w: World, p: Id, now: Time): Reply {
    if p !in w.live then Refuse(w, NotFound)
    else if w.live[p].plans == [] then Refuse(w, Invalid)
    else
      var ps := w.live[p];
      var plan := ps.plans[|ps.plans|-1];
      var req := FindById(ps.requirements, plan.body.requirementId);
      if req.None? then Refuse(w, NotFound)
      else Reply(Put(Claim(w, p, 1), p,
                     AddContract(ps, CV.BuildContract(w.nextId, p, req.value, plan, |ps.contracts| + 1, now), now)),
                 None)
  }

  // The context of a task, from its plan, its contract and the plan's requirement.
  function ContextFor(ps: ProjectState, p: Id, t: Task, id: Id, now: Time): Outcome<Context> {
    var plan := FindById(ps.plans, t.body.planId);
    var contract := TaskContract(ps, t.body);
    if plan.None? then Refused(NotFound)
    else if contract.Refused? then Refused(contract.error)
    else
      var req := FindById(ps.requirements, plan.value.body.requirementId);
      if req.None? then Refused(NotFound)
      else Ok(Record(id, p,
                     ContextBody(t.id, |Get(ps.contexts, t.id)| + 1, plan.value.id, contract.value.id, req.value.id,
                                 now)))
  }

  function GenerateTaskContext(w: World, p: Id, taskId: Option<Id>, now: Time): Reply {
    if p !in w.live then Refuse(w, NotFound)
    else
      var t := ResolveTask(w.live[p], taskId);
      if t.Refused? then Refuse(w, t.error)
      else
        var c := ContextFor(w.live[p], p, t.value, w.nextId, now);
        if c.Refused? then Refuse(w, c.error)
        else Reply(Put(Claim(w, p, 1), p, AddContext(w.live[p], c.value)), None)
  }

  // ----- Tasks --------------------------------------------------------------------------

  function DispatchTasks(w: World, p: Id, now: Time): Reply {
    if p !in w.live then Refuse(w, NotFound)
    else
      var ps := w.live[p];
      if ps.plans == [] || ps.contracts == [] then Refuse(w, Invalid)
      else
        var (plan, contract) := (ps.plans[|ps.plans|-1], ps.contracts[|ps.contracts|-1]);
        if Dispatched(ps.tasks.order, ps.tasks.items, plan.id, contract.id) != [] then Reply(w, None)
        else Reply(Put(Claim(w, p, 3), p, Dispatch(ps, plan, contract, w.nextId, now)), None)
  }

  function ValidateContract(w: World, p: Id, contractId: Option<Id>, endpoints: seq<Endpoint>, schemas: seq<Schema>,
                            now: Time): Reply {
    if p !in w.live then Refuse(w, NotFound)
    else
      var c := ResolveContract(w.live[p], contractId);
      if c.Refused? then Refuse(w, c.error)
      else if endpoints == [] && schemas == [] then Refuse(w, Invalid)
      else if CV.Report(c.value.body, endpoints, schemas) == [] then Reply(w, None)
      else Reply(Put(Claim(w, p, 1), p, Touch(AddTask(w.live[p], ReworkTask(w.live[p], c.value, w.nextId, now)), now)),
                 None)
  }

  function RetryTask(w: World, p: Id, taskId: Option<Id>, now: Time): Reply {
    if p !in w.live then Refuse(w, NotFound)
    else
      var t := ResolveTask(w.live[p], taskId);
      if t.Refused? then Refuse(w, t.error)
      else if t.value.body.status != Failed then Refuse(w, Conflict)
      else Reply(Put(Claim(w, p, 1), p, Touch(AddTask(w.live[p], RetryOf(t.value, w.nextId, now)), now)), None)
  }

  function MarkFault(w: World, p: Id, taskId: Option<Id>, reason: string): Reply {
    if p !in w.live then Refuse(w, NotFound)
    else
      var t := ResolveTask(w.live[p], taskId);
      if t.Refused? then Refuse(w, t.error)
      else
        var why := if TrimSpace(reason) == "" then SIMULATED_FAULT else TrimSpace(reason);
        Reply(w.(faults := w.faults[t.value.id := why]), None)
  }

  // ----- Leases -------------------------------------------------------------------------

  datatype OverrideInput = OverrideInput(taskId: Option<Id>, instruction: string, operator: string, owner: string,
                                         actor: string, lockScope: string, ttl: int)

  function Enqueue(w: World, p: Id, scope: string, resourceId: Id, requested: string, current: string,
                   now: Time): World {
    var w1 := Claim(w, p, 1);
    var entry := Record(w.nextId, p, QueueBody(scope, resourceId, requested, current, true, now));
    w1.(queue := w1.queue[p := Get(w1.queue, p) + [entry]])
  }

  predicate OverrideInputOk(i: OverrideInput) {
    && TrimSpace(i.instruction) != "" && |TrimSpace(i.instruction)| <= MAX_OVERRIDE_INSTRUCTION
  }

  predicate OverrideMetaOk(i: OverrideInput) {
    && |TrimSpace(i.operator)| <= MAX_OVERRIDE_OPERATOR && |TrimSpace(i.owner)| <= MAX_OVERRIDE_OWNER
    && i.ttl >= 0 && |TrimSpace(i.lockScope)| <= MAX_OVERRIDE_LOCK_SCOPE
  }

  function OverrideOf(id: Id, p: Id, taskId: Id, i: OverrideInput, now: Time): Override {
    var operator := TrimSpace(i.operator);
    var owner := FirstNonBlank([i.owner, i.actor, operator]);
    var scope := if TrimSpace(i.lockScope) == "" then "TASK" else TrimSpace(i.lockScope);
    var expires := ExpiresAt(now, i.ttl);
    Record(id, p,
           OverrideBody(taskId, if operator == "" then owner else operator, owner, TrimSpace(i.instruction), scope,
                               if expires.Ok? then Some(expires.value) else None, now, None))
  }

  function ApplyHumanOverride(w: World, p: Id, i: OverrideInput, now: Time): Reply {
    if p !in w.live then Refuse(w, NotFound)
    else
      var t := ResolveTask(w.live[p], i.taskId);
      if t.Refused? then Refuse(w, t.error)
      else if !OverrideInputOk(i) then Refuse(w, Invalid)
      else if !Busy(t.value.body.status) then Refuse(w, Conflict)
      else if !OverrideMetaOk(i) then Refuse(w, Invalid)
      else
        AdmitOverride(w, p, t.value, OverrideOf(w.nextId, p, t.value.id, i, now), now)
  }

  // Queue a conflict when another owner holds the scope; otherwise record the override and hand
  // the task over.
  function AdmitOverride(w: World, p: Id, t: Task, o: Override, now: Time): Reply
    requires p in w.live
  {
    var l := OverrideLease(o.body);
    var s := Get(w.overrides, p);
    var clash := FirstClash(OverrideLeases(s), l.scope, o.body.owner, now);
    if clash.Some? then
      var w1 := Enqueue(w, p, l.scope.name, s[clash.value].id, o.body.owner, OverrideOwner(s[clash.value].body), now);
      Refuse(Put(w1, p, Touch(w.live[p], now)), Conflict)
    else
      var moved := MovedOrSame(t.body, HumanOverride, OVERRIDE_REQUESTED + o.body.operator, now);
      var w1 := Put(Claim(w, p, 1), p, Touch(PutTask(w.live[p], t.(body := moved)), now));
      Reply(w1.(overrides := w1.overrides[p := s + [o]]), None)
  }

  datatype LockInput = LockInput(
    taskId: Option<Id>, path: string, content: string, mode: string, symbolKind: string, symbolName: string,
    symbolOk: bool,
    createdBy: string, owner: string, actor: string, ttl: int)

  // The checks of ApplyCodeLock; `symbolOk` is the verdict of the Go parser on a symbol lock.
  predicate LockInputOk(i: LockInput) {
    var path := TrimSpace(i.path);
    && path != "" && |path| <= MAX_LOCK_PATH && path[0] != '/' && !Contains(path, "..")
    && TrimSpace(i.content) != "" && |i.content| <= MAX_LOCK_CONTENT && Contains(i.content, "LOCKED BY HUMAN")
    && NormalMode(i.mode) != "" && |TrimSpace(i.createdBy)| <= MAX_LOCK_CREATED_BY
    && (NormalMode(i.mode) == "file" || i.symbolOk)
  }

  function LockOf(id: Id, p: Id, i: LockInput, now: Time): CodeLock {
    var createdBy := TrimSpace(i.createdBy);
    var owner := FirstNonBlank([i.owner, i.actor, createdBy]);
    var expires := ExpiresAt(now, i.ttl);
    Record(id, p,
           LockBody(i.taskId, TrimSpace(i.path), i.content, NormalMode(i.mode), TrimSpace(i.symbolKind),
                    TrimSpace(i.symbolName),
                           if createdBy == "" then owner else createdBy, owner,
                           if expires.Ok? then Some(expires.value) else None, now))
  }

  function ApplyCodeLock(w: World, p: Id, i: LockInput, now: Time): Reply {
    if p !in w.live then Refuse(w, NotFound)
    else if !LockInputOk(i) then Refuse(w, Invalid)
    else if i.taskId.Some? && ResolveTask(w.live[p], i.taskId).Refused? then Refuse(w, NotFound)
    else if i.ttl < 0 then Refuse(w, Invalid)
    else
      AdmitLock(w, p, LockOf(w.nextId, p, i, now), now)
  }

  // Queue a conflict when another owner holds the scope; otherwise register the lock.
  function AdmitLock(w: World, p: Id, l: CodeLock, now: Time): Reply
    requires p in w.live
  {
    var s := Get(w.locks, p);
    var clash := FirstClash(LockLeases(s), LockScope(LockKey(l.body)), LockOwner(l.body), now);
    if clash.Some? then
      var w1 := Enqueue(Claim(w, p, 1), p, LockKey(l.body), s[clash.value].id, LockOwner(l.body),
                        LockOwner(s[clash.value].body), now);
      Refuse(Put(w1, p, Touch(w.live[p], now)), Conflict)
    else
      var w1 := Put(Claim(w, p, 1), p, Touch(w.live[p], now));
      Reply(w1.(locks := w1.locks[p := s + [l]]), None)
  }

  // ----- Runs ---------------------------------------------------------------------------

  // StartRun.  `allowed` is the verdict of the token budget gate, `made` whether the sandbox
  // workspace could be created; when it could not, the task stays behind as FAILED.
  function StartRun(w: World, p: Id, taskId: Option<Id>, allowed: bool, made: bool, now: Time): Reply {
    if p !in w.live then Refuse(w, NotFound)
    else
      var t := ResolveTask(w.live[p], taskId);
      if t.Refused? then Refuse(w, t.error)
      else if !allowed then Refuse(w, Conflict)
      else
        var r := StartTaskRun(w.live[p], t.value, w.nextId, w.nextId + 1, made, RUN_STARTED, now);
        if r.Refused? then Refuse(w, r.error)
        else if !made then Refuse(Put(Claim(w, p, 2), p, r.value), Internal)
        else Reply(PutExec(Put(Claim(w, p, 2), p, r.value), w.nextId + 1, Executor(p, t.value.id, Spawned)), None)
  }

  function Spawn(execs: map<Id, Executor>, ps: ProjectState, p: Id, runs: seq<Id>): map<Id, Executor> {
    execs + (map r | r in runs && r in ps.runs.items :: Executor(p, ps.runs.items[r].body.taskId, Spawned))
  }

  // StartParallelRun.  When a sandbox cannot be made in the middle of the batch, the tasks
  // started before it keep their RUNNING runs but get no executor.
  function StartParallel(w: World, p: Id, ids: seq<Option<Id>>, allowed: bool, unmade: set<Id>, now: Time): Reply {
    if |ids| > MAX_PARALLEL_TASKS then Refuse(w, Invalid)
    else if p !in w.live then Refuse(w, NotFound)
    else
      var picked := Pick(w.live[p], ids);
      if picked.Refused? then Refuse(w, picked.error)
      else if !allowed then Refuse(w, Conflict)
      else
        var b := StartEach(w.live[p], picked.value.selected, unmade, w.nextId, PARALLEL_STARTED, now);
        var w1 := Put(Claim(w, p, b.next - w.nextId), p, b.ps);
        if b.whole then Reply(w1.(execs := Spawn(w.execs, b.ps, p, b.runs)), None) else Refuse(w1, Internal)
  }

  // ----- Executors ----------------------------------------------------------------------

  predicate At(w: World, r: Id, phase: Phase) {
    r in w.execs && w.execs[r].phase == phase && w.execs[r].projectId in w.live
  }

  function Next(w: World, r: Id, phase: Phase): World
    requires r in w.execs
  {
    PutExec(w, r, w.execs[r].(phase := phase))
  }

  // snapshotForExecution.
  function PreparedBy(x: Executor, ps: ProjectState, r: Id): Executor {
    if r !in ps.runs.items then x.(phase := Failing(NO_RUN))
    else
      var t := ps.runs.items[r].body.taskId;
      if t !in ps.tasks.items then x.(phase := Failing(NO_TASK))
      else if FindById(ps.plans, ps.tasks.items[t].body.planId).None? then x.(phase := Failing(NO_PLAN))
      else x.(taskId := t, phase := Prepared)
  }

  function Prepare(w: World, r: Id): World {
    if !At(w, r, Spawned) then w
    else PutExec(w, r, PreparedBy(w.execs[r], w.live[w.execs[r].projectId], r))
  }

  // sandboxFailureForTask.
  function CheckFault(w: World, r: Id): World {
    if !At(w, r, Prepared) then w
    else
      var t := w.execs[r].taskId;
      var failure := if t in w.faults then TrimSpace(w.faults[t]) else "";
      if failure == "" then Next(w, r, Checked)
      else Next(w.(faults := w.faults - {t}), r, Failing(failure))
  }

  // The task goes on with the k-th override applied.
  function TakeOverride(w: World, p: Id, task: Task, k: nat, now: Time): World
    requires p in w.live && k < |Get(w.overrides, p)|
  {
    var w1 := w.(overrides := w.overrides[p := Applied(Get(w.overrides, p), k, now)]);
    if task.body.status == HumanOverride
    then Put(w1, p, PutTask(w.live[p], task.(body := MovedOrSame(task.body, InProgress, OVERRIDE_APPLIED, now))))
    else w1
  }

  // applyPendingHumanOverrideLocked.
  function Checkpoint(w: World, r: Id, now: Time): World {
    if !At(w, r, Checked) then w
    else
      var p := w.execs[r].projectId;
      var ps := w.live[p];
      if r !in ps.runs.items then Next(w, r, Failing(NO_RUN))
      else if ps.runs.items[r].body.taskId !in ps.tasks.items then Next(w, r, Failing(NO_TASK))
      else
        var task := ps.tasks.items[ps.runs.items[r].body.taskId];
        var k := LatestPending(Get(w.overrides, p), task.id, now);
        if k.None?
        then Next(w, r, Armed)
        else PutExec(TakeOverride(w, p, task, k.value, now), r, w.execs[r].(phase := Armed))
  }

  // The agent, the bundle or the workspace failed outside the mutex.
  function Break(w: World, r: Id, failure: string): World {
    if !At(w, r, Armed) then w else Next(w, r, Failing(failure))
  }

  // The last section of executeRun.
  function Complete(w: World, r: Id, uri: string, usage: Usage, summary: string, now: Time): World {
    if !At(w, r, Armed) then w
    else
      var p := w.execs[r].projectId;
      var ps := Projects.CompleteRun(w.live[p], r, w.execs[r].taskId, w.nextId, uri, usage, summary, now);
      DropExec(Put(Claim(w, p, 1), p, ps), r)
  }

  function Fail(w: World, r: Id, usage: Usage, now: Time): World {
    if r !in w.execs || !w.execs[r].phase.Failing? || w.execs[r].projectId !in w.live then w
    else
      var p := w.execs[r].projectId;
      DropExec(Put(w, p, FailRun(w.live[p], r, w.execs[r].phase.failure, usage, now)), r)
  }

  // ----- Snapshots and rollback ---------------------------------------------------------

  function CurrentBranch(tl: Timeline): string {
    if TrimSpace(tl.branch) == "" then "main" else TrimSpace(tl.branch)
  }

  function LatestSnapshot(tl: Timeline): Option<Id> {
    if tl.snapshots == [] then None else Some(tl.snapshots[|tl.snapshots|-1].id)
  }

  function RollbackBranch(tl: Timeline, base: string): string {
    (if TrimSpace(base) == "" then CurrentBranch(tl) else TrimSpace(base)) + "-rollback-" + Decimal(tl.branchSeq + 1)
  }

  // A timeline after one more snapshot.
  function Recorded(tl: Timeline, snap: Snapshot): Timeline {
    tl.(snapshots := tl.snapshots + [snap], branch := snap.body.branch,
        stable := if snap.body.stable then Some(snap.id) else tl.stable)
  }

  function AddSnapshot(w: World, p: Id, snap: Snapshot): World
    requires p in w.live && p in w.timelines
  {
    var w1 := Claim(w, p, 1);
    w1.(timelines := w.timelines[p := Recorded(w.timelines[p], snap)], states := w.states[snap.id := w.live[p]])
  }

  // recordSnapshotWithWorkspaceLocked for the memory store.
  function RecordSnapshot(w: World, p: Id, branch: string, reason: string, stable: bool, source: Option<Id>,
                          now: Time): World
    requires p in w.live && p in w.timelines
  {
    var b := if TrimSpace(branch) == "" then CurrentBranch(w.timelines[p]) else branch;
    AddSnapshot(w, p, Record(w.nextId, p, SnapshotBody(b, source, TrimSpace(reason), stable, now)))
  }

  // What a rollback makes of a stored state: everything but the contexts, touched.
  function Restored(state: ProjectState, now: Time): ProjectState {
    Touch(state.(contexts := map[]), now)
  }

  // restoreProjectFromSnapshotLocked, clearProjectContextsLocked and the touch after them.
  function RestoreProject(w: World, p: Id, state: ProjectState, now: Time): World
    requires p in w.live
  {
    w.(live := w.live[p := Restored(state, now)], overrides := w.overrides - {p},
       faults := w.faults - Elements(w.live[p].tasks.order))
  }

  // rollbackToSnapshotLocked for the directory workspace.
  function RollbackTo(w: World, p: Id, id: Id, reason: string, now: Time): Reply
    requires p in w.live && p in w.timelines
  {
    var tl := w.timelines[p];
    var snap := FindById(tl.snapshots, id);
    if snap.None? || id !in w.states then Refuse(w, NotFound)
    else
      var branch := RollbackBranch(tl, snap.value.body.branch);
      var w1 := RestoreProject(w.(timelines := w.timelines[p := tl.(branchSeq := tl.branchSeq + 1)]), p, w.states[id],
                               now);
      Reply(RecordSnapshot(w1, p, branch, reason, snap.value.body.stable, Some(id), now), None)
  }

  function Rollback(w: World, p: Id, id: Option<Id>, reason: string, now: Time): Reply {
    if p !in w.live || p !in w.timelines then Refuse(w, NotFound)
    else if id.None? then Refuse(w, Invalid)
    else RollbackTo(w, p, id.value, if TrimSpace(reason) == "" then MANUAL_ROLLBACK else TrimSpace(reason), now)
  }

  // ----- Merging into the shared sandbox ------------------------------------------------

  const GATE_FAILURE := "contract validation failed in shared sandbox gate"
  const MANIFEST_FAILURE := "shared sandbox manifest could not be written"
  const SIMULATED_FAILURE := "simulated shared sandbox integration failure"
  const INTEGRATION_FAILURE := "shared sandbox integration failure"
  const MERGE_CHECKPOINT := "shared sandbox merge checkpoint"

  datatype MergeInput = MergeInput(
    ids: seq<Option<Id>>, contractId: Option<Id>, endpoints: seq<Endpoint>, schemas: seq<Schema>,
    made: bool, manifest: bool, simulateFailure: bool)

  // The contract a merge is checked against.
  function MergeContract(ps: ProjectState, i: MergeInput): Outcome<Option<Contract>> {
    if i.contractId.Some? || i.endpoints != [] || i.schemas != [] then
      var c := ResolveContract(ps, i.contractId);
      if c.Refused? then Refused(c.error) else Ok(Some(c.value))
    else Ok(if ps.contracts == [] then None else Some(ps.contracts[|ps.contracts|-1]))
  }

  function SharedBox(w: World, p: Id, tasks: seq<Id>, now: Time): Sandbox {
    Record(w.nextId, p,
           SandboxBody(Shared, None, if tasks == [] then None else Some(tasks[|tasks|-1]), Active, "", now, now))
  }

  function SettleShared(ps: ProjectState, box: Sandbox, status: SandboxStatus, failure: string,
                        now: Time): ProjectState {
    PutSandbox(ps, box.(body := box.body.(status := status, failure := failure, updatedAt := now)))
  }

  // MergeToSharedSandbox for the directory workspace: `now` is read on entry, `later` when the
  // gate has decided.
  function Merge(w: World, p: Id, i: MergeInput, now: Time, later: Time): Reply {
    if p !in w.live || p !in w.timelines then Refuse(w, NotFound)
    else if i.ids == [] then Refuse(w, Invalid)
    else
      var picked := PickMerge(w.live[p], i.ids);
      var contract := MergeContract(w.live[p], i);
      if picked.Refused? then Refuse(w, picked.error)
      else if contract.Refused? then Refuse(w, contract.error)
      else if !i.made then Refuse(w, Internal)
      else Reply(MergeGate(w, p, i, SharedBox(w, p, picked.value.tasks, now), contract.value, now, later), None)
  }

  predicate GateBlocks(i: MergeInput, contract: Option<Contract>) {
    && contract.Some? && (i.endpoints != [] || i.schemas != [])
    && CV.Report(contract.value.body, i.endpoints, i.schemas) != []
  }

  // The world with the new shared sandbox in the given final state.
  function SharedMade(w: World, p: Id, box: Sandbox, status: SandboxStatus, failure: string, now: Time,
                      later: Time): World
    requires p in w.live
  {
    Put(Claim(w, p, 1), p, SettleShared(Touch(AddSandbox(w.live[p], box), now), box, status, failure, later))
  }

  // ... and a task to resolve the contract conflicts.
  function GateBlocked(w: World, p: Id, box: Sandbox, c: Contract, now: Time, later: Time): World
    requires p in w.live
  {
    var ps := SettleShared(Touch(AddSandbox(w.live[p], box), now), box, Broken, GATE_FAILURE, later);
    Put(Claim(w, p, 2), p, AddTask(ps, ReworkTask(ps, c, w.nextId + 1, later)))
  }

  function MergeGate(w: World, p: Id, i: MergeInput, box: Sandbox, contract: Option<Contract>, now: Time,
                     later: Time): World
    requires p in w.live && p in w.timelines
  {
    if GateBlocks(i, contract) then GateBlocked(w, p, box, contract.value, now, later)
    else if !i.manifest then SharedMade(w, p, box, Broken, MANIFEST_FAILURE, now, later)
    else if i.simulateFailure then MergeUndone(SharedMade(w, p, box, Broken, SIMULATED_FAILURE, now, later), p, later)
    else MergeRecorded(SharedMade(w, p, box, Released, "", now, later), p, later)
  }

  // A failed integration goes back to the latest stable snapshot, if there is one.
  function MergeUndone(w: World, p: Id, later: Time): World {
    if p !in w.live || p !in w.timelines || w.timelines[p].stable.None? then w
    else RollbackTo(w, p, w.timelines[p].stable.value, INTEGRATION_FAILURE, later).world
  }

  function MergeRecorded(w: World, p: Id, later: Time): World {
    if p !in w.live || p !in w.timelines then w
    else RecordSnapshot(w, p, CurrentBranch(w.timelines[p]), MERGE_CHECKPOINT, true, LatestSnapshot(w.timelines[p]),
                        later)
  }

  // ----- Previews -----------------------------------------------------------------------

  // resolveLatestReleasedSharedSandboxLocked.
  function LatestShared(boxes: seq<Sandbox>): (r: Option<Sandbox>)
    ensures r.Some? ==> r.value in boxes && r.value.body.scope == Shared && r.value.body.status == Released
    ensures r.None? ==> forall b | b in boxes :: !(b.body.scope == Shared && b.body.status == Released)
  {
    if boxes == [] then None
    else
      var b := boxes[|boxes|-1];
      if b.body.scope == Shared && b.body.status == Released then Some(b) else LatestShared(boxes[..|boxes|-1])
  }

  // The preview of a shared sandbox; its revision is the sandbox's last change.
  function PreviewOf(id: Id, p: Id, box: Sandbox, now: Time): Preview {
    Record(id, p, PreviewBody(box.id, box.body.updatedAt, now, now))
  }

  function StartPreview(w: World, p: Id, now: Time): Reply {
    if p !in w.live then Refuse(w, NotFound)
    else if LatestShared(w.live[p].sandboxes).None? then Refuse(w, Conflict)
    else
      var preview := PreviewOf(w.nextId, p, LatestShared(w.live[p].sandboxes).value, now);
      var w1 := Put(Claim(w, p, 1), p, Touch(w.live[p], now));
      Reply(w1.(previews := w1.previews[p := Get(w1.previews, p) + [preview]]), None)
  }

  // ----- Runs of the system -------------------------------------------------------------

  datatype Event =
    | EvCreateProject(name: string, description: string, now: Time)
    | EvAddRequirement(p: Id, title: string, content: string, now: Time)
    | EvGeneratePlan(p: Id, now: Time)
    | EvGenerateContract(p: Id, now: Time)
    | EvGenerateTaskContext(p: Id, taskId: Option<Id>, now: Time)
    | EvDispatchTasks(p: Id, now: Time)
    | EvValidateContract(p: Id, contractId: Option<Id>, endpoints: seq<Endpoint>, schemas: seq<Schema>, now: Time)
    | EvRetryTask(p: Id, taskId: Option<Id>, now: Time)
    | EvMarkFault(p: Id, taskId: Option<Id>, reason: string)
    | EvApplyHumanOverride(p: Id, override: OverrideInput, now: Time)
    | EvApplyCodeLock(p: Id, lock: LockInput, now: Time)
    | EvStartRun(p: Id, taskId: Option<Id>, allowed: bool, made: bool, now: Time)
    | EvStartParallel(p: Id, ids: seq<Option<Id>>, allowed: bool, unmade: set<Id>, now: Time)
    | EvPrepare(r: Id)
    | EvCheckFault(r: Id)
    | EvCheckpoint(r: Id, now: Time)
    | EvBreak(r: Id, failure: string)
    | EvComplete(r: Id, uri: string, usage: Usage, summary: string, now: Time)
    | EvFail(r: Id, usage: Usage, now: Time)
    | EvMerge(p: Id, merge: MergeInput, now: Time, later: Time)
    | EvRollback(p: Id, id: Option<Id>, reason: string, now: Time)
    | EvStartPreview(p: Id, now: Time)

  function Step(w: World, e: Event): World {
    match e
    case EvCreateProject(name, description, now) => CreateProject(w, name, description, now).world
    case EvAddRequirement(p, title, content, now) => AddRequirement(w, p, title, content, now).world
    case EvGeneratePlan(p, now) => GeneratePlan(w, p, now).world
    case EvGenerateContract(p, now) => GenerateContract(w, p, now).world
    case EvGenerateTaskContext(p, taskId, now) => GenerateTaskContext(w, p, taskId, now).world
    case EvDispatchTasks(p, now) => DispatchTasks(w, p, now).world
    case EvValidateContract(p, contractId, endpoints, schemas, now) => ValidateContract(w, p, contractId, endpoints,
        schemas, now).world
    case EvRetryTask(p, taskId, now) => RetryTask(w, p, taskId, now).world
    case EvMarkFault(p, taskId, reason) => MarkFault(w, p, taskId, reason).world
    case EvApplyHumanOverride(p, i, now) => ApplyHumanOverride(w, p, i, now).world
    case EvApplyCodeLock(p, i, now) => ApplyCodeLock(w, p, i, now).world
    case EvStartRun(p, taskId, allowed, made, now) => StartRun(w, p, taskId, allowed, made, now).world
    case EvStartParallel(p, ids, allowed, unmade, now) => StartParallel(w, p, ids, allowed, unmade, now).world
    case EvPrepare(r) => Prepare(w, r)
    case EvCheckFault(r) => CheckFault(w, r)
    case EvCheckpoint(r, now) => Checkpoint(w, r, now)
    case EvBreak(r, failure) => Break(w, r, failure)
    case EvComplete(r, uri, usage, summary, now) => Complete(w, r, uri, usage, summary, now)
    case EvFail(r, usage, now) => Fail(w, r, usage, now)
    case EvMerge(p, i, now, later) => Merge(w, p, i, now, later).world
    case EvRollback(p, id, reason, now) => Rollback(w, p, id, reason, now).world
    case EvStartPreview(p, now) => StartPreview(w, p, now).world
  }

  function After(w: World, events: seq<Event>): World {
    if events == [] then w else Step(After(w, events[..|events|-1]), events[|events|-1])
  }
}
