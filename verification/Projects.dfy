// One project's state as the service holds it and as a snapshot stores it, the operations of
// the run/task/sandbox protocol on it, and the invariant the protocol keeps.
module Projects {
  import opened Records
  import opened Domain
  import opened Text

  const DEFAULT_AGENT := "manager-agent-sprint1"

  const NO_WORKSPACE := "sandbox workspace could not be created"
  const RUN_COMPLETED := "single agent execution completed"
  const RUN_FAILED := "single agent execution failed"

  datatype ProjectState = ProjectState(
    project: Project,
    requirements: seq<Requirement>,
    plans: seq<Plan>,
    contracts: seq<Contract>,
    contexts: map<Id, seq<Context>>,
    sandboxes: seq<Sandbox>,
    tasks: Slice<TaskBody>,
    runs: Slice<RunBody>,
    artifacts: Slice<ArtifactBody>)

  function EmptyProject(id: Id, name: string, description: string, now: Time): ProjectState {
    ProjectState(Project(id, name, description, now, now), [], [], [], map[], [], Slice(map[], []), Slice(map[], []),
                 Slice(map[], []))
  }

  function Touch(ps: ProjectState, now: Time): ProjectState {
    ps.(project := ps.project.(updatedAt := now))
  }

  // ----- Lookups ------------------------------------------------------------------------

  predicate Ready(tasks: map<Id, Task>, t: TaskBody) {
    t.status == Created && forall d | d in t.dependsOn :: d in tasks && tasks[d].body.status == Done
  }

  // resolveTaskLocked: a given id, or the newest task when none is given.
  function ResolveTask(ps: ProjectState, taskId: Option<Id>): Outcome<Task> {
    if taskId.Some? then
      if taskId.value in ps.tasks.items then Ok(ps.tasks.items[taskId.value]) else Refused(NotFound)
    else if ps.tasks.order == [] then Refused(Invalid)
    else
      var last := ps.tasks.order[|ps.tasks.order|-1];
      if last in ps.tasks.items then Ok(ps.tasks.items[last]) else Refused(NotFound)
  }

  function FindById<B>(s: seq<Record<B>>, id: Id): Option<Record<B>> {
    if s == [] then None else if s[0].id == id then Some(s[0]) else FindById(s[1..], id)
  }

  // resolveLatestPlanAndContractLocked needs both lists; resolveContractLocked a given or the newest one.
  function ResolveContract(ps: ProjectState, contractId: Option<Id>): Outcome<Contract> {
    if contractId.Some? then
      var c := FindById(ps.contracts, contractId.value);
      if c.Some? then Ok(c.value) else Refused(NotFound)
    else if ps.contracts == [] then Refused(Invalid)
    else Ok(ps.contracts[|ps.contracts|-1])
  }

  // resolveTaskContractLocked: the contract a task refers to, or else the newest.
  function TaskContract(ps: ProjectState, t: TaskBody): Outcome<Contract> {
    var named := if t.inputRef.ContractRef? then FindById(ps.contracts, t.inputRef.id) else None;
    if named.Some? then Ok(named.value)
    else if ps.contracts == [] then Refused(NotFound)
    else Ok(ps.contracts[|ps.contracts|-1])
  }

  function Dispatched(order: seq<Id>, tasks: map<Id, Task>, planId: Id, contractId: Id): seq<Id> {
    if order == [] then [] else
      var rest := Dispatched(order[..|order|-1], tasks, planId, contractId);
      var x := order[|order|-1];
      if x in tasks && tasks[x].body.planId == planId && tasks[x].body.inputRef == ContractRef(contractId)
         && tasks[x].body.kind in {Backend, Frontend, Integration}
      then rest + [x] else rest
  }

  // The latest succeeded run of a task that has an artifact, scanning the run order backwards.
  function LatestArtifact(order: seq<Id>, runs: map<Id, Run>, artifacts: map<Id, Artifact>, taskId: Id): Option<Id> {
    if order == [] then None else
      var x := order[|order|-1];
      if x in runs && runs[x].body.taskId == taskId && runs[x].body.status == Succeeded
         && runs[x].body.artifactIds != [] && runs[x].body.artifactIds[|runs[x].body.artifactIds|-1] in artifacts
      then Some(runs[x].body.artifactIds[|runs[x].body.artifactIds|-1])
      else LatestArtifact(order[..|order|-1], runs, artifacts, taskId)
  }

  // ----- Selection ----------------------------------------------------------------------

  datatype Picked = Picked(selected: seq<Id>, blocked: seq<Id>)

  // The tasks named in a request, each once, split by readiness.
  function PickGiven(ps: ProjectState, ids: seq<Option<Id>>): Outcome<Picked> {
    if ids == [] then Ok(Picked([], []))
    else
      var rest := PickGiven(ps, ids[..|ids|-1]);
      var t := ResolveTask(ps, ids[|ids|-1]);
      if rest.Refused? then rest
      else if t.Refused? then Refused(t.error)
      else if t.value.id in rest.value.selected || t.value.id in rest.value.blocked then rest
      else if Ready(ps.tasks.items, t.value.body) then Ok(rest.value.(selected := rest.value.selected + [t.value.id]))
      else Ok(rest.value.(blocked := rest.value.blocked + [t.value.id]))
  }

  // Without a request: every CREATED task outside SPRINT1, split by readiness.
  function PickAuto(order: seq<Id>, tasks: map<Id, Task>): Picked {
    if order == [] then Picked([], [])
    else
      var rest := PickAuto(order[..|order|-1], tasks);
      var x := order[|order|-1];
      if x !in tasks || tasks[x].body.kind == Sprint1 || tasks[x].body.status != Created then rest
      else if Ready(tasks, tasks[x].body) then rest.(selected := rest.selected + [x])
      else rest.(blocked := rest.blocked + [x])
  }

  // resolveParallelTasksLocked.
  function Pick(ps: ProjectState, ids: seq<Option<Id>>): Outcome<Picked> {
    var r := if ids == [] then Ok(PickAuto(ps.tasks.order, ps.tasks.items)) else PickGiven(ps, ids);
    if r.Ok? && r.value.selected == [] then Refused(Conflict) else r
  }

  datatype Merged = Merged(tasks: seq<Id>, artifacts: seq<Id>)

  // resolveMergeTasksLocked.
  function PickMerge(ps: ProjectState, ids: seq<Option<Id>>): Outcome<Merged> {
    if ids == [] then Ok(Merged([], []))
    else
      var rest := PickMerge(ps, ids[..|ids|-1]);
      var t := ResolveTask(ps, ids[|ids|-1]);
      if rest.Refused? then rest
      else if t.Refused? then Refused(t.error)
      else if t.value.id in rest.value.tasks then rest
      else if t.value.body.status != Done then Refused(Conflict)
      else
        var a := LatestArtifact(ps.runs.order, ps.runs.items, ps.artifacts.items, t.value.id);
        if a.None? then Refused(Conflict)
        else Ok(Merged(rest.value.tasks + [t.value.id], rest.value.artifacts + [a.value]))
  }

  // ----- Operations ---------------------------------------------------------------------

  function AddTask(ps: ProjectState, t: Task): ProjectState {
    ps.(tasks := AddToSlice(ps.tasks, t))
  }

  function PutTask(ps: ProjectState, t: Task): ProjectState {
    ps.(tasks := PutInSlice(ps.tasks, t))
  }

  function AddRequirement(ps: ProjectState, id: Id, title: string, content: string, now: Time): ProjectState {
    Touch(ps.(requirements := ps.requirements + [Record(id, ps.project.id, RequirementBody(title, content, now))]), now)
  }

  function BuildPlan(ps: ProjectState, id: Id, now: Time): Plan
    requires ps.requirements != []
  {
    var req := ps.requirements[|ps.requirements|-1];
    Record(id, ps.project.id, PlanBody(req.id, |ps.plans| + 1, req.body.title, now))
  }

  function GeneratePlan(ps: ProjectState, planId: Id, taskId: Id, now: Time): ProjectState
    requires ps.requirements != []
  {
    var plan := BuildPlan(ps, planId, now);
    var task := NewTask(taskId, ps.project.id, planId, "Implement " + plan.body.title, Sprint1, DEFAULT_AGENT, [],
                        PlanRef(planId), now);
    Touch(AddTask(ps.(plans := ps.plans + [plan]), task), now)
  }

  function AddContract(ps: ProjectState, c: Contract, now: Time): ProjectState {
    Touch(ps.(contracts := ps.contracts + [c]), now)
  }

  function DispatchedTask(ps: ProjectState, id: Id, plan: Plan, contract: Contract, name: string, kind: TaskKind,
                          agent: string, deps: seq<Id>, now: Time): Task {
    NewTask(id, ps.project.id, plan.id, name + plan.body.title, kind, agent, deps, ContractRef(contract.id), now)
  }

  // DispatchTasks with nothing dispatched yet: backend, frontend, and an integration task
  // that depends on both.
  function Dispatch(ps: ProjectState, plan: Plan, contract: Contract, id: Id, now: Time): ProjectState {
    var backend := DispatchedTask(ps, id, plan, contract, "Build backend implementation for ", Backend,
                                  "go-backend-agent", [], now);
    var frontend := DispatchedTask(ps, id + 1, plan, contract, "Build frontend implementation for ", Frontend,
                                   "vue-frontend-agent", [], now);
    var review := DispatchedTask(ps, id + 2, plan, contract, "Merge and verify ", Integration, "integration-agent",
                                 [id, id + 1], now);
    Touch(AddTask(AddTask(AddTask(ps, backend), frontend), review), now)
  }

  function RetryOf(t: Task, id: Id, now: Time): Task {
    NewTask(id, t.projectId, t.body.planId, t.body.name + " (retry)", t.body.kind, t.body.assignee, t.body.dependsOn,
            t.body.inputRef, now)
  }

  function ReworkTask(ps: ProjectState, c: Contract, id: Id, now: Time): Task {
    NewTask(id, ps.project.id, c.body.planId, "Resolve contract conflicts for v" + Decimal(c.body.version), Rework,
            DEFAULT_AGENT, [], ContractRef(c.id), now)
  }

  function AddContext(ps: ProjectState, c: Context): ProjectState {
    ps.(contexts := ps.contexts[c.body.taskId := Get(ps.contexts, c.body.taskId) + [c]])
  }

  function AddSandbox(ps: ProjectState, b: Sandbox): ProjectState {
    ps.(sandboxes := ps.sandboxes + [b])
  }

  function PutSandbox(ps: ProjectState, b: Sandbox): ProjectState {
    ps.(sandboxes := PutInList(ps.sandboxes, b))
  }

  // startTaskRunLocked.  `made` says whether the sandbox workspace could be created.
  function StartTaskRun(ps: ProjectState, t: Task, boxId: Id, runId: Id, made: bool, reason: string,
                        now: Time): Outcome<ProjectState> {
    if !Ready(ps.tasks.items, t.body) then Refused(Conflict)
    else
      var going := MovedOrSame(t.body, InProgress, reason, now);
      if !made then
        Ok(PutTask(ps, t.(body := MovedOrSame(going, Failed, NO_WORKSPACE, now))))
      else
        var box := Record(boxId, ps.project.id, SandboxBody(Private, Some(runId), Some(t.id), Active, "", now, now));
        var run := Record(runId, ps.project.id, RunBody(t.id, boxId, Running, Usage(0, 0, 0), "", "", [], now, None));
        Ok(AddSandbox(PutTask(ps, t.(body := going)), box).(runs := AddToSlice(ps.runs, run)))
  }

  datatype Batch = Batch(ps: ProjectState, runs: seq<Id>, next: Id, whole: bool)

  // The start loop of StartParallelRun: it stops at the first task that cannot be started.
  function StartEach(ps: ProjectState, ids: seq<Id>, unmade: set<Id>, n: Id, reason: string, now: Time): (b: Batch)
    ensures b.next >= n
  {
    if ids == [] then Batch(ps, [], n, true)
    else
      var b := StartEach(ps, ids[..|ids|-1], unmade, n, reason, now);
      var x := ids[|ids|-1];
      if !b.whole || x !in b.ps.tasks.items then b.(whole := false)
      else
        var r := StartTaskRun(b.ps, b.ps.tasks.items[x], b.next, b.next + 1, x !in unmade, reason, now);
        if r.Refused? then b.(whole := false)
        else if x in unmade then Batch(r.value, b.runs, b.next + 2, false)
        else Batch(r.value, b.runs + [b.next + 1], b.next + 2, true)
  }

  function SettledBody(b: SandboxBody, status: SandboxStatus, failure: Option<string>, now: Time): SandboxBody {
    b.(status := status, failure := if failure.Some? then failure.value else b.failure, updatedAt := now)
  }

  function SettleSandbox(ps: ProjectState, boxId: Id, status: SandboxStatus, failure: Option<string>,
                         now: Time): ProjectState {
    var boxes := IndexList(ps.sandboxes);
    if boxId in boxes
    then PutSandbox(ps, boxes[boxId].(body := SettledBody(boxes[boxId].body, status, failure, now)))
    else ps
  }

  function CompletedRun(run: Run, a: Id, usage: Usage, summary: string, now: Time): Run {
    run.(body := run.body.(status := Succeeded, usage := usage, summary := summary,
                           artifactIds := run.body.artifactIds + [a], endedAt := Some(now)))
  }

  function CompletedTask(task: Task, uri: string, now: Time): Task {
    task.(body := MovedOrSame(task.body.(outputRef := uri), Done, RUN_COMPLETED, now))
  }

  function CrashedRun(run: Run, failure: string, usage: Usage, now: Time): Run {
    run.(body := run.body.(status := Crashed, failure := failure, usage := usage, endedAt := Some(now)))
  }

  function FailedTask(task: Task, now: Time): Task {
    task.(body := MovedOrSame(task.body, Failed, RUN_FAILED, now))
  }

  // The last section of executeRun: finish a run that may have been rolled away meanwhile.
  function CompleteRun(ps: ProjectState, runId: Id, taskId: Id, artifactId: Id, uri: string, usage: Usage,
                       summary: string, now: Time): ProjectState {
    if taskId !in ps.tasks.items || runId !in ps.runs.items then ps
    else
      var run := ps.runs.items[runId];
      var artifact := Record(artifactId, ps.project.id, ArtifactBody(taskId, runId, uri, now));
      SettleSandbox(
        PutTask(ps, CompletedTask(ps.tasks.items[taskId], uri, now)).(
          artifacts := AddToSlice(ps.artifacts, artifact), runs := PutInSlice(ps.runs,
              CompletedRun(run, artifactId, usage, summary, now))),
        run.body.sandboxId, Released, None, now)
  }

  // failRun.
  function FailRun(ps: ProjectState, runId: Id, failure: string, usage: Usage, now: Time): ProjectState {
    if runId !in ps.runs.items then ps
    else
      var run := ps.runs.items[runId];
      var ps1 := SettleSandbox(ps.(runs := PutInSlice(ps.runs, CrashedRun(run, failure, usage, now))),
                               run.body.sandboxId, Broken, Some(failure), now);
      if run.body.taskId in ps.tasks.items && Busy(ps.tasks.items[run.body.taskId].body.status)
      then PutTask(ps1, FailedTask(ps.tasks.items[run.body.taskId], now))
      else ps1
  }

  // ----- The invariant of one project ---------------------------------------------------

  ghost predicate Filed<B>(s: seq<Record<B>>, p: Id) {
    && (forall i | 0 <= i < |s| :: s[i].projectId == p)
    && (forall i, j | 0 <= i < j < |s| :: s[i].id != s[j].id)
  }

  ghost predicate HasRun(runs: map<Id, Run>, t: Id) {
    exists r :: r in runs && runs[r].body.taskId == t
  }

  // Run, task and sandbox agree on how far the run has come.
  ghost predicate InStep(run: RunBody, task: TaskStatus, box: SandboxStatus) {
    match run.status
    case Pending => false
    case Running => Busy(task) && box == Active && run.artifactIds == []
    case Succeeded => task == Done && box == Released && |run.artifactIds| == 1
    case Crashed => task == Failed && box == Broken && run.artifactIds == []
  }

  ghost predicate RunFits(r: Run, tasks: map<Id, Task>, artifacts: map<Id, Artifact>, boxes: map<Id, Sandbox>) {
    && r.body.taskId in tasks
    && r.body.sandboxId in boxes
    && boxes[r.body.sandboxId].body.scope == Private
    && boxes[r.body.sandboxId].body.runId == Some(r.id)
    && boxes[r.body.sandboxId].body.taskId == Some(r.body.taskId)
    && InStep(r.body, tasks[r.body.taskId].body.status, boxes[r.body.sandboxId].body.status)
    && (forall a | a in r.body.artifactIds ::
          a in artifacts && artifacts[a].body.runId == r.id && artifacts[a].body.taskId == r.body.taskId)
  }

  ghost predicate Protocol(tasks: map<Id, Task>, runs: map<Id, Run>, artifacts: map<Id, Artifact>,
                           boxes: map<Id, Sandbox>) {
    && (forall r | r in runs :: RunFits(runs[r], tasks, artifacts, boxes))
    && (forall r, q | r in runs && q in runs && runs[r].body.taskId == runs[q].body.taskId :: r == q)
    && (forall t | t in tasks && (Busy(tasks[t].body.status) || tasks[t].body.status == Done) :: HasRun(runs, t))
  }

  // Dependencies exist, are never SPRINT1 tasks, and are DONE once the task has left CREATED.
  ghost predicate DepsOk(tasks: map<Id, Task>) {
    forall t, d | t in tasks && d in tasks[t].body.dependsOn ::
      d in tasks && tasks[d].body.kind != Sprint1 && (tasks[t].body.status != Created ==> tasks[d].body.status == Done)
  }

  // Dependencies sit strictly earlier in the task order.
  ghost predicate OrderOk(order: seq<Id>, tasks: map<Id, Task>) {
    forall i, d | 0 <= i < |order| && order[i] in tasks && d in tasks[order[i]].body.dependsOn :: d in order[..i]
  }

  ghost predicate AuditsOk(tasks: map<Id, Task>) {
    forall t | t in tasks :: AuditOk(tasks[t].body)
  }

  ghost predicate PlansOk(ps: ProjectState) {
    && (forall i | 0 <= i < |ps.plans| ::
          ps.plans[i].body.version == i + 1 && ps.plans[i].body.requirementId in Ids(ps.requirements))
    && (forall i | 0 <= i < |ps.contracts| ::
          ps.contracts[i].body.version == i + 1 && ps.contracts[i].body.planId in Ids(ps.plans))
    && (forall t | t in ps.tasks.items :: ps.tasks.items[t].body.planId in Ids(ps.plans))
  }

  ghost predicate ContextsOk(contexts: map<Id, seq<Context>>, tasks: map<Id, Task>, p: Id) {
    forall t | t in contexts :: t in tasks && contexts[t] != [] && Filed(contexts[t], p)
      && forall i | 0 <= i < |contexts[t]| :: contexts[t][i].body.taskId == t
  }

  ghost predicate Shapes(ps: ProjectState, p: Id) {
    && ps.project.id == p
    && Filed(ps.requirements, p) && Filed(ps.plans, p) && Filed(ps.contracts, p) && Filed(ps.sandboxes, p)
    && SliceOk(ps.tasks, p) && SliceOk(ps.runs, p) && SliceOk(ps.artifacts, p)
  }

  ghost predicate ProjectOk(ps: ProjectState, p: Id) {
    && Shapes(ps, p)
    && Protocol(ps.tasks.items, ps.runs.items, ps.artifacts.items, IndexList(ps.sandboxes))
    && DepsOk(ps.tasks.items)
    && OrderOk(ps.tasks.order, ps.tasks.items)
    && AuditsOk(ps.tasks.items)
    && PlansOk(ps)
    && ContextsOk(ps.contexts, ps.tasks.items, p)
  }

  function ContextIds(contexts: map<Id, seq<Context>>): set<Id> {
    set t, i | t in contexts && 0 <= i < |contexts[t]| :: contexts[t][i].id
  }

  // The id names something in the project state.
  ghost predicate Uses(ps: ProjectState, x: Id) {
    || x in ps.tasks.items || x in ps.runs.items || x in ps.artifacts.items
    || x in Ids(ps.requirements) || x in Ids(ps.plans) || x in Ids(ps.contracts) || x in Ids(ps.sandboxes)
    || x in ContextIds(ps.contexts)
  }

  // ----- Small facts --------------------------------------------------------------------

  lemma {:induction false} FindByIdIn<B>(s: seq<Record<B>>, id: Id)
    ensures FindById(s, id).Some? <==> id in Ids(s)
    ensures FindById(s, id).Some? ==> FindById(s, id).value in s && FindById(s, id).value.id == id
  {
    if s == [] {
    } else {
      FindByIdIn(s[1..], id);
      if id in Ids(s) && s[0].id != id {
        var i :| 0 <= i < |s| && s[i].id == id;
        assert s[1..][i-1].id == id;
      }
      if id in Ids(s[1..]) {
        var i :| 0 <= i < |s[1..]| && s[1..][i].id == id;
        assert s[i+1].id == id;
      }
    }
  }

  lemma IdsAppend<B>(s: seq<Record<B>>, r: Record<B>)
    ensures Ids(s + [r]) == Ids(s) + {r.id}
    ensures IndexList(s + [r]) == IndexList(s)[r.id := r]
  {
    var t := s + [r];
    assert t[..|t|-1] == s;
    assert forall i | 0 <= i < |s| :: t[i] == s[i];
    assert t[|s|] == r;
  }

  lemma PutKeepsIds<B>(s: seq<Record<B>>, r: Record<B>, p: Id)
    requires Filed(s, p) && r.projectId == p
    ensures Filed(PutInList(s, r), p)
    ensures Ids(PutInList(s, r)) == Ids(s)
  {
    var t := PutInList(s, r);
    forall i | 0 <= i < |s| ensures t[i].id == s[i].id && t[i].projectId == p {}
    forall x | x in Ids(s) ensures x in Ids(t) {
      var i :| 0 <= i < |s| && s[i].id == x;
      assert t[i].id == x;
    }
    forall x | x in Ids(t) ensures x in Ids(s) {
      var i :| 0 <= i < |t| && t[i].id == x;
      assert s[i].id == x;
    }
  }

  lemma IdsPut<B>(s: seq<Record<B>>, r: Record<B>, p: Id)
    requires Filed(s, p) && r.id in Ids(s) && r.projectId == p
    ensures IndexList(PutInList(s, r)) == IndexList(s)[r.id := r]
  {
    var t := PutInList(s, r);
    PutKeepsIds(s, r, p);
    var a, b := IndexList(t), IndexList(s)[r.id := r];
    assert a.Keys == b.Keys;
    forall x | x in a ensures a[x] == b[x] {
      var i := IndexListAt(t, x);
      IndexListFinds(s, i);
    }
  }

  lemma FiledAppend<B>(s: seq<Record<B>>, r: Record<B>, p: Id)
    requires Filed(s, p) && r.projectId == p && r.id !in Ids(s)
    ensures Filed(s + [r], p)
  {
    assert forall i | 0 <= i < |s| :: s[i].id in Ids(s);
  }

  lemma SliceAppend<B>(s: Slice<B>, r: Record<B>, p: Id)
    requires SliceOk(s, p) && r.projectId == p && r.id !in s.items
    ensures SliceOk(AddToSlice(s, r), p)
  {
    var t := AddToSlice(s, r);
    assert t.order[|s.order|] == r.id;
    forall i | 0 <= i < |s.order| ensures s.order[i] != r.id {
      var x := s.order[i];
      assert x in s.order;
    }
    forall x | x in s.items ensures x in t.order {
      assert x in s.order;
    }
  }
}
