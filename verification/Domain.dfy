// Domain entities (internal/domain/model.go) and the task state machine.
module Domain {
  import opened Records

  datatype Project = Project(id: Id, name: string, description: string, createdAt: Time, updatedAt: Time)

  datatype RequirementBody = RequirementBody(title: string, content: string, createdAt: Time)
  type Requirement = Record<RequirementBody>

  datatype PlanBody = PlanBody(requirementId: Id, version: int, title: string, createdAt: Time)
  type Plan = Record<PlanBody>

  datatype Field = Field(name: string, kind: string, required: bool)
  datatype Schema = Schema(name: string, fields: seq<Field>)
  datatype Endpoint = Endpoint(name: string, verb: string, path: string)

  datatype ContractBody = ContractBody(
    requirementId: Id, planId: Id, version: nat, name: string,
    endpoints: seq<Endpoint>, schemas: seq<Schema>, createdAt: Time)
  type Contract = Record<ContractBody>

  datatype ContextBody = ContextBody(taskId: Id, version: int, planId: Id, contractId: Id, requirementId: Id,
                                     createdAt: Time)
  type Context = Record<ContextBody>

  datatype Scope = Private | Shared
  datatype SandboxStatus = Active | Released | Broken
  datatype SandboxBody = SandboxBody(
    scope: Scope, runId: Option<Id>, taskId: Option<Id>, status: SandboxStatus, failure: string, createdAt: Time,
    updatedAt: Time)
  type Sandbox = Record<SandboxBody>

  datatype SnapshotBody = SnapshotBody(branch: string, source: Option<Id>, reason: string, stable: bool,
                                       createdAt: Time)
  type Snapshot = Record<SnapshotBody>

  datatype PreviewBody = PreviewBody(sandboxId: Id, revision: Time, createdAt: Time, updatedAt: Time)
  type Preview = Record<PreviewBody>

  datatype OverrideBody = OverrideBody(
    taskId: Id, operator: string, owner: string, instruction: string, lockScope: string,
    expiresAt: Option<Time>, createdAt: Time, appliedAt: Option<Time>)
  type Override = Record<OverrideBody>

  datatype LockBody = LockBody(
    taskId: Option<Id>, path: string, content: string, mode: string, symbolKind: string, symbolName: string,
    createdBy: string, owner: string, expiresAt: Option<Time>, createdAt: Time)
  type CodeLock = Record<LockBody>

  datatype QueueBody = QueueBody(scope: string, resourceId: Id, requestedOwner: string, currentOwner: string,
                                 open: bool, createdAt: Time)
  type QueueEntry = Record<QueueBody>

  datatype RunStatus = Pending | Running | Succeeded | Crashed
  datatype Usage = Usage(prompt: nat, completion: nat, total: nat)
  datatype RunBody = RunBody(
    taskId: Id, sandboxId: Id, status: RunStatus, usage: Usage, summary: string, failure: string,
    artifactIds: seq<Id>, startedAt: Time, endedAt: Option<Time>)
  type Run = Record<RunBody>

  datatype ArtifactBody = ArtifactBody(taskId: Id, runId: Id, uri: string, createdAt: Time)
  type Artifact = Record<ArtifactBody>

  // ----- Tasks --------------------------------------------------------------------------

  datatype TaskStatus = Created | InProgress | HumanOverride | Done | Failed
  datatype TaskKind = Sprint1 | Backend | Frontend | Integration | Rework
  datatype Ref = PlanRef(id: Id) | ContractRef(id: Id)

  datatype Transition = Transition(from: Option<TaskStatus>, to: TaskStatus, reason: string, at: Time)

  datatype TaskBody = TaskBody(
    planId: Id, name: string, kind: TaskKind, status: TaskStatus, assignee: string, dependsOn: seq<Id>,
    inputRef: Ref, outputRef: string, audit: seq<Transition>, createdAt: Time, updatedAt: Time)
  type Task = Record<TaskBody>

  predicate Allowed(current: TaskStatus, next: TaskStatus) {
    match current
    case Created => next == InProgress
    case InProgress => next == Done || next == Failed || next == HumanOverride
    case HumanOverride => next == InProgress || next == Done || next == Failed
    case Done => false
    case Failed => false
  }

  predicate Busy(s: TaskStatus) {
    s == InProgress || s == HumanOverride
  }

  function NewTask(id: Id, p: Id, planId: Id, name: string, kind: TaskKind, assignee: string, dependsOn: seq<Id>,
                   inputRef: Ref, now: Time): Task {
    Record(id, p, TaskBody(planId, name, kind, Created, assignee, dependsOn, inputRef, "",
                           [Transition(None, Created, "task created", now)], now, now))
  }

  // The task after a transition, which is refused (None) when the state machine has no such edge.
  function Moved(t: TaskBody, next: TaskStatus, reason: string, now: Time): Option<TaskBody> {
    if !Allowed(t.status, next) then None
    else Some(t.(status := next, updatedAt := now, audit := t.audit + [Transition(Some(t.status), next, reason, now)]))
  }

  // What a caller that ignores a refused transition ends up with.
  function MovedOrSame(t: TaskBody, next: TaskStatus, reason: string, now: Time): TaskBody {
    var m := Moved(t, next, reason, now);
    if m.Some? then m.value else t
  }

  // The audit trail is a path of the state machine from CREATED to the current status.
  ghost predicate AuditOk(t: TaskBody) {
    && t.audit != []
    && t.audit[0].from == None && t.audit[0].to == Created
    && t.audit[|t.audit|-1].to == t.status
    && forall i | 0 < i < |t.audit| ::
      t.audit[i].from == Some(t.audit[i-1].to) && Allowed(t.audit[i-1].to, t.audit[i].to)
  }

  lemma MovedAudit(t: TaskBody, next: TaskStatus, reason: string, now: Time)
    requires AuditOk(t)
    ensures AuditOk(MovedOrSame(t, next, reason, now))
  {
  }

  // DONE and FAILED end a trail: they occur only as its last entry, so a task is completed or
  // failed at most once in its life.
  lemma TerminalOnce(t: TaskBody)
    requires AuditOk(t)
    ensures forall i | 0 <= i < |t.audit| - 1 :: t.audit[i].to !in {Done, Failed}
  {
    forall i | 0 <= i < |t.audit| - 1 ensures t.audit[i].to !in {Done, Failed} {
      var j := i + 1;
      assert Allowed(t.audit[j-1].to, t.audit[j].to);
    }
  }
}
