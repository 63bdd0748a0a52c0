// Every operation on a project keeps the project invariant.
module ProjectProofs {
  import opened Records
  import opened Domain
  import opened Projects

  // ----- New tasks ----------------------------------------------------------------------

  ghost predicate Unborn(ps: ProjectState, t: Task, p: Id) {
    && t.projectId == p && t.id !in ps.tasks.items && t.body.status == Created && AuditOk(t.body)
    && t.body.planId in Ids(ps.plans)
  }

  // A new task may join when its dependencies are already there, earlier in the order.
  ghost predicate MayJoin(ps: ProjectState, t: Task, p: Id) {
    && Unborn(ps, t, p)
    && (forall d | d in t.body.dependsOn :: d in ps.tasks.items && ps.tasks.items[d].body.kind != Sprint1)
  }

  lemma AddTaskProtocol(ps: ProjectState, t: Task, p: Id)
    requires ProjectOk(ps, p) && MayJoin(ps, t, p)
    ensures Protocol(AddTask(ps, t).tasks.items, ps.runs.items, ps.artifacts.items, IndexList(ps.sandboxes))
  {
    var tasks, boxes := ps.tasks.items[t.id := t], IndexList(ps.sandboxes);
    forall r | r in ps.runs.items ensures RunFits(ps.runs.items[r], tasks, ps.artifacts.items, boxes) {
      assert RunFits(ps.runs.items[r], ps.tasks.items, ps.artifacts.items, boxes);
    }
  }

  lemma AddTaskDeps(ps: ProjectState, t: Task, p: Id)
    requires ProjectOk(ps, p) && MayJoin(ps, t, p)
    ensures DepsOk(AddTask(ps, t).tasks.items)
    ensures OrderOk(AddTask(ps, t).tasks.order, AddTask(ps, t).tasks.items)
  {
    var n, order := AddTask(ps, t).tasks, ps.tasks.order;
    forall x, d | x in n.items && d in n.items[x].body.dependsOn
      ensures d in n.items && n.items[d].body.kind != Sprint1
      ensures n.items[x].body.status != Created ==> n.items[d].body.status == Done
    {
      if x != t.id {
        assert d in ps.tasks.items;
      }
    }
    forall i, d | 0 <= i < |n.order| && n.order[i] in n.items && d in n.items[n.order[i]].body.dependsOn
      ensures d in n.order[..i]
    {
      if i < |order| {
        var x := order[i];
        assert x in order && n.order[..i] == order[..i];
      } else {
        assert n.order[..i] == order;
        assert d in ps.tasks.items;
      }
    }
  }

  lemma AddTaskOk(ps: ProjectState, t: Task, p: Id)
    requires ProjectOk(ps, p) && MayJoin(ps, t, p)
    ensures ProjectOk(AddTask(ps, t), p)
  {
    SliceAppend(ps.tasks, t, p);
    AddTaskProtocol(ps, t, p);
    AddTaskDeps(ps, t, p);
  }

  // ----- Runs ---------------------------------------------------------------------------

  // Replacing a task by one with the same dependencies, kind and plan keeps the dependency
  // invariants when no task past CREATED relied on the old status.
  ghost predicate MayBecome(ps: ProjectState, u: Task, p: Id) {
    && u.id in ps.tasks.items && u.projectId == p && AuditOk(u.body)
    && var t := ps.tasks.items[u.id].body;
       u.body.dependsOn == t.dependsOn && u.body.kind == t.kind && u.body.planId == t.planId && t.status != Done
       && (t.status != Created
           || (forall d | d in t.dependsOn :: d in ps.tasks.items && ps.tasks.items[d].body.status == Done))
  }

  lemma PutTaskDeps(ps: ProjectState, u: Task, p: Id)
    requires ProjectOk(ps, p) && MayBecome(ps, u, p)
    ensures DepsOk(PutTask(ps, u).tasks.items)
    ensures OrderOk(ps.tasks.order, PutTask(ps, u).tasks.items)
  {
    var tasks, n := ps.tasks.items, PutTask(ps, u).tasks.items;
    forall x, d | x in n && d in n[x].body.dependsOn
      ensures d in n && n[d].body.kind != Sprint1 && (n[x].body.status != Created ==> n[d].body.status == Done)
    {
      assert x in tasks && d in tasks[x].body.dependsOn;
    }
  }

  // Given the protocol for the new maps, everything else about the project carries over.
  lemma PutTaskOk(ps: ProjectState, u: Task, n: ProjectState, p: Id)
    requires ProjectOk(ps, p) && MayBecome(ps, u, p)
    requires n
      == ps.(tasks := PutInSlice(ps.tasks, u), runs := n.runs, artifacts := n.artifacts, sandboxes := n.sandboxes)
    requires Filed(n.sandboxes, p) && SliceOk(n.runs, p) && SliceOk(n.artifacts, p)
    requires Protocol(n.tasks.items, n.runs.items, n.artifacts.items, IndexList(n.sandboxes))
    ensures ProjectOk(n, p)
  {
    hide Protocol, Filed;
    PutTaskDeps(ps, u, p);
  }

  lemma BusyMoveProtocol(ps: ProjectState, u: Task, p: Id)
    requires ProjectOk(ps, p) && u.id in ps.tasks.items && Busy(ps.tasks.items[u.id].body.status) && Busy(u.body.status)
    ensures Protocol(ps.tasks.items[u.id := u], ps.runs.items, ps.artifacts.items, IndexList(ps.sandboxes))
  {
    var tasks, boxes := ps.tasks.items[u.id := u], IndexList(ps.sandboxes);
    forall r | r in ps.runs.items ensures RunFits(ps.runs.items[r], tasks, ps.artifacts.items, boxes) {
      assert RunFits(ps.runs.items[r], ps.tasks.items, ps.artifacts.items, boxes);
    }
  }

  // Moving a task within {IN_PROGRESS, HUMAN_OVERRIDE} keeps the invariant: the steps of
  // ApplyHumanOverride and of the safety checkpoint.
  lemma BusyMoveOk(ps: ProjectState, t: Task, next: TaskStatus, reason: string, now: Time, p: Id)
    requires ProjectOk(ps, p) && t.id in ps.tasks.items && ps.tasks.items[t.id] == t
    requires Busy(t.body.status) && Busy(next)
    ensures ProjectOk(PutTask(ps, t.(body := MovedOrSame(t.body, next, reason, now))), p)
  {
    var u := t.(body := MovedOrSame(t.body, next, reason, now));
    MovedAudit(t.body, next, reason, now);
    BusyMoveProtocol(ps, u, p);
    PutTaskOk(ps, u, PutTask(ps, u), p);
  }

  lemma StartTaskRunOk(ps: ProjectState, t: Task, boxId: Id, runId: Id, made: bool, reason: string, now: Time, p: Id)
    requires ProjectOk(ps, p) && t.id in ps.tasks.items && ps.tasks.items[t.id] == t
    requires boxId !in Ids(ps.sandboxes) && runId !in ps.runs.items
    ensures var r := StartTaskRun(ps, t, boxId, runId, made, reason, now); r.Ok? ==> ProjectOk(r.value, p)
  {
    if Ready(ps.tasks.items, t.body) {
      NoRunYet(ps, t, p);
      if made {
        StartedOk(ps, t, boxId, runId, reason, now, p);
      } else {
        UnmadeOk(ps, t, boxId, runId, reason, now, p);
      }
    }
  }

  lemma NoRunYet(ps: ProjectState, t: Task, p: Id)
    requires ProjectOk(ps, p) && t.id in ps.tasks.items && ps.tasks.items[t.id] == t && t.body.status == Created
    ensures forall r | r in ps.runs.items :: ps.runs.items[r].body.taskId != t.id
  {
    forall r | r in ps.runs.items ensures ps.runs.items[r].body.taskId != t.id {
      assert RunFits(ps.runs.items[r], ps.tasks.items, ps.artifacts.items, IndexList(ps.sandboxes));
    }
  }

  // The task of a sandbox that could not be made.
  function Unmade(t: Task, reason: string, now: Time): Task {
    t.(body := MovedOrSame(MovedOrSame(t.body, InProgress, reason, now), Failed, NO_WORKSPACE, now))
  }

  lemma UnmadeOk(ps: ProjectState, t: Task, boxId: Id, runId: Id, reason: string, now: Time, p: Id)
    requires ProjectOk(ps, p) && t.id in ps.tasks.items && ps.tasks.items[t.id] == t && Ready(ps.tasks.items, t.body)
    requires forall r | r in ps.runs.items :: ps.runs.items[r].body.taskId != t.id
    ensures ProjectOk(StartTaskRun(ps, t, boxId, runId, false, reason, now).value, p)
  {
    hide Protocol, DepsOk, OrderOk, PlansOk, ContextsOk, RunFits, AuditOk, Unmade, MayBecome;
    UnmadeMay(ps, t, reason, now, p);
    UnmadeProtocol(ps, t, Unmade(t, reason, now), p);
    UnmadeIs(ps, t, boxId, runId, reason, now);
    PutTaskOk(ps, Unmade(t, reason, now), PutTask(ps, Unmade(t, reason, now)), p);
  }

  lemma UnmadeMay(ps: ProjectState, t: Task, reason: string, now: Time, p: Id)
    requires ProjectOk(ps, p) && t.id in ps.tasks.items && ps.tasks.items[t.id] == t && Ready(ps.tasks.items, t.body)
    ensures var u := Unmade(t, reason, now); u.id == t.id && u.body.status == Failed && MayBecome(ps, u, p)
  {
    hide Protocol, DepsOk, OrderOk, PlansOk, ContextsOk, NO_WORKSPACE;
    var going := MovedOrSame(t.body, InProgress, reason, now);
    MovedAudit(t.body, InProgress, reason, now);
    MovedAudit(going, Failed, NO_WORKSPACE, now);
    hide AuditOk;
  }

  lemma UnmadeProtocol(ps: ProjectState, t: Task, u: Task, p: Id)
    requires ProjectOk(ps, p) && u.id == t.id && u.body.status == Failed
    requires forall r | r in ps.runs.items :: ps.runs.items[r].body.taskId != t.id
    ensures Protocol(ps.tasks.items[u.id := u], ps.runs.items, ps.artifacts.items, IndexList(ps.sandboxes))
  {
    hide DepsOk, OrderOk, AuditsOk, PlansOk, ContextsOk, Shapes, InStep, HasRun;
    var tasks, boxes := ps.tasks.items[u.id := u], IndexList(ps.sandboxes);
    forall r | r in ps.runs.items ensures RunFits(ps.runs.items[r], tasks, ps.artifacts.items, boxes) {
      assert RunFits(ps.runs.items[r], ps.tasks.items, ps.artifacts.items, boxes);
    }
  }

  lemma UnmadeIs(ps: ProjectState, t: Task, boxId: Id, runId: Id, reason: string, now: Time)
    requires Ready(ps.tasks.items, t.body)
    ensures StartTaskRun(ps, t, boxId, runId, false, reason, now) == Ok(PutTask(ps, Unmade(t, reason, now)))
  {
    hide Ready, MovedOrSame, NO_WORKSPACE;
  }

  lemma StartedProtocol(ps: ProjectState, u: Task, run: Run, box: Sandbox, p: Id)
    requires ProjectOk(ps, p) && u.id in ps.tasks.items && run.id !in ps.runs.items
    requires box.id !in IndexList(ps.sandboxes)
    requires forall r | r in ps.runs.items :: ps.runs.items[r].body.taskId != u.id
    requires run.body.taskId == u.id
    requires RunFits(run, map[u.id := u], map[], map[box.id := box])
    ensures Protocol(ps.tasks.items[u.id := u], ps.runs.items[run.id := run], ps.artifacts.items,
                     IndexList(ps.sandboxes)[box.id := box])
  {
    hide DepsOk, OrderOk, AuditsOk, PlansOk, ContextsOk, InStep, IndexList, Filed;
    var tasks := ps.tasks.items[u.id := u];
    var runs := ps.runs.items[run.id := run];
    var boxes := IndexList(ps.sandboxes)[box.id := box];
    forall r | r in runs ensures RunFits(runs[r], tasks, ps.artifacts.items, boxes) {
      if r != run.id {
        assert RunFits(ps.runs.items[r], ps.tasks.items, ps.artifacts.items, IndexList(ps.sandboxes));
      }
    }
    forall x | x in tasks && (Busy(tasks[x].body.status) || tasks[x].body.status == Done) ensures HasRun(runs, x) {
      if x == u.id {
        assert runs[run.id].body.taskId == x;
      } else {
        assert HasRun(ps.runs.items, x);
        var r :| r in ps.runs.items && ps.runs.items[r].body.taskId == x;
        assert runs[r].body.taskId == x;
      }
    }
  }

  lemma StartedOk(ps: ProjectState, t: Task, boxId: Id, runId: Id, reason: string, now: Time, p: Id)
    requires ProjectOk(ps, p) && t.id in ps.tasks.items && ps.tasks.items[t.id] == t && Ready(ps.tasks.items, t.body)
    requires boxId !in Ids(ps.sandboxes) && runId !in ps.runs.items
    requires forall r | r in ps.runs.items :: ps.runs.items[r].body.taskId != t.id
    ensures ProjectOk(StartTaskRun(ps, t, boxId, runId, true, reason, now).value, p)
  {
    hide Protocol, DepsOk, OrderOk, PlansOk, ContextsOk;
    var u := t.(body := MovedOrSame(t.body, InProgress, reason, now));
    var box := Record(boxId, p, SandboxBody(Private, Some(runId), Some(t.id), Active, "", now, now));
    var run := Record(runId, p, RunBody(t.id, boxId, Running, Usage(0, 0, 0), "", "", [], now, None));
    IdsAppend(ps.sandboxes, box);
    FiledAppend(ps.sandboxes, box, p);
    SliceAppend(ps.runs, run, p);
    GoingMay(ps, t, reason, now, p);
    GoingFits(ps, t, boxId, runId, reason, now, p);
    hide ProjectOk, MayBecome, SliceOk, Filed, AuditOk, RunFits, IndexList, MovedOrSame, Ids;
    StartedProtocol(ps, u, run, box, p);
    StartedState(ps, t, u, box, run, reason, now, p);
    PutTaskOk(ps, u, StartTaskRun(ps, t, boxId, runId, true, reason, now).value, p);
  }

  lemma GoingFits(ps: ProjectState, t: Task, boxId: Id, runId: Id, reason: string, now: Time, p: Id)
    requires Ready(ps.tasks.items, t.body)
    ensures var u := t.(body := MovedOrSame(t.body, InProgress, reason, now));
      RunFits(Record(runId, p, RunBody(t.id, boxId, Running, Usage(0, 0, 0), "", "", [], now, None)),
              map[u.id := u], map[],
              map[boxId := Record(boxId, p, SandboxBody(Private, Some(runId), Some(t.id), Active, "", now, now))])
  {
  }

  lemma StartedState(ps: ProjectState, t: Task, u: Task, box: Sandbox, run: Run, reason: string, now: Time, p: Id)
    requires ProjectOk(ps, p) && Ready(ps.tasks.items, t.body)
    requires u == t.(body := MovedOrSame(t.body, InProgress, reason, now))
    requires box == Record(box.id, p, SandboxBody(Private, Some(run.id), Some(t.id), Active, "", now, now))
    requires run == Record(run.id, p, RunBody(t.id, box.id, Running, Usage(0, 0, 0), "", "", [], now, None))
    ensures var r := StartTaskRun(ps, t, box.id, run.id, true, reason, now);
      && r.Ok?
      && r.value == ps.(tasks := PutInSlice(ps.tasks, u), runs := AddToSlice(ps.runs, run),
                        sandboxes := ps.sandboxes + [box])
  {
    hide Protocol, DepsOk, OrderOk, AuditsOk, PlansOk, ContextsOk, SliceOk, Filed, Ready, MovedOrSame, NO_WORKSPACE,
      AddToSlice, PutInSlice;
  }

  lemma GoingMay(ps: ProjectState, t: Task, reason: string, now: Time, p: Id)
    requires ProjectOk(ps, p) && t.id in ps.tasks.items && ps.tasks.items[t.id] == t && Ready(ps.tasks.items, t.body)
    ensures MayBecome(ps, t.(body := MovedOrSame(t.body, InProgress, reason, now)), p)
  {
    hide Protocol, DepsOk, OrderOk, PlansOk, ContextsOk;
    MovedAudit(t.body, InProgress, reason, now);
    hide AuditOk;
  }

  // What starting a task adds: one sandbox and one RUNNING run of the task, when it could be made.
  lemma StartTaskRunAdds(ps: ProjectState, t: Task, boxId: Id, runId: Id, made: bool, reason: string, now: Time)
    requires Ready(ps.tasks.items, t.body) && t.id in ps.tasks.items && runId !in ps.runs.items
    ensures StartTaskRun(ps, t, boxId, runId, made, reason, now).Ok?
    ensures var n := StartTaskRun(ps, t, boxId, runId, made, reason, now).value;
      && (forall x | Uses(n, x) :: Uses(ps, x) || (made && (x == boxId || x == runId)))
      && n.tasks.items.Keys == ps.tasks.items.Keys
      && (forall r | r in ps.runs.items :: r in n.runs.items && n.runs.items[r] == ps.runs.items[r])
      && n.runs.items.Keys == ps.runs.items.Keys + (if made then {runId} else {})
      && (made ==> n.runs.items[runId].body.status == Running && n.runs.items[runId].body.taskId == t.id)
  {
    if made {
      var box := Record(boxId, ps.project.id, SandboxBody(Private, Some(runId), Some(t.id), Active, "", now, now));
      IdsAppend(ps.sandboxes, box);
    }
  }

  // The unique run of a RUNNING run's task, seen from the run: its task is busy and its
  // sandbox is listed and active.
  lemma RunningRun(ps: ProjectState, runId: Id, p: Id)
    requires ProjectOk(ps, p) && runId in ps.runs.items && ps.runs.items[runId].body.status == Running
    ensures var run := ps.runs.items[runId].body;
      run.taskId in ps.tasks.items && Busy(ps.tasks.items[run.taskId].body.status)
      && run.sandboxId in IndexList(ps.sandboxes) && IndexList(ps.sandboxes)[run.sandboxId].body.status == Active
      && IndexList(ps.sandboxes)[run.sandboxId].projectId == p
      && IndexList(ps.sandboxes)[run.sandboxId].id == run.sandboxId
  {
    var run := ps.runs.items[runId];
    assert RunFits(run, ps.tasks.items, ps.artifacts.items, IndexList(ps.sandboxes));
    var i := IndexListAt(ps.sandboxes, run.body.sandboxId);
  }

  // Changing one run's task and sandbox does not disturb any other run.
  lemma OtherRunFits(r: Run, q: Run, tasks: map<Id, Task>, artifacts: map<Id, Artifact>, boxes: map<Id, Sandbox>,
                     task: Task, box: Sandbox, artifacts': map<Id, Artifact>)
    requires RunFits(r, tasks, artifacts, boxes) && RunFits(q, tasks, artifacts, boxes)
    requires r.id != q.id && r.body.taskId != q.body.taskId
    requires task.id == q.body.taskId && box.id == q.body.sandboxId
    requires forall a | a in artifacts :: a in artifacts' && artifacts'[a] == artifacts[a]
    ensures RunFits(r, tasks[task.id := task], artifacts', boxes[box.id := box])
  {
  }

  lemma HasRunKept(runs: map<Id, Run>, run: Run, t: Id)
    requires HasRun(runs, t) && (run.id in runs ==> runs[run.id].body.taskId == run.body.taskId)
    ensures HasRun(runs[run.id := run], t)
  {
    var r :| r in runs && runs[r].body.taskId == t;
    assert runs[run.id := run][r].body.taskId == t;
  }

  lemma SettleProtocol(ps: ProjectState, run: Run, task: Task, box: Sandbox, artifacts: map<Id, Artifact>, p: Id)
    requires ProjectOk(ps, p) && run.id in ps.runs.items
    requires task.id == ps.runs.items[run.id].body.taskId && box.id == ps.runs.items[run.id].body.sandboxId
    requires task.id in ps.tasks.items && box.id in IndexList(ps.sandboxes)
    requires forall a | a in ps.artifacts.items :: a in artifacts && artifacts[a] == ps.artifacts.items[a]
    requires run.body.taskId == task.id && run.body.sandboxId == box.id
    requires RunFits(run, map[task.id := task], artifacts, map[box.id := box])
    ensures Protocol(ps.tasks.items[task.id := task], ps.runs.items[run.id := run], artifacts,
                     IndexList(ps.sandboxes)[box.id := box])
  {
    var boxes0 := IndexList(ps.sandboxes);
    var tasks, runs, boxes := ps.tasks.items[task.id := task], ps.runs.items[run.id := run], boxes0[box.id := box];
    forall r | r in runs ensures RunFits(runs[r], tasks, artifacts, boxes) {
      if r != run.id {
        OtherRunFits(ps.runs.items[r], ps.runs.items[run.id], ps.tasks.items, ps.artifacts.items, boxes0, task, box,
                     artifacts);
      }
    }
    forall x | x in tasks && (Busy(tasks[x].body.status) || tasks[x].body.status == Done) ensures HasRun(runs, x) {
      if x == task.id {
        assert runs[run.id].body.taskId == x;
      } else {
        HasRunKept(ps.runs.items, run, x);
      }
    }
  }

  lemma TaskFiled(ps: ProjectState, task: Task, p: Id)
    requires MayBecome(ps, task, p)
    ensures task.id in ps.tasks.items
  {
  }

  lemma IndexIds<B>(s: seq<Record<B>>, x: Id)
    requires x in IndexList(s)
    ensures x in Ids(s)
  {
    hide Ids;
  }

  lemma PutRunSlice(s: Slice<RunBody>, r: Run, p: Id)
    requires SliceOk(s, p) && r.id in s.items && r.projectId == p
    ensures SliceOk(PutInSlice(s, r), p)
  {
  }

  // Replace a RUNNING run, its task and its sandbox together by versions in step again.
  lemma SettleOk(ps: ProjectState, run: Run, task: Task, box: Sandbox, artifacts: Slice<ArtifactBody>, p: Id)
    requires ProjectOk(ps, p) && run.id in ps.runs.items && ps.runs.items[run.id].body.status == Running
    requires run.body.taskId == task.id == ps.runs.items[run.id].body.taskId
    requires run.body.sandboxId == box.id == ps.runs.items[run.id].body.sandboxId
    requires box.id in IndexList(ps.sandboxes) && run.projectId == p && box.projectId == p
    requires SliceOk(artifacts, p)
    requires forall a | a in ps.artifacts.items :: a in artifacts.items && artifacts.items[a] == ps.artifacts.items[a]
    requires RunFits(run, map[task.id := task], artifacts.items, map[box.id := box])
    requires MayBecome(ps, task, p)
    ensures ProjectOk(PutSandbox(PutTask(ps, task).(artifacts := artifacts, runs := PutInSlice(ps.runs, run)), box), p)
  {
    hide Protocol, DepsOk, OrderOk, AuditsOk, PlansOk, ContextsOk, SliceOk, Filed, RunFits, IndexList, PutInList;
    TaskFiled(ps, task, p);
    PutKeepsIds(ps.sandboxes, box, p);
    IndexIds(ps.sandboxes, box.id);
    IdsPut(ps.sandboxes, box, p);
    SettleProtocol(ps, run, task, box, artifacts.items, p);
    PutRunSlice(ps.runs, run, p);
    hide MayBecome;
    PutTaskOk(ps, task, PutSandbox(PutTask(ps, task).(artifacts := artifacts, runs := PutInSlice(ps.runs, run)), box),
              p);
  }

  lemma CompletedIs(ps: ProjectState, runId: Id, taskId: Id, artifact: Artifact, box: Sandbox, uri: string,
                    usage: Usage, summary: string, now: Time)
    requires taskId in ps.tasks.items && runId in ps.runs.items
    requires artifact == Record(artifact.id, ps.project.id, ArtifactBody(taskId, runId, uri, now))
    requires var run, boxes := ps.runs.items[runId], IndexList(ps.sandboxes);
      && run.body.sandboxId in boxes
      && box == boxes[run.body.sandboxId].(body := SettledBody(boxes[run.body.sandboxId].body, Released, None, now))
    ensures CompleteRun(ps, runId, taskId, artifact.id, uri, usage, summary, now) ==
      PutSandbox(PutTask(ps, CompletedTask(ps.tasks.items[taskId], uri, now)).(
                   artifacts := AddToSlice(ps.artifacts, artifact),
                   runs := PutInSlice(ps.runs, CompletedRun(ps.runs.items[runId], artifact.id, usage, summary, now))),
                 box)
  {
    hide CompletedTask, CompletedRun, SettledBody, PutInList, AddToSlice, PutInSlice;
  }

  // The completed run is in step with its task and its sandbox.
  lemma CompletedFits(ps: ProjectState, run: Run, task: Task, box: Sandbox, artifact: Artifact, uri: string,
                      usage: Usage, summary: string, now: Time)
    requires RunFits(run, ps.tasks.items, ps.artifacts.items, IndexList(ps.sandboxes)) && run.body.status == Running
    requires task.id == run.body.taskId && task.id in ps.tasks.items && ps.tasks.items[task.id] == task
    requires box.id == run.body.sandboxId
    requires artifact.body.taskId == task.id && artifact.body.runId == run.id
    requires box.body == SettledBody(IndexList(ps.sandboxes)[run.body.sandboxId].body, Released, None, now)
    ensures var moved := CompletedTask(task, uri, now); var artifacts := AddToSlice(ps.artifacts, artifact).items;
      RunFits(CompletedRun(run, artifact.id, usage, summary, now), map[moved.id := moved], artifacts,
              map[box.id := box])
  {
    hide RUN_COMPLETED;
  }

  lemma CompletedMay(ps: ProjectState, task: Task, uri: string, now: Time, p: Id)
    requires ProjectOk(ps, p) && task.id in ps.tasks.items && ps.tasks.items[task.id] == task && Busy(task.body.status)
    ensures MayBecome(ps, CompletedTask(task, uri, now), p) && MayBecome(ps, FailedTask(task, now), p)
  {
    hide Protocol, OrderOk, PlansOk, ContextsOk, RUN_COMPLETED, RUN_FAILED;
    assert AuditOk(task.body.(outputRef := uri)) by {
      assert AuditOk(task.body);
    }
    MovedAudit(task.body.(outputRef := uri), Done, RUN_COMPLETED, now);
    MovedAudit(task.body, Failed, RUN_FAILED, now);
    hide AuditOk;
  }

  lemma CompleteRunOk(ps: ProjectState, runId: Id, taskId: Id, artifactId: Id, uri: string, usage: Usage,
                      summary: string, now: Time, p: Id)
    requires ProjectOk(ps, p) && artifactId !in ps.artifacts.items
    requires runId in ps.runs.items ==>
      ps.runs.items[runId].body.status == Running && ps.runs.items[runId].body.taskId == taskId
    ensures ProjectOk(CompleteRun(ps, runId, taskId, artifactId, uri, usage, summary, now), p)
  {
    if taskId in ps.tasks.items && runId in ps.runs.items {
      RunningRun(ps, runId, p);
      Named(ps, runId, taskId, p);
      hide ProjectOk, RunFits, CompletedTask, CompletedRun, SettledBody, MayBecome, CompleteRun, SliceOk, AddToSlice;
      var run, task, boxes := ps.runs.items[runId], ps.tasks.items[taskId], IndexList(ps.sandboxes);
      var artifact := Record(artifactId, p, ArtifactBody(taskId, runId, uri, now));
      var b0 := boxes[run.body.sandboxId];
      var box := b0.(body := SettledBody(b0.body, Released, None, now));
      CompletedIs(ps, runId, taskId, artifact, box, uri, usage, summary, now);
      CompletedFits(ps, run, task, box, artifact, uri, usage, summary, now);
      CompletedMay(ps, task, uri, now, p);
      SliceAppend(ps.artifacts, artifact, p);
      ArtifactsKept(ps.artifacts, artifact);
      RunIds(run, artifactId, usage, summary, task, uri, "", now);
      SettleOk(ps, CompletedRun(run, artifactId, usage, summary, now), CompletedTask(task, uri, now), box,
               AddToSlice(ps.artifacts, artifact), p);
    }
  }

  // What the parts of a project state are called.
  lemma Named(ps: ProjectState, runId: Id, taskId: Id, p: Id)
    requires ProjectOk(ps, p) && runId in ps.runs.items && taskId in ps.tasks.items
    ensures ps.project.id == p && ps.runs.items[runId].id == runId && ps.runs.items[runId].projectId == p
    ensures ps.tasks.items[taskId].id == taskId
    ensures SliceOk(ps.artifacts, p)
    ensures RunFits(ps.runs.items[runId], ps.tasks.items, ps.artifacts.items, IndexList(ps.sandboxes))
  {
    hide DepsOk, OrderOk, AuditsOk, PlansOk, ContextsOk, RunFits, Filed;
  }

  lemma ArtifactsKept(s: Slice<ArtifactBody>, a: Artifact)
    requires a.id !in s.items
    ensures forall x | x in s.items :: x in AddToSlice(s, a).items && AddToSlice(s, a).items[x] == s.items[x]
  {
  }

  lemma RunIds(run: Run, a: Id, usage: Usage, summary: string, task: Task, uri: string, failure: string, now: Time)
    ensures var n := CompletedRun(run, a, usage, summary, now);
      && n.id == run.id && n.projectId == run.projectId && n.body.taskId == run.body.taskId
      && n.body.sandboxId == run.body.sandboxId
    ensures var n := CrashedRun(run, failure, usage, now);
      && n.id == run.id && n.projectId == run.projectId && n.body.taskId == run.body.taskId
      && n.body.sandboxId == run.body.sandboxId
    ensures CompletedTask(task, uri, now).id == task.id && FailedTask(task, now).id == task.id
  {
    hide MovedOrSame;
  }

  lemma FailedIs(ps: ProjectState, runId: Id, box: Sandbox, failure: string, usage: Usage, now: Time)
    requires runId in ps.runs.items && ps.runs.items[runId].body.taskId in ps.tasks.items
    requires Busy(ps.tasks.items[ps.runs.items[runId].body.taskId].body.status)
    requires var run, boxes := ps.runs.items[runId], IndexList(ps.sandboxes);
      && run.body.sandboxId in boxes
      && box == boxes[run.body.sandboxId].(body := SettledBody(boxes[run.body.sandboxId].body, Broken, Some(failure),
                                                               now))
    ensures FailRun(ps, runId, failure, usage, now) ==
      PutSandbox(PutTask(ps, FailedTask(ps.tasks.items[ps.runs.items[runId].body.taskId], now)).(
                   artifacts := ps.artifacts,
                   runs := PutInSlice(ps.runs, CrashedRun(ps.runs.items[runId], failure, usage, now))),
                 box)
  {
    hide FailedTask, CrashedRun, SettledBody, PutInList, PutInSlice;
  }

  lemma CrashedFits(ps: ProjectState, run: Run, task: Task, box: Sandbox, failure: string, usage: Usage, now: Time)
    requires RunFits(run, ps.tasks.items, ps.artifacts.items, IndexList(ps.sandboxes)) && run.body.status == Running
    requires task.id == run.body.taskId && task.id in ps.tasks.items && ps.tasks.items[task.id] == task
    requires box.id == run.body.sandboxId
    requires box.body == SettledBody(IndexList(ps.sandboxes)[run.body.sandboxId].body, Broken, Some(failure), now)
    ensures var moved := FailedTask(task, now);
      RunFits(CrashedRun(run, failure, usage, now), map[moved.id := moved], ps.artifacts.items, map[box.id := box])
  {
    hide RUN_FAILED;
  }

  lemma FailRunOk(ps: ProjectState, runId: Id, failure: string, usage: Usage, now: Time, p: Id)
    requires ProjectOk(ps, p)
    requires runId in ps.runs.items ==> ps.runs.items[runId].body.status == Running
    ensures ProjectOk(FailRun(ps, runId, failure, usage, now), p)
  {
    if runId in ps.runs.items {
      RunningRun(ps, runId, p);
      Named(ps, runId, ps.runs.items[runId].body.taskId, p);
      hide ProjectOk, RunFits, FailedTask, CrashedRun, SettledBody, MayBecome, FailRun, SliceOk;
      var run, boxes := ps.runs.items[runId], IndexList(ps.sandboxes);
      var task := ps.tasks.items[run.body.taskId];
      var b0 := boxes[run.body.sandboxId];
      var box := b0.(body := SettledBody(b0.body, Broken, Some(failure), now));
      FailedIs(ps, runId, box, failure, usage, now);
      CrashedFits(ps, run, task, box, failure, usage, now);
      CompletedMay(ps, task, "", now, p);
      RunIds(run, 0, usage, "", task, "", failure, now);
      SettleOk(ps, CrashedRun(run, failure, usage, now), FailedTask(task, now), box, ps.artifacts, p);
    }
  }

  // ----- Batches ------------------------------------------------------------------------

  lemma {:induction false} StartEachOk(ps: ProjectState, ids: seq<Id>, unmade: set<Id>, n: Id, reason: string,
                                       now: Time, p: Id)
    requires ProjectOk(ps, p) && forall x | Uses(ps, x) :: x < n
    ensures var b := StartEach(ps, ids, unmade, n, reason, now);
      && ProjectOk(b.ps, p)
      && n <= b.next <= n + 2 * |ids|
      && (forall x | Uses(b.ps, x) :: Uses(ps, x) || n <= x < b.next)
      && (forall r | r in b.ps.runs.items :: r in ps.runs.items || n <= r < b.next)
      && (forall r | r in ps.runs.items :: r in b.ps.runs.items && b.ps.runs.items[r] == ps.runs.items[r])
      && (forall r | r in b.runs ::
            n <= r < b.next && r in b.ps.runs.items && b.ps.runs.items[r].body.status == Running)
  {
    hide ProjectOk, StartTaskRun, Ready, Uses;
    if ids == [] {
    } else {
      var front, x := ids[..|ids|-1], ids[|ids|-1];
      StartEachOk(ps, front, unmade, n, reason, now, p);
      var b := StartEach(ps, front, unmade, n, reason, now);
      if b.whole && x in b.ps.tasks.items {
        TaskIdIs(b.ps, x, p);
        NextUnused(b.ps, b.next, n, ps);
        StartTaskRunOk(b.ps, b.ps.tasks.items[x], b.next, b.next + 1, x !in unmade, reason, now, p);
        if Ready(b.ps.tasks.items, b.ps.tasks.items[x].body) {
          StartTaskRunAdds(b.ps, b.ps.tasks.items[x], b.next, b.next + 1, x !in unmade, reason, now);
        } else {
          NotReadyRefused(b.ps, b.ps.tasks.items[x], b.next, b.next + 1, x !in unmade, reason, now);
        }
      }
    }
  }

  lemma TaskIdIs(ps: ProjectState, x: Id, p: Id)
    requires ProjectOk(ps, p) && x in ps.tasks.items
    ensures ps.tasks.items[x].id == x && ps.tasks.items[x].projectId == p
  {
  }

  lemma NotReadyRefused(ps: ProjectState, t: Task, boxId: Id, runId: Id, made: bool, reason: string, now: Time)
    requires !Ready(ps.tasks.items, t.body)
    ensures StartTaskRun(ps, t, boxId, runId, made, reason, now) == Refused(Conflict)
  {
  }

  lemma NextUnused(ps: ProjectState, next: Id, n: Id, before: ProjectState)
    requires n <= next && forall x | Uses(before, x) :: x < n
    requires forall x | Uses(ps, x) :: Uses(before, x) || n <= x < next
    ensures next !in Ids(ps.sandboxes) && next + 1 !in ps.runs.items
  {
    assert !Uses(ps, next) && !Uses(ps, next + 1);
  }

  // ----- Requirements, plans, contracts, contexts, shared sandboxes ----------------------

  lemma TouchOk(ps: ProjectState, now: Time, p: Id)
    requires ProjectOk(ps, p)
    ensures ProjectOk(Touch(ps, now), p)
  {
  }

  lemma AddRequirementOk(ps: ProjectState, id: Id, title: string, content: string, now: Time, p: Id)
    requires ProjectOk(ps, p) && id !in Ids(ps.requirements)
    ensures ProjectOk(AddRequirement(ps, id, title, content, now), p)
  {
    var r := Record(id, p, RequirementBody(title, content, now));
    IdsAppend(ps.requirements, r);
    FiledAppend(ps.requirements, r, p);
  }

  lemma AddPlanOk(ps: ProjectState, plan: Plan, p: Id)
    requires ProjectOk(ps, p) && plan.projectId == p && plan.id !in Ids(ps.plans)
    requires plan.body.version == |ps.plans| + 1 && plan.body.requirementId in Ids(ps.requirements)
    ensures ProjectOk(ps.(plans := ps.plans + [plan]), p)
  {
    IdsAppend(ps.plans, plan);
    FiledAppend(ps.plans, plan, p);
  }

  lemma GeneratePlanOk(ps: ProjectState, planId: Id, taskId: Id, now: Time, p: Id)
    requires ProjectOk(ps, p) && ps.requirements != [] && planId !in Ids(ps.plans) && taskId !in ps.tasks.items
    ensures ProjectOk(GeneratePlan(ps, planId, taskId, now), p)
  {
    var plan := BuildPlan(ps, planId, now);
    var q := ps.(plans := ps.plans + [plan]);
    AddPlanOk(ps, plan, p);
    assert plan == q.plans[|ps.plans|];
    var task := NewTask(taskId, p, planId, "Implement " + plan.body.title, Sprint1, DEFAULT_AGENT, [], PlanRef(planId),
                        now);
    AddTaskOk(q, task, p);
  }

  lemma AddContractOk(ps: ProjectState, c: Contract, now: Time, p: Id)
    requires ProjectOk(ps, p) && c.projectId == p && c.id !in Ids(ps.contracts)
    requires c.body.version == |ps.contracts| + 1 && c.body.planId in Ids(ps.plans)
    ensures ProjectOk(AddContract(ps, c, now), p)
  {
    IdsAppend(ps.contracts, c);
    FiledAppend(ps.contracts, c, p);
  }

  // Three new tasks join, the last depending on the first two.
  lemma TripleOk(ps: ProjectState, a: Task, b: Task, c: Task, p: Id)
    requires ProjectOk(ps, p) && Unborn(ps, a, p) && Unborn(ps, b, p) && Unborn(ps, c, p)
    requires a.id != b.id && a.id != c.id && b.id != c.id && a.body.dependsOn == [] && b.body.dependsOn == []
    requires a.body.kind != Sprint1 && b.body.kind != Sprint1
    requires forall d | d in c.body.dependsOn :: d == a.id || d == b.id
    ensures ProjectOk(AddTask(AddTask(AddTask(ps, a), b), c), p)
  {
    AddTaskOk(ps, a, p);
    AddTaskOk(AddTask(ps, a), b, p);
    AddTaskOk(AddTask(AddTask(ps, a), b), c, p);
  }

  lemma DispatchedUnborn(ps: ProjectState, id: Id, plan: Plan, contract: Contract, name: string, kind: TaskKind,
                         agent: string, deps: seq<Id>, now: Time, p: Id)
    requires ProjectOk(ps, p) && plan.id in Ids(ps.plans) && id !in ps.tasks.items
    ensures Unborn(ps, DispatchedTask(ps, id, plan, contract, name, kind, agent, deps, now), p)
  {
  }

  lemma TouchedTripleOk(ps: ProjectState, a: Task, b: Task, c: Task, now: Time, p: Id)
    requires ProjectOk(ps, p) && Unborn(ps, a, p) && Unborn(ps, b, p) && Unborn(ps, c, p)
    requires a.id != b.id && a.id != c.id && b.id != c.id && a.body.dependsOn == [] && b.body.dependsOn == []
    requires a.body.kind != Sprint1 && b.body.kind != Sprint1
    requires forall d | d in c.body.dependsOn :: d == a.id || d == b.id
    ensures ProjectOk(Touch(AddTask(AddTask(AddTask(ps, a), b), c), now), p)
  {
    TripleOk(ps, a, b, c, p);
    TouchOk(AddTask(AddTask(AddTask(ps, a), b), c), now, p);
  }

  lemma DispatchOk(ps: ProjectState, plan: Plan, contract: Contract, id: Id, now: Time, p: Id)
    requires ProjectOk(ps, p) && plan.id in Ids(ps.plans) && id !in ps.tasks.items && id + 1 !in ps.tasks.items
    requires id + 2 !in ps.tasks.items
    ensures ProjectOk(Dispatch(ps, plan, contract, id, now), p)
  {
    var backend := DispatchedTask(ps, id, plan, contract, "Build backend implementation for ", Backend,
                                  "go-backend-agent", [], now);
    var frontend := DispatchedTask(ps, id + 1, plan, contract, "Build frontend implementation for ", Frontend,
                                   "vue-frontend-agent", [], now);
    var review := DispatchedTask(ps, id + 2, plan, contract, "Merge and verify ", Integration, "integration-agent",
                                 [id, id + 1], now);
    assert Dispatch(ps, plan, contract, id, now)
      == Touch(AddTask(AddTask(AddTask(ps, backend), frontend), review), now);
    DispatchedUnborn(ps, id, plan, contract, "Build backend implementation for ", Backend, "go-backend-agent", [], now,
                     p);
    DispatchedUnborn(ps, id + 1, plan, contract, "Build frontend implementation for ", Frontend, "vue-frontend-agent",
                     [], now, p);
    DispatchedUnborn(ps, id + 2, plan, contract, "Merge and verify ", Integration, "integration-agent", [id, id + 1],
                     now, p);
    TouchedTripleOk(ps, backend, frontend, review, now, p);
  }

  lemma RetryOk(ps: ProjectState, t: Task, id: Id, now: Time, p: Id)
    requires ProjectOk(ps, p) && t.id in ps.tasks.items && ps.tasks.items[t.id] == t && id !in ps.tasks.items
    ensures ProjectOk(Touch(AddTask(ps, RetryOf(t, id, now)), now), p)
  {
    AddTaskOk(ps, RetryOf(t, id, now), p);
  }

  lemma ReworkOk(ps: ProjectState, c: Contract, id: Id, now: Time, p: Id)
    requires ProjectOk(ps, p) && c in ps.contracts && id !in ps.tasks.items
    ensures ProjectOk(AddTask(ps, ReworkTask(ps, c, id, now)), p)
  {
    var i :| 0 <= i < |ps.contracts| && ps.contracts[i] == c;
    AddTaskOk(ps, ReworkTask(ps, c, id, now), p);
  }

  lemma AddContextOk(ps: ProjectState, c: Context, p: Id)
    requires ProjectOk(ps, p) && c.projectId == p && c.body.taskId in ps.tasks.items
    requires c.id !in Ids(Get(ps.contexts, c.body.taskId))
    ensures ProjectOk(AddContext(ps, c), p)
  {
    FiledAppend(Get(ps.contexts, c.body.taskId), c, p);
  }

  lemma AddSharedOk(ps: ProjectState, b: Sandbox, p: Id)
    requires ProjectOk(ps, p) && b.projectId == p && b.id !in Ids(ps.sandboxes)
    ensures ProjectOk(AddSandbox(ps, b), p)
  {
    IdsAppend(ps.sandboxes, b);
    FiledAppend(ps.sandboxes, b, p);
    BoxesOk(ps, IndexList(ps.sandboxes)[b.id := b], p);
  }

  lemma PutSharedOk(ps: ProjectState, b: Sandbox, p: Id)
    requires ProjectOk(ps, p) && b.projectId == p && b.id in Ids(ps.sandboxes)
    requires IndexList(ps.sandboxes)[b.id].body.scope == Shared
    ensures ProjectOk(PutSandbox(ps, b), p)
  {
    PutKeepsIds(ps.sandboxes, b, p);
    IdsPut(ps.sandboxes, b, p);
    BoxesOk(ps, IndexList(ps.sandboxes)[b.id := b], p);
  }

  // Runs only look at private sandboxes.
  lemma BoxesOk(ps: ProjectState, boxes: map<Id, Sandbox>, p: Id)
    requires ProjectOk(ps, p)
    requires forall x | x in IndexList(ps.sandboxes) && IndexList(ps.sandboxes)[x].body.scope == Private ::
      x in boxes && boxes[x] == IndexList(ps.sandboxes)[x]
    ensures Protocol(ps.tasks.items, ps.runs.items, ps.artifacts.items, boxes)
  {
    forall r | r in ps.runs.items ensures RunFits(ps.runs.items[r], ps.tasks.items, ps.artifacts.items, boxes) {
      assert RunFits(ps.runs.items[r], ps.tasks.items, ps.artifacts.items, IndexList(ps.sandboxes));
    }
  }

  // ----- What the invariant means -------------------------------------------------------

  // The sandbox of a run, looked up by id.
  ghost predicate BoxIs(ps: ProjectState, boxId: Id, status: SandboxStatus) {
    && boxId in IndexList(ps.sandboxes) && IndexList(ps.sandboxes)[boxId].body.scope == Private
    && IndexList(ps.sandboxes)[boxId].body.status == status
  }

  ghost predicate OnlyRun(ps: ProjectState, t: Id, r: Id) {
    r in ps.runs.items && forall q | q in ps.runs.items :: ps.runs.items[q].body.taskId == t <==> q == r
  }

  lemma RunOfTask(ps: ProjectState, p: Id, t: Id) returns (r: Id)
    requires ProjectOk(ps, p) && HasRun(ps.runs.items, t)
    ensures OnlyRun(ps, t, r) && RunFits(ps.runs.items[r], ps.tasks.items, ps.artifacts.items, IndexList(ps.sandboxes))
  {
    r :| r in ps.runs.items && ps.runs.items[r].body.taskId == t;
  }

  // A task is IN_PROGRESS or HUMAN_OVERRIDE exactly when it has exactly one run, that run is
  // RUNNING and its private sandbox is ACTIVE.
  lemma BusyMeaning(ps: ProjectState, p: Id, t: Id)
    requires ProjectOk(ps, p) && t in ps.tasks.items
    ensures Busy(ps.tasks.items[t].body.status) <==> exists r ::
      OnlyRun(ps, t, r) && ps.runs.items[r].body.status == Running && BoxIs(ps, ps.runs.items[r].body.sandboxId, Active)
  {
    if HasRun(ps.runs.items, t) {
      var r := RunOfTask(ps, p, t);
      assert forall q | OnlyRun(ps, t, q) :: q == r;
    } else {
      forall q ensures !OnlyRun(ps, t, q) {}
    }
  }

  // A task is DONE exactly when its one run has SUCCEEDED, with one artifact that exists, and a
  // RELEASED sandbox.
  lemma DoneMeaning(ps: ProjectState, p: Id, t: Id)
    requires ProjectOk(ps, p) && t in ps.tasks.items
    ensures ps.tasks.items[t].body.status == Done <==> exists r ::
      && OnlyRun(ps, t, r) && ps.runs.items[r].body.status == Succeeded
      && BoxIs(ps, ps.runs.items[r].body.sandboxId, Released)
      && |ps.runs.items[r].body.artifactIds| == 1 && ps.runs.items[r].body.artifactIds[0] in ps.artifacts.items
  {
    if HasRun(ps.runs.items, t) {
      var r := RunOfTask(ps, p, t);
      assert forall q | OnlyRun(ps, t, q) :: q == r;
      assert forall a | a in ps.runs.items[r].body.artifactIds :: a in ps.artifacts.items;
    } else {
      forall q ensures !OnlyRun(ps, t, q) {}
    }
  }

  // A FAILED task's run, if it has one, is FAILED; a CREATED task has no run.
  lemma FailedAndCreatedMeaning(ps: ProjectState, p: Id, t: Id)
    requires ProjectOk(ps, p) && t in ps.tasks.items
    ensures ps.tasks.items[t].body.status == Failed ==>
      forall r | r in ps.runs.items && ps.runs.items[r].body.taskId == t :: ps.runs.items[r].body.status == Crashed
    ensures ps.tasks.items[t].body.status == Created ==> !HasRun(ps.runs.items, t)
  {
    hide Shapes, DepsOk, OrderOk, AuditsOk, PlansOk, ContextsOk;
    forall r | r in ps.runs.items && ps.runs.items[r].body.taskId == t
      ensures InStep(ps.runs.items[r].body, ps.tasks.items[t].body.status,
                     IndexList(ps.sandboxes)[ps.runs.items[r].body.sandboxId].body.status)
    {
      assert RunFits(ps.runs.items[r], ps.tasks.items, ps.artifacts.items, IndexList(ps.sandboxes));
    }
  }

  // The artifact lookup of the merge gate never fails for a DONE task.
  lemma DoneHasArtifact(ps: ProjectState, p: Id, t: Id)
    requires ProjectOk(ps, p) && t in ps.tasks.items && ps.tasks.items[t].body.status == Done
    ensures LatestArtifact(ps.runs.order, ps.runs.items, ps.artifacts.items, t).Some?
    ensures var a := LatestArtifact(ps.runs.order, ps.runs.items, ps.artifacts.items, t).value;
      a in ps.artifacts.items && ps.artifacts.items[a].body.taskId == t
      && ps.artifacts.items[a].body.runId in ps.runs.items
      && ps.runs.items[ps.artifacts.items[a].body.runId].body.sandboxId in IndexList(ps.sandboxes)
  {
    var r :| r in ps.runs.items && ps.runs.items[r].body.taskId == t;
    assert RunFits(ps.runs.items[r], ps.tasks.items, ps.artifacts.items, IndexList(ps.sandboxes));
    var a := ps.runs.items[r].body.artifactIds[0];
    assert a in ps.runs.items[r].body.artifactIds;
    LatestArtifactFound(ps.runs.order, ps.runs.items, ps.artifacts.items, t, r);
  }

  lemma {:induction false} LatestArtifactFound(order: seq<Id>, runs: map<Id, Run>, artifacts: map<Id, Artifact>, t: Id,
                                               r: Id)
    requires r in order && r in runs && runs[r].body.taskId == t && runs[r].body.status == Succeeded
    requires |runs[r].body.artifactIds| == 1 && runs[r].body.artifactIds[0] in artifacts
    requires forall q | q in runs && runs[q].body.taskId == t :: q == r
    ensures LatestArtifact(order, runs, artifacts, t) == Some(runs[r].body.artifactIds[0])
  {
    var x := order[|order|-1];
    if x == r {
    } else {
      assert r in order[..|order|-1];
      LatestArtifactFound(order[..|order|-1], runs, artifacts, t, r);
    }
  }

  // ----- Scheduling ---------------------------------------------------------------------

  // What automatic parallel selection picks.
  predicate AutoReady(tasks: map<Id, Task>, x: Id) {
    x in tasks && tasks[x].body.kind != Sprint1 && Ready(tasks, tasks[x].body)
  }

  // A started task never waits on anything: all its dependencies are DONE, and they sit
  // strictly earlier in the order.
  lemma StartedDepsDone(ps: ProjectState, p: Id, i: nat, d: Id)
    requires ProjectOk(ps, p) && i < |ps.tasks.order|
    requires ps.tasks.order[i] in ps.tasks.items && d in ps.tasks.items[ps.tasks.order[i]].body.dependsOn
    ensures exists j :: 0 <= j < i && ps.tasks.order[j] == d
    ensures d in ps.tasks.items && ps.tasks.items[d].body.kind != Sprint1
    ensures ps.tasks.items[ps.tasks.order[i]].body.status != Created ==> ps.tasks.items[d].body.status == Done
  {
    var x := ps.tasks.order[i];
    assert x in ps.tasks.order;
    assert d in ps.tasks.order[..i];
    var j :| 0 <= j < i && ps.tasks.order[..i][j] == d;
    assert ps.tasks.order[j] == d;
  }

  // If some CREATED task outside SPRINT1 waits and automatic selection finds nothing ready,
  // then a task of the project is being worked on or has failed.
  lemma {:induction false} NothingReadyMeansActiveOrFailed(ps: ProjectState, p: Id, i: nat)
    requires ProjectOk(ps, p) && i < |ps.tasks.order|
    requires ps.tasks.order[i] in ps.tasks.items
    requires var t := ps.tasks.items[ps.tasks.order[i]].body; t.kind != Sprint1 && t.status == Created
    requires forall x | x in ps.tasks.order :: !AutoReady(ps.tasks.items, x)
    ensures exists x ::
      x in ps.tasks.items && (Busy(ps.tasks.items[x].body.status) || ps.tasks.items[x].body.status == Failed)
    decreases i
  {
    hide ProjectOk;
    var tasks, x := ps.tasks.items, ps.tasks.order[i];
    assert x in ps.tasks.order && x in tasks;
    assert !Ready(tasks, tasks[x].body);
    var d :| d in tasks[x].body.dependsOn && !(d in tasks && tasks[d].body.status == Done);
    StartedDepsDone(ps, p, i, d);
    if tasks[d].body.status == Created {
      var j :| 0 <= j < i && ps.tasks.order[j] == d;
      NothingReadyMeansActiveOrFailed(ps, p, j);
    }
  }
}
