// What the sections of an executor bring about, said about the records before and after.
module ExecutorOutcomes {
  import opened Records
  import opened Domain
  import opened Text
  import opened Projects
  import opened ProjectProofs
  import opened Leases
  import opened Machine
  import opened MachineProofs
  import opened Theorems
  import opened Outcomes
  import opened PlanningOutcomes

  // ----- Faults and checkpoints ---------------------------------------------------------

  // Only the executor has moved on.
  ghost predicate MovedOn(w: World, v: World, r: Id, phase: Phase) {
    r in w.execs && v == w.(execs := w.execs[r := w.execs[r].(phase := phase)])
  }

  lemma MovedIs(w: World, r: Id, phase: Phase)
    requires r in w.execs
    ensures MovedOn(w, PutExec(w, r, w.execs[r].(phase := phase)), r, phase)
  {
  }

  // An executor goes on as long as its run is there; one that works may fail at any time.
  lemma PrepareDoes(w: World, r: Id)
    requires Inv(w) && At(w, r, Spawned)
    ensures MovedOn(w, Prepare(w, r), r,
                    if r in w.live[w.execs[r].projectId].runs.items then Prepared else Failing("run not found"))
  {
    hide Inv, ProjectOk, FindById;
    PrepareFailsOnlyAfterRollback(w, r);
    ExecRun(w, r);
    PreparedKeeps(w.execs[r], w.live[w.execs[r].projectId], r);
  }

  lemma BreakDoes(w: World, r: Id, failure: string)
    requires At(w, r, Armed)
    ensures MovedOn(w, Break(w, r, failure), r, Failing(failure))
  {
  }

  // A fault noted for the executor's task makes it fail, with that text, and is gone.
  lemma CheckFaultDoes(w: World, r: Id)
    requires At(w, r, Prepared)
    ensures var v := CheckFault(w, r); var t := w.execs[r].taskId;
      if t in w.faults && !Blank(w.faults[t])
      then MovedOn(w.(faults := w.faults - {t}), v, r, Failing(TrimSpace(w.faults[t])))
      else MovedOn(w, v, r, Checked)
  {
    hide TrimSpace, Blank;
    if w.execs[r].taskId in w.faults {
      TrimSpaceBlank(w.faults[w.execs[r].taskId]);
    }
  }

  // So a fault strikes once: it makes the next executor of the task fail, and no other after it.
  lemma FaultStrikesOnce(w: World, p: Id, x: Id, reason: string, r: Id, q: Id)
    requires Inv(w) && p in w.live && x in w.live[p].tasks.items && r != q
    requires At(w, r, Prepared) && At(w, q, Prepared) && w.execs[r].taskId == x == w.execs[q].taskId
    ensures var v := MarkFault(w, p, Some(x), reason).world; var u := CheckFault(v, r);
      && r in u.execs && u.execs[r].phase
                         == Failing(if Blank(reason) then "simulated sandbox failure" else TrimSpace(reason))
      && q in CheckFault(u, q).execs && CheckFault(u, q).execs[q].phase == Checked
  {
    hide Inv, TrimSpace, Blank, CheckFault, MarkFault;
    var why := if Blank(reason) then "simulated sandbox failure" else TrimSpace(reason);
    FaultDoes(w, p, Some(x), reason, x);
    SimulatedEdges();
    TrimSpaceIdempotent(reason);
    TrimSpaceBlank(reason);
    TrimSpaceBlank(TrimSpace(reason));
    var v := w.(faults := w.faults[x := why]);
    assert MarkFault(w, p, Some(x), reason).world == v;
    Strikes(v, r, q, x, why);
  }

  lemma Strikes(v: World, r: Id, q: Id, x: Id, why: string)
    requires r != q && At(v, r, Prepared) && At(v, q, Prepared) && v.execs[r].taskId == x == v.execs[q].taskId
    requires x in v.faults && v.faults[x] == why && !Blank(why) && TrimSpace(why) == why
    ensures var u := CheckFault(v, r);
      && r in u.execs && u.execs[r].phase == Failing(why)
      && q in CheckFault(u, q).execs && CheckFault(u, q).execs[q].phase == Checked
  {
    hide TrimSpace, Blank, CheckFault;
    CheckFaultDoes(v, r);
    var u := v.(faults := v.faults - {x}, execs := v.execs[r := v.execs[r].(phase := Failing(why))]);
    assert CheckFault(v, r) == u;
    CheckFaultDoes(u, q);
  }

  lemma SimulatedEdges()
    ensures TrimSpace("simulated sandbox failure") == "simulated sandbox failure"
    ensures !Blank("simulated sandbox failure")
  {
    var s := "simulated sandbox failure";
    EdgesStay(s);
    assert !IsSpace(s[0]);
  }

  // The override may be taken at a checkpoint of the task.
  ghost predicate MayTake(o: Override, x: Id, now: Time) {
    o.body.taskId == x && o.body.appliedAt == None && LeaseActive(now, o.body.expiresAt)
  }

  ghost predicate NewestToTake(s: seq<Override>, k: int, x: Id, now: Time) {
    0 <= k < |s| && MayTake(s[k], x, now) && forall j | k < j < |s| :: !MayTake(s[j], x, now)
  }

  // The k-th override is marked as applied, and its task, if handed over, goes on.
  ghost predicate TakenAt(w: World, v: World, p: Id, x: Id, k: int, now: Time) {
    var s := Get(w.overrides, p);
    && 0 <= k < |s| && p in w.live && p in v.live && x in w.live[p].tasks.items && x in v.live[p].tasks.items
    && v == w.(overrides := w.overrides[p := s[k := s[k].(body := s[k].body.(appliedAt := Some(now)))]],
               live := v.live, execs := v.execs)
    && if w.live[p].tasks.items[x].body.status == HumanOverride then
         && Went(w.live[p].tasks.items[x], v.live[p].tasks.items[x], InProgress,
                 "human override applied at safety checkpoint", now)
         && v.live == w.live[p := w.live[p].(tasks := Slice(w.live[p].tasks.items[x := v.live[p].tasks.items[x]],
                                                            w.live[p].tasks.order))]
       else v.live == w.live
  }

  ghost predicate CheckpointEnds(w: World, v: World, r: Id, now: Time)
    requires At(w, r, Checked)
  {
    var p, x := w.execs[r].projectId, w.execs[r].taskId;
    if r !in w.live[p].runs.items then MovedOn(w, v, r, Failing("run not found"))
    else
      && (forall k | NewestToTake(Get(w.overrides, p), k, x, now) ::
            TakenAt(w, v, p, x, k, now) && v.execs == w.execs[r := w.execs[r].(phase := Armed)])
      && ((forall o | o in Get(w.overrides, p) :: !MayTake(o, x, now)) ==> MovedOn(w, v, r, Armed))
  }

  // A checkpoint takes the newest pending override of the task in force, if there is one, and lets
  // the executor go on; an executor whose run has been rolled away fails.
  lemma CheckpointDoes(w: World, r: Id, now: Time)
    requires Inv(w) && At(w, r, Checked)
    ensures CheckpointEnds(w, Checkpoint(w, r, now), r, now)
  {
    hide Inv, ProjectOk, LatestPending, TakeOverride, Checkpoint, TakenAt, MovedOn, PutExec, MayTake;
    var p, x := w.execs[r].projectId, w.execs[r].taskId;
    ExecRun(w, r);
    CheckpointCases(w, r, now);
    MovedIs(w, r, Failing(NO_RUN));
    MovedIs(w, r, Armed);
    if r in w.live[p].runs.items {
      MachineProofs.LiveOk(w, p);
      RunningRun(w.live[p], r, p);
      TaskIdIs(w.live[p], x, p);
      var task := w.live[p].tasks.items[x];
      TakeableAre(Get(w.overrides, p), x, now);
      forall k | NewestToTake(Get(w.overrides, p), k, x, now)
        ensures TakenAt(w, Checkpoint(w, r, now), p, x, k, now)
        ensures Checkpoint(w, r, now).execs == w.execs[r := w.execs[r].(phase := Armed)]
      {
        TakenIs(w, p, task, k, now, r, w.execs[r].(phase := Armed));
      }
    }
  }

  lemma TakeableAre(s: seq<Override>, x: Id, now: Time)
    ensures forall k | NewestToTake(s, k, x, now) :: LatestPending(s, x, now) == Some(k)
    ensures (forall o | o in s :: !MayTake(o, x, now)) ==> LatestPending(s, x, now).None?
  {
    hide LeaseActive;
    forall k | 0 <= k < |s| ensures Takeable(s[k].body, x, now) <==> MayTake(s[k], x, now) && s[k] in s {}
    hide MayTake, Takeable;
    var latest := LatestPending(s, x, now);
    if latest.Some? {
      assert MayTake(s[latest.value], x, now);
    }
  }

  lemma TakenIs(w: World, p: Id, task: Task, k: nat, now: Time, r: Id, x: Executor)
    requires p in w.live && k < |Get(w.overrides, p)|
    requires task.id in w.live[p].tasks.items && w.live[p].tasks.items[task.id] == task
    ensures var v := PutExec(TakeOverride(w, p, task, k, now), r, x);
      TakenAt(w, v, p, task.id, k, now) && v.execs == w.execs[r := x]
  {
    hide Get, MovedOrSame, Went, OVERRIDE_APPLIED;
    if task.body.status == HumanOverride {
      ResumedIs(task, now);
    }
  }

  lemma ResumedIs(task: Task, now: Time)
    requires task.body.status == HumanOverride
    ensures Went(task, task.(body := MovedOrSame(task.body, InProgress, OVERRIDE_APPLIED, now)), InProgress,
                 "human override applied at safety checkpoint", now)
  {
  }

  // ----- The end of a run ---------------------------------------------------------------

  // One sandbox has come to its end; a failure text is written where there is one.
  ghost predicate BoxEnds(s: seq<Sandbox>, t: seq<Sandbox>, id: Id, status: SandboxStatus, failure: Option<string>,
                          now: Time) {
    && |t| == |s|
    && forall k | 0 <= k < |s| ::
      t[k] == if s[k].id != id then s[k]
              else s[k].(body := s[k].body.(status := status, updatedAt := now,
                                            failure := if failure == None then s[k].body.failure else failure.value))
  }

  lemma SettledEnds(ps: ProjectState, p: Id, id: Id, status: SandboxStatus, failure: Option<string>, now: Time)
    requires Filed(ps.sandboxes, p) && id in IndexList(ps.sandboxes)
    ensures var qs := SettleSandbox(ps, id, status, failure, now);
      qs == ps.(sandboxes := qs.sandboxes) && BoxEnds(ps.sandboxes, qs.sandboxes, id, status, failure, now)
  {
    var s := ps.sandboxes;
    forall k | 0 <= k < |s| && s[k].id == id ensures IndexList(s)[id] == s[k] {
      IndexListFinds(s, k);
    }
    var i := IndexListAt(s, id);
  }

  // The run has succeeded: its task is DONE with the artifact's address, the artifact is filed, and
  // the sandbox is released.  Nothing else has changed.
  ghost predicate RunSucceeded(ps: ProjectState, qs: ProjectState, p: Id, r: Id, x: Id, a: Id, uri: string,
                               usage: Usage, summary: string, now: Time) {
    && r in ps.runs.items && x in ps.tasks.items && x in qs.tasks.items
    && var run, t := ps.runs.items[r], ps.tasks.items[x];
    && run.body.taskId == x && run.body.status == Running && Busy(t.body.status)
    && qs.runs == Slice(ps.runs.items[r := run.(body := run.body.(status := Succeeded, usage := usage,
                                                                  summary := summary, artifactIds := [a],
                                                                  endedAt := Some(now)))], ps.runs.order)
    && Went(t.(body := t.body.(outputRef := uri)), qs.tasks.items[x], Done, "single agent execution completed", now)
    && qs.tasks == Slice(ps.tasks.items[x := qs.tasks.items[x]], ps.tasks.order)
    && qs.artifacts == Slice(ps.artifacts.items[a := Record(a, p, ArtifactBody(x, r, uri, now))],
                             ps.artifacts.order + [a])
    && BoxEnds(ps.sandboxes, qs.sandboxes, run.body.sandboxId, Released, None, now)
    && qs == ps.(runs := qs.runs, tasks := qs.tasks, artifacts := qs.artifacts, sandboxes := qs.sandboxes)
  }

  // The run has failed: so has its task, and the sandbox, which says why.  Nothing else has changed.
  ghost predicate RunBroke(ps: ProjectState, qs: ProjectState, r: Id, x: Id, failure: string, usage: Usage,
                           now: Time) {
    && r in ps.runs.items && x in ps.tasks.items && x in qs.tasks.items
    && var run, t := ps.runs.items[r], ps.tasks.items[x];
    && run.body.taskId == x && run.body.status == Running && Busy(t.body.status)
    && qs.runs == Slice(ps.runs.items[r := run.(body := run.body.(status := RunStatus.Crashed, failure := failure,
                                                                  usage := usage, endedAt := Some(now)))],
                        ps.runs.order)
    && Went(t, qs.tasks.items[x], Failed, "single agent execution failed", now)
    && qs.tasks == Slice(ps.tasks.items[x := qs.tasks.items[x]], ps.tasks.order)
    && BoxEnds(ps.sandboxes, qs.sandboxes, run.body.sandboxId, Broken, Some(failure), now)
    && qs == ps.(runs := qs.runs, tasks := qs.tasks, sandboxes := qs.sandboxes)
  }

  // A run that is still there, as its executor knows it.
  ghost predicate Underway(ps: ProjectState, p: Id, r: Id, x: Id) {
    && r in ps.runs.items && x in ps.tasks.items && ps.project.id == p && Filed(ps.sandboxes, p)
    && ps.runs.items[r].id == r && ps.tasks.items[x].id == x
    && ps.runs.items[r].body.taskId == x && ps.runs.items[r].body.status == Running
    && ps.runs.items[r].body.artifactIds == [] && Busy(ps.tasks.items[x].body.status)
    && ps.runs.items[r].body.sandboxId in IndexList(ps.sandboxes)
  }

  lemma UnderwayIs(w: World, r: Id)
    requires Inv(w) && r in w.execs && w.execs[r].projectId in w.live
    requires r in w.live[w.execs[r].projectId].runs.items
    ensures Underway(w.live[w.execs[r].projectId], w.execs[r].projectId, r, w.execs[r].taskId)
  {
    var p := w.execs[r].projectId;
    ExecRun(w, r);
    MachineProofs.LiveOk(w, p);
    RunningRun(w.live[p], r, p);
    RunIdIs(w.live[p], r, p);
    TaskIdIs(w.live[p], w.execs[r].taskId, p);
    NoArtifactYet(w.live[p], r, p);
    hide Inv, Protocol, DepsOk, OrderOk, AuditsOk, PlansOk, ContextsOk;
  }

  lemma NoArtifactYet(ps: ProjectState, r: Id, p: Id)
    requires ProjectOk(ps, p) && r in ps.runs.items && ps.runs.items[r].body.status == Running
    ensures ps.runs.items[r].body.artifactIds == []
  {
    assert RunFits(ps.runs.items[r], ps.tasks.items, ps.artifacts.items, IndexList(ps.sandboxes));
  }

  lemma CompletedIs(t: Task, uri: string, now: Time)
    requires Busy(t.body.status)
    ensures Went(t.(body := t.body.(outputRef := uri)), CompletedTask(t, uri, now), Done,
                 "single agent execution completed", now)
    ensures CompletedTask(t, uri, now).id == t.id
  {
  }

  lemma SucceededIs(ps: ProjectState, p: Id, r: Id, x: Id, a: Id, uri: string, usage: Usage, summary: string, now: Time)
    requires Underway(ps, p, r, x)
    ensures RunSucceeded(ps, Projects.CompleteRun(ps, r, x, a, uri, usage, summary, now), p, r, x, a, uri, usage,
                         summary, now)
  {
    hide SettleSandbox, BoxEnds, IndexList, Filed, CompletedTask, Went;
    var run := ps.runs.items[r];
    var artifact := Record(a, ps.project.id, ArtifactBody(x, r, uri, now));
    var mid := PutTask(ps, CompletedTask(ps.tasks.items[x], uri, now)).(
      artifacts := AddToSlice(ps.artifacts, artifact),
      runs := PutInSlice(ps.runs, CompletedRun(run, a, usage, summary, now)));
    CompletedIs(ps.tasks.items[x], uri, now);
    SettledEnds(mid, p, run.body.sandboxId, Released, None, now);
    assert run.body.artifactIds + [a] == [a];
  }

  lemma BrokeIs(ps: ProjectState, p: Id, r: Id, x: Id, failure: string, usage: Usage, now: Time)
    requires Underway(ps, p, r, x)
    ensures RunBroke(ps, FailRun(ps, r, failure, usage, now), r, x, failure, usage, now)
  {
    var run := ps.runs.items[r];
    var mid := ps.(runs := PutInSlice(ps.runs, CrashedRun(run, failure, usage, now)));
    SettledEnds(mid, p, run.body.sandboxId, Broken, Some(failure), now);
    hide SettleSandbox, BoxEnds, IndexList, Filed;
  }

  // Only the executor is gone, and some ids are handed out.
  ghost predicate LeftWork(w: World, v: World, r: Id, live: map<Id, ProjectState>, k: nat) {
    v == w.(live := live, execs := w.execs - {r}, owner := v.owner, nextId := w.nextId + k)
  }

  lemma LeftIs(w: World, r: Id, p: Id, qs: ProjectState, k: nat)
    ensures LeftWork(w, DropExec(Put(Claim(w, p, k), p, qs), r), r, w.live[p := qs], k)
  {
    hide Grant;
  }

  // An executor that is through completes its run; if the run has been rolled away, nothing but the
  // executor goes.
  lemma CompleteDoes(w: World, r: Id, uri: string, usage: Usage, summary: string, now: Time)
    requires Inv(w) && At(w, r, Armed)
    ensures var p, x, v := w.execs[r].projectId, w.execs[r].taskId, Machine.Complete(w, r, uri, usage, summary, now);
      if r in w.live[p].runs.items
      then
        && p in v.live && LeftWork(w, v, r, w.live[p := v.live[p]], 1)
        && RunSucceeded(w.live[p], v.live[p], p, r, x, w.nextId, uri, usage, summary, now)
      else LeftWork(w, v, r, w.live, 1)
  {
    hide Inv, Underway, RunSucceeded, Projects.CompleteRun, Claim, Put, DropExec, LeftWork;
    var p, x := w.execs[r].projectId, w.execs[r].taskId;
    LeftIs(w, r, p, Projects.CompleteRun(w.live[p], r, x, w.nextId, uri, usage, summary, now), 1);
    ThereStill(w, r, p, Projects.CompleteRun(w.live[p], r, x, w.nextId, uri, usage, summary, now), 1);
    if r in w.live[p].runs.items {
      UnderwayIs(w, r);
      SucceededIs(w.live[p], p, r, x, w.nextId, uri, usage, summary, now);
    } else {
      NothingToEnd(w.live[p], r, x, w.nextId, uri, usage, summary, "", now);
      assert w.live[p := w.live[p]] == w.live;
    }
  }

  lemma ThereStill(w: World, r: Id, p: Id, qs: ProjectState, k: nat)
    ensures var v := DropExec(Put(Claim(w, p, k), p, qs), r); p in v.live && v.live[p] == qs
  {
    hide Grant;
  }

  lemma NothingToEnd(ps: ProjectState, r: Id, x: Id, a: Id, uri: string, usage: Usage, summary: string,
                     failure: string, now: Time)
    requires r !in ps.runs.items
    ensures Projects.CompleteRun(ps, r, x, a, uri, usage, summary, now) == ps == FailRun(ps, r, failure, usage, now)
  {
  }

  // An executor that has failed fails its run; if the run has been rolled away, nothing but the
  // executor goes.
  lemma FailDoes(w: World, r: Id, usage: Usage, now: Time)
    requires Inv(w) && r in w.execs && w.execs[r].phase.Failing? && w.execs[r].projectId in w.live
    ensures var p, x, v := w.execs[r].projectId, w.execs[r].taskId, Machine.Fail(w, r, usage, now);
      if r in w.live[p].runs.items
      then
        && p in v.live && LeftWork(w, v, r, w.live[p := v.live[p]], 0)
        && RunBroke(w.live[p], v.live[p], r, x, w.execs[r].phase.failure, usage, now)
      else LeftWork(w, v, r, w.live, 0)
  {
    hide Inv, Underway, RunBroke, Projects.FailRun;
    var p, x := w.execs[r].projectId, w.execs[r].taskId;
    if r in w.live[p].runs.items {
      UnderwayIs(w, r);
      BrokeIs(w.live[p], p, r, x, w.execs[r].phase.failure, usage, now);
    } else {
      NothingToEnd(w.live[p], r, x, 0, "", usage, "", w.execs[r].phase.failure, now);
      assert w.live[p := w.live[p]] == w.live;
    }
  }
}
