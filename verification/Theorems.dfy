// What the machine guarantees over all runs.
module Theorems {
  import opened Records
  import opened Domain
  import opened Text
  import opened Projects
  import opened ProjectProofs
  import opened Leases
  import opened Machine
  import opened MachineProofs
  import opened Isolation

  // ----- The protocol -------------------------------------------------------------------

  // What a task's status says about its run, sandbox and artifact.
  ghost predicate TaskFits(ps: ProjectState, t: Id)
    requires t in ps.tasks.items
  {
    var status := ps.tasks.items[t].body.status;
    && (Busy(status) <==> exists r :: OnlyRun(ps, t, r) && ps.runs.items[r].body.status == Running
                                      && BoxIs(ps, ps.runs.items[r].body.sandboxId, Active))
    && (status == Done <==> exists r :: OnlyRun(ps, t, r) && ps.runs.items[r].body.status == Succeeded
                                        && BoxIs(ps, ps.runs.items[r].body.sandboxId, Released)
                                        && |ps.runs.items[r].body.artifactIds| == 1
                                        && ps.runs.items[r].body.artifactIds[0] in ps.artifacts.items)
    && (status == Failed ==>
          forall r | r in ps.runs.items && ps.runs.items[r].body.taskId == t :: ps.runs.items[r].body.status == Crashed)
    && (status == Created ==> !HasRun(ps.runs.items, t))
  }

  lemma FitsIfOk(ps: ProjectState, p: Id, t: Id)
    requires ProjectOk(ps, p) && t in ps.tasks.items
    ensures TaskFits(ps, t)
  {
    hide ProjectOk;
    BusyMeaning(ps, p, t);
    DoneMeaning(ps, p, t);
    FailedAndCreatedMeaning(ps, p, t);
  }

  // In every reachable state, live or stored in a snapshot, every task fits its run.
  lemma ProtocolEverywhere(events: seq<Event>)
    ensures var w := After(Init(), events);
      && (forall p, t | p in w.live && t in w.live[p].tasks.items :: TaskFits(w.live[p], t))
      && (forall s, t | s in w.states && t in w.states[s].tasks.items :: TaskFits(w.states[s], t))
  {
    hide ProjectOk, TimelinesOk, LeasesOk, ExecOk, TaskFits;
    Reachable(events);
    var w := After(Init(), events);
    forall p, t | p in w.live && t in w.live[p].tasks.items ensures TaskFits(w.live[p], t) {
      assert StateOk(w.live[p], p, w.owner);
      FitsIfOk(w.live[p], p, t);
    }
    forall s, t | s in w.states && t in w.states[s].tasks.items ensures TaskFits(w.states[s], t) {
      assert StateOk(w.states[s], w.owner[s], w.owner);
      FitsIfOk(w.states[s], w.owner[s], t);
    }
  }

  // ----- Executors against rollback -----------------------------------------------------

  // The one run of the task, seen after it has ended.
  ghost predicate Ended(before: ProjectState, after: ProjectState, r: Id, run: RunStatus, task: TaskStatus) {
    && r in before.runs.items && r in after.runs.items
    && before.runs.items[r].body.status == Running && after.runs.items[r].body.status == run
    && before.runs.items[r].body.taskId in before.tasks.items && before.runs.items[r].body.taskId in after.tasks.items
    && Busy(before.tasks.items[before.runs.items[r].body.taskId].body.status)
    && after.tasks.items[before.runs.items[r].body.taskId].body.status == task
  }

  // A late executor is harmless: if its run was rolled away its last section changes nothing;
  // otherwise the section is the first to finish a RUNNING run, and the task's transition, which
  // the code would only log if it were refused, is always allowed.
  lemma LateExecutor(w: World, r: Id, uri: string, usage: Usage, summary: string, now: Time)
    requires Inv(w) && r in w.execs
    ensures var x := w.execs[r]; var ps := w.live[x.projectId];
      var done := Projects.CompleteRun(ps, r, x.taskId, w.nextId, uri, usage, summary, now);
      var failed := FailRun(ps, r, summary, usage, now);
      && (r !in ps.runs.items ==> done == ps && failed == ps)
      && (r in ps.runs.items ==> Ended(ps, done, r, Succeeded, Done) && Ended(ps, failed, r, Crashed, Failed))
  {
    hide ProjectOk;
    ExecRun(w, r);
    var p := w.execs[r].projectId;
    LiveOk(w, p);
    if r in w.live[p].runs.items {
      RunningRun(w.live[p], r, p);
      EndedBoth(w.live[p], r, w.nextId, uri, usage, summary, now, p);
    }
  }

  lemma EndedBoth(ps: ProjectState, r: Id, a: Id, uri: string, usage: Usage, summary: string, now: Time, p: Id)
    requires ProjectOk(ps, p) && r in ps.runs.items && ps.runs.items[r].body.status == Running
    ensures Ended(ps, Projects.CompleteRun(ps, r, ps.runs.items[r].body.taskId, a, uri, usage, summary, now), r,
                  Succeeded, Done)
    ensures Ended(ps, FailRun(ps, r, summary, usage, now), r, Crashed, Failed)
  {
    RunningRun(ps, r, p);
    RunIdIs(ps, r, p);
    TaskIdIs(ps, ps.runs.items[r].body.taskId, p);
    hide ProjectOk;
  }

  lemma RunIdIs(ps: ProjectState, r: Id, p: Id)
    requires ProjectOk(ps, p) && r in ps.runs.items
    ensures ps.runs.items[r].id == r
  {
  }

  // Two executors whose runs are both there never work on the same task.
  lemma ExecutorsApart(w: World, r: Id, q: Id)
    requires Inv(w) && r in w.execs && q in w.execs && r != q && w.execs[r].projectId == w.execs[q].projectId
    requires r in w.live[w.execs[r].projectId].runs.items && q in w.live[w.execs[q].projectId].runs.items
    ensures w.execs[r].taskId != w.execs[q].taskId
  {
    hide TimelinesOk, LeasesOk;
    LiveOk(w, w.execs[r].projectId);
    assert ExecOk(w, r) && ExecOk(w, q);
  }

  // ----- Lookups that cannot fail -------------------------------------------------------

  lemma PlanOfTask(ps: ProjectState, p: Id, t: Id)
    requires ProjectOk(ps, p) && t in ps.tasks.items
    ensures FindById(ps.plans, ps.tasks.items[t].body.planId).Some?
    ensures FindById(ps.requirements, FindById(ps.plans, ps.tasks.items[t].body.planId).value.body.requirementId).Some?
  {
    var id := ps.tasks.items[t].body.planId;
    assert id in Ids(ps.plans);
    FindByIdIn(ps.plans, id);
    RequirementOfPlan(ps, p, FindById(ps.plans, id).value);
  }

  lemma RequirementOfPlan(ps: ProjectState, p: Id, plan: Plan)
    requires ProjectOk(ps, p) && plan in ps.plans
    ensures FindById(ps.requirements, plan.body.requirementId).Some?
  {
    var i :| 0 <= i < |ps.plans| && ps.plans[i] == plan;
    FindByIdIn(ps.requirements, plan.body.requirementId);
  }

  // A contract is refused only for a missing project or a project without plans: its plan's
  // requirement is always found.
  lemma ContractNeedsPlanOnly(w: World, p: Id, now: Time)
    requires Inv(w)
    ensures GenerateContract(w, p, now).refused == if p !in w.live then Some(NotFound) else if w.live[p].plans == []
      then Some(Invalid) else None
  {
    hide Inv, ProjectOk, FindById, AddContract;
    if p in w.live && w.live[p].plans != [] {
      LiveOk(w, p);
      RequirementOfPlan(w.live[p], p, w.live[p].plans[|w.live[p].plans|-1]);
    }
  }

  // A context for a task is refused only when the project has no contract at all.
  lemma ContextNeedsContractOnly(w: World, p: Id, taskId: Option<Id>, now: Time)
    requires Inv(w) && p in w.live && ResolveTask(w.live[p], taskId).Ok?
    ensures GenerateTaskContext(w, p, taskId, now).refused.Some? <==> w.live[p].contracts == []
  {
    hide Inv, ProjectOk, FindById, AddContext;
    LiveOk(w, p);
    TaskResolved(w.live[p], taskId, p);
    PlanOfTask(w.live[p], p, ResolveTask(w.live[p], taskId).value.id);
    if w.live[p].contracts == [] {
      NoContract(w.live[p], ResolveTask(w.live[p], taskId).value.body);
    }
  }

  // An executor fails to prepare only when its run has been rolled away.
  lemma PrepareFailsOnlyAfterRollback(w: World, r: Id)
    requires Inv(w) && At(w, r, Spawned)
    ensures Prepare(w, r).execs[r].phase
      == if r in w.live[w.execs[r].projectId].runs.items then Prepared else Failing(NO_RUN)
  {
    hide Inv, ProjectOk, FindById, NO_RUN, NO_TASK, NO_PLAN;
    var q := w.execs[r].projectId;
    assert Prepare(w, r).execs[r] == PreparedBy(w.execs[r], w.live[q], r);
    if r in w.live[q].runs.items {
      ExecRun(w, r);
      LiveOk(w, q);
      RunningRun(w.live[q], r, q);
      PlanOfTask(w.live[q], q, w.live[q].runs.items[r].body.taskId);
    }
  }

  lemma NoContract(ps: ProjectState, t: TaskBody)
    requires ps.contracts == []
    ensures TaskContract(ps, t).Refused?
  {
    if t.inputRef.ContractRef? {
      FindByIdIn(ps.contracts, t.inputRef.id);
    }
  }

  // ----- What a request asks for --------------------------------------------------------

  // Some entry of the request asks for x.
  ghost predicate Requested(ps: ProjectState, ids: seq<Option<Id>>, x: Id) {
    exists i :: 0 <= i < |ids| && Asks(ps, ids[i], x)
  }

  // Every entry of the request asks for a task that is there.
  ghost predicate AllThere(ps: ProjectState, ids: seq<Option<Id>>) {
    forall i | 0 <= i < |ids| :: exists x :: Asks(ps, ids[i], x) && x in ps.tasks.items
  }

  lemma RequestedMore(ps: ProjectState, ids: seq<Option<Id>>, id: Option<Id>)
    ensures forall x :: Requested(ps, ids + [id], x) <==> Requested(ps, ids, x) || Asks(ps, id, x)
    ensures AllThere(ps, ids + [id]) <==> AllThere(ps, ids) && exists x :: Asks(ps, id, x) && x in ps.tasks.items
  {
    hide Asks;
    var more := ids + [id];
    assert forall i | 0 <= i < |ids| :: more[i] == ids[i];
    assert more[|ids|] == id;
    forall x | Requested(ps, ids, x) ensures Requested(ps, more, x) {
      var i :| 0 <= i < |ids| && Asks(ps, ids[i], x);
      assert Asks(ps, more[i], x);
    }
  }

  lemma OneAsked(ps: ProjectState, id: Option<Id>, p: Id)
    requires ProjectOk(ps, p)
    ensures ResolveTask(ps, id).Ok? <==> exists x :: Asks(ps, id, x) && x in ps.tasks.items
    ensures ResolveTask(ps, id).Ok? ==> forall x :: Asks(ps, id, x) <==> x == ResolveTask(ps, id).value.id
  {
    AskedFound(ps, id, p);
    hide ProjectOk, ResolveTask;
  }

  lemma NothingRequested(ps: ProjectState)
    ensures AllThere(ps, []) && forall x :: !Requested(ps, [], x)
  {
  }

  // ----- Merging ------------------------------------------------------------------------

  ghost predicate Mergeable(ps: ProjectState, id: Option<Id>) {
    exists x :: Asks(ps, id, x) && x in ps.tasks.items && ps.tasks.items[x].body.status == Done
  }

  // Tasks that come once each, every one DONE and with an artifact of its own.
  ghost predicate Gathered(ps: ProjectState, m: Merged) {
    && |m.artifacts| == |m.tasks| && Distinct(m.tasks)
    && forall k | 0 <= k < |m.tasks| ::
      && m.tasks[k] in ps.tasks.items && ps.tasks.items[m.tasks[k]].body.status == Done
      && m.artifacts[k] in ps.artifacts.items && ps.artifacts.items[m.artifacts[k]].body.taskId == m.tasks[k]
  }

  lemma OneMoreGathered(ps: ProjectState, p: Id, m: Merged, t: Id)
    requires ProjectOk(ps, p) && Gathered(ps, m) && t !in m.tasks
    requires t in ps.tasks.items && ps.tasks.items[t].body.status == Done
    ensures var a := LatestArtifact(ps.runs.order, ps.runs.items, ps.artifacts.items, t);
      a.Some? && Gathered(ps, Merged(m.tasks + [t], m.artifacts + [a.value]))
  {
    hide ProjectOk, LatestArtifact;
    DoneHasArtifact(ps, p, t);
  }

  lemma GatheredDone(ps: ProjectState, m: Merged, t: Id)
    requires Gathered(ps, m) && t in m.tasks
    ensures t in ps.tasks.items && ps.tasks.items[t].body.status == Done
  {
    var k :| 0 <= k < |m.tasks| && m.tasks[k] == t;
  }

  // A selection is accepted exactly when every task asked for is DONE: the artifact lookup of a
  // DONE task never fails.  The tasks come out once each, every one with an artifact of its own.
  lemma {:induction false} MergeSelection(ps: ProjectState, p: Id, ids: seq<Option<Id>>)
    requires ProjectOk(ps, p)
    ensures PickMerge(ps, ids).Ok? <==> forall i | 0 <= i < |ids| :: Mergeable(ps, ids[i])
    ensures PickMerge(ps, ids).Ok? ==> Gathered(ps, PickMerge(ps, ids).value)
    ensures PickMerge(ps, ids).Ok? ==> forall x :: x in PickMerge(ps, ids).value.tasks <==> Requested(ps, ids, x)
  {
    hide ProjectOk, LatestArtifact, ResolveTask, Requested, Asks, Mergeable;
    if ids == [] {
      NothingRequested(ps);
    } else {
      var front, last := ids[..|ids|-1], ids[|ids|-1];
      assert ids == front + [last];
      MergeSelection(ps, p, front);
      RequestedMore(ps, front, last);
      OneAsked(ps, last, p);
      MergeableMeans(ps, last, p);
      hide Gathered;
      assert forall i | 0 <= i < |front| :: front[i] == ids[i];
      assert ids[|front|] == last;
      if ResolveTask(ps, last).Ok? {
        TaskResolved(ps, last, p);
        var t := ResolveTask(ps, last).value;
        if PickMerge(ps, front).Ok? {
          if t.id in PickMerge(ps, front).value.tasks {
            GatheredDone(ps, PickMerge(ps, front).value, t.id);
          } else if t.body.status == Done {
            OneMoreGathered(ps, p, PickMerge(ps, front).value, t.id);
          }
        }
      }
    }
  }

  lemma MergeableMeans(ps: ProjectState, id: Option<Id>, p: Id)
    requires ProjectOk(ps, p)
    ensures Mergeable(ps, id) <==> ResolveTask(ps, id).Ok? && ResolveTask(ps, id).value.body.status == Done
  {
    AskedFound(ps, id, p);
    hide ProjectOk, ResolveTask, Asks;
  }

  // ----- Rollback -----------------------------------------------------------------------

  ghost predicate Stored(w: World, p: Id, id: Id) {
    p in w.timelines && exists j :: 0 <= j < |w.timelines[p].snapshots| && w.timelines[p].snapshots[j].id == id
  }

  // A rollback succeeds exactly when the snapshot is one of the project's; then the project is
  // the stored state with its contexts gone, that is what the new snapshot stores, overrides and
  // faults are gone, and every other project is untouched.
  lemma RollbackExact(w: World, p: Id, id: Id, reason: string, now: Time)
    requires Inv(w) && p in w.live
    ensures Rollback(w, p, Some(id), reason, now).refused.None? <==> Stored(w, p, id)
    ensures Stored(w, p, id) ==> id in w.states && var v := Rollback(w, p, Some(id), reason, now).world;
      && p in v.live && v.live[p] == Restored(w.states[id], now)
      && w.nextId in v.states && v.states[w.nextId] == v.live[p] && Stored(v, p, w.nextId)
      && Get(v.overrides, p) == [] && (forall t | t in w.live[p].tasks.items :: t !in v.faults)
      && Only(w, v, p)
    ensures !Stored(w, p, id) ==> Rollback(w, p, Some(id), reason, now).world == w
  {
    hide Inv, ProjectOk, TimelineOk, Only, FindById;
    TimelineThere(w, p);
    FindByIdIn(w.timelines[p].snapshots, id);
    RollbackOnly(w, p, Some(id), reason, now);
    if Stored(w, p, id) {
      var j :| 0 <= j < |w.timelines[p].snapshots| && w.timelines[p].snapshots[j].id == id;
      assert id in Ids(w.timelines[p].snapshots);
      TimelineOf(w, p);
      SnapshotFound(w.timelines[p], p, w.owner, w.states, id);
      TasksListed(w, p);
      var v := Rollback(w, p, Some(id), reason, now).world;
      assert v.timelines[p].snapshots[|w.timelines[p].snapshots|].id == w.nextId;
    }
  }

  lemma TimelineThere(w: World, p: Id)
    requires Inv(w) && p in w.live
    ensures p in w.timelines
  {
  }

  lemma TasksListed(w: World, p: Id)
    requires Inv(w) && p in w.live
    ensures forall t | t in w.live[p].tasks.items :: t in w.live[p].tasks.order
  {
    LiveOk(w, p);
  }

  // Rolling back again to the snapshot a rollback made, however long after and whatever happened
  // in between, gives the same project again, up to the time of the touch.
  lemma RollbackAgain(w: World, p: Id, id: Id, reason: string, now: Time, events: seq<Event>, reason': string,
                      now': Time)
    requires Inv(w) && p in w.live && Stored(w, p, id)
    ensures var v := Rollback(w, p, Some(id), reason, now).world; var u := After(v, events);
      p in v.live && p in u.live
      && Rollback(u, p, Some(w.nextId), reason', now').refused.None?
      && p in Rollback(u, p, Some(w.nextId), reason', now').world.live
      && Rollback(u, p, Some(w.nextId), reason', now').world.live[p] == Touch(v.live[p], now')
  {
    hide Inv, Only, Rollback;
    RollbackExact(w, p, id, reason, now);
    RollbackStep(w, p, Some(id), reason, now);
    var v := Rollback(w, p, Some(id), reason, now).world;
    RunGrows(v, events);
    RunOk(v, events);
    var u := After(v, events);
    LiveStays(v, u, p);
    StoredStays(v, u, p, w.nextId);
    RollbackExact(u, p, w.nextId, reason', now');
  }

  lemma LiveStays(w: World, v: World, p: Id)
    requires Inv(w) && Inv(v) && Grown(w, v) && p in w.live
    ensures p in v.live
  {
    hide StatesOk, LeasesOk, ExecOk;
  }

  lemma StoredStays(w: World, v: World, p: Id, id: Id)
    requires Grown(w, v) && Stored(w, p, id)
    ensures Stored(v, p, id)
  {
    var j :| 0 <= j < |w.timelines[p].snapshots| && w.timelines[p].snapshots[j].id == id;
    assert v.timelines[p].snapshots[j].id == id;
  }

  // The branch a rollback opens was never used in the project, whatever name it starts from.
  lemma BranchNeverUsed(w: World, p: Id, base: string)
    requires Inv(w) && p in w.timelines
    ensures RollbackBranch(w.timelines[p], base) != w.timelines[p].branch
    ensures forall i | 0 <= i < |w.timelines[p].snapshots| ::
      w.timelines[p].snapshots[i].body.branch != RollbackBranch(w.timelines[p], base)
  {
    var tl := w.timelines[p];
    assert TimelineOk(tl, p, w.owner, w.states);
    NamesBefore(tl, p, w.owner, w.states, base);
  }

  lemma NamesBefore(tl: Timeline, p: Id, owner: map<Id, Id>, states: map<Id, ProjectState>, base: string)
    requires TimelineOk(tl, p, owner, states)
    ensures RollbackBranch(tl, base) != tl.branch
    ensures forall i | 0 <= i < |tl.snapshots| :: tl.snapshots[i].body.branch != RollbackBranch(tl, base)
  {
    hide StateOk, LinkOk, TrimSpace, CurrentBranch;
    var b := if TrimSpace(base) == "" then CurrentBranch(tl) else TrimSpace(base);
    UnusedName(tl.branch, b, tl.branchSeq);
    forall i | 0 <= i < |tl.snapshots| ensures tl.snapshots[i].body.branch != RollbackName(b, tl.branchSeq + 1) {
      UnusedName(tl.snapshots[i].body.branch, b, tl.branchSeq);
    }
  }

  // So after any rollback the project is on a branch it has never been on.
  lemma RollbackOpensBranch(w: World, p: Id, id: Option<Id>, reason: string, now: Time)
    requires Inv(w) && Rollback(w, p, id, reason, now).refused.None?
    ensures var v := Rollback(w, p, id, reason, now).world;
      && p in w.timelines && p in v.timelines
      && v.timelines[p].branch != w.timelines[p].branch
      && (forall i | 0 <= i < |w.timelines[p].snapshots| ::
            w.timelines[p].snapshots[i].body.branch != v.timelines[p].branch)
      && |v.timelines[p].snapshots| == |w.timelines[p].snapshots| + 1
      && v.timelines[p].snapshots[|w.timelines[p].snapshots|].body.branch == v.timelines[p].branch
  {
    hide Inv, RollbackBranch, Restored;
    var tl := w.timelines[p];
    var snap := FindById(tl.snapshots, id.value).value;
    BranchNeverUsed(w, p, snap.body.branch);
    RollbackBranchNamed(tl, snap.body.branch);
  }

  lemma RollbackBranchNamed(tl: Timeline, base: string)
    ensures TrimSpace(RollbackBranch(tl, base)) != ""
  {
    var b := RollbackBranch(tl, base);
    TrimSpaceBlank(b);
    var d := Decimal(tl.branchSeq + 1);
    assert b[|b|-1] == d[|d|-1] && IsDigit(d[|d|-1]);
    assert !IsSpace(b[|b|-1]);
  }

  lemma UnusedName(b: string, base: string, n: nat)
    requires BranchOk(b, n)
    ensures b != RollbackName(base, n + 1)
  {
    if b == "main" {
      assert |RollbackName(base, n + 1)| >= 10;
    } else {
      var other, m :| 0 <= m <= n && b == RollbackName(other, m);
      if b == RollbackName(base, n + 1) {
        NumeralSuffix(other, base, "-rollback-", m, n + 1);
      }
    }
  }

  // ----- Timelines ----------------------------------------------------------------------

  function IndexOf(s: seq<Snapshot>, id: Id): (r: Option<nat>)
    ensures r.Some? ==> r.value < |s| && s[r.value].id == id
    ensures r.None? ==> forall i | 0 <= i < |s| :: s[i].id != id
  {
    if s == [] then None else if s[|s|-1].id == id then Some(|s| - 1) else IndexOf(s[..|s|-1], id)
  }

  // The walk along the source links; `fuel` bounds a walk that might not end.
  function Lineage(s: seq<Snapshot>, i: nat, fuel: nat): (walk: seq<nat>)
    requires i < |s|
    ensures walk != [] && forall k | 0 <= k < |walk| :: walk[k] < |s|
    decreases fuel
  {
    if fuel == 0 then [i]
    else if s[i].body.source.None? then [i]
    else
      var j := IndexOf(s, s[i].body.source.value);
      if j.None? then [i] else [i] + Lineage(s, j.value, fuel - 1)
  }

  // The walk goes to strictly earlier snapshots and ends, before the fuel does, at one without a
  // source.
  lemma {:induction false} LineageEnds(tl: Timeline, p: Id, owner: map<Id, Id>, states: map<Id, ProjectState>, i: nat,
                                       fuel: nat)
    requires TimelineOk(tl, p, owner, states) && i < |tl.snapshots| && fuel >= i
    ensures var walk := Lineage(tl.snapshots, i, fuel);
      && 0 < |walk| <= i + 1 && walk[0] == i
      && (forall k | 0 <= k < |walk| :: walk[k] <= i)
      && (forall k | 0 < k < |walk| :: walk[k] < walk[k-1])
      && tl.snapshots[walk[|walk|-1]].body.source.None?
  {
    hide BranchOk, LastStable, IndexOf, Owned;
    var s := tl.snapshots;
    assert LinkOk(s, i);
    if s[i].body.source.Some? {
      var j :| 0 <= j < i && s[j].id == s[i].body.source.value;
      var k := IndexOf(s, s[i].body.source.value);
      assert k == Some(j);
      LineageEnds(tl, p, owner, states, j, fuel - 1);
    }
  }

  ghost predicate NewestStable(s: seq<Snapshot>, i: int) {
    0 <= i < |s| && s[i].body.stable && forall j | i < j < |s| :: !s[j].body.stable
  }

  // In every reachable state: source links lead back to a first snapshot, and the stable
  // snapshot is the last one marked stable.
  lemma StableIsNewest(tl: Timeline, p: Id, owner: map<Id, Id>, states: map<Id, ProjectState>)
    requires TimelineOk(tl, p, owner, states)
    ensures tl.stable.None? ==> forall i | 0 <= i < |tl.snapshots| :: !tl.snapshots[i].body.stable
    ensures tl.stable.Some? ==> exists i :: NewestStable(tl.snapshots, i) && tl.snapshots[i].id == tl.stable.value
  {
    hide BranchOk, LinkOk;
    LastStableIn(tl.snapshots);
    if tl.stable.Some? {
      var s := tl.snapshots;
      var i :| 0 <= i < |s| && s[i].id == tl.stable.value && s[i].body.stable
        && forall j | i < j < |s| :: !s[j].body.stable;
      assert NewestStable(s, i);
    }
  }

  lemma TimelineIntegrity(events: seq<Event>, p: Id)
    requires p in After(Init(), events).timelines
    ensures var tl := After(Init(), events).timelines[p];
      && (forall i | 0 <= i < |tl.snapshots| ::
            tl.snapshots[i].projectId == p && tl.snapshots[i].id in After(Init(), events).states)
      && (forall i | 0 <= i < |tl.snapshots| ::
            var walk := Lineage(tl.snapshots, i, i); tl.snapshots[walk[|walk|-1]].body.source.None?)
      && (tl.stable.None? ==> forall i | 0 <= i < |tl.snapshots| :: !tl.snapshots[i].body.stable)
      && (tl.stable.Some? ==> exists i :: NewestStable(tl.snapshots, i) && tl.snapshots[i].id == tl.stable.value)
  {
    hide BranchOk, LinkOk, Inv, Lineage, After, Init, NewestStable;
    Reachable(events);
    var w := After(Init(), events);
    var tl := w.timelines[p];
    TimelineOf(w, p);
    StableIsNewest(tl, p, w.owner, w.states);
    forall i | 0 <= i < |tl.snapshots|
      ensures var walk := Lineage(tl.snapshots, i, i); tl.snapshots[walk[|walk|-1]].body.source.None?
    {
      LineageEnds(tl, p, w.owner, w.states, i, i);
    }
  }

  // ----- Leases -------------------------------------------------------------------------

  ghost predicate OneHolder(s: seq<Lease>) {
    forall now: Time, i, j | 0 <= i < |s| && 0 <= j < |s| && s[i].scope == s[j].scope
      && Holds(s[i], now) && Holds(s[j], now) && s[i].createdAt <= now && s[j].createdAt <= now ::
        s[i].owner == s[j].owner
  }

  lemma ExclusiveMeansOne(s: seq<Lease>)
    requires Exclusive(s)
    ensures OneHolder(s)
  {
    forall now: Time, i, j | 0 <= i < |s| && 0 <= j < |s| && s[i].scope == s[j].scope
      && Holds(s[i], now) && Holds(s[j], now) && s[i].createdAt <= now
      && s[j].createdAt <= now ensures s[i].owner == s[j].owner
    {
      OneOwner(s, now, i, j);
    }
  }

  // In every reachable state, at any time since they were made, the code locks in force on one
  // scope have one owner, and so have the pending overrides of one task scope.
  lemma LeasesExclusive(events: seq<Event>, p: Id)
    ensures OneHolder(LockLeases(Get(After(Init(), events).locks, p)))
    ensures OneHolder(OverrideLeases(Get(After(Init(), events).overrides, p)))
  {
    hide Inv;
    Reachable(events);
    LeasesOf(After(Init(), events), p);
    ExclusiveMeansOne(LockLeases(Get(After(Init(), events).locks, p)));
    ExclusiveMeansOne(OverrideLeases(Get(After(Init(), events).overrides, p)));
  }

  // ----- Scheduling ---------------------------------------------------------------------

  // What automatic selection takes: exactly the ready tasks outside SPRINT1, each once, and it
  // reports exactly the other CREATED ones as blocked.
  lemma {:induction false} AutoSelection(order: seq<Id>, tasks: map<Id, Task>)
    requires Distinct(order)
    ensures Distinct(PickAuto(order, tasks).selected)
    ensures forall x :: x in PickAuto(order, tasks).selected <==> x in order && AutoReady(tasks, x)
    ensures forall x :: x in PickAuto(order, tasks).blocked <==>
      && x in order && x in tasks && tasks[x].body.kind != Sprint1 && tasks[x].body.status == Created
      && !Ready(tasks, tasks[x].body)
  {
    hide Ready;
    if order == [] {
    } else {
      var front, x := order[..|order|-1], order[|order|-1];
      AutoSelection(front, tasks);
      ReadyMeansCreated(tasks, x);
      assert order == front + [x];
      assert x !in front;
    }
  }

  lemma ReadyMeansCreated(tasks: map<Id, Task>, x: Id)
    ensures x in tasks && Ready(tasks, tasks[x].body) ==> tasks[x].body.status == Created
  {
  }

  // Ready tasks once each, and others that are not.
  ghost predicate Divided(ps: ProjectState, m: Picked) {
    && Distinct(m.selected)
    && (forall x | x in m.selected :: x in ps.tasks.items && Ready(ps.tasks.items, ps.tasks.items[x].body))
    && (forall x | x in m.blocked :: x in ps.tasks.items && !Ready(ps.tasks.items, ps.tasks.items[x].body))
  }

  lemma OneMoreDivided(ps: ProjectState, m: Picked, t: Id)
    requires Divided(ps, m) && t !in m.selected && t in ps.tasks.items
    ensures Divided(ps, if Ready(ps.tasks.items, ps.tasks.items[t].body) then m.(selected := m.selected + [t])
                       else m.(blocked := m.blocked + [t]))
  {
    hide Ready;
  }

  // A request is accepted exactly when every entry asks for a task that is there; selected are
  // exactly the ready ones asked for, each once, and blocked are exactly the others.
  lemma {:induction false} GivenSelection(ps: ProjectState, p: Id, ids: seq<Option<Id>>)
    requires ProjectOk(ps, p)
    ensures PickGiven(ps, ids).Ok? <==> AllThere(ps, ids)
    ensures PickGiven(ps, ids).Ok? ==> var m := PickGiven(ps, ids).value;
      && Divided(ps, m)
      && forall x :: x in m.selected || x in m.blocked <==> Requested(ps, ids, x)
  {
    hide ProjectOk, Ready, ResolveTask, Asks, Requested, AllThere;
    if ids == [] {
      NothingRequested(ps);
    } else {
      var front, last := ids[..|ids|-1], ids[|ids|-1];
      assert ids == front + [last];
      GivenSelection(ps, p, front);
      RequestedMore(ps, front, last);
      OneAsked(ps, last, p);
      hide Divided;
      if ResolveTask(ps, last).Ok? {
        TaskResolved(ps, last, p);
        var t := ResolveTask(ps, last).value;
        if PickGiven(ps, front).Ok? && t.id !in PickGiven(ps, front).value.selected {
          OneMoreDivided(ps, PickGiven(ps, front).value, t.id);
        }
      }
    }
  }

  // Starting one task leaves every other ready task ready.
  lemma StartKeepsReady(ps: ProjectState, t: Task, boxId: Id, runId: Id, made: bool, reason: string, now: Time, x: Id)
    requires t.id in ps.tasks.items && ps.tasks.items[t.id] == t && Ready(ps.tasks.items, t.body)
    requires x in ps.tasks.items && x != t.id && Ready(ps.tasks.items, ps.tasks.items[x].body)
    ensures var n := StartTaskRun(ps, t, boxId, runId, made, reason, now);
      && n.Ok? && x in n.value.tasks.items
      && n.value.tasks.items[x] == ps.tasks.items[x] && Ready(n.value.tasks.items, n.value.tasks.items[x].body)
  {
  }

  // The tasks not in the list are as they were, and ready if they were.
  ghost predicate Spares(ps: ProjectState, n: ProjectState, ids: seq<Id>) {
    forall x | x in ps.tasks.items && x !in ids ::
      && x in n.tasks.items && n.tasks.items[x] == ps.tasks.items[x]
      && (Ready(ps.tasks.items, ps.tasks.items[x].body) ==> Ready(n.tasks.items, ps.tasks.items[x].body))
  }

  lemma OneMoreStarted(ps: ProjectState, m: ProjectState, ids: seq<Id>, t: Task, boxId: Id, runId: Id, made: bool,
                       reason: string, now: Time)
    requires Spares(ps, m, ids) && t.id in m.tasks.items && m.tasks.items[t.id] == t && Ready(m.tasks.items, t.body)
    ensures var n := StartTaskRun(m, t, boxId, runId, made, reason, now); n.Ok? && Spares(ps, n.value, ids + [t.id])
  {
    hide StartTaskRun, Ready;
    StartChangesOne(m, t, boxId, runId, made, reason, now);
    var n := StartTaskRun(m, t, boxId, runId, made, reason, now).value;
    forall x | x in ps.tasks.items && x !in ids + [t.id]
      ensures x in n.tasks.items && n.tasks.items[x] == ps.tasks.items[x]
      ensures Ready(ps.tasks.items, ps.tasks.items[x].body) ==> Ready(n.tasks.items, ps.tasks.items[x].body)
    {
      if Ready(ps.tasks.items, ps.tasks.items[x].body) {
        StartKeepsReady(m, t, boxId, runId, made, reason, now, x);
      }
    }
  }

  // A batch of distinct ready tasks starts whole unless a sandbox cannot be made; the tasks not in
  // the batch stay as they are.
  lemma {:induction false} BatchWhole(ps: ProjectState, ids: seq<Id>, unmade: set<Id>, n: Id, reason: string, now: Time)
    requires Distinct(ids)
    requires forall x | x in ids ::
      x in ps.tasks.items && ps.tasks.items[x].id == x && Ready(ps.tasks.items, ps.tasks.items[x].body)
    ensures var b := StartEach(ps, ids, unmade, n, reason, now);
      && (b.whole <==> forall x | x in ids :: x !in unmade)
      && (b.whole ==> |b.runs| == |ids| && Spares(ps, b.ps, ids))
  {
    hide StartTaskRun, Ready;
    if ids == [] {
    } else {
      var front, x := ids[..|ids|-1], ids[|ids|-1];
      assert ids == front + [x] && x !in front;
      BatchWhole(ps, front, unmade, n, reason, now);
      var b := StartEach(ps, front, unmade, n, reason, now);
      if b.whole {
        assert b.ps.tasks.items[x] == ps.tasks.items[x];
        hide Spares;
        OneMoreStarted(ps, b.ps, front, b.ps.tasks.items[x], b.next, b.next + 1, x !in unmade, reason, now);
      }
    }
  }

  lemma StartChangesOne(ps: ProjectState, t: Task, boxId: Id, runId: Id, made: bool, reason: string, now: Time)
    requires Ready(ps.tasks.items, t.body)
    ensures var n := StartTaskRun(ps, t, boxId, runId, made, reason, now);
      && n.Ok?
      && forall x | x in ps.tasks.items && x != t.id ::
        x in n.value.tasks.items && n.value.tasks.items[x] == ps.tasks.items[x]
  {
  }

  // Scheduler safety and progress in every reachable state and every stored snapshot.
  ghost predicate Scheduled(ps: ProjectState) {
    && (forall i, d | 0 <= i < |ps.tasks.order| && ps.tasks.order[i] in ps.tasks.items
        && d in ps.tasks.items[ps.tasks.order[i]].body.dependsOn ::
          d in ps.tasks.order[..i] && d in ps.tasks.items
          && (ps.tasks.items[ps.tasks.order[i]].body.status != Created ==> ps.tasks.items[d].body.status == Done))
    && ((exists x ::
         x in ps.tasks.items && ps.tasks.items[x].body.kind != Sprint1 && ps.tasks.items[x].body.status == Created)
        && Pick(ps, []) == Refused(Conflict)
        ==> exists x ::
          x in ps.tasks.items && (Busy(ps.tasks.items[x].body.status) || ps.tasks.items[x].body.status == Failed))
  }

  lemma ScheduledIfOk(ps: ProjectState, p: Id)
    requires ProjectOk(ps, p)
    ensures Scheduled(ps)
  {
    hide ProjectOk, Pick, PickAuto, AutoReady;
    forall i, d | 0 <= i < |ps.tasks.order| && ps.tasks.order[i] in ps.tasks.items
      && d in ps.tasks.items[ps.tasks.order[i]].body.dependsOn
      ensures d in ps.tasks.order[..i] && d in ps.tasks.items
        && (ps.tasks.items[ps.tasks.order[i]].body.status != Created ==> ps.tasks.items[d].body.status == Done)
    {
      StartedDepsDone(ps, p, i, d);
    }
    if exists x ::
      x in ps.tasks.items && ps.tasks.items[x].body.kind != Sprint1 && ps.tasks.items[x].body.status == Created {
      var x :| x in ps.tasks.items && ps.tasks.items[x].body.kind != Sprint1
        && ps.tasks.items[x].body.status == Created;
      if Pick(ps, []) == Refused(Conflict) {
        BlockedMeansActiveOrFailed(ps, p, x);
      }
    }
  }

  lemma BlockedMeansActiveOrFailed(ps: ProjectState, p: Id, x: Id)
    requires ProjectOk(ps, p) && x in ps.tasks.items && Pick(ps, []) == Refused(Conflict)
    requires ps.tasks.items[x].body.kind != Sprint1 && ps.tasks.items[x].body.status == Created
    ensures exists t ::
      t in ps.tasks.items && (Busy(ps.tasks.items[t].body.status) || ps.tasks.items[t].body.status == Failed)
  {
    hide Protocol, DepsOk, OrderOk, AuditsOk, PlansOk, ContextsOk, AutoReady;
    assert x in ps.tasks.order;
    var i :| 0 <= i < |ps.tasks.order| && ps.tasks.order[i] == x;
    AutoSelection(ps.tasks.order, ps.tasks.items);
    hide ProjectOk;
    assert PickAuto(ps.tasks.order, ps.tasks.items).selected == [];
    forall y | y in ps.tasks.order ensures !AutoReady(ps.tasks.items, y) {
      assert y !in PickAuto(ps.tasks.order, ps.tasks.items).selected;
    }
    NothingReadyMeansActiveOrFailed(ps, p, i);
  }

  lemma ScheduledEverywhere(events: seq<Event>)
    ensures var w := After(Init(), events);
      (forall p | p in w.live :: Scheduled(w.live[p])) && (forall s | s in w.states :: Scheduled(w.states[s]))
  {
    hide ProjectOk, TimelinesOk, LeasesOk, ExecOk, Scheduled;
    Reachable(events);
    var w := After(Init(), events);
    forall p | p in w.live ensures Scheduled(w.live[p]) {
      assert StateOk(w.live[p], p, w.owner);
      ScheduledIfOk(w.live[p], p);
    }
    forall s | s in w.states ensures Scheduled(w.states[s]) {
      assert StateOk(w.states[s], w.owner[s], w.owner);
      ScheduledIfOk(w.states[s], w.owner[s]);
    }
  }
}
