// What the updates of the flat service state mean for the machine.
module ServiceProofs {
  import opened Records
  import opened Domain
  import opened Text
  import opened Projects
  import opened ProjectProofs
  import opened Leases
  import opened Machine
  import opened MachineProofs
  import opened States
  import opened Theorems

  const EMPTY := State(map[], map[], map[], map[], map[], map[], map[], map[], map[], map[], map[], map[], map[], map[],
                       map[], map[], map[], map[], map[], map[], map[], map[])
  const NO_INDEX := Index(map[], map[], map[], map[], map[], map[], map[], map[], map[])

  lemma EmptyState()
    ensures Sound(EMPTY, NO_INDEX, map[], map[], map[], 0) && WorldOf(EMPTY, map[], map[], 0) == Init()
  {
    EmptyFlat();
    EmptyIndexed();
    InitOk();
    assert LiveIn(EMPTY) == map[] && TimelinesIn(EMPTY) == map[];
    hide FlatOk, Indexed, Inv;
  }

  lemma EmptyFlat()
    ensures FlatOk(EMPTY, map[], map[])
  {
  }

  lemma EmptyIndexed()
    ensures Indexed(EMPTY, NO_INDEX, map[], map[])
  {
  }

  // What the flat maps say about the world.
  lemma WorldIs(s: State, execs: map<Id, Executor>, owner: map<Id, Id>, nextId: Id)
    ensures var w := WorldOf(s, execs, owner, nextId);
      && w.live.Keys == s.projects.Keys && w.timelines.Keys == s.projects.Keys && w.nextId == nextId && w.owner == owner
      && w.execs == execs
      && w.overrides == s.overrides && w.locks == s.locks && w.queue == s.conflicts && w.previews == s.previews
      && w.faults == s.sandboxFaults && w.states == s.snapshotState
      && forall p | p in s.projects :: w.live[p] == ProjectOf(s, p) && w.timelines[p] == TimelineIn(s, p)
  {
  }

  lemma PlanRefused(s: State, execs: map<Id, Executor>, owner: map<Id, Id>, n: Id, p: Id, now: Time)
    ensures var w := WorldOf(s, execs, owner, n);
      && (p !in s.projects ==> Machine.GeneratePlan(w, p, now) == Refuse(w, NotFound))
      && (p in s.projects && Get(s.requirements, p) == [] ==> Machine.GeneratePlan(w, p, now) == Refuse(w, Invalid))
  {
  }

  lemma PlanIndexed(s: State, x: Index, owner: map<Id, Id>, home: map<Id, Id>, n: Id, p: Id, plan: Plan, task: Task,
                    now: Time)
    requires FlatOk(s, owner, home) && Indexed(s, x, owner, home) && p in s.projects && n !in owner && n + 1 !in owner
    requires plan.id == n
    ensures Indexed(TouchIn(WithTask(WithPlan(s, p, plan), task), p, now), x.(plans := x.plans[plan.id := plan]),
                    Grant(owner, p, n, 2), home)
  {
    IndexedGrows(s, x, owner, home, Grant(owner, p, n, 2), home);
    IndexAppended(s.plans, x.plans, s.projects.Keys, owner, Grant(owner, p, n, 2), p, plan);
    hide Indexes;
  }

  lemma PlanBuilt(s: State, owner: map<Id, Id>, home: map<Id, Id>, n: Id, p: Id, now: Time)
    requires FlatOk(s, owner, home) && p in s.projects && Get(s.requirements, p) != []
    ensures var latest := Get(s.requirements, p)[|Get(s.requirements, p)|-1];
      BuildPlan(ProjectOf(s, p), n, now)
        == Record(n, p, PlanBody(latest.id, |Get(s.plans, p)| + 1, latest.body.title, now))
  {
    ProjectIds(s, owner, home, p);
  }

  lemma PlanStored(s: State, p: Id, plan: Plan, task: Task, now: Time)
    requires p in s.projects && task.projectId == p
    ensures TouchIn(WithTask(WithPlan(s, p, plan), task), p, now) ==
      s.(plans := s.plans[p := Get(s.plans, p) + [plan]], tasks := s.tasks[task.id := task],
         taskOrder := s.taskOrder[p := Get(s.taskOrder, p) + [task.id]],
         projects := s.projects[p := s.projects[p].(updatedAt := now)])
  {
  }

  lemma PlanWorld(s: State, execs: map<Id, Executor>, owner: map<Id, Id>, home: map<Id, Id>, n: Id, p: Id, plan: Plan,
                  task: Task, now: Time)
    requires FlatOk(s, owner, home) && p in s.projects && Get(s.requirements, p) != [] && n !in owner && n + 1 !in owner
    requires plan == BuildPlan(ProjectOf(s, p), n, now)
    requires task == NewTask(n + 1, p, n, "Implement " + plan.body.title, Sprint1, DEFAULT_AGENT, [], PlanRef(n), now)
    ensures var m := TouchIn(WithTask(WithPlan(s, p, plan), task), p, now);
      && FlatOk(m, Grant(owner, p, n, 2), home)
      && WorldOf(m, execs, Grant(owner, p, n, 2), n + 2)
        == Put(Claim(WorldOf(s, execs, owner, n), p, 2), p, Projects.GeneratePlan(ProjectOf(s, p), n, n + 1, now))
  {
    hide FlatOk, WorldOf, Becomes, NewTask, BuildPlan, Put, Claim, Projects.GeneratePlan, SameRest;
    FlatGrows(s, owner, home, Grant(owner, p, n, 2));
    FreshIn(s, owner, home, p, n);
    FreshIn(s, owner, home, p, n + 1);
    PlanParts(s, Grant(owner, p, n, 2), home, n, p, plan, task, now);
    WorldBecomes(s, TouchIn(WithTask(WithPlan(s, p, plan), task), p, now), p,
                 Projects.GeneratePlan(ProjectOf(s, p), n, n + 1, now), execs, owner, n, 2);
  }

  lemma PlanSpec(s: State, execs: map<Id, Executor>, owner: map<Id, Id>, n: Id, p: Id, now: Time)
    requires p in s.projects && Get(s.requirements, p) != []
    ensures Machine.GeneratePlan(WorldOf(s, execs, owner, n), p, now)
      == Reply(Put(Claim(WorldOf(s, execs, owner, n), p, 2), p, Projects.GeneratePlan(ProjectOf(s, p), n, n + 1, now)),
               None)
  {
    hide Put, Claim, Projects.GeneratePlan;
  }

  lemma PlanGenerated(s: State, execs: map<Id, Executor>, owner: map<Id, Id>, home: map<Id, Id>, n: Id, p: Id,
                      plan: Plan, task: Task, now: Time)
    requires FlatOk(s, owner, home) && Inv(WorldOf(s, execs, owner, n)) && p in s.projects
    requires Get(s.requirements, p) != []
    requires plan == BuildPlan(ProjectOf(s, p), n, now)
    requires task == NewTask(n + 1, p, n, "Implement " + plan.body.title, Sprint1, DEFAULT_AGENT, [], PlanRef(n), now)
    ensures var m := TouchIn(WithTask(WithPlan(s, p, plan), task), p, now);
      var v := WorldOf(m, execs, Grant(owner, p, n, 2), n + 2);
      && FlatOk(m, Grant(owner, p, n, 2), home) && Inv(v)
      && Reply(v, None) == Machine.GeneratePlan(WorldOf(s, execs, owner, n), p, now)
  {
    hide Inv, FlatOk, WorldOf, NewTask, BuildPlan, Put, Claim, Machine.GeneratePlan, Projects.GeneratePlan;
    OwnersBelow(s, execs, owner, n);
    GeneratePlanStep(WorldOf(s, execs, owner, n), p, now);
    PlanSpec(s, execs, owner, n, p, now);
    PlanWorld(s, execs, owner, home, n, p, plan, task, now);
  }

  lemma PlanParts(s: State, owner: map<Id, Id>, home: map<Id, Id>, n: Id, p: Id, plan: Plan, task: Task, now: Time)
    requires FlatOk(s, owner, home) && p in s.projects && Get(s.requirements, p) != []
    requires n in owner && owner[n] == p && n + 1 in owner && owner[n + 1] == p && n !in Ids(Get(s.plans, p))
    requires n + 1 !in s.tasks
    requires plan == BuildPlan(ProjectOf(s, p), n, now)
    requires task == NewTask(n + 1, p, n, "Implement " + plan.body.title, Sprint1, DEFAULT_AGENT, [], PlanRef(n), now)
    ensures var m := TouchIn(WithTask(WithPlan(s, p, plan), task), p, now);
      && FlatOk(m, owner, home) && Becomes(s, m, p, Projects.GeneratePlan(ProjectOf(s, p), n, n + 1, now))
      && SameRest(s, m)
  {
    hide FlatOk, Becomes;
    ProjectIds(s, owner, home, p);
    WithPlanOk(s, owner, home, p, plan);
    var s1 := WithPlan(s, p, plan);
    WithTaskOk(s1, owner, home, task);
    var s2 := WithTask(s1, task);
    TouchInOk(s2, owner, home, p, now);
    BecomesIs(s, s1, p);
    BecomesIs(s1, s2, p);
    BecomesThen(s, s1, s2, p, ProjectOf(s1, p), ProjectOf(s2, p));
    BecomesThen(s, s2, TouchIn(s2, p, now), p, ProjectOf(s2, p), Touch(ProjectOf(s2, p), now));
  }

  // ----- Reading one project off the flat maps -------------------------------------------

  lemma TasksOf(s: State, owner: map<Id, Id>, home: map<Id, Id>, p: Id, ps: ProjectState)
    requires FlatOk(s, owner, home) && p in s.projects && ps == ProjectOf(s, p)
    ensures ps.tasks.order == Get(s.taskOrder, p)
    ensures forall x | x in ps.tasks.items :: x in s.tasks && s.tasks[x].projectId == p
    ensures forall x | x in s.tasks && s.tasks[x].projectId == p :: x in ps.tasks.items
    ensures forall x | x in ps.tasks.items :: ps.tasks.items[x] == s.tasks[x]
    ensures forall x | x in Get(s.taskOrder, p) :: x in s.tasks && s.tasks[x].projectId == p
  {
    SliceOfOk(Ledger(s.tasks, s.taskOrder), owner, p);
  }

  lemma RunsOf(s: State, owner: map<Id, Id>, home: map<Id, Id>, p: Id, ps: ProjectState)
    requires FlatOk(s, owner, home) && p in s.projects && ps == ProjectOf(s, p)
    ensures ps.runs.order == Get(s.runOrder, p)
    ensures forall x | x in ps.runs.items :: x in s.runs && s.runs[x].projectId == p
    ensures forall x | x in s.runs && s.runs[x].projectId == p :: x in ps.runs.items
    ensures forall x | x in ps.runs.items :: ps.runs.items[x] == s.runs[x]
    ensures forall x | x in Get(s.runOrder, p) :: x in s.runs && s.runs[x].projectId == p
  {
    SliceOfOk(Ledger(s.runs, s.runOrder), owner, p);
  }

  lemma ArtifactsOf(s: State, owner: map<Id, Id>, home: map<Id, Id>, p: Id, ps: ProjectState)
    requires FlatOk(s, owner, home) && p in s.projects && ps == ProjectOf(s, p)
    ensures ps.artifacts.order == Get(s.artifactOrder, p)
    ensures forall x | x in ps.artifacts.items :: x in s.artifacts && s.artifacts[x].projectId == p
    ensures forall x | x in s.artifacts && s.artifacts[x].projectId == p :: x in ps.artifacts.items
    ensures forall x | x in ps.artifacts.items :: ps.artifacts.items[x] == s.artifacts[x]
  {
    SliceOfOk(Ledger(s.artifacts, s.artifactOrder), owner, p);
  }

  lemma ProjectGood(s: State, execs: map<Id, Executor>, owner: map<Id, Id>, nextId: Id, p: Id)
    requires Inv(WorldOf(s, execs, owner, nextId)) && p in s.projects
    ensures ProjectOk(ProjectOf(s, p), p) && StateOk(ProjectOf(s, p), p, owner)
  {
    hide ProjectOk, TimelineOk, LeasesOk, ExecOk;
    var w := WorldOf(s, execs, owner, nextId);
    assert StateOk(w.live[p], p, w.owner);
  }

  // Readiness does not depend on tasks of other projects: dependencies are the project's own.
  lemma ReadyInProject(s: State, execs: map<Id, Executor>, owner: map<Id, Id>, home: map<Id, Id>, nextId: Id, p: Id,
                       t: Id)
    requires FlatOk(s, owner, home) && Inv(WorldOf(s, execs, owner, nextId)) && p in s.projects
    requires t in ProjectOf(s, p).tasks.items
    ensures Ready(s.tasks, s.tasks[t].body) <==> Ready(ProjectOf(s, p).tasks.items, s.tasks[t].body)
  {
    hide FlatOk, Inv, ProjectOf;
    TasksOf(s, owner, home, p, ProjectOf(s, p));
    ProjectGood(s, execs, owner, nextId, p);
    hide Protocol, AuditsOk, PlansOk, ContextsOk, OrderOk, Shapes, StateOk;
  }

  lemma TaskKnown(s: State, execs: map<Id, Executor>, owner: map<Id, Id>, home: map<Id, Id>, nextId: Id, p: Id, t: Id)
    requires FlatOk(s, owner, home) && Inv(WorldOf(s, execs, owner, nextId)) && p in s.projects
    requires t in ProjectOf(s, p).tasks.items
    ensures s.tasks[t].id == t && s.tasks[t].projectId == p
  {
    hide FlatOk, Inv;
    TasksOf(s, owner, home, p, ProjectOf(s, p));
    ProjectGood(s, execs, owner, nextId, p);
    TaskIdIs(ProjectOf(s, p), t, p);
  }

  lemma ResolvedHere(s: State, execs: map<Id, Executor>, owner: map<Id, Id>, home: map<Id, Id>, nextId: Id, p: Id,
                     taskId: Option<Id>)
    requires FlatOk(s, owner, home) && Inv(WorldOf(s, execs, owner, nextId)) && p in s.projects
    requires ResolveTask(ProjectOf(s, p), taskId).Ok?
    ensures var t := ResolveTask(ProjectOf(s, p), taskId).value;
      && t.id in s.tasks && s.tasks[t.id] == t && t.projectId == p
      && t.id in ProjectOf(s, p).tasks.items && ProjectOf(s, p).tasks.items[t.id] == t
      && (Ready(s.tasks, t.body) <==> Ready(ProjectOf(s, p).tasks.items, t.body))
  {
    hide FlatOk, Inv, ProjectOf, Ready;
    TasksOf(s, owner, home, p, ProjectOf(s, p));
    ProjectGood(s, execs, owner, nextId, p);
    TaskResolved(ProjectOf(s, p), taskId, p);
    ReadyInProject(s, execs, owner, home, nextId, p, ResolveTask(ProjectOf(s, p), taskId).value.id);
  }

  // One unknown task refuses the whole request, with the error of the first.
  lemma {:induction false} GivenRefused(ps: ProjectState, ids: seq<Option<Id>>, i: nat)
    requires i < |ids| && PickGiven(ps, ids[..i]).Ok? && ResolveTask(ps, ids[i]).Refused?
    ensures PickGiven(ps, ids) == Refused(ResolveTask(ps, ids[i]).error)
  {
    hide ResolveTask, Ready;
    if i == |ids| - 1 {
      assert ids[..|ids|-1] == ids[..i];
    } else {
      assert ids[..|ids|-1][..i] == ids[..i];
      GivenRefused(ps, ids[..|ids|-1], i);
    }
  }

  // An artifact of one of the project's runs is the project's own.
  lemma ArtifactHere(s: State, execs: map<Id, Executor>, owner: map<Id, Id>, home: map<Id, Id>, nextId: Id, p: Id,
                     r: Id, a: Id)
    requires FlatOk(s, owner, home) && Inv(WorldOf(s, execs, owner, nextId)) && p in s.projects
    requires r in ProjectOf(s, p).runs.items && a in ProjectOf(s, p).runs.items[r].body.artifactIds
    ensures a in s.artifacts && a in ProjectOf(s, p).artifacts.items
  {
    hide FlatOk, Inv;
    ProjectGood(s, execs, owner, nextId, p);
    ArtifactsOf(s, owner, home, p, ProjectOf(s, p));
    var ps := ProjectOf(s, p);
    assert RunFits(ps.runs.items[r], ps.tasks.items, ps.artifacts.items, IndexList(ps.sandboxes));
  }

  lemma {:induction false} MergeRefused(ps: ProjectState, ids: seq<Option<Id>>, i: nat)
    requires i < |ids| && PickMerge(ps, ids[..i]).Ok? && PickMerge(ps, ids[..i+1]).Refused?
    ensures PickMerge(ps, ids) == PickMerge(ps, ids[..i+1])
  {
    hide ResolveTask, LatestArtifact;
    if i == |ids| - 1 {
      assert ids[..i+1] == ids;
    } else {
      assert ids[..|ids|-1][..i] == ids[..i] && ids[..|ids|-1][..i+1] == ids[..i+1];
      MergeRefused(ps, ids[..|ids|-1], i);
    }
  }

  lemma {:induction false} FirstClashAt(s: seq<Lease>, scope: Leases.Scope, owner: string, now: Time, i: nat)
    requires i < |s| && FirstClash(s[..i], scope, owner, now).None? && Clash(s[i], scope, owner, now)
    ensures FirstClash(s, scope, owner, now) == Some(i)
  {
    forall k | 0 <= k < i ensures !Clash(s[k], scope, owner, now) {
      assert s[..i][k] == s[k];
    }
  }

  // ----- Rollback -----------------------------------------------------------------------

  lemma TimelineFiled(tl: Timeline, p: Id, owner: map<Id, Id>, states: map<Id, ProjectState>)
    requires TimelineOk(tl, p, owner, states)
    ensures Filed(tl.snapshots, p)
  {
    hide StateOk, BranchOk, LinkOk;
  }

  lemma SnapshotsFiled(s: State, execs: map<Id, Executor>, owner: map<Id, Id>, home: map<Id, Id>, nextId: Id)
    requires FlatOk(s, owner, home) && Inv(WorldOf(s, execs, owner, nextId))
    ensures forall k | k in s.snapshots :: Filed(s.snapshots[k], k)
  {
    hide StatesOk, LeasesOk, ExecOk, TimelineOk, LedgerOk, Filed;
    var w := WorldOf(s, execs, owner, nextId);
    forall k | k in s.snapshots ensures Filed(s.snapshots[k], k) {
      assert w.timelines[k].snapshots == s.snapshots[k];
      TimelineFiled(w.timelines[k], k, w.owner, w.states);
    }
  }

  lemma ListsIndexed(s: State, x: Index, owner: map<Id, Id>, home: map<Id, Id>)
    requires Indexed(s, x, owner, home)
    ensures Indexes(s.snapshots, x.snapshots, owner) && Indexes(s.contracts, x.contracts, owner)
    ensures Indexes(s.plans, x.plans, owner)
  {
    hide Indexes;
  }

  // The new snapshot of a rollback.
  function RollbackSnapshot(s: State, n: Id, p: Id, source: Snapshot, reason: string, now: Time): Snapshot {
    var tl := TimelineIn(s, p);
    var b := RollbackBranch(tl, source.body.branch);
    Record(n, p, SnapshotBody(if TrimSpace(b) == "" then CurrentBranch(tl) else b, Some(source.id), TrimSpace(reason),
                              source.body.stable, now))
  }

  function CountedIn(s: State, p: Id): State {
    s.(branchSeq := s.branchSeq[p := (if p in s.branchSeq then s.branchSeq[p] else 0) + 1])
  }

  function RolledBack(s: State, n: Id, p: Id, source: Snapshot, reason: string, now: Time): State
    requires p in s.projects && source.id in s.snapshotState
  {
    RecordIn(TouchIn(RestoreIn(CountedIn(s, p), p, s.snapshotState[source.id]), p, now), p,
             RollbackSnapshot(s, n, p, source, reason, now))
  }

  lemma CountedLive(s: State, p: Id)
    ensures LiveIn(CountedIn(s, p)) == LiveIn(s)
  {
    forall q | q in s.projects ensures ProjectOf(CountedIn(s, p), q) == ProjectOf(s, q) {
      hide SliceOf, ContextsOf;
    }
    hide ProjectOf;
  }

  lemma CountedTimelines(s: State, p: Id)
    requires p in s.projects
    ensures TimelinesIn(CountedIn(s, p))
      == TimelinesIn(s)[p := TimelineIn(s, p).(branchSeq := TimelineIn(s, p).branchSeq + 1)]
  {
  }

  lemma CountedFlat(s: State, owner: map<Id, Id>, home: map<Id, Id>, p: Id)
    requires FlatOk(s, owner, home) && p in s.projects
    ensures FlatOk(CountedIn(s, p), owner, home)
  {
    hide LedgerOk, ListsOk;
  }

  lemma CountedWorld(s: State, execs: map<Id, Executor>, owner: map<Id, Id>, n: Id, p: Id)
    requires p in s.projects
    ensures p in WorldOf(s, execs, owner, n).timelines
    ensures var w := WorldOf(s, execs, owner, n);
      WorldOf(CountedIn(s, p), execs, owner, n)
        == w.(timelines := w.timelines[p := w.timelines[p].(branchSeq := w.timelines[p].branchSeq + 1)])
  {
    hide LiveIn, TimelinesIn, TimelineIn, ProjectOf, CountedIn;
    CountedLive(s, p);
    CountedTimelines(s, p);
    CountedKeeps(s, p);
    WorldParts(s, p);
  }

  lemma RollbackSpec(w: World, p: Id, id: Id, source: Snapshot, reason: string, now: Time, w0: World, w1: World)
    requires p in w.live && p in w.timelines && FindById(w.timelines[p].snapshots, id) == Some(source)
    requires source.id == id && id in w.states
    requires w0 == w.(timelines := w.timelines[p := w.timelines[p].(branchSeq := w.timelines[p].branchSeq + 1)])
    requires p in w0.live && w1 == RestoreProject(w0, p, w.states[id], now) && p in w1.live && p in w1.timelines
    ensures RollbackTo(w, p, id, reason, now)
      == Reply(AddSnapshot(w1, p, RollbackSnap(w, p, source, reason, now)), None)
  {
    hide RestoreProject, AddSnapshot, FindById, RollbackBranch;
    RestoreKeeps(w0, p, id, now);
    RollbackBranchSame(w, p, source.body.branch);
  }

  function RollbackSnap(w: World, p: Id, source: Snapshot, reason: string, now: Time): Snapshot
    requires p in w.timelines
  {
    var tl := w.timelines[p];
    var b := RollbackBranch(tl, source.body.branch);
    Record(w.nextId, p,
           SnapshotBody(if TrimSpace(b) == "" then CurrentBranch(tl) else b, Some(source.id), TrimSpace(reason),
                        source.body.stable, now))
  }

  lemma RollbackBranchSame(w: World, p: Id, base: string)
    requires p in w.timelines
    ensures CurrentBranch(w.timelines[p].(branchSeq := w.timelines[p].branchSeq + 1)) == CurrentBranch(w.timelines[p])
  {
  }

  lemma SnapshotKnown(s: State, execs: map<Id, Executor>, owner: map<Id, Id>, home: map<Id, Id>, n: Id, p: Id,
                      source: Snapshot)
    requires FlatOk(s, owner, home) && Inv(WorldOf(s, execs, owner, n)) && p in s.projects
    requires FindById(Get(s.snapshots, p), source.id) == Some(source)
    ensures source.id in s.snapshotState && StateOk(s.snapshotState[source.id], p, owner)
  {
    hide LeasesOk, ExecOk, FlatOk, ProjectOk;
    var w := WorldOf(s, execs, owner, n);
    TimelineOf(w, p);
    SnapshotFound(w.timelines[p], p, w.owner, w.states, source.id);
  }

  // What the flat updates of a rollback amount to.
  lemma RolledBackOk(s: State, execs: map<Id, Executor>, owner: map<Id, Id>, home: map<Id, Id>, n: Id, p: Id,
                     source: Snapshot, reason: string, now: Time)
    requires FlatOk(s, owner, home) && Inv(WorldOf(s, execs, owner, n)) && StatesHomed(s.snapshotState, home)
    requires p in s.projects && FindById(Get(s.snapshots, p), source.id) == Some(source)
    ensures source.id in s.snapshotState
    ensures var m := RolledBack(s, n, p, source, reason, now); var v := WorldOf(m, execs, Grant(owner, p, n, 1), n + 1);
      && FlatOk(m, Grant(owner, p, n, 1), home) && StatesHomed(m.snapshotState, home) && Inv(v)
      && Reply(v, None) == RollbackHere(s, execs, owner, n, p, source.id, reason, now)
  {
    hide FlatOk, Inv, StateOk, FindById, RestoreIn, TouchIn, RecordIn, CountedIn, RestoreProject, AddSnapshot, WorldOf,
      RollbackTo, StatesHomed, RollbackBranch, CurrentBranch, ProjectOf, TrimSpace;
    SnapshotKnown(s, execs, owner, home, n, p, source);
    var w, st := WorldOf(s, execs, owner, n), s.snapshotState[source.id];
    WorldIs(s, execs, owner, n);
    OwnersBelow(s, execs, owner, n);
    CountedFlat(s, owner, home, p);
    CountedWorld(s, execs, owner, n, p);
    var s0 := CountedIn(s, p);
    CountedKeeps(s, p);
    WorldIs(s0, execs, owner, n);
    WorldRestored(s0, execs, owner, home, n, p, st, now);
    var s1 := TouchIn(RestoreIn(s0, p, st), p, now);
    RestoredKeeps(s0, p, st, now);
    WorldIs(s1, execs, owner, n);
    var snap := RollbackSnapshot(s, n, p, source, reason, now);
    WorldRecorded(s1, execs, owner, n, p, snap);
    RecordedFlat(s1, owner, home, n, p, snap);
    RollbackSpec(w, p, source.id, source, reason, now, WorldOf(s0, execs, owner, n), WorldOf(s1, execs, owner, n));
    RollbackToStep(w, p, source.id, reason, now);
  }

  lemma CountedKeeps(s: State, p: Id)
    ensures var m := CountedIn(s, p);
      && m.projects == s.projects && m.snapshotState == s.snapshotState && m.snapshots == s.snapshots
      && m.overrides == s.overrides
      && m.locks == s.locks && m.conflicts == s.conflicts && m.previews == s.previews
      && m.sandboxFaults == s.sandboxFaults
  {
  }

  lemma RestoredKeeps(s: State, p: Id, ps: ProjectState, now: Time)
    requires p in s.projects && p in RestoreIn(s, p, ps).projects
    ensures var n := TouchIn(RestoreIn(s, p, ps), p, now);
      p in n.projects && n.snapshotState == s.snapshotState && n.snapshots == s.snapshots
  {
  }

  lemma RecordedFlat(s: State, owner: map<Id, Id>, home: map<Id, Id>, n: Id, p: Id, snap: Snapshot)
    requires FlatOk(s, owner, home) && StatesHomed(s.snapshotState, home) && p in s.projects && snap.id == n
    requires n !in owner
    ensures FlatOk(RecordIn(s, p, snap), Grant(owner, p, n, 1), home)
    ensures StatesHomed(RecordIn(s, p, snap).snapshotState, home)
  {
    hide FlatOk, StatesHomed, ProjectOf;
    FreshIn(s, owner, home, p, n);
    FlatGrows(s, owner, home, Grant(owner, p, n, 1));
    RecordInOk(s, Grant(owner, p, n, 1), home, p, snap);
    CapturedHomed(s, owner, home, p, n);
  }

  lemma RolledBackIndexed(s: State, x: Index, execs: map<Id, Executor>, owner: map<Id, Id>, home: map<Id, Id>, n: Id,
                          p: Id, source: Snapshot, reason: string, now: Time)
    requires FlatOk(s, owner, home) && Indexed(s, x, owner, home) && Inv(WorldOf(s, execs, owner, n))
    requires StatesHomed(s.snapshotState, home)
    requires p in s.projects && FindById(Get(s.snapshots, p), source.id) == Some(source) && source.id in s.snapshotState
    ensures var y := RestoredIndex(s, x, p, s.snapshotState[source.id]);
      var snap := RollbackSnapshot(s, n, p, source, reason, now);
      Indexed(RolledBack(s, n, p, source, reason, now), y.(snapshots := y.snapshots[snap.id := snap]),
              Grant(owner, p, n, 1), home)
  {
    hide FlatOk, Inv, StateOk, FindById, WorldOf, Indexed, RestoredIndex, StatesHomed, CountedIn, RestoreIn, TouchIn,
      RecordIn, RollbackSnapshot, Grant;
    SnapshotKnown(s, execs, owner, home, n, p, source);
    OwnersBelow(s, execs, owner, n);
    var st := s.snapshotState[source.id];
    HistoriesHomed(s.snapshotState, home, source.id);
    CountedFlat(s, owner, home, p);
    CountedIndexed(s, x, owner, home, p, st);
    CountedKeeps(s, p);
    var s0 := CountedIn(s, p);
    RestoredIndexed(s0, x, owner, home, p, st);
    RestoreInOk(s0, owner, home, p, st);
    RestoredKeeps0(s0, p, st);
    TouchInOk(RestoreIn(s0, p, st), owner, home, p, now);
    TouchIndexed(RestoreIn(s0, p, st), RestoredIndex(s, x, p, st), owner, home, p, now);
    RestoredKeeps(s0, p, st, now);
    SnapIdIs(s, n, p, source, reason, now);
    RecordedIndexed(TouchIn(RestoreIn(s0, p, st), p, now), RestoredIndex(s, x, p, st), owner, home, n, p,
                    RollbackSnapshot(s, n, p, source, reason, now));
  }

  lemma SnapIdIs(s: State, n: Id, p: Id, source: Snapshot, reason: string, now: Time)
    ensures RollbackSnapshot(s, n, p, source, reason, now).id == n
  {
  }

  lemma HistoriesHomed(states: map<Id, ProjectState>, home: map<Id, Id>, id: Id)
    requires StatesHomed(states, home) && id in states
    ensures forall t | t in states[id].contexts :: ListOk(states[id].contexts[t], t, home)
  {
  }

  lemma CountedIndexed(s: State, x: Index, owner: map<Id, Id>, home: map<Id, Id>, p: Id, ps: ProjectState)
    requires Indexed(s, x, owner, home)
    ensures Indexed(CountedIn(s, p), x, owner, home)
    ensures RestoredIndex(CountedIn(s, p), x, p, ps) == RestoredIndex(s, x, p, ps)
  {
    hide Indexes;
  }

  lemma TouchIndexed(s: State, x: Index, owner: map<Id, Id>, home: map<Id, Id>, p: Id, now: Time)
    requires Indexed(s, x, owner, home) && p in s.projects
    ensures Indexed(TouchIn(s, p, now), x, owner, home)
  {
    hide Indexes;
  }

  lemma RestoredKeeps0(s: State, p: Id, ps: ProjectState)
    requires p in s.projects
    ensures p in RestoreIn(s, p, ps).projects
  {
  }

  lemma RecordedIndexed(s: State, x: Index, owner: map<Id, Id>, home: map<Id, Id>, n: Id, p: Id, snap: Snapshot)
    requires FlatOk(s, owner, home) && Indexed(s, x, owner, home) && p in s.projects && snap.id == n && n !in owner
    ensures Indexed(RecordIn(s, p, snap), x.(snapshots := x.snapshots[snap.id := snap]), Grant(owner, p, n, 1), home)
  {
    hide ProjectOf;
    IndexedGrows(s, x, owner, home, Grant(owner, p, n, 1), home);
    IndexAppended(s.snapshots, x.snapshots, s.projects.Keys, owner, Grant(owner, p, n, 1), p, snap);
    hide Indexes;
  }

  lemma RestoredHistories(s: State, x: Index, owner: map<Id, Id>, home: map<Id, Id>, p: Id, ps: ProjectState)
    requires FlatOk(s, owner, home) && Indexed(s, x, owner, home) && StateOk(ps, p, owner)
    requires forall t | t in ps.contexts :: ListOk(ps.contexts[t], t, home)
    ensures ClearAll(RestoreAll(ClearAll(Shelf(s.contexts, x.contexts), Get(s.taskOrder, p)), ps.tasks.order,
                                ps.contexts), ps.tasks.order).lists
      == ContextsWithout(s.contexts, Get(s.taskOrder, p), ps.tasks.order)
  {
    OwnedParts(ps, p, owner);
    ShapesOf(ps, p, owner);
    ShelvesOk(s, x, owner, home);
    ContextsApart(s, owner, home, p, ps);
    RestoredThenCleared(Shelf(s.contexts, x.contexts), Get(s.taskOrder, p), ps.tasks.order, ps.contexts, home);
    hide ClearAll, RestoreAll;
  }

  // The restored state and indexes, field by field.
  lemma RestoredParts(s: State, x: Index, owner: map<Id, Id>, home: map<Id, Id>, p: Id, ps: ProjectState)
    requires FlatOk(s, owner, home) && Indexed(s, x, owner, home) && StateOk(ps, p, owner)
    requires forall t | t in ps.contexts :: ListOk(ps.contexts[t], t, home)
    ensures var contexts := ClearAll(RestoreAll(ClearAll(Shelf(s.contexts, x.contexts), Get(s.taskOrder, p)),
                                                ps.tasks.order, ps.contexts), ps.tasks.order);
      RestoreIn(s, p, ps) == s.(
        projects := s.projects[p := ps.project], requirements := s.requirements[p := ps.requirements],
        plans := s.plans[p := ps.plans], contracts := s.contracts[p := ps.contracts], contexts := contexts.lists,
        overrides := s.overrides - {p}, sandboxes := s.sandboxes[p := ps.sandboxes],
        sandboxFaults := s.sandboxFaults - Elements(Get(s.taskOrder, p)),
        tasks := s.tasks - Elements(Get(s.taskOrder, p)) + Select(ps.tasks.items, ps.tasks.order),
        taskOrder := (s.taskOrder - {p})[p := ps.tasks.order],
        runs := s.runs - Elements(Get(s.runOrder, p)) + Select(ps.runs.items, ps.runs.order),
        runOrder := (s.runOrder - {p})[p := ps.runs.order],
        artifacts := s.artifacts - Elements(Get(s.artifactOrder, p)) + Select(ps.artifacts.items, ps.artifacts.order),
        artifactOrder := (s.artifactOrder - {p})[p := ps.artifacts.order])
    ensures RestoredIndex(s, x, p, ps) == x.(
        plans := x.plans - Ids(Get(s.plans, p)) + IndexList(ps.plans),
        contracts := x.contracts - Ids(Get(s.contracts, p)) + IndexList(ps.contracts),
        contexts := ClearAll(RestoreAll(ClearAll(Shelf(s.contexts, x.contexts), Get(s.taskOrder, p)), ps.tasks.order,
                                        ps.contexts), ps.tasks.order).index,
        sandboxes := x.sandboxes - Ids(Get(s.sandboxes, p)) + IndexList(ps.sandboxes),
        overrides := x.overrides - Ids(Get(s.overrides, p)))
  {
    hide FlatOk, Indexed, StateOk, ListOk, ClearAll, RestoreAll, Elements, Select, Ids, IndexList;
    RestoredHistories(s, x, owner, home, p, ps);
  }

  ghost function RollbackHere(s: State, execs: map<Id, Executor>, owner: map<Id, Id>, n: Id, p: Id, id: Id,
                              reason: string, now: Time): Reply
    requires p in s.projects
  {
    WorldLive(s, execs, owner, n, p);
    RollbackTo(WorldOf(s, execs, owner, n), p, id, reason, now)
  }

  lemma RollbackMissing(s: State, execs: map<Id, Executor>, owner: map<Id, Id>, n: Id, p: Id, id: Id, reason: string,
                        now: Time)
    requires p in s.projects
    ensures p in WorldOf(s, execs, owner, n).live && p in WorldOf(s, execs, owner, n).timelines
    ensures FindById(Get(s.snapshots, p), id).None? ==>
      RollbackTo(WorldOf(s, execs, owner, n), p, id, reason, now) == Refuse(WorldOf(s, execs, owner, n), NotFound)
  {
    hide FindById, RecordSnapshot, RestoreProject;
  }

  lemma FoundId<B>(s: seq<Record<B>>, id: Id)
    ensures FindById(s, id).Some? ==> FindById(s, id).value.id == id
  {
    FindByIdIn(s, id);
  }

  lemma RollbackLookup(s: State, x: Index, execs: map<Id, Executor>, owner: map<Id, Id>, home: map<Id, Id>, n: Id,
                       p: Id, id: Id, reason: string, now: Time)
    requires Sound(s, x, execs, owner, home, n) && p in s.projects
    ensures p in WorldOf(s, execs, owner, n).live && p in WorldOf(s, execs, owner, n).timelines
    ensures id !in x.snapshots || x.snapshots[id].projectId != p ==>
      RollbackTo(WorldOf(s, execs, owner, n), p, id, reason, now) == Refuse(WorldOf(s, execs, owner, n), NotFound)
    ensures id in x.snapshots && x.snapshots[id].projectId == p ==>
      x.snapshots[id].id == id && FindById(Get(s.snapshots, p), x.snapshots[id].id) == Some(x.snapshots[id])
  {
    hide FlatOk, Indexed, Inv, StatesHomed, WorldOf, FindById, RollbackTo, Indexes, Filed;
    SnapshotsFiled(s, execs, owner, home, n);
    ListsIndexed(s, x, owner, home);
    IndexLookup(s.snapshots, x.snapshots, owner, p, id);
    RollbackMissing(s, execs, owner, n, p, id, reason, now);
    FoundId(Get(s.snapshots, p), id);
  }

  lemma RollbackFacts(s: State, x: Index, execs: map<Id, Executor>, owner: map<Id, Id>, home: map<Id, Id>, n: Id, p: Id,
                      source: Snapshot, reason: string, now: Time)
    requires Sound(s, x, execs, owner, home, n)
    requires p in s.projects && FindById(Get(s.snapshots, p), source.id) == Some(source)
    ensures source.id in s.snapshotState && StateOk(s.snapshotState[source.id], p, owner)
    ensures forall t | t in s.snapshotState[source.id].contexts ::
      ListOk(s.snapshotState[source.id].contexts[t], t, home)
    ensures FlatOk(CountedIn(s, p), owner, home) && Indexed(CountedIn(s, p), x, owner, home)
    ensures p in RestoreIn(CountedIn(s, p), p, s.snapshotState[source.id]).projects
    ensures RollbackSnapshot(s, n, p, source, reason, now).id == n
    ensures p in WorldOf(s, execs, owner, n).live && p in WorldOf(s, execs, owner, n).timelines
    ensures var st := s.snapshotState[source.id]; var snap := RollbackSnapshot(s, n, p, source, reason, now);
      var m := RecordIn(TouchIn(RestoreIn(CountedIn(s, p), p, st), p, now), p, snap);
      var y := RestoredIndex(CountedIn(s, p), x, p, st);
      && Sound(m, y.(snapshots := y.snapshots[snap.id := snap]), execs, Grant(owner, p, n, 1), home, n + 1)
      && Reply(WorldOf(m, execs, Grant(owner, p, n, 1), n + 1), None)
        == RollbackTo(WorldOf(s, execs, owner, n), p, source.id, reason, now)
  {
    hide FlatOk, Indexed, Inv, WorldOf, FindById, RollbackTo, StateOk, StatesHomed, RestoreIn, RecordIn, TouchIn,
      CountedIn, RollbackSnapshot, RestoredIndex, Grant, ListOk;
    WorldLive(s, execs, owner, n, p);
    SnapshotKnown(s, execs, owner, home, n, p, source);
    HistoriesHomed(s.snapshotState, home, source.id);
    CountedFlat(s, owner, home, p);
    CountedKeeps(s, p);
    RestoredKeeps0(CountedIn(s, p), p, s.snapshotState[source.id]);
    SnapIdIs(s, n, p, source, reason, now);
    CountedIndexed(s, x, owner, home, p, s.snapshotState[source.id]);
    RolledBackOk(s, execs, owner, home, n, p, source, reason, now);
    RolledBackIndexed(s, x, execs, owner, home, n, p, source, reason, now);
  }

  // ----- Starting a run -----------------------------------------------------------------

  function StartedTask(t: Task, made: bool, reason: string, now: Time): Task {
    var going := MovedOrSame(t.body, InProgress, reason, now);
    t.(body := if made then going else MovedOrSame(going, Failed, NO_WORKSPACE, now))
  }

  function NewBox(n: Id, p: Id, t: Id, now: Time): Sandbox {
    Record(n, p, SandboxBody(Private, Some(n + 1), Some(t), Active, "", now, now))
  }

  function NewRun(n: Id, p: Id, t: Id, now: Time): Run {
    Record(n + 1, p, RunBody(t, n, Running, Usage(0, 0, 0), "", "", [], now, None))
  }

  function StartedIn(s: State, n: Id, p: Id, t: Task, made: bool, reason: string, now: Time): State {
    var s1 := PutTaskIn(s, StartedTask(t, made, reason, now));
    if made then WithRun(WithSandbox(s1, p, NewBox(n, p, t.id, now)), NewRun(n, p, t.id, now)) else s1
  }

  lemma StartedFlat(s: State, owner: map<Id, Id>, home: map<Id, Id>, n: Id, p: Id, t: Task, made: bool, reason: string,
                    now: Time)
    requires FlatOk(s, owner, home) && p in s.projects && t.id in s.tasks && s.tasks[t.id] == t && t.projectId == p
    requires Ready(ProjectOf(s, p).tasks.items, t.body)
    requires n in owner && owner[n] == p && n + 1 in owner && owner[n + 1] == p && n !in Ids(Get(s.sandboxes, p))
    requires n + 1 !in s.runs
    ensures var m := StartedIn(s, n, p, t, made, reason, now);
      var r := StartTaskRun(ProjectOf(s, p), t, n, n + 1, made, reason, now);
      FlatOk(m, owner, home) && SameRest(s, m) && r.Ok? && Becomes(s, m, p, r.value)
  {
    hide FlatOk, Becomes, ProjectOf, Ready, StartTaskRun, StartedTask;
    ProjectIds(s, owner, home, p);
    StartedIs(ProjectOf(s, p), p, t, n, made, reason, now);
    var u := StartedTask(t, made, reason, now);
    PutTaskInOk(s, owner, home, u);
    var s1 := PutTaskIn(s, u);
    if made {
      BecomesIs(s, s1, p);
      WithSandboxOk(s1, owner, home, p, NewBox(n, p, t.id, now));
      var s2 := WithSandbox(s1, p, NewBox(n, p, t.id, now));
      BecomesIs(s1, s2, p);
      WithRunOk(s2, owner, home, NewRun(n, p, t.id, now));
      var s3 := WithRun(s2, NewRun(n, p, t.id, now));
      BecomesIs(s2, s3, p);
      BecomesThen(s, s1, s2, p, ProjectOf(s1, p), ProjectOf(s2, p));
      BecomesThen(s, s2, s3, p, ProjectOf(s2, p), ProjectOf(s3, p));
    }
  }

  lemma StartedIs(ps: ProjectState, p: Id, t: Task, n: Id, made: bool, reason: string, now: Time)
    requires ps.project.id == p && Ready(ps.tasks.items, t.body)
    ensures var u := StartedTask(t, made, reason, now); u.id == t.id && u.projectId == t.projectId
    ensures var r := StartTaskRun(ps, t, n, n + 1, made, reason, now);
      var after := PutTask(ps, StartedTask(t, made, reason, now));
      r == Ok(if made
              then AddSandbox(after, NewBox(n, p, t.id, now)).(runs := AddToSlice(ps.runs, NewRun(n, p, t.id, now)))
              else after)
  {
    hide Ready, MovedOrSame, NO_WORKSPACE, AddToSlice;
  }

  // The listed records are the same except for the sandboxes.
  ghost predicate SameLists(s: State, m: State) {
    && m.plans == s.plans && m.contracts == s.contracts && m.contexts == s.contexts && m.overrides == s.overrides
    && m.locks == s.locks && m.conflicts == s.conflicts && m.previews == s.previews && m.snapshots == s.snapshots
  }

  lemma BoxIndexed(s: State, m: State, x: Index, owner: map<Id, Id>, home: map<Id, Id>, n: Id, p: Id, k: nat,
                   box: Sandbox)
    requires ListsOk(s.sandboxes, s.projects.Keys, owner) && Indexed(s, x, owner, home)
    requires (forall i | i in owner :: i < n) && box.id == n && k > 0
    requires SameLists(s, m) && m.sandboxes == Appended(s.sandboxes, p, box)
    ensures Indexed(m, x.(sandboxes := x.sandboxes[n := box]), Grant(owner, p, n, k), home)
  {
    IndexedGrows(s, x, owner, home, Grant(owner, p, n, k), home);
    IndexAppended(s.sandboxes, x.sandboxes, s.projects.Keys, owner, Grant(owner, p, n, k), p, box);
    hide Indexes, Appended, ListsOk, Grant;
  }

  lemma StartedLists(s: State, n: Id, p: Id, t: Task, made: bool, reason: string, now: Time)
    ensures var m := StartedIn(s, n, p, t, made, reason, now);
      SameLists(s, m) && m.sandboxes == if made then Appended(s.sandboxes, p, NewBox(n, p, t.id, now)) else s.sandboxes
  {
    hide StartedTask, NewBox, NewRun, Appended;
  }

  lemma StartedIndexed(s: State, x: Index, owner: map<Id, Id>, home: map<Id, Id>, n: Id, p: Id, t: Task, made: bool,
                       reason: string, now: Time)
    requires ListsOk(s.sandboxes, s.projects.Keys, owner) && Indexed(s, x, owner, home)
    requires forall i | i in owner :: i < n
    ensures var m := StartedIn(s, n, p, t, made, reason, now);
      Indexed(m, if made then x.(sandboxes := x.sandboxes[n := NewBox(n, p, t.id, now)]) else x, Grant(owner, p, n, 2),
              home)
  {
    hide StartedIn, Appended, ListsOk;
    StartedLists(s, n, p, t, made, reason, now);
    IndexedGrows(s, x, owner, home, Grant(owner, p, n, 2), home);
    var m := StartedIn(s, n, p, t, made, reason, now);
    if made {
      BoxIndexed(s, m, x, owner, home, n, p, 2, NewBox(n, p, t.id, now));
    } else {
      hide Indexes;
    }
  }

  lemma BoxesListed(s: State, owner: map<Id, Id>, home: map<Id, Id>)
    requires FlatOk(s, owner, home)
    ensures ListsOk(s.sandboxes, s.projects.Keys, owner)
  {
  }

  // The task is the project's own.
  ghost predicate TaskOf(w: World, p: Id, t: Task) {
    p in w.live && t.id in w.live[p].tasks.items && w.live[p].tasks.items[t.id] == t
  }

  // One attempt to start a task: two ids are used up unless the task was not ready.
  ghost predicate StartSpec(w: World, v: World, p: Id, t: Task, made: bool, reason: string, now: Time, run: Option<Id>,
                            refused: Option<Error>) {
    p in w.live
    && var r := StartTaskRun(w.live[p], t, w.nextId, w.nextId + 1, made, reason, now);
    && (r.Refused? ==> v == w && run == None && refused == Some(r.error))
    && (r.Ok? && made ==> v == Put(Claim(w, p, 2), p, r.value) && run == Some(w.nextId + 1) && refused == None)
    && (r.Ok? && !made ==> v == Put(Claim(w, p, 2), p, r.value) && run == None && refused == Some(Internal))
  }

  // An attempt to start a task on the flat state.
  ghost predicate StartEnds(w: World, m: State, y: Index, execs: map<Id, Executor>, owner: map<Id, Id>,
                            home: map<Id, Id>, n: Id, p: Id, t: Task, made: bool, reason: string, now: Time,
                            run: Option<Id>, refused: Option<Error>) {
    && Sound(m, y, execs, owner, home, n)
    && StartSpec(w, WorldOf(m, execs, owner, n), p, t, made, reason, now, run, refused)
  }

  function StartedIndex(x: Index, n: Id, p: Id, t: Task, made: bool, now: Time): Index {
    if made then x.(sandboxes := x.sandboxes[n := NewBox(n, p, t.id, now)]) else x
  }

  // What the flat updates of startTaskRunLocked amount to.
  lemma StartFacts(s: State, x: Index, execs: map<Id, Executor>, owner: map<Id, Id>, home: map<Id, Id>, n: Id, p: Id,
                   t: Task, made: bool, reason: string, now: Time)
    requires Sound(s, x, execs, owner, home, n) && TaskOf(WorldOf(s, execs, owner, n), p, t)
    ensures !Ready(s.tasks, t.body) ==>
      StartEnds(WorldOf(s, execs, owner, n), s, x, execs, owner, home, n, p, t, made, reason, now, None, Some(Conflict))
    ensures Ready(s.tasks, t.body) ==>
      StartEnds(WorldOf(s, execs, owner, n), StartedIn(s, n, p, t, made, reason, now),
                StartedIndex(x, n, p, t, made, now), execs,
                Grant(owner, p, n, 2), home, n + 2, p, t, made, reason, now, if made then Some(n + 1) else None,
                if made then None else Some(Internal))
  {
    WorldIs(s, execs, owner, n);
    hide FlatOk, Indexed, Inv, StatesHomed, WorldOf, ProjectOf, Ready, StartTaskRun, StartedIn, Grant, Put, Claim;
    TaskKnown(s, execs, owner, home, n, p, t.id);
    TasksOf(s, owner, home, p, ProjectOf(s, p));
    ReadyInProject(s, execs, owner, home, n, p, t.id);
    if Ready(ProjectOf(s, p).tasks.items, t.body) {
      StartSound(s, x, execs, owner, home, n, p, t, made, reason, now);
      StartedOnce(WorldOf(s, execs, owner, n), p, t, made, reason, now);
    } else {
      NotReadyRefused(ProjectOf(s, p), t, n, n + 1, made, reason, now);
    }
  }

  // The parts of a started state.
  lemma StartParts(s: State, x: Index, execs: map<Id, Executor>, owner: map<Id, Id>, home: map<Id, Id>, n: Id, p: Id,
                   t: Task, made: bool, reason: string, now: Time)
    requires Sound(s, x, execs, owner, home, n) && p in s.projects
    requires t.id in s.tasks && s.tasks[t.id] == t && t.projectId == p && Ready(ProjectOf(s, p).tasks.items, t.body)
    ensures var m := StartedIn(s, n, p, t, made, reason, now); var g := Grant(owner, p, n, 2);
      var r := StartTaskRun(ProjectOf(s, p), t, n, n + 1, made, reason, now);
      && FlatOk(m, g, home) && Indexed(m, StartedIndex(x, n, p, t, made, now), g, home)
      && SameRest(s, m) && r.Ok? && Becomes(s, m, p, r.value)
      && m.snapshotState == s.snapshotState
  {
    hide FlatOk, Indexed, Inv, StatesHomed, WorldOf, ProjectOf, Ready, StartTaskRun, StartedIn, Grant, Becomes,
      SameRest;
    OwnersBelow(s, execs, owner, n);
    FreshIn(s, owner, home, p, n);
    FreshIn(s, owner, home, p, n + 1);
    FlatGrows(s, owner, home, Grant(owner, p, n, 2));
    GrantHolds(owner, p, n);
    StartedFlat(s, Grant(owner, p, n, 2), home, n, p, t, made, reason, now);
    BoxesListed(s, owner, home);
    StartedIndexed(s, x, owner, home, n, p, t, made, reason, now);
    StartedKeeps(s, n, p, t, made, reason, now);
  }

  lemma StartSound(s: State, x: Index, execs: map<Id, Executor>, owner: map<Id, Id>, home: map<Id, Id>, n: Id, p: Id,
                   t: Task, made: bool, reason: string, now: Time)
    requires Sound(s, x, execs, owner, home, n) && TaskOf(WorldOf(s, execs, owner, n), p, t)
    requires p in s.projects && t.id in s.tasks && s.tasks[t.id] == t && t.projectId == p
    requires Ready(ProjectOf(s, p).tasks.items, t.body)
    ensures var m := StartedIn(s, n, p, t, made, reason, now); var w := WorldOf(s, execs, owner, n);
      var r := StartTaskRun(ProjectOf(s, p), t, n, n + 1, made, reason, now);
      && Sound(m, StartedIndex(x, n, p, t, made, now), execs, Grant(owner, p, n, 2), home, n + 2)
      && r.Ok? && WorldOf(m, execs, Grant(owner, p, n, 2), n + 2) == Put(Claim(w, p, 2), p, r.value)
  {
    WorldIs(s, execs, owner, n);
    hide FlatOk, Indexed, Inv, StatesHomed, WorldOf, ProjectOf, Ready, StartTaskRun, StartedIn, Grant, Put, Claim,
      Becomes, SameRest, StartedIndex;
    StartParts(s, x, execs, owner, home, n, p, t, made, reason, now);
    StartedOnce(WorldOf(s, execs, owner, n), p, t, made, reason, now);
    WorldBecomes(s, StartedIn(s, n, p, t, made, reason, now), p,
                 StartTaskRun(ProjectOf(s, p), t, n, n + 1, made, reason, now).value, execs, owner, n, 2);
  }

  lemma GrantHolds(owner: map<Id, Id>, p: Id, n: Id)
    ensures var g := Grant(owner, p, n, 2); n in g && g[n] == p && n + 1 in g && g[n + 1] == p
  {
  }

  lemma StartedKeeps(s: State, n: Id, p: Id, t: Task, made: bool, reason: string, now: Time)
    ensures var m := StartedIn(s, n, p, t, made, reason, now);
      m.snapshotState == s.snapshotState && m.projects == s.projects
  {
  }

  lemma StartedOnce(w: World, p: Id, t: Task, made: bool, reason: string, now: Time)
    requires Inv(w) && p in w.live && t.id in w.live[p].tasks.items && w.live[p].tasks.items[t.id] == t
    requires Ready(w.live[p].tasks.items, t.body)
    ensures var r := StartTaskRun(w.live[p], t, w.nextId, w.nextId + 1, made, reason, now);
      r.Ok? && Inv(Put(Claim(w, p, 2), p, r.value))
  {
    hide ProjectOk, Inv, StartTaskRun;
    var ps := w.live[p];
    LiveOk(w, p);
    Fresh(w, p, w.nextId);
    Fresh(w, p, w.nextId + 1);
    StartTaskRunOk(ps, t, w.nextId, w.nextId + 1, made, reason, now, p);
    StartTaskRunAdds(ps, t, w.nextId, w.nextId + 1, made, reason, now);
    RunsKept(w, p, StartTaskRun(ps, t, w.nextId, w.nextId + 1, made, reason, now).value);
    CommitOk(w, p, StartTaskRun(ps, t, w.nextId, w.nextId + 1, made, reason, now).value, 2);
  }

  lemma WorldLive(s: State, execs: map<Id, Executor>, owner: map<Id, Id>, n: Id, p: Id)
    requires p in s.projects
    ensures p in WorldOf(s, execs, owner, n).live && WorldOf(s, execs, owner, n).live[p] == ProjectOf(s, p)
    ensures p in WorldOf(s, execs, owner, n).timelines
  {
  }

  lemma StartedStored(s: State, n: Id, p: Id, t: Task, made: bool, reason: string, now: Time)
    ensures var moved, box, run := StartedTask(t, made, reason, now), NewBox(n, p, t.id, now), NewRun(n, p, t.id, now);
      && (!made ==> StartedIn(s, n, p, t, made, reason, now) == s.(tasks := s.tasks[moved.id := moved]))
      && (made ==> StartedIn(s, n, p, t, made, reason, now) == s.(
            tasks := s.tasks[moved.id := moved],
            sandboxes := s.sandboxes[p := Get(s.sandboxes, p) + [box]],
            runs := s.runs[run.id := run],
            runOrder := s.runOrder[run.projectId := Get(s.runOrder, run.projectId) + [run.id]]))
  {
    hide StartedTask, NewBox, NewRun;
  }

  // Starting a run through a repository: when only the commit fails, nothing is touched.
  ghost predicate StoredSpec(w: World, v: World, untouched: bool, p: Id, taskId: Option<Id>, allowed: bool, made: bool,
                             committed: bool, now: Time, refused: Option<Error>) {
    var r := Machine.StartRun(w, p, taskId, allowed, made, now);
    if r.refused.Some? || committed then Reply(v, refused) == r else refused == Some(Internal) && untouched
  }

  lemma StartRunCases(s: State, x: Index, execs: map<Id, Executor>, owner: map<Id, Id>, home: map<Id, Id>, n: Id, p: Id,
                      taskId: Option<Id>, allowed: bool, made: bool, now: Time)
    requires Sound(s, x, execs, owner, home, n)
    ensures var w := WorldOf(s, execs, owner, n);
      && Inv(w) && (p in s.projects ==> p in w.live && w.live[p] == ProjectOf(s, p))
      && (p !in s.projects ==> Machine.StartRun(w, p, taskId, allowed, made, now) == Refuse(w, NotFound))
      && (p in s.projects ==> var t := ResolveTask(ProjectOf(s, p), taskId);
            && (t.Refused? ==> Machine.StartRun(w, p, taskId, allowed, made, now) == Refuse(w, t.error))
            && (t.Ok? && !allowed ==> Machine.StartRun(w, p, taskId, allowed, made, now) == Refuse(w, Conflict))
            && (t.Ok? ==> TaskOf(w, p, t.value)))
  {
    hide FlatOk, Indexed, Inv, StatesHomed, WorldOf, ResolveTask, StartTaskRun;
    WorldIs(s, execs, owner, n);
    if p in s.projects && ResolveTask(ProjectOf(s, p), taskId).Ok? {
      ResolvedHere(s, execs, owner, home, n, p, taskId);
    }
  }

  lemma StartRunEnds(w: World, s: State, x: Index, execs: map<Id, Executor>, owner: map<Id, Id>, home: map<Id, Id>,
                     n: Id, p: Id, taskId: Option<Id>, made: bool, now: Time, run: Option<Id>, refused: Option<Error>)
    requires Inv(w) && Sound(s, x, execs, owner, home, n) && p in w.live && ResolveTask(w.live[p], taskId).Ok?
    requires StartSpec(w, WorldOf(s, execs, owner, n), p, ResolveTask(w.live[p], taskId).value, made, RUN_STARTED, now,
                       run, refused)
    ensures var t := ResolveTask(w.live[p], taskId).value;
      var execs' := if run.Some? then execs[run.value := Executor(p, t.id, Spawned)] else execs;
      && Sound(s, x, execs', owner, home, n) && (run.None? <==> refused.Some?)
      && Reply(WorldOf(s, execs', owner, n), refused) == Machine.StartRun(w, p, taskId, true, made, now)
  {
    hide FlatOk, Indexed, Inv, StatesHomed, ResolveTask, StartTaskRun, WorldOf, Put, Claim;
    StartRunStep(w, p, taskId, true, made, now);
    if run.Some? {
      PhasedWorld(s, execs, owner, n, run.value, Executor(p, ResolveTask(w.live[p], taskId).value.id, Spawned));
    }
  }

  lemma PhasedWorld(s: State, execs: map<Id, Executor>, owner: map<Id, Id>, n: Id, r: Id, x: Executor)
    ensures WorldOf(s, execs[r := x], owner, n) == PutExec(WorldOf(s, execs, owner, n), r, x)
  {
    hide LiveIn, TimelinesIn;
  }

  lemma ListsFit(s: State, owner: map<Id, Id>, home: map<Id, Id>)
    requires FlatOk(s, owner, home)
    ensures forall k | k in s.plans :: ListOk(s.plans[k], k, owner)
    ensures forall k | k in s.contracts :: ListOk(s.contracts[k], k, owner)
    ensures forall k | k in s.contexts :: ListOk(s.contexts[k], k, home)
    ensures forall k | k in s.overrides :: ListOk(s.overrides[k], k, owner)
    ensures forall k | k in s.locks :: ListOk(s.locks[k], k, owner)
    ensures forall k | k in s.conflicts :: ListOk(s.conflicts[k], k, owner)
    ensures forall k | k in s.previews :: ListOk(s.previews[k], k, owner)
    ensures forall k | k in s.sandboxes :: ListOk(s.sandboxes[k], k, owner)
    ensures forall k | k in s.snapshots :: ListOk(s.snapshots[k], k, owner)
  {
    hide LedgerOk, ListOk;
  }

  // Ids handed out for nothing do no harm.
  lemma SoundClaims(s: State, x: Index, execs: map<Id, Executor>, owner: map<Id, Id>, home: map<Id, Id>, n: Id, p: Id,
                    k: nat)
    requires Sound(s, x, execs, owner, home, n) && p in s.projects
    ensures Sound(s, x, execs, Grant(owner, p, n, k), home, n + k)
  {
    hide FlatOk, Indexed, Inv, StatesHomed;
    WorldLive(s, execs, owner, n, p);
    OwnersBelow(s, execs, owner, n);
    FlatGrows(s, owner, home, Grant(owner, p, n, k));
    IndexedGrows(s, x, owner, home, Grant(owner, p, n, k), home);
    ClaimOk(WorldOf(s, execs, owner, n), p, k);
    hide LiveIn, TimelinesIn;
  }

  lemma StartUndone(s: State, x: Index, m: State, execs: map<Id, Executor>, owner: map<Id, Id>, owner': map<Id, Id>,
                    home: map<Id, Id>, n: Id, n': Id, p: Id, t: Task, made: bool, now: Time, run: Option<Id>,
                    refused: Option<Error>)
    requires Sound(s, x, execs, owner, home, n) && run.Some?
    requires StartSpec(WorldOf(s, execs, owner, n), WorldOf(m, execs, owner', n'), p, t, made, RUN_STARTED, now, run,
                       refused)
    ensures Sound(s, x, execs, owner', home, n') && FlatOk(s, owner', home) && Indexed(s, x, owner', home)
  {
    WorldIs(s, execs, owner, n);
    hide FlatOk, Indexed, Inv, StatesHomed, StartTaskRun, Grant, LiveIn, TimelinesIn;
    SoundClaims(s, x, execs, owner, home, n, p, 2);
  }

  ghost predicate Resolved(w: World, p: Id, taskId: Option<Id>, t: Task) {
    Inv(w) && TaskOf(w, p, t) && ResolveTask(w.live[p], taskId) == Ok(t)
  }

  lemma ResolvedTask(w: World, p: Id, taskId: Option<Id>, t: Task)
    requires Resolved(w, p, taskId, t)
    ensures Inv(w) && TaskOf(w, p, t)
  {
    hide Inv;
  }

  ghost predicate StoredEnds(w: World, m: State, y: Index, execs: map<Id, Executor>, owner: map<Id, Id>,
                             home: map<Id, Id>, n: Id, p: Id, taskId: Option<Id>, made: bool, committed: bool,
                             now: Time, refused: Option<Error>) {
    && Sound(m, y, execs, owner, home, n)
    && StoredSpec(w, WorldOf(m, execs, owner, n), false, p, taskId, true, made, committed, now, refused)
    && StoredSpec(w, WorldOf(m, execs, owner, n), true, p, taskId, true, made, committed, now, refused)
  }

  // What each way out of StartAndCommit has to show: the start was refused, ...
  lemma StoredNone(w: World, m: State, y: Index, execs: map<Id, Executor>, owner: map<Id, Id>, home: map<Id, Id>, n: Id,
                   p: Id, taskId: Option<Id>, t: Task, untouched: bool, made: bool, committed: bool, now: Time,
                   refused: Option<Error>)
    requires Resolved(w, p, taskId, t) && Sound(m, y, execs, owner, home, n)
    requires StartSpec(w, WorldOf(m, execs, owner, n), p, t, made, RUN_STARTED, now, None, refused)
    ensures StoredSpec(w, WorldOf(m, execs, owner, n), untouched, p, taskId, true, made, committed, now, refused)
  {
    hide Inv, Sound, WorldOf, ResolveTask, StartSpec, Machine.StartRun;
    StartRunEnds(w, m, y, execs, owner, home, n, p, taskId, made, now, None, refused);
  }

  // ... the run was committed, ...
  lemma StoredDone(w: World, m: State, y: Index, execs: map<Id, Executor>, owner: map<Id, Id>, home: map<Id, Id>, n: Id,
                   p: Id, taskId: Option<Id>, t: Task, made: bool, now: Time, run: Id, refused: Option<Error>)
    requires Resolved(w, p, taskId, t) && Sound(m, y, execs, owner, home, n)
    requires StartSpec(w, WorldOf(m, execs, owner, n), p, t, made, RUN_STARTED, now, Some(run), refused)
    ensures StoredEnds(w, m, y, execs[run := Executor(p, t.id, Spawned)], owner, home, n, p, taskId, made, true, now,
                       refused)
  {
    hide Inv, Sound, WorldOf, ResolveTask, StartSpec, Machine.StartRun;
    StartRunEnds(w, m, y, execs, owner, home, n, p, taskId, made, now, Some(run), refused);
  }

  // ... or the commit was rejected: s, x, owner and n are as before the start, m, y, owner' and n'
  // as after it.
  lemma StoredUndone(w: World, s: State, x: Index, owner: map<Id, Id>, n: Id, m: State, y: Index,
                     execs: map<Id, Executor>, owner': map<Id, Id>, home: map<Id, Id>, n': Id, p: Id,
                     taskId: Option<Id>, t: Task, made: bool, now: Time, run: Id, refused: Option<Error>)
    requires Resolved(w, p, taskId, t) && Sound(s, x, execs, owner, home, n) && w == WorldOf(s, execs, owner, n)
    requires Sound(m, y, execs, owner', home, n')
    requires StartSpec(w, WorldOf(m, execs, owner', n'), p, t, made, RUN_STARTED, now, Some(run), refused)
    ensures Sound(s, x, execs, owner', home, n') && FlatOk(s, owner', home) && Indexed(s, x, owner', home)
    ensures StoredSpec(w, WorldOf(s, execs, owner', n'), true, p, taskId, true, made, false, now, Some(Internal))
  {
    hide Inv, Sound, WorldOf, ResolveTask, StartSpec, Machine.StartRun, FlatOk, Indexed;
    StartRunEnds(w, m, y, execs, owner', home, n', p, taskId, made, now, Some(run), refused);
    StartUndone(s, x, m, execs, owner, owner', home, n, n', p, t, made, now, Some(run), refused);
  }

  // ----- Ending a run -------------------------------------------------------------------

  lemma DroppedWorld(s: State, execs: map<Id, Executor>, owner: map<Id, Id>, n: Id, r: Id)
    ensures WorldOf(s, execs - {r}, owner, n) == DropExec(WorldOf(s, execs, owner, n), r)
  {
    hide LiveIn, TimelinesIn;
  }

  // The flat maps know an executor's task and run exactly when its project does.
  lemma ExecutorSees(s: State, x: Index, execs: map<Id, Executor>, owner: map<Id, Id>, home: map<Id, Id>, n: Id, r: Id)
    requires Sound(s, x, execs, owner, home, n) && r in execs
    ensures execs[r].projectId in s.projects && ProjectOk(ProjectOf(s, execs[r].projectId), execs[r].projectId)
    ensures var ps := ProjectOf(s, execs[r].projectId);
      && (execs[r].taskId in s.tasks <==> execs[r].taskId in ps.tasks.items)
      && (execs[r].taskId in s.tasks ==>
            && ps.tasks.items[execs[r].taskId] == s.tasks[execs[r].taskId]
            && s.tasks[execs[r].taskId].id == execs[r].taskId)
      && (r in s.runs <==> r in ps.runs.items)
      && (r in s.runs ==>
            && ps.runs.items[r] == s.runs[r] && s.runs[r].id == r && s.runs[r].projectId == execs[r].projectId
            && s.runs[r].body.status == Running && s.runs[r].body.taskId == execs[r].taskId
            && execs[r].taskId in s.tasks)
  {
    hide Indexed, StatesHomed, ProjectOk, ListsOk;
    var w, p, t := WorldOf(s, execs, owner, n), execs[r].projectId, execs[r].taskId;
    ExecFacts(w, r);
    WorldIs(s, execs, owner, n);
    TasksOf(s, owner, home, p, ProjectOf(s, p));
    RunsOf(s, owner, home, p, ProjectOf(s, p));
    LiveOk(w, p);
    hide Inv;
    if t in s.tasks {
      TaskIdIs(ProjectOf(s, p), t, p);
    }
    if r in s.runs {
      RunningRun(ProjectOf(s, p), r, p);
    }
  }

  lemma ExecFacts(w: World, r: Id)
    requires Inv(w) && r in w.execs
    ensures w.execs[r].projectId in w.live && RunAs(w.live[w.execs[r].projectId], r, w.execs[r].taskId)
    ensures r in w.owner && w.owner[r] == w.execs[r].projectId && w.execs[r].taskId in w.owner
    ensures w.owner[w.execs[r].taskId] == w.execs[r].projectId
  {
    assert ExecOk(w, r);
  }

  // The flat state with a task, a run and the project's sandboxes replaced.
  function EndedIn(s: State, p: Id, task: Task, run: Run, boxes: seq<Sandbox>): State {
    s.(tasks := s.tasks[task.id := task], runs := s.runs[run.id := run], sandboxes := s.sandboxes[p := boxes])
  }

  lemma BoxesReplaced(s: State, owner: map<Id, Id>, home: map<Id, Id>, p: Id, boxes: seq<Sandbox>)
    requires FlatOk(s, owner, home) && p in s.projects && ListOk(boxes, p, owner)
    ensures var m := s.(sandboxes := s.sandboxes[p := boxes]);
      FlatOk(m, owner, home) && SameRest(s, m) && Becomes(s, m, p, ProjectOf(s, p).(sandboxes := boxes))
  {
    hide LedgerOk, SliceOf;
  }

  lemma EndedFlat(s: State, owner: map<Id, Id>, home: map<Id, Id>, p: Id, task: Task, run: Run, boxes: seq<Sandbox>)
    requires FlatOk(s, owner, home) && p in s.projects && ListOk(boxes, p, owner)
    requires task.id in s.tasks && s.tasks[task.id].projectId == p == task.projectId && run.id in s.runs
    requires s.runs[run.id].projectId == p == run.projectId
    ensures var m := EndedIn(s, p, task, run, boxes); var ps := ProjectOf(s, p);
      && FlatOk(m, owner, home) && SameRest(s, m)
      && Becomes(s, m, p, PutTask(ps, task).(runs := PutInSlice(ps.runs, run), sandboxes := boxes))
  {
    hide FlatOk, Becomes, ProjectOf, ListOk;
    PutTaskInOk(s, owner, home, task);
    var s1 := PutTaskIn(s, task);
    BecomesIs(s, s1, p);
    PutRunInOk(s1, owner, home, run);
    var s2 := PutRunIn(s1, run);
    BecomesIs(s1, s2, p);
    BoxesReplaced(s2, owner, home, p, boxes);
    var s3 := s2.(sandboxes := s2.sandboxes[p := boxes]);
    BecomesIs(s2, s3, p);
    BecomesThen(s, s1, s2, p, ProjectOf(s1, p), ProjectOf(s2, p));
    BecomesThen(s, s2, s3, p, ProjectOf(s2, p), ProjectOf(s3, p));
  }

  // A sandbox list with one sandbox settled.
  function SettledBoxes(boxes: seq<Sandbox>, id: Id, status: SandboxStatus, failure: Option<string>,
                        now: Time): seq<Sandbox> {
    var index := IndexList(boxes);
    if id in index
    then PutInList(boxes, index[id].(body := SettledBody(index[id].body, status, failure, now)))
    else boxes
  }

  lemma SettledBoxesOk(boxes: seq<Sandbox>, p: Id, owner: map<Id, Id>, id: Id, status: SandboxStatus,
                       failure: Option<string>, now: Time)
    requires ListOk(boxes, p, owner)
    ensures ListOk(SettledBoxes(boxes, id, status, failure, now), p, owner)
  {
  }

  lemma CompletedFlat(s: State, owner: map<Id, Id>, home: map<Id, Id>, p: Id, r: Id, t: Id, a: Artifact, uri: string,
                      usage: Usage, summary: string, now: Time)
    requires FlatOk(s, owner, home) && p in s.projects && t in s.tasks && s.tasks[t].id == t
    requires s.tasks[t].projectId == p
    requires r in s.runs && s.runs[r].id == r && s.runs[r].projectId == p
    requires a == Record(a.id, p, ArtifactBody(t, r, uri, now)) && a.id in owner && owner[a.id] == p
    requires a.id !in s.artifacts
    ensures var boxes := SettledBoxes(Get(s.sandboxes, p), s.runs[r].body.sandboxId, Released, None, now);
      var m := WithArtifact(EndedIn(s, p, CompletedTask(s.tasks[t], uri, now),
                                    CompletedRun(s.runs[r], a.id, usage, summary, now), boxes), a);
      && FlatOk(m, owner, home) && SameRest(s, m)
      && Becomes(s, m, p, Projects.CompleteRun(ProjectOf(s, p), r, t, a.id, uri, usage, summary, now))
  {
    hide FlatOk, Becomes, ProjectOf, ListOk, MovedOrSame;
    var boxes := SettledBoxes(Get(s.sandboxes, p), s.runs[r].body.sandboxId, Released, None, now);
    var task, run := CompletedTask(s.tasks[t], uri, now), CompletedRun(s.runs[r], a.id, usage, summary, now);
    BoxesOfProject(s, owner, home, p);
    SettledBoxesOk(Get(s.sandboxes, p), p, owner, s.runs[r].body.sandboxId, Released, None, now);
    EndedFlat(s, owner, home, p, task, run, boxes);
    var s1 := EndedIn(s, p, task, run, boxes);
    BecomesIs(s, s1, p);
    WithArtifactOk(s1, owner, home, a);
    var s2 := WithArtifact(s1, a);
    BecomesIs(s1, s2, p);
    BecomesThen(s, s1, s2, p, ProjectOf(s1, p), ProjectOf(s2, p));
    TasksOf(s, owner, home, p, ProjectOf(s, p));
    RunsOf(s, owner, home, p, ProjectOf(s, p));
    ProjectIds(s, owner, home, p);
    CompleteIs(ProjectOf(s, p), r, t, a, uri, usage, summary, now);
  }

  lemma CompleteIs(ps: ProjectState, r: Id, t: Id, a: Artifact, uri: string, usage: Usage, summary: string, now: Time)
    requires t in ps.tasks.items && r in ps.runs.items && a == Record(a.id, ps.project.id, ArtifactBody(t, r, uri, now))
    ensures var run := ps.runs.items[r];
      Projects.CompleteRun(ps, r, t, a.id, uri, usage, summary, now)
        == PutTask(ps, CompletedTask(ps.tasks.items[t], uri, now)).(
        runs := PutInSlice(ps.runs, CompletedRun(run, a.id, usage, summary, now)),
        sandboxes := SettledBoxes(ps.sandboxes, run.body.sandboxId, Released, None, now),
        artifacts := AddToSlice(ps.artifacts, a))
  {
    hide MovedOrSame, SettledBody;
  }

  lemma BoxesOfProject(s: State, owner: map<Id, Id>, home: map<Id, Id>, p: Id)
    requires FlatOk(s, owner, home) && p in s.projects
    ensures ListOk(Get(s.sandboxes, p), p, owner) && ProjectOf(s, p).sandboxes == Get(s.sandboxes, p)
  {
  }

  lemma WorldFields(s: State, execs: map<Id, Executor>, owner: map<Id, Id>, n: Id)
    ensures var w := WorldOf(s, execs, owner, n);
      w.execs == execs && w.owner == owner && w.nextId == n && w.live.Keys == s.projects.Keys
  {
  }

  lemma CompleteWorld(w: World, r: Id, uri: string, usage: Usage, summary: string, now: Time)
    requires At(w, r, Armed)
    ensures var p := w.execs[r].projectId;
      Complete(w, r, uri, usage, summary, now)
        == DropExec(Put(Claim(w, p, 1), p,
                        Projects.CompleteRun(w.live[p], r, w.execs[r].taskId, w.nextId, uri, usage, summary, now)), r)
  {
    hide Put, Claim, DropExec, Projects.CompleteRun;
  }

  // A late executor leaves the flat state alone.
  lemma CompleteLate(s: State, x: Index, execs: map<Id, Executor>, owner: map<Id, Id>, home: map<Id, Id>, n: Id, r: Id,
                     uri: string, usage: Usage, summary: string, now: Time)
    requires Sound(s, x, execs, owner, home, n) && At(WorldOf(s, execs, owner, n), r, Armed) && r in execs
    requires execs[r].taskId !in s.tasks || r !in s.runs
    ensures execs[r].projectId in s.projects
    ensures var owner' := Grant(owner, execs[r].projectId, n, 1);
      && WorldOf(s, execs - {r}, owner', n + 1) == Complete(WorldOf(s, execs, owner, n), r, uri, usage, summary, now)
      && Sound(s, x, execs - {r}, owner', home, n + 1)
  {
    hide Inv, FlatOk, Indexed, StatesHomed, WorldOf, ProjectOf, ProjectOk, Projects.CompleteRun, Complete, Put, Claim,
      DropExec, Grant;
    var w, p, t := WorldOf(s, execs, owner, n), execs[r].projectId, execs[r].taskId;
    ExecutorSees(s, x, execs, owner, home, n, r);
    WorldFields(s, execs, owner, n);
    WorldLive(s, execs, owner, n, p);
    CompleteWorld(w, r, uri, usage, summary, now);
    CompleteAbsent(ProjectOf(s, p), r, t, n, uri, usage, summary, now);
    SoundClaims(s, x, execs, owner, home, n, p, 1);
    SelfBecomes(s, execs, owner, n, p, 1);
    SoundDrops(s, x, execs, Grant(owner, p, n, 1), home, n + 1, r);
  }

  lemma SoundDrops(s: State, x: Index, execs: map<Id, Executor>, owner: map<Id, Id>, home: map<Id, Id>, n: Id, r: Id)
    requires Sound(s, x, execs, owner, home, n)
    ensures Sound(s, x, execs - {r}, owner, home, n)
    ensures WorldOf(s, execs - {r}, owner, n) == DropExec(WorldOf(s, execs, owner, n), r)
  {
    hide Inv, FlatOk, Indexed, StatesHomed, WorldOf, DropExec;
    DroppedWorld(s, execs, owner, n, r);
    DropOk(WorldOf(s, execs, owner, n), r);
  }

  function CompletedIn(s: State, p: Id, r: Id, t: Id, a: Artifact, uri: string, usage: Usage, summary: string,
                       now: Time): State
    requires t in s.tasks && r in s.runs
  {
    var boxes := SettledBoxes(Get(s.sandboxes, p), s.runs[r].body.sandboxId, Released, None, now);
    WithArtifact(EndedIn(s, p, CompletedTask(s.tasks[t], uri, now), CompletedRun(s.runs[r], a.id, usage, summary, now),
                         boxes), a)
  }

  // What the flat updates of the last section of executeRun amount to.
  lemma CompleteFacts(s: State, x: Index, execs: map<Id, Executor>, owner: map<Id, Id>, home: map<Id, Id>, n: Id, r: Id,
                      a: Artifact, uri: string, usage: Usage, summary: string, now: Time)
    requires Sound(s, x, execs, owner, home, n) && At(WorldOf(s, execs, owner, n), r, Armed) && r in execs
    requires execs[r].taskId in s.tasks && r in s.runs
    requires a == Record(n, execs[r].projectId, ArtifactBody(execs[r].taskId, r, uri, now))
    ensures execs[r].projectId in s.projects && s.runs[r].id == r && s.runs[r].projectId == execs[r].projectId
    ensures s.tasks[execs[r].taskId].id == execs[r].taskId
    ensures var owner' := Grant(owner, execs[r].projectId, n, 1);
      var m := CompletedIn(s, execs[r].projectId, r, execs[r].taskId, a, uri, usage, summary, now);
      && FlatOk(m, owner', home) && m.snapshotState == s.snapshotState
      && WorldOf(m, execs - {r}, owner', n + 1) == Complete(WorldOf(s, execs, owner, n), r, uri, usage, summary, now)
      && Inv(WorldOf(m, execs - {r}, owner', n + 1))
  {
    hide Inv, FlatOk, Indexed, StatesHomed, WorldOf, ProjectOf, ProjectOk, Projects.CompleteRun, Complete, Put, Claim,
      DropExec, Grant, CompletedIn, Becomes, SameRest;
    var w, p, t := WorldOf(s, execs, owner, n), execs[r].projectId, execs[r].taskId;
    ExecutorSees(s, x, execs, owner, home, n, r);
    WorldFields(s, execs, owner, n);
    WorldLive(s, execs, owner, n, p);
    OwnersBelow(s, execs, owner, n);
    CompleteStep(w, r, uri, usage, summary, now);
    CompleteWorld(w, r, uri, usage, summary, now);
    FreshIn(s, owner, home, p, n);
    TaskHome(s, x, execs, owner, home, n, r);
    CompletedThen(s, owner, home, n, p, r, t, a, uri, usage, summary, now);
    var m := CompletedIn(s, p, r, t, a, uri, usage, summary, now);
    WorldBecomes(s, m, p, Projects.CompleteRun(ProjectOf(s, p), r, t, n, uri, usage, summary, now), execs, owner, n, 1);
    DroppedWorld(m, execs, Grant(owner, p, n, 1), n + 1, r);
  }

  lemma TaskHome(s: State, x: Index, execs: map<Id, Executor>, owner: map<Id, Id>, home: map<Id, Id>, n: Id, r: Id)
    requires Sound(s, x, execs, owner, home, n) && r in execs && execs[r].taskId in s.tasks
    ensures s.tasks[execs[r].taskId].projectId == execs[r].projectId
  {
    hide Indexed, StatesHomed, ListsOk;
    ExecFacts(WorldOf(s, execs, owner, n), r);
    WorldFields(s, execs, owner, n);
    hide Inv;
  }

  lemma CompletedThen(s: State, owner: map<Id, Id>, home: map<Id, Id>, n: Id, p: Id, r: Id, t: Id, a: Artifact,
                      uri: string, usage: Usage, summary: string, now: Time)
    requires FlatOk(s, owner, home) && p in s.projects && t in s.tasks && s.tasks[t].id == t
    requires s.tasks[t].projectId == p && n !in owner
    requires r in s.runs && s.runs[r].id == r && s.runs[r].projectId == p && n !in s.artifacts
    requires a == Record(n, p, ArtifactBody(t, r, uri, now))
    ensures var m := CompletedIn(s, p, r, t, a, uri, usage, summary, now);
      && FlatOk(m, Grant(owner, p, n, 1), home) && SameRest(s, m) && m.snapshotState == s.snapshotState
      && Becomes(s, m, p, Projects.CompleteRun(ProjectOf(s, p), r, t, n, uri, usage, summary, now))
  {
    hide FlatOk, Becomes, ProjectOf, Projects.CompleteRun, CompletedTask, CompletedRun, SettledBoxes, EndedIn,
      WithArtifact;
    FlatGrows(s, owner, home, Grant(owner, p, n, 1));
    CompletedFlat(s, Grant(owner, p, n, 1), home, p, r, t, a, uri, usage, summary, now);
  }

  lemma CompleteAbsent(ps: ProjectState, r: Id, t: Id, a: Id, uri: string, usage: Usage, summary: string, now: Time)
    ensures t !in ps.tasks.items || r !in ps.runs.items ==>
      Projects.CompleteRun(ps, r, t, a, uri, usage, summary, now) == ps
  {
  }

  lemma SelfBecomes(s: State, execs: map<Id, Executor>, owner: map<Id, Id>, n: Id, p: Id, k: nat)
    requires p in s.projects
    ensures WorldOf(s, execs, Grant(owner, p, n, k), n + k)
      == Put(Claim(WorldOf(s, execs, owner, n), p, k), p, ProjectOf(s, p))
  {
    WorldBecomes(s, s, p, ProjectOf(s, p), execs, owner, n, k);
  }

  lemma BoxesFit(s: State, x: Index, execs: map<Id, Executor>, owner: map<Id, Id>, home: map<Id, Id>, n: Id, p: Id)
    requires Sound(s, x, execs, owner, home, n) && p in s.projects
    ensures ListOk(Get(s.sandboxes, p), p, owner)
  {
    hide Indexed, StatesHomed, Inv;
    BoxesOfProject(s, owner, home, p);
  }

  lemma CompletedStored(s: State, p: Id, r: Id, t: Id, a: Artifact, uri: string, usage: Usage, summary: string,
                        now: Time)
    requires t in s.tasks && s.tasks[t].id == t && r in s.runs && s.runs[r].id == r && a.projectId == p
    ensures CompletedIn(s, p, r, t, a, uri, usage, summary, now) == s.(
      artifacts := s.artifacts[a.id := a],
      artifactOrder := s.artifactOrder[p := Get(s.artifactOrder, p) + [a.id]],
      runs := s.runs[r := CompletedRun(s.runs[r], a.id, usage, summary, now)],
      tasks := s.tasks[t := CompletedTask(s.tasks[t], uri, now)],
      sandboxes := s.sandboxes[p := SettledBoxes(Get(s.sandboxes, p), s.runs[r].body.sandboxId, Released, None, now)])
  {
    hide SettledBoxes, MovedOrSame;
  }

  lemma CompletedHomed(s: State, x: Index, execs: map<Id, Executor>, owner: map<Id, Id>, home: map<Id, Id>, n: Id)
    requires Sound(s, x, execs, owner, home, n)
    ensures StatesHomed(s.snapshotState, home)
  {
    hide FlatOk, Indexed, StatesHomed, Inv;
  }

  lemma MakeSound(s: State, x: Index, execs: map<Id, Executor>, owner: map<Id, Id>, home: map<Id, Id>, n: Id)
    requires FlatOk(s, owner, home) && Indexed(s, x, owner, home) && StatesHomed(s.snapshotState, home)
    requires Inv(WorldOf(s, execs, owner, n))
    ensures Sound(s, x, execs, owner, home, n)
  {
  }

  lemma FailWorld(w: World, r: Id, failure: string, usage: Usage, now: Time)
    requires At(w, r, Failing(failure))
    ensures var p := w.execs[r].projectId;
      Fail(w, r, usage, now) == DropExec(Put(w, p, FailRun(w.live[p], r, failure, usage, now)), r)
  {
    hide Put, DropExec, FailRun;
  }

  lemma FailIs(ps: ProjectState, r: Id, failure: string, usage: Usage, now: Time)
    requires r in ps.runs.items && ps.runs.items[r].body.taskId in ps.tasks.items
    requires Busy(ps.tasks.items[ps.runs.items[r].body.taskId].body.status)
    ensures var run := ps.runs.items[r];
      FailRun(ps, r, failure, usage, now) == PutTask(ps, FailedTask(ps.tasks.items[run.body.taskId], now)).(
        runs := PutInSlice(ps.runs, CrashedRun(run, failure, usage, now)),
        sandboxes := SettledBoxes(ps.sandboxes, run.body.sandboxId, Broken, Some(failure), now))
  {
    hide MovedOrSame, SettledBody;
  }

  lemma FailAbsent(ps: ProjectState, r: Id, failure: string, usage: Usage, now: Time)
    requires r !in ps.runs.items
    ensures FailRun(ps, r, failure, usage, now) == ps
  {
  }

  function FailedIn(s: State, p: Id, r: Id, t: Id, failure: string, usage: Usage, now: Time): State
    requires t in s.tasks && r in s.runs
  {
    EndedIn(s, p, FailedTask(s.tasks[t], now), CrashedRun(s.runs[r], failure, usage, now),
            SettledBoxes(Get(s.sandboxes, p), s.runs[r].body.sandboxId, Broken, Some(failure), now))
  }

  lemma FailLate(s: State, x: Index, execs: map<Id, Executor>, owner: map<Id, Id>, home: map<Id, Id>, n: Id, r: Id,
                 failure: string, usage: Usage, now: Time)
    requires Sound(s, x, execs, owner, home, n) && At(WorldOf(s, execs, owner, n), r, Failing(failure)) && r in execs
    requires r !in s.runs
    ensures WorldOf(s, execs - {r}, owner, n) == Fail(WorldOf(s, execs, owner, n), r, usage, now)
    ensures Sound(s, x, execs - {r}, owner, home, n)
  {
    hide Inv, FlatOk, Indexed, StatesHomed, WorldOf, ProjectOf, ProjectOk, FailRun, Fail, DropExec;
    var w, p := WorldOf(s, execs, owner, n), execs[r].projectId;
    ExecutorSees(s, x, execs, owner, home, n, r);
    WorldFields(s, execs, owner, n);
    WorldLive(s, execs, owner, n, p);
    FailWorld(w, r, failure, usage, now);
    FailAbsent(ProjectOf(s, p), r, failure, usage, now);
    PutSame(w, p);
    SoundDrops(s, x, execs, owner, home, n, r);
  }

  lemma PutSame(w: World, p: Id)
    requires p in w.live
    ensures Put(w, p, w.live[p]) == w
  {
    assert w.live[p := w.live[p]] == w.live;
  }

  lemma FailedThen(s: State, owner: map<Id, Id>, home: map<Id, Id>, p: Id, r: Id, t: Id, failure: string, usage: Usage,
                   now: Time)
    requires FlatOk(s, owner, home) && p in s.projects && t in s.tasks && s.tasks[t].id == t
    requires s.tasks[t].projectId == p
    requires r in s.runs && s.runs[r].id == r && s.runs[r].projectId == p && s.runs[r].body.taskId == t
    requires Busy(s.tasks[t].body.status)
    ensures var m := FailedIn(s, p, r, t, failure, usage, now);
      && FlatOk(m, owner, home) && SameRest(s, m) && m.snapshotState == s.snapshotState
      && Becomes(s, m, p, FailRun(ProjectOf(s, p), r, failure, usage, now))
  {
    hide FlatOk, Becomes, ProjectOf, ListOk, MovedOrSame, FailRun;
    BoxesOfProject(s, owner, home, p);
    SettledBoxesOk(Get(s.sandboxes, p), p, owner, s.runs[r].body.sandboxId, Broken, Some(failure), now);
    EndedFlat(s, owner, home, p, FailedTask(s.tasks[t], now), CrashedRun(s.runs[r], failure, usage, now),
              SettledBoxes(Get(s.sandboxes, p), s.runs[r].body.sandboxId, Broken, Some(failure), now));
    TasksOf(s, owner, home, p, ProjectOf(s, p));
    RunsOf(s, owner, home, p, ProjectOf(s, p));
    FailIs(ProjectOf(s, p), r, failure, usage, now);
  }

  // What the flat updates of failRun amount to.
  lemma FailFacts(s: State, x: Index, execs: map<Id, Executor>, owner: map<Id, Id>, home: map<Id, Id>, n: Id, r: Id,
                  failure: string, usage: Usage, now: Time)
    requires Sound(s, x, execs, owner, home, n) && At(WorldOf(s, execs, owner, n), r, Failing(failure)) && r in execs
    requires r in s.runs
    ensures var p, t := execs[r].projectId, execs[r].taskId;
      && p in s.projects && s.runs[r].projectId == p && s.runs[r].body.taskId == t && s.runs[r].id == r && t in s.tasks
      && s.tasks[t].id == t
      && Busy(s.tasks[t].body.status)
    ensures var m := FailedIn(s, execs[r].projectId, r, execs[r].taskId, failure, usage, now);
      && FlatOk(m, owner, home) && m.snapshotState == s.snapshotState
      && WorldOf(m, execs - {r}, owner, n) == Fail(WorldOf(s, execs, owner, n), r, usage, now)
      && Inv(WorldOf(m, execs - {r}, owner, n))
  {
    hide Inv, FlatOk, Indexed, StatesHomed, WorldOf, ProjectOf, ProjectOk, FailRun, Fail, Put, DropExec, FailedIn,
      Becomes, SameRest;
    var w, p, t := WorldOf(s, execs, owner, n), execs[r].projectId, execs[r].taskId;
    ExecutorSees(s, x, execs, owner, home, n, r);
    WorldFields(s, execs, owner, n);
    WorldLive(s, execs, owner, n, p);
    FailStep(w, r, usage, now);
    FailWorld(w, r, failure, usage, now);
    TaskHome(s, x, execs, owner, home, n, r);
    RunningRun(ProjectOf(s, p), r, p);
    FailedThen(s, owner, home, p, r, t, failure, usage, now);
    var m := FailedIn(s, p, r, t, failure, usage, now);
    WorldBecomes(s, m, p, FailRun(ProjectOf(s, p), r, failure, usage, now), execs, owner, n, 0);
    NothingClaimed(w, p);
    DroppedWorld(m, execs, owner, n, r);
  }

  lemma NothingClaimed(w: World, p: Id)
    ensures Claim(w, p, 0) == w && Grant(w.owner, p, w.nextId, 0) == w.owner
  {
  }

  lemma FailedStored(s: State, p: Id, r: Id, t: Id, failure: string, usage: Usage, now: Time)
    requires t in s.tasks && s.tasks[t].id == t && r in s.runs && s.runs[r].id == r
    ensures FailedIn(s, p, r, t, failure, usage, now) == s.(
      runs := s.runs[r := CrashedRun(s.runs[r], failure, usage, now)],
      tasks := s.tasks[t := FailedTask(s.tasks[t], now)],
      sandboxes := s.sandboxes[p := SettledBoxes(Get(s.sandboxes, p), s.runs[r].body.sandboxId, Broken, Some(failure),
                                                 now)])
  {
    hide SettledBoxes, MovedOrSame;
  }

  // ----- Checkpoint ---------------------------------------------------------------------

  function TakenTask(task: Task, now: Time): Task {
    if task.body.status == HumanOverride
    then task.(body := MovedOrSame(task.body, InProgress, OVERRIDE_APPLIED, now)) else task
  }

  function TakenIn(s: State, p: Id, task: Task, k: nat, now: Time): State
    requires k < |Get(s.overrides, p)|
  {
    s.(overrides := s.overrides[p := Applied(Get(s.overrides, p), k, now)],
       tasks := s.tasks[task.id := TakenTask(task, now)])
  }

  lemma AppliedList(s: seq<Override>, k: nat, now: Time, p: Id, home: map<Id, Id>)
    requires k < |s| && ListOk(s, p, home)
    ensures ListOk(Applied(s, k, now), p, home) && Applied(s, k, now) == PutInList(s, Applied(s, k, now)[k])
  {
  }

  lemma TakenIndexed(s: State, x: Index, owner: map<Id, Id>, home: map<Id, Id>, p: Id, task: Task, k: nat, now: Time)
    requires Indexed(s, x, owner, home) && ListsOk(s.overrides, s.projects.Keys, owner) && k < |Get(s.overrides, p)|
    ensures var o := Applied(Get(s.overrides, p), k, now)[k];
      Indexed(TakenIn(s, p, task, k, now), x.(overrides := x.overrides[o.id := o]), owner, home)
  {
    hide TakenTask;
    var list := Get(s.overrides, p);
    var o := Applied(list, k, now)[k];
    AppliedList(list, k, now, p, owner);
    assert list[k] in s.overrides[p];
    PutInShelfOk(Shelf(s.overrides, x.overrides), owner, p, o);
    hide Indexes, Applied;
  }

  lemma TakenFlat(s: State, owner: map<Id, Id>, home: map<Id, Id>, p: Id, task: Task, k: nat, now: Time)
    requires FlatOk(s, owner, home) && p in s.projects && task.id in s.tasks && s.tasks[task.id] == task
    requires task.projectId == p && k < |Get(s.overrides, p)|
    ensures FlatOk(TakenIn(s, p, task, k, now), owner, home)
    ensures Becomes(s, s.(tasks := s.tasks[task.id := TakenTask(task, now)]), p,
                    PutTask(ProjectOf(s, p), TakenTask(task, now)))
  {
    hide LedgersOk, FilesOk, Becomes, MovedOrSame, ProjectOf, TakenTask;
    TakenId(task, now);
    PutTaskInOk(s, owner, home, TakenTask(task, now));
    TakenFiles(s.(tasks := s.tasks[task.id := TakenTask(task, now)]), owner, home, p, k, now);
    hide Applied;
  }

  lemma TakenId(task: Task, now: Time)
    ensures TakenTask(task, now).id == task.id && TakenTask(task, now).projectId == task.projectId
  {
  }

  lemma OverrideListOk(lists: map<Id, seq<Override>>, keys: set<Id>, home: map<Id, Id>, p: Id)
    requires ListsOk(lists, keys, home) && Get(lists, p) != []
    ensures ListOk(Get(lists, p), p, home)
  {
    hide ListOk;
  }

  lemma TakenFiles(s: State, owner: map<Id, Id>, home: map<Id, Id>, p: Id, k: nat, now: Time)
    requires FlatOk(s, owner, home) && p in s.projects && k < |Get(s.overrides, p)|
    ensures FlatOk(s.(overrides := s.overrides[p := Applied(Get(s.overrides, p), k, now)]), owner, home)
  {
    hide LedgersOk, ListOk, ListsOk, Applied;
    OverridesListed(s, owner, home);
    OverrideListOk(s.overrides, s.projects.Keys, owner, p);
    AppliedList(Get(s.overrides, p), k, now, p, owner);
    ListPut(s.overrides, s.projects.Keys, owner, p, Applied(Get(s.overrides, p), k, now));
    LedgersSame(s, s.(overrides := s.overrides[p := Applied(Get(s.overrides, p), k, now)]), owner);
  }

  lemma LedgersSame(s: State, m: State, owner: map<Id, Id>)
    requires LedgersOk(s, owner) && m.tasks == s.tasks && m.taskOrder == s.taskOrder && m.runs == s.runs
    requires m.runOrder == s.runOrder
    requires m.artifacts == s.artifacts && m.artifactOrder == s.artifactOrder
    ensures LedgersOk(m, owner)
  {
    hide LedgerOk;
  }

  lemma LiveTaken(s: State, owner: map<Id, Id>, home: map<Id, Id>, p: Id, task: Task, k: nat, now: Time)
    requires FlatOk(s, owner, home) && p in s.projects && task.id in s.tasks && s.tasks[task.id] == task
    requires task.projectId == p && k < |Get(s.overrides, p)|
    ensures LiveIn(TakenIn(s, p, task, k, now)) ==
      if task.body.status
        == HumanOverride then LiveIn(s)[p := PutTask(ProjectOf(s, p), TakenTask(task, now))] else LiveIn(s)
    ensures TimelinesIn(TakenIn(s, p, task, k, now)) == TimelinesIn(s)
  {
    hide FlatOk, Becomes, MovedOrSame, Applied, ProjectOf, PutTask, LiveIn, TimelinesIn;
    TakenFlat(s, owner, home, p, task, k, now);
    var s1 := s.(tasks := s.tasks[task.id := TakenTask(task, now)]);
    LiveBecomes(s, s1, p, PutTask(ProjectOf(s, p), TakenTask(task, now)));
    BecomesIs(s, s1, p);
    TimelinesSame(s, s1);
    SameLive(s1, TakenIn(s, p, task, k, now));
    WorldParts(s, p);
    TakenSame(s, owner, home, p, task);
    assert LiveIn(s)[p := LiveIn(s)[p]] == LiveIn(s);
  }

  lemma TakenWorld(s: State, execs: map<Id, Executor>, owner: map<Id, Id>, home: map<Id, Id>, n: Id, p: Id, task: Task,
                   k: nat, now: Time)
    requires FlatOk(s, owner, home) && p in s.projects && task.id in s.tasks && s.tasks[task.id] == task
    requires task.projectId == p && k < |Get(s.overrides, p)|
    ensures p in WorldOf(s, execs, owner, n).live && k < |Get(WorldOf(s, execs, owner, n).overrides, p)|
    ensures WorldOf(TakenIn(s, p, task, k, now), execs, owner, n)
      == TakeOverride(WorldOf(s, execs, owner, n), p, task, k, now)
  {
    hide FlatOk, LiveIn, TimelinesIn, MovedOrSame, Applied, ProjectOf;
    LiveTaken(s, owner, home, p, task, k, now);
    WorldParts(s, p);
  }

  // Only the overrides differ.
  lemma SameLive(s: State, m: State)
    requires m == s.(overrides := m.overrides)
    ensures LiveIn(m) == LiveIn(s) && TimelinesIn(m) == TimelinesIn(s)
  {
    forall q | q in s.projects ensures ProjectOf(m, q) == ProjectOf(s, q) && TimelineIn(m, q) == TimelineIn(s, q) {
      hide SliceOf, ContextsOf, Get;
    }
    hide ProjectOf, TimelineIn;
  }

  lemma TakenSame(s: State, owner: map<Id, Id>, home: map<Id, Id>, p: Id, task: Task)
    requires FlatOk(s, owner, home) && p in s.projects && task.id in s.tasks && s.tasks[task.id] == task
    requires task.projectId == p
    ensures PutTask(ProjectOf(s, p), task) == ProjectOf(s, p)
  {
    TasksOf(s, owner, home, p, ProjectOf(s, p));
    var items := ProjectOf(s, p).tasks.items;
    assert items[task.id := task] == items;
  }

  // The flat state is sound and stands for the world.
  ghost predicate Stands(m: State, y: Index, execs: map<Id, Executor>, owner: map<Id, Id>, home: map<Id, Id>, n: Id,
                         v: World) {
    Sound(m, y, execs, owner, home, n) && WorldOf(m, execs, owner, n) == v
  }

  // The executor's run and task are on file.
  ghost predicate RunSeen(s: State, r: Id, e: Executor) {
    && r in s.runs && s.runs[r].projectId == e.projectId && s.runs[r].body.taskId == e.taskId
    && e.taskId in s.tasks && s.tasks[e.taskId].id == e.taskId
  }

  // The executor goes on armed, after it has taken the override found, if any.
  ghost predicate CheckpointEnds(s: State, x: Index, execs: map<Id, Executor>, owner: map<Id, Id>, home: map<Id, Id>,
                                 n: Id, e: Executor, now: Time, v: World)
    requires e.taskId in s.tasks
  {
    var p, k := e.projectId, LatestPending(Get(s.overrides, e.projectId), e.taskId, now);
    && (k.None? ==> Stands(s, x, execs, owner, home, n, v))
    && (k.Some? ==>
          var o := Applied(Get(s.overrides, p), k.value, now)[k.value];
          Stands(TakenIn(s, p, s.tasks[e.taskId], k.value, now), x.(overrides := x.overrides[o.id := o]), execs, owner,
                 home, n, v))
  }

  // What the checkpoint does: nothing but move on, or take the override found.
  lemma CheckpointFacts(s: State, x: Index, execs: map<Id, Executor>, owner: map<Id, Id>, home: map<Id, Id>, n: Id,
                        r: Id, now: Time)
    requires Sound(s, x, execs, owner, home, n) && At(WorldOf(s, execs, owner, n), r, Checked) && r in execs
    ensures execs[r].projectId in s.projects && (r in s.runs ==> RunSeen(s, r, execs[r]))
    ensures r !in s.runs ==>
      Stands(s, x, execs[r := execs[r].(phase := Failing(NO_RUN))], owner, home, n,
             Checkpoint(WorldOf(s, execs, owner, n), r, now))
    ensures r in s.runs ==>
      CheckpointEnds(s, x, execs[r := execs[r].(phase := Armed)], owner, home, n, execs[r], now,
                     Checkpoint(WorldOf(s, execs, owner, n), r, now))
  {
    hide Inv, FlatOk, Indexed, StatesHomed, WorldOf, ProjectOf, ProjectOk, Checkpoint, LatestPending, TakenIn,
      TakeOverride, Applied;
    var w, e := WorldOf(s, execs, owner, n), execs[r];
    var p, t := e.projectId, e.taskId;
    ExecutorSees(s, x, execs, owner, home, n, r);
    WorldFields(s, execs, owner, n);
    WorldLive(s, execs, owner, n, p);
    WorldOverrides(s, execs, owner, n);
    CheckpointStep(w, r, now);
    CheckpointCases(w, r, now);
    PhasedWorld(s, execs, owner, n, r, e.(phase := Failing(NO_RUN)));
    PhasedWorld(s, execs, owner, n, r, e.(phase := Armed));
    if r in s.runs {
      var k := LatestPending(Get(s.overrides, p), t, now);
      if k.Some? {
        CheckpointTakes(s, x, execs, owner, home, n, r, k.value, now);
      }
    }
  }

  lemma CheckpointTakes(s: State, x: Index, execs: map<Id, Executor>, owner: map<Id, Id>, home: map<Id, Id>, n: Id,
                        r: Id, k: nat, now: Time)
    requires Sound(s, x, execs, owner, home, n) && At(WorldOf(s, execs, owner, n), r, Checked) && r in execs
    requires r in s.runs
    requires execs[r].projectId in s.projects && execs[r].taskId in s.tasks
    requires LatestPending(Get(s.overrides, execs[r].projectId), execs[r].taskId, now) == Some(k)
    requires k < |Get(s.overrides, execs[r].projectId)|
    ensures var e := execs[r]; var execs' := execs[r := e.(phase := Armed)];
      var m := TakenIn(s, e.projectId, s.tasks[e.taskId], k,
                       now); var o := Applied(Get(s.overrides, e.projectId), k, now)[k];
      && Sound(m, x.(overrides := x.overrides[o.id := o]), execs', owner, home, n)
      && WorldOf(m, execs', owner, n) == Checkpoint(WorldOf(s, execs, owner, n), r, now)
  {
    hide Inv, FlatOk, Indexed, StatesHomed, WorldOf, ProjectOf, ProjectOk, Checkpoint, LatestPending, TakenIn,
      TakeOverride, Applied;
    var w, e := WorldOf(s, execs, owner, n), execs[r];
    var p, t := e.projectId, e.taskId;
    ExecutorSees(s, x, execs, owner, home, n, r);
    WorldFields(s, execs, owner, n);
    WorldLive(s, execs, owner, n, p);
    WorldOverrides(s, execs, owner, n);
    CheckpointStep(w, r, now);
    CheckpointCases(w, r, now);
    TaskHome(s, x, execs, owner, home, n, r);
    TakenFlat(s, owner, home, p, s.tasks[t], k, now);
    TakenWorld(s, execs, owner, home, n, p, s.tasks[t], k, now);
    OverridesListed(s, owner, home);
    TakenIndexed(s, x, owner, home, p, s.tasks[t], k, now);
    TakenKeeps(s, p, s.tasks[t], k, now);
    PhasedWorld(TakenIn(s, p, s.tasks[t], k, now), execs, owner, n, r, e.(phase := Armed));
  }

  lemma OverridesListed(s: State, owner: map<Id, Id>, home: map<Id, Id>)
    requires FlatOk(s, owner, home)
    ensures ListsOk(s.overrides, s.projects.Keys, owner) && ListsOk(s.locks, s.projects.Keys, owner)
    ensures ListsOk(s.conflicts, s.projects.Keys, owner)
  {
    hide LedgerOk, ListsOk;
  }

  lemma TakenKeeps(s: State, p: Id, task: Task, k: nat, now: Time)
    requires k < |Get(s.overrides, p)|
    ensures TakenIn(s, p, task, k, now).snapshotState == s.snapshotState
  {
  }

  lemma WorldOverrides(s: State, execs: map<Id, Executor>, owner: map<Id, Id>, n: Id)
    ensures WorldOf(s, execs, owner, n).overrides == s.overrides && WorldOf(s, execs, owner, n).locks == s.locks
      && WorldOf(s, execs, owner, n).queue == s.conflicts
  {
  }

  lemma TakenStored(s: State, p: Id, task: Task, k: nat, now: Time)
    requires k < |Get(s.overrides, p)|
    ensures var list := Get(s.overrides, p); var taken := list[k].(body := list[k].body.(appliedAt := Some(now)));
      && Applied(list, k, now)[k] == taken
      && TakenIn(s, p, task, k, now)
        == s.(overrides := s.overrides[p := list[k := taken]], tasks := s.tasks[task.id := TakenTask(task, now)])
  {
    hide TakenTask;
  }

  // ----- Starting a batch ---------------------------------------------------------------

  // The world after the first tasks of a batch, all started.
  ghost predicate BatchSpec(w: World, v: World, p: Id, ids: seq<Id>, unmade: set<Id>, now: Time, started: seq<Id>) {
    p in w.live
    && var b := StartEach(w.live[p], ids, unmade, w.nextId, PARALLEL_STARTED, now);
    b.whole && b.runs == started && v == Put(Claim(w, p, b.next - w.nextId), p, b.ps) && v.nextId == b.next
  }

  // ... and when the batch stopped early.
  ghost predicate BrokenSpec(w: World, v: World, p: Id, ids: seq<Id>, unmade: set<Id>, now: Time) {
    p in w.live
    && var b := StartEach(w.live[p], ids, unmade, w.nextId, PARALLEL_STARTED, now);
    !b.whole && v == Put(Claim(w, p, b.next - w.nextId), p, b.ps)
  }

  lemma BatchStart(w: World, p: Id, unmade: set<Id>, now: Time)
    requires p in w.live
    ensures BatchSpec(w, w, p, [], unmade, now, [])
  {
    PutSame(w, p);
    NothingClaimed(w, p);
  }

  lemma GrantTwice(owner: map<Id, Id>, p: Id, n: Id, j: nat)
    ensures Grant(Grant(owner, p, n, j), p, n + j, 2) == Grant(owner, p, n, j + 2)
  {
    var g := Grant(owner, p, n, j);
    assert Grant(g, p, n + j, 0) == g;
    assert Grant(g, p, n + j, 1) == g[n + j := p] == Grant(owner, p, n, j + 1);
  }

  lemma PutTwice(w: World, p: Id, a: ProjectState, j: nat, b: ProjectState)
    ensures Put(Claim(Put(Claim(w, p, j), p, a), p, 2), p, b) == Put(Claim(w, p, j + 2), p, b)
  {
    GrantTwice(w.owner, p, w.nextId, j);
    assert w.live[p := a][p := b] == w.live[p := b];
    hide Grant;
  }

  lemma EachStep(ps: ProjectState, ids: seq<Id>, x: Id, t: Task, unmade: set<Id>, n: Id, reason: string, now: Time)
    requires t.id == x && x in StartEach(ps, ids, unmade, n, reason, now).ps.tasks.items
    requires StartEach(ps, ids, unmade, n, reason, now).ps.tasks.items[x] == t
    requires StartEach(ps, ids, unmade, n, reason, now).whole
    ensures var b := StartEach(ps, ids, unmade, n, reason, now);
      var r := StartTaskRun(b.ps, t, b.next, b.next + 1, x !in unmade, reason, now);
      var c := StartEach(ps, ids + [x], unmade, n, reason, now);
      && (r.Refused? ==> c == b.(whole := false))
      && (r.Ok? ==>
            && c.ps == r.value && c.next == b.next + 2 && c.whole == (x !in unmade)
            && (x !in unmade ==> c.runs == b.runs + [b.next + 1]))
  {
    hide StartTaskRun;
    assert (ids + [x])[..|ids + [x]|-1] == ids;
  }

  // One more task of the batch has been tried.
  lemma BatchStep(w: World, v: World, u: World, p: Id, ids: seq<Id>, x: Id, t: Task, unmade: set<Id>, now: Time,
                  started: seq<Id>, run: Option<Id>, refused: Option<Error>)
    requires BatchSpec(w, v, p, ids, unmade, now, started) && TaskOf(v, p, t) && t.id == x
    requires StartSpec(v, u, p, t, x !in unmade, PARALLEL_STARTED, now, run, refused)
    ensures run.Some? ==> BatchSpec(w, u, p, ids + [x], unmade, now, started + [run.value])
    ensures run.None? ==> BrokenSpec(w, u, p, ids + [x], unmade, now)
  {
    hide StartTaskRun, TaskOf, StartEach, Put, Claim;
    var reason := PARALLEL_STARTED;
    var b := StartEach(w.live[p], ids, unmade, w.nextId, reason, now);
    BatchTask(w, v, p, t, b.ps, b.next - w.nextId);
    EachStep(w.live[p], ids, x, t, unmade, w.nextId, reason, now);
    var r := StartTaskRun(b.ps, t, b.next, b.next + 1, x !in unmade, reason, now);
    if r.Ok? {
      PutTwice(w, p, b.ps, b.next - w.nextId, r.value);
      PutNext(Claim(v, p, 2), p, r.value);
      ClaimNext(v, p, 2);
    }
  }

  lemma PutNext(w: World, p: Id, ps: ProjectState)
    ensures Put(w, p, ps).nextId == w.nextId
  {
  }

  lemma ClaimNext(w: World, p: Id, k: nat)
    ensures Claim(w, p, k).nextId == w.nextId + k
  {
  }

  lemma BatchTask(w: World, v: World, p: Id, t: Task, ps: ProjectState, j: nat)
    requires v == Put(Claim(w, p, j), p, ps) && TaskOf(v, p, t)
    ensures v.live[p] == ps && v.nextId == w.nextId + j && t.id in ps.tasks.items && ps.tasks.items[t.id] == t
  {
  }

  // A selection is a list of distinct ready tasks.
  lemma PickedReady(ps: ProjectState, p: Id, ids: seq<Option<Id>>)
    requires ProjectOk(ps, p) && Pick(ps, ids).Ok?
    ensures var s := Pick(ps, ids).value.selected;
      Distinct(s) && forall x | x in s ::
        x in ps.tasks.items && ps.tasks.items[x].id == x && Ready(ps.tasks.items, ps.tasks.items[x].body)
  {
    hide Ready, ResolveTask;
    var s := Pick(ps, ids).value.selected;
    if ids == [] {
      AutoSelection(ps.tasks.order, ps.tasks.items);
    } else {
      GivenSelection(ps, p, ids);
    }
    forall x | x in s
      ensures x in ps.tasks.items && ps.tasks.items[x].id == x && Ready(ps.tasks.items, ps.tasks.items[x].body)
    {
      if ids == [] {
        assert AutoReady(ps.tasks.items, x);
      }
    }
  }

  // The next task of a batch is there, as it was, and still ready.
  lemma BatchNext(w: World, v: World, p: Id, s: seq<Id>, i: nat, unmade: set<Id>, now: Time, started: seq<Id>)
    requires i < |s| && Distinct(s) && BatchSpec(w, v, p, s[..i], unmade, now, started)
    requires forall x | x in s ::
      && x in w.live[p].tasks.items && w.live[p].tasks.items[x].id == x
      && Ready(w.live[p].tasks.items, w.live[p].tasks.items[x].body)
    ensures p in v.live && s[i] in w.live[p].tasks.items && TaskOf(v, p, w.live[p].tasks.items[s[i]])
    ensures Ready(v.live[p].tasks.items, w.live[p].tasks.items[s[i]].body) && w.live[p].tasks.items[s[i]].id == s[i]
  {
    hide Ready, StartEach;
    var x := s[i];
    assert x in s && x !in s[..i];
    assert forall y | y in s[..i] :: y in s;
    BatchWhole(w.live[p], s[..i], unmade, w.nextId, PARALLEL_STARTED, now);
  }

  lemma {:induction false} BrokenStays(ps: ProjectState, ids: seq<Id>, i: nat, unmade: set<Id>, n: Id, reason: string,
                                       now: Time)
    requires i <= |ids| && !StartEach(ps, ids[..i], unmade, n, reason, now).whole
    ensures StartEach(ps, ids, unmade, n, reason, now) == StartEach(ps, ids[..i], unmade, n, reason, now)
  {
    hide StartTaskRun;
    if i < |ids| {
      assert ids[..|ids|-1][..i] == ids[..i];
      BrokenStays(ps, ids[..|ids|-1], i, unmade, n, reason, now);
    } else {
      assert ids[..i] == ids;
    }
  }

  lemma ParallelCases(s: State, x: Index, execs: map<Id, Executor>, owner: map<Id, Id>, home: map<Id, Id>, n: Id, p: Id,
                      ids: seq<Option<Id>>, allowed: bool, unmade: set<Id>, now: Time)
    requires Sound(s, x, execs, owner, home, n)
    ensures var w := WorldOf(s, execs, owner, n);
      && Inv(w) && w.execs == execs
      && (p in s.projects ==> p in w.live && w.live[p] == ProjectOf(s, p) && ProjectOk(w.live[p], p))
      && (|ids| > MAX_PARALLEL_TASKS ==> Machine.StartParallel(w, p, ids, allowed, unmade, now) == Refuse(w, Invalid))
      && (|ids| <= MAX_PARALLEL_TASKS && p !in s.projects ==>
            Machine.StartParallel(w, p, ids, allowed, unmade, now) == Refuse(w, NotFound))
      && (|ids| <= MAX_PARALLEL_TASKS && p in s.projects ==> var picked := Pick(ProjectOf(s, p), ids);
            && (picked.Refused? ==> Machine.StartParallel(w, p, ids, allowed, unmade, now) == Refuse(w, picked.error))
            && (picked.Ok? && !allowed ==>
                  Machine.StartParallel(w, p, ids, allowed, unmade, now) == Refuse(w, Conflict)))
  {
    hide FlatOk, Indexed, Inv, StatesHomed, WorldOf, Pick, StartEach, ProjectOk;
    WorldFields(s, execs, owner, n);
    if p in s.projects {
      WorldLive(s, execs, owner, n, p);
      ProjectGood(s, execs, owner, n, p);
    }
  }

  lemma ParallelBroken(w: World, v: World, p: Id, ids: seq<Option<Id>>, i: nat, unmade: set<Id>, now: Time)
    requires |ids| <= MAX_PARALLEL_TASKS && p in w.live && Pick(w.live[p], ids).Ok?
    requires i <= |Pick(w.live[p], ids).value.selected|
    requires BrokenSpec(w, v, p, Pick(w.live[p], ids).value.selected[..i], unmade, now)
    ensures Refuse(v, Internal) == Machine.StartParallel(w, p, ids, true, unmade, now)
  {
    hide Pick, StartEach, Put, Claim;
    BrokenStays(w.live[p], Pick(w.live[p], ids).value.selected, i, unmade, w.nextId, PARALLEL_STARTED, now);
  }

  // The world a batch starts from.
  lemma BatchWorld(s: State, x: Index, execs: map<Id, Executor>, owner: map<Id, Id>, home: map<Id, Id>, n: Id, p: Id)
    requires Sound(s, x, execs, owner, home, n) && p in s.projects
    ensures var w := WorldOf(s, execs, owner, n);
      Inv(w) && w.execs == execs && p in w.live && w.live[p] == ProjectOf(s, p) && ProjectOk(w.live[p], p)
  {
    hide FlatOk, Indexed, Inv, StatesHomed, WorldOf, ProjectOk;
    WorldFields(s, execs, owner, n);
    WorldLive(s, execs, owner, n, p);
    ProjectGood(s, execs, owner, n, p);
  }

  lemma ParallelDone(w: World, s: State, x: Index, execs: map<Id, Executor>, owner: map<Id, Id>, home: map<Id, Id>,
                     n: Id, p: Id, ids: seq<Option<Id>>, unmade: set<Id>, now: Time, started: seq<Id>)
    requires |ids| <= MAX_PARALLEL_TASKS && p in w.live && Pick(w.live[p], ids).Ok? && Inv(w) && w.execs == execs
    requires Sound(s, x, execs, owner, home, n)
    requires BatchSpec(w, WorldOf(s, execs, owner, n), p, Pick(w.live[p], ids).value.selected, unmade, now, started)
    ensures p in s.projects
    ensures var execs' := Spawn(execs, ProjectOf(s, p), p, started);
      && Sound(s, x, execs', owner, home, n)
      && Reply(WorldOf(s, execs', owner, n), None) == Machine.StartParallel(w, p, ids, true, unmade, now)
  {
    hide FlatOk, Indexed, Inv, StatesHomed, Pick, StartEach, Claim, Spawn, LiveIn, TimelinesIn, ProjectOf;
    StartParallelStep(w, p, ids, true, unmade, now);
    LiveKeys(s, p);
  }

  lemma LiveKeys(s: State, p: Id)
    ensures (p in LiveIn(s) <==> p in s.projects) && (p in s.projects ==> LiveIn(s)[p] == ProjectOf(s, p))
  {
  }

  lemma StartedFresh(w: World, v: World, p: Id, t: Task, made: bool, now: Time, run: Option<Id>, refused: Option<Error>)
    requires StartSpec(w, v, p, t, made, PARALLEL_STARTED, now, run, refused) && Ready(w.live[p].tasks.items, t.body)
    ensures run.None? ==> refused == Some(Internal)
  {
    hide Put, Claim;
  }

  lemma TaskStored(s: State, x: Index, execs: map<Id, Executor>, owner: map<Id, Id>, home: map<Id, Id>, n: Id, p: Id,
                   t: Task)
    requires Sound(s, x, execs, owner, home, n) && TaskOf(WorldOf(s, execs, owner, n), p, t)
    ensures t.id in s.tasks && s.tasks[t.id] == t && p in s.projects
  {
    hide Indexed, StatesHomed, Inv, FlatOk, ProjectOf, LiveIn, TimelinesIn;
    LiveKeys(s, p);
    TasksOf(s, owner, home, p, ProjectOf(s, p));
  }

  // What the flat updates of GeneratePlan amount to.
  lemma PlanFacts(s: State, x: Index, execs: map<Id, Executor>, owner: map<Id, Id>, home: map<Id, Id>, n: Id, p: Id,
                  plan: Plan, task: Task, now: Time)
    requires Sound(s, x, execs, owner, home, n) && p in s.projects && Get(s.requirements, p) != []
    requires var latest := Get(s.requirements, p)[|Get(s.requirements, p)|-1];
      plan == Record(n, p, PlanBody(latest.id, |Get(s.plans, p)| + 1, latest.body.title, now))
    requires task == NewTask(n + 1, p, n, "Implement " + plan.body.title, Sprint1, DEFAULT_AGENT, [], PlanRef(n), now)
    ensures task.projectId == p && task.id == n + 1
    ensures var m := s.(plans := s.plans[p := Get(s.plans, p) + [plan]], tasks := s.tasks[task.id := task],
                        taskOrder := s.taskOrder[p := Get(s.taskOrder, p) + [task.id]],
                        projects := s.projects[p := s.projects[p].(updatedAt := now)]);
      && Sound(m, x.(plans := x.plans[plan.id := plan]), execs, Grant(owner, p, n, 2), home, n + 2)
      && Reply(WorldOf(m, execs, Grant(owner, p, n, 2), n + 2), None)
        == Machine.GeneratePlan(WorldOf(s, execs, owner, n), p, now)
  {
    hide FlatOk, Indexed, Inv, StatesHomed, WorldOf, ProjectOf, BuildPlan, Machine.GeneratePlan, Grant, TouchIn,
      WithTask, WithPlan;
    OwnersBelow(s, execs, owner, n);
    PlanBuilt(s, owner, home, n, p, now);
    PlanGenerated(s, execs, owner, home, n, p, plan, task, now);
    PlanIndexed(s, x, owner, home, n, p, plan, task, now);
    PlanStored(s, p, plan, task, now);
  }

  // An executor that has gone, with ids handed out for nothing.
  lemma SoundLate(s: State, x: Index, execs: map<Id, Executor>, owner: map<Id, Id>, home: map<Id, Id>, n: Id, p: Id,
                  k: nat, r: Id)
    requires Sound(s, x, execs, owner, home, n) && p in s.projects
    ensures Sound(s, x, execs - {r}, Grant(owner, p, n, k), home, n + k)
  {
    hide Sound;
    SoundClaims(s, x, execs, owner, home, n, p, k);
    SoundDrops(s, x, execs, Grant(owner, p, n, k), home, n + k, r);
  }

  lemma SoundIndexed(s: State, x: Index, execs: map<Id, Executor>, owner: map<Id, Id>, home: map<Id, Id>, n: Id)
    requires Sound(s, x, execs, owner, home, n)
    ensures FlatOk(s, owner, home) && Indexed(s, x, owner, home)
  {
    hide FlatOk, Indexed, StatesHomed, Inv;
  }
}
