// The incremental repositories: each commit runs a few statements in one transaction, which
// changes the tables as a whole or not at all.  Every commit turns the projection of the state
// before into the projection of the candidate state.
module Commits {
  import opened Records
  import opened Domain
  import opened Projects
  import opened Machine
  import opened MachineProofs
  import opened States
  import opened ServiceProofs
  import opened Tables
  import Leases

  datatype Problem = ProjectMissing | DuplicateKey | BadInput

  datatype Tx = Going(tables: Tables) | Aborted(problem: Problem)

  // ----- Statements ---------------------------------------------------------------------

  // SELECT ... FOR UPDATE on the project row.
  function Lock(t: Tables, p: Id): Tx {
    if p in t.projects then Going(t) else Aborted(ProjectMissing)
  }

  // An UPDATE leaves the columns it does not name, and does nothing when the row is missing.
  function UpdateProject(t: Tables, p: Project): Tables {
    if p.id in t.projects
    then t.(projects := t.projects[p.id := t.projects[p.id].(updatedAt := p.updatedAt, payload := p)])
    else t
  }

  function UpdateTask(t: Tables, k: Task): Tables {
    if k.id in t.tasks
    then t.(tasks := t.tasks[k.id := t.tasks[k.id].(status := k.body.status, assignee := k.body.assignee,
                                                    updatedAt := k.body.updatedAt, payload := k)])
    else t
  }

  function UpdateRun(t: Tables, r: Run): Tables {
    if r.id in t.runs
    then t.(runs := t.runs[r.id := t.runs[r.id].(status := r.body.status, updatedAt := RunUpdatedAt(r.body),
                                                 payload := r)])
    else t
  }

  // An INSERT fails when the primary key is taken.
  function InsertTask(t: Tables, p: Id, k: Task, position: nat): Tx {
    if k.id in t.tasks || Place(p, position) in t.taskOrder then Aborted(DuplicateKey)
    else Going(t.(tasks := t.tasks[k.id := TaskRowOf(k)], taskOrder := t.taskOrder[Place(p, position) := k.id]))
  }

  function InsertRun(t: Tables, r: Run, position: nat): Tx {
    if r.id in t.runs || Place(r.projectId, position) in t.runOrder then Aborted(DuplicateKey)
    else Going(t.(runs := t.runs[r.id := RunRowOf(r)], runOrder := t.runOrder[Place(r.projectId, position) := r.id]))
  }

  function InsertArtifact(t: Tables, a: Artifact, position: nat): Tx {
    if a.id in t.artifacts || Place(a.projectId, position) in t.artifactOrder then Aborted(DuplicateKey)
    else Going(t.(artifacts := t.artifacts[a.id := ArtifactRowOf(a)],
                  artifactOrder := t.artifactOrder[Place(a.projectId, position) := a.id]))
  }

  function InsertRequirement(t: Tables, p: Id, r: Requirement, position: nat): Tx {
    if r.id in t.requirements
    then Aborted(DuplicateKey)
    else Going(t.(requirements := t.requirements[r.id := RequirementRowOf(p, position, r)]))
  }

  function InsertPlan(t: Tables, r: Plan): Tx {
    if r.id in t.plans then Aborted(DuplicateKey) else Going(t.(plans := t.plans[r.id := PlanRowOf(r.projectId, 0, r)]))
  }

  function InsertContract(t: Tables, r: Contract): Tx {
    if r.id in t.contracts
    then Aborted(DuplicateKey)
    else Going(t.(contracts := t.contracts[r.id := ContractRowOf(r.projectId, 0, r)]))
  }

  // ----- Transactions -------------------------------------------------------------------

  function CreateProjectTx(t: Tables, p: Project): Tx {
    if p.id in t.projects then Aborted(DuplicateKey) else Going(t.(projects := t.projects[p.id := ProjectRowOf(p)]))
  }

  function AddRequirementTx(t: Tables, p: Project, r: Requirement, position: nat): Tx {
    var inserted := InsertRequirement(t, p.id, r, position);
    if Lock(t, p.id).Aborted? then Lock(t, p.id)
    else if inserted.Aborted? then inserted
    else Going(UpdateProject(inserted.tables, p))
  }

  function GeneratePlanTx(t: Tables, p: Project, plan: Plan, task: Task, position: nat): Tx {
    var planned := InsertPlan(t, plan);
    if Lock(t, p.id).Aborted? then Lock(t, p.id)
    else if planned.Aborted? then planned
    else
      var inserted := InsertTask(planned.tables, p.id, task, position);
      if inserted.Aborted? then inserted else Going(UpdateProject(inserted.tables, p))
  }

  function GenerateContractTx(t: Tables, p: Project, c: Contract): Tx {
    var inserted := InsertContract(t, c);
    if Lock(t, p.id).Aborted? then Lock(t, p.id)
    else if inserted.Aborted? then inserted
    else Going(UpdateProject(inserted.tables, p))
  }

  function InsertTasks(t: Tables, p: Id, tasks: seq<Task>, positions: map<Id, nat>): Tx {
    if tasks == [] then Going(t)
    else
      var before := InsertTasks(t, p, tasks[..|tasks|-1], positions);
      var k := tasks[|tasks|-1];
      if before.Aborted? then before
      else if k.id !in positions then Aborted(if k.id in before.tables.tasks then DuplicateKey else BadInput)
      else InsertTask(before.tables, p, k, positions[k.id])
  }

  function SaveTasksTx(t: Tables, p: Project, tasks: seq<Task>, positions: map<Id, nat>): Tx {
    if Lock(t, p.id).Aborted? then Lock(t, p.id)
    else
      var inserted := InsertTasks(t, p.id, tasks, positions);
      if inserted.Aborted? then inserted else Going(UpdateProject(inserted.tables, p))
  }

  datatype RunStart = RunStart(task: Task, run: Run, position: nat)

  function StartRunsTx(t: Tables, items: seq<RunStart>): Tx {
    if items == [] then Going(t)
    else
      var before := StartRunsTx(t, items[..|items|-1]);
      var i := items[|items|-1];
      if before.Aborted? then before
      else if i.task.projectId != i.run.projectId then Aborted(BadInput)
      else if Lock(before.tables, i.run.projectId).Aborted? then Aborted(ProjectMissing)
      else InsertRun(UpdateTask(before.tables, i.task), i.run, i.position)
  }

  function CompleteRunTx(t: Tables, task: Task, run: Run, a: Artifact, position: nat): Tx {
    if Lock(t, run.projectId).Aborted?
    then Lock(t, run.projectId)
    else InsertArtifact(UpdateRun(UpdateTask(t, task), run), a, position)
  }

  function FailRunTx(t: Tables, task: Option<Task>, run: Run): Tx {
    if Lock(t, run.projectId).Aborted? then Lock(t, run.projectId)
    else Going(UpdateRun(if task.Some? then UpdateTask(t, task.value) else t, run))
  }

  // ----- A statement against the projection ---------------------------------------------

  // An UPDATE of a task row writes the row the full rewrite would write exactly when the columns
  // it leaves alone did not change.
  lemma TaskUpdated(s: State, k: Task)
    requires k.id in s.tasks
    ensures UpdateTask(TablesOf(s), k) == TablesOf(PutTaskIn(s, k)) <==>
      k.projectId == s.tasks[k.id].projectId && k.body.createdAt == s.tasks[k.id].body.createdAt
  {
    var a, b := UpdateTask(TablesOf(s), k).tasks, TablesOf(PutTaskIn(s, k)).tasks;
    hide OrderTable, ListTable, ProjectTable;
    ItemPut(s.tasks, TaskRowOf, k.id, k);
    assert a == b <==> a[k.id] == b[k.id];
  }

  lemma RunUpdated(s: State, r: Run)
    requires r.id in s.runs
    ensures UpdateRun(TablesOf(s), r) == TablesOf(PutRunIn(s, r)) <==>
      && r.projectId == s.runs[r.id].projectId && r.body.taskId == s.runs[r.id].body.taskId
      && r.body.startedAt == s.runs[r.id].body.startedAt
  {
    var a, b := UpdateRun(TablesOf(s), r).runs, TablesOf(PutRunIn(s, r)).runs;
    hide OrderTable, ListTable, ProjectTable;
    ItemPut(s.runs, RunRowOf, r.id, r);
    assert a == b <==> a[r.id] == b[r.id];
  }

  lemma ProjectUpdated(s: State, p: Id, now: Time)
    requires p in s.projects && s.projects[p].id == p
    ensures UpdateProject(TablesOf(s), s.projects[p].(updatedAt := now)) == TablesOf(TouchIn(s, p, now))
  {
    hide OrderTable, ListTable, ItemTable;
    var touched := s.projects[p].(updatedAt := now);
    ProjectPut(s.projects, touched);
    assert ProjectTable(s.projects)[p].(updatedAt := now, payload := touched) == ProjectRowOf(touched);
    assert TouchIn(s, p, now).projects == s.projects[touched.id := touched];
  }

  lemma TaskInserted(s: State, k: Task)
    requires k.id !in s.tasks
    ensures InsertTask(TablesOf(s), k.projectId, k, |Get(s.taskOrder, k.projectId)|) == Going(TablesOf(WithTask(s, k)))
  {
    assert k.id !in ItemTable(s.tasks, TaskRowOf);
    hide OrderTable, ListTable, ItemTable, ProjectTable, Get;
    OrderGrows(s.taskOrder, k.projectId, k.id);
    ItemPut(s.tasks, TaskRowOf, k.id, k);
  }

  lemma RunInserted(s: State, r: Run)
    requires r.id !in s.runs
    ensures InsertRun(TablesOf(s), r, |Get(s.runOrder, r.projectId)|) == Going(TablesOf(WithRun(s, r)))
  {
    assert r.id !in ItemTable(s.runs, RunRowOf);
    hide OrderTable, ListTable, ItemTable, ProjectTable, Get;
    OrderGrows(s.runOrder, r.projectId, r.id);
    ItemPut(s.runs, RunRowOf, r.id, r);
  }

  lemma ArtifactInserted(s: State, a: Artifact)
    requires a.id !in s.artifacts
    ensures InsertArtifact(TablesOf(s), a, |Get(s.artifactOrder, a.projectId)|) == Going(TablesOf(WithArtifact(s, a)))
  {
    assert a.id !in ItemTable(s.artifacts, ArtifactRowOf);
    hide OrderTable, ListTable, ItemTable, ProjectTable, Get;
    OrderGrows(s.artifactOrder, a.projectId, a.id);
    ItemPut(s.artifacts, ArtifactRowOf, a.id, a);
  }

  lemma RequirementInserted(s: State, p: Id, r: Requirement)
    requires NoRepeats(s.requirements) && r.id !in AllIds(s.requirements)
    ensures InsertRequirement(TablesOf(s), p, r, |Get(s.requirements, p)|) == Going(TablesOf(WithRequirement(s, p, r)))
  {
    hide NoRepeats, AllIds, ListTable, OrderTable, ItemTable, ProjectTable, Get;
    ListGrows(s.requirements, RequirementRowOf, p, r);
  }

  lemma PlanInserted(s: State, r: Plan)
    requires NoRepeats(s.plans) && r.id !in AllIds(s.plans)
    ensures InsertPlan(TablesOf(s), r) == Going(TablesOf(WithPlan(s, r.projectId, r)))
  {
    hide NoRepeats, AllIds, ListTable, OrderTable, ItemTable, ProjectTable, Get;
    ListGrows(s.plans, PlanRowOf, r.projectId, r);
  }

  lemma ContractInserted(s: State, r: Contract)
    requires NoRepeats(s.contracts) && r.id !in AllIds(s.contracts)
    ensures InsertContract(TablesOf(s), r) == Going(TablesOf(WithContract(s, r.projectId, r)))
  {
    hide NoRepeats, AllIds, ListTable, OrderTable, ItemTable, ProjectTable, Get;
    ListGrows(s.contracts, ContractRowOf, r.projectId, r);
  }

  lemma ProjectsLocked(s: State)
    ensures TablesOf(s).projects.Keys == s.projects.Keys
  {
  }

  // ----- A commit against the projection ------------------------------------------------

  lemma CreateProjectCommits(s: State, p: Project)
    requires p.id !in s.projects
    ensures CreateProjectTx(TablesOf(s), p) == Going(TablesOf(s.(projects := s.projects[p.id := p])))
  {
    ProjectsLocked(s);
    hide ListTable, OrderTable, ItemTable, ProjectTable;
    ProjectPut(s.projects, p);
  }

  lemma AddRequirementCommits(s: State, p: Id, r: Requirement, now: Time)
    requires p in s.projects && s.projects[p].id == p && NoRepeats(s.requirements) && r.id !in AllIds(s.requirements)
    ensures AddRequirementTx(TablesOf(s), s.projects[p].(updatedAt := now), r, |Get(s.requirements, p)|)
      == Going(TablesOf(TouchIn(WithRequirement(s, p, r), p, now)))
  {
    ProjectsLocked(s);
    hide NoRepeats, AllIds, TablesOf, UpdateProject, InsertRequirement, InsertContract;
    RequirementInserted(s, p, r);
    ProjectUpdated(WithRequirement(s, p, r), p, now);
  }

  function WithGenerated(s: State, plan: Plan, task: Task): (n: State)
    ensures n.projects == s.projects
  {
    WithTask(WithPlan(s, plan.projectId, plan), task)
  }

  lemma GeneratedInserted(s: State, plan: Plan, task: Task)
    requires NoRepeats(s.plans) && plan.id !in AllIds(s.plans) && task.id !in s.tasks
    ensures var planned := InsertPlan(TablesOf(s), plan);
      planned.Going?
        && InsertTask(planned.tables, task.projectId, task, |Get(s.taskOrder, task.projectId)|)
          == Going(TablesOf(WithGenerated(s, plan, task)))
  {
    var s1 := WithPlan(s, plan.projectId, plan);
    assert s1.taskOrder == s.taskOrder && s1.tasks == s.tasks;
    hide NoRepeats, AllIds, TablesOf, InsertTask, InsertPlan, Get, WithPlan, WithTask;
    PlanInserted(s, plan);
    TaskInserted(s1, task);
  }

  lemma GeneratePlanCommits(s: State, p: Id, plan: Plan, task: Task, now: Time)
    requires p in s.projects && s.projects[p].id == p && NoRepeats(s.plans) && plan.id !in AllIds(s.plans)
    requires plan.projectId == p == task.projectId && task.id !in s.tasks
    ensures GeneratePlanTx(TablesOf(s), s.projects[p].(updatedAt := now), plan, task, |Get(s.taskOrder, p)|)
      == Going(TablesOf(TouchIn(WithGenerated(s, plan, task), p, now)))
  {
    ProjectsLocked(s);
    hide NoRepeats, AllIds, TablesOf, UpdateProject, InsertTask, InsertPlan, Get, WithGenerated, TouchIn;
    GeneratedInserted(s, plan, task);
    ProjectUpdated(WithGenerated(s, plan, task), p, now);
  }

  lemma GenerateContractCommits(s: State, p: Id, c: Contract, now: Time)
    requires p in s.projects && s.projects[p].id == p && NoRepeats(s.contracts) && c.id !in AllIds(s.contracts)
    requires c.projectId == p
    ensures GenerateContractTx(TablesOf(s), s.projects[p].(updatedAt := now), c)
      == Going(TablesOf(TouchIn(WithContract(s, p, c), p, now)))
  {
    ProjectsLocked(s);
    hide NoRepeats, AllIds, TablesOf, UpdateProject, InsertRequirement, InsertContract;
    ContractInserted(s, c);
    ProjectUpdated(WithContract(s, p, c), p, now);
  }

  function WithTasks(s: State, tasks: seq<Task>): (n: State)
    ensures n.projects == s.projects
  {
    if tasks == [] then s else WithTask(WithTasks(s, tasks[..|tasks|-1]), tasks[|tasks|-1])
  }

  // New tasks of project p, each with the position it gets.
  ghost predicate NewTasks(s: State, p: Id, tasks: seq<Task>, positions: map<Id, nat>) {
    forall i | 0 <= i < |tasks| ::
      && tasks[i].projectId == p && tasks[i].id !in s.tasks && (forall j | 0 <= j < i :: tasks[j].id != tasks[i].id)
      && tasks[i].id in positions && positions[tasks[i].id] == |Get(s.taskOrder, p)| + i
  }

  // What new tasks leave alone.
  ghost predicate TasksKeep(s: State, n: State, p: Id, tasks: seq<Task>) {
    && |Get(n.taskOrder, p)| == |Get(s.taskOrder, p)| + |tasks|
    && (forall x | x in n.tasks :: x in s.tasks || exists i :: 0 <= i < |tasks| && tasks[i].id == x)
  }

  lemma TaskKeeps(s: State, m: State, p: Id, tasks: seq<Task>, positions: map<Id, nat>)
    requires tasks != [] && NewTasks(s, p, tasks, positions) && TasksKeep(s, m, p, tasks[..|tasks|-1])
    ensures tasks[|tasks|-1].id !in m.tasks && TasksKeep(s, WithTask(m, tasks[|tasks|-1]), p, tasks)
  {
    var k := |tasks| - 1;
    var n := WithTask(m, tasks[k]);
    forall x | x in n.tasks && x !in s.tasks ensures exists i :: 0 <= i < |tasks| && tasks[i].id == x {
      if x == tasks[k].id {
      } else {
        var i :| 0 <= i < k && tasks[..k][i].id == x;
        assert tasks[i].id == x;
      }
    }
  }

  lemma {:induction false} InsertTasksCommits(s: State, p: Id, tasks: seq<Task>, positions: map<Id, nat>)
    requires NewTasks(s, p, tasks, positions)
    ensures InsertTasks(TablesOf(s), p, tasks, positions) == Going(TablesOf(WithTasks(s, tasks)))
    ensures TasksKeep(s, WithTasks(s, tasks), p, tasks)
  {
    hide TablesOf, InsertTask, WithTask;
    if tasks == [] {
    } else {
      var n := |tasks| - 1;
      assert NewTasks(s, p, tasks[..n], positions);
      var m := WithTasks(s, tasks[..n]);
      InsertTasksCommits(s, p, tasks[..n], positions);
      TaskKeeps(s, m, p, tasks, positions);
      TaskInserted(m, tasks[n]);
    }
  }

  lemma SaveTasksCommits(s: State, p: Id, tasks: seq<Task>, positions: map<Id, nat>, now: Time)
    requires p in s.projects && s.projects[p].id == p && NewTasks(s, p, tasks, positions)
    ensures SaveTasksTx(TablesOf(s), s.projects[p].(updatedAt := now), tasks, positions)
      == Going(TablesOf(TouchIn(WithTasks(s, tasks), p, now)))
  {
    ProjectsLocked(s);
    hide NewTasks, TablesOf, UpdateProject, InsertTasks;
    InsertTasksCommits(s, p, tasks, positions);
    ProjectUpdated(WithTasks(s, tasks), p, now);
  }

  // The state after a batch of starts; the sandboxes are not projected.
  function WithStarts(s: State, items: seq<RunStart>): State {
    if items == [] then s
    else
      var i := items[|items|-1];
      WithRun(PutTaskIn(WithStarts(s, items[..|items|-1]), i.task), i.run)
  }

  // Starts of known tasks with new runs, at the end of the run order.
  ghost predicate NewStarts(s: State, p: Id, items: seq<RunStart>) {
    forall i | 0 <= i < |items| ::
      && items[i].task.projectId == p == items[i].run.projectId
      && items[i].task.id in s.tasks && s.tasks[items[i].task.id].projectId == p
      && s.tasks[items[i].task.id].body.createdAt == items[i].task.body.createdAt
      && items[i].run.id !in s.runs && (forall j | 0 <= j < i :: items[j].run.id != items[i].run.id)
      && items[i].position == |Get(s.runOrder, p)| + i
  }

  // What a batch leaves alone.
  ghost predicate StartsKeep(s: State, n: State, p: Id, items: seq<RunStart>) {
    && n.projects == s.projects && |Get(n.runOrder, p)| == |Get(s.runOrder, p)| + |items|
    && n.tasks.Keys == s.tasks.Keys
    && (forall x | x in s.tasks ::
          n.tasks[x].projectId == s.tasks[x].projectId && n.tasks[x].body.createdAt == s.tasks[x].body.createdAt)
    && (forall x | x in n.runs :: x in s.runs || exists i :: 0 <= i < |items| && items[i].run.id == x)
  }

  lemma StartKeeps(s: State, m: State, p: Id, items: seq<RunStart>)
    requires items != [] && NewStarts(s, p, items) && StartsKeep(s, m, p, items[..|items|-1])
    ensures var i := items[|items|-1];
      i.task.id in m.tasks && i.run.id !in m.runs && StartsKeep(s, WithRun(PutTaskIn(m, i.task), i.run), p, items)
  {
    var k := |items| - 1;
    var n := WithRun(PutTaskIn(m, items[k].task), items[k].run);
    forall x | x in n.runs && x !in s.runs ensures exists i :: 0 <= i < |items| && items[i].run.id == x {
      if x == items[k].run.id {
      } else {
        var i :| 0 <= i < k && items[..k][i].run.id == x;
        assert items[i].run.id == x;
      }
    }
  }

  lemma {:induction false} StartRunsCommits(s: State, p: Id, items: seq<RunStart>)
    requires p in s.projects && NewStarts(s, p, items)
    ensures StartRunsTx(TablesOf(s), items) == Going(TablesOf(WithStarts(s, items)))
    ensures StartsKeep(s, WithStarts(s, items), p, items)
  {
    if items == [] {
    } else {
      var i, m := items[|items|-1], WithStarts(s, items[..|items|-1]);
      assert NewStarts(s, p, items[..|items|-1]);
      StartRunsCommits(s, p, items[..|items|-1]);
      StartKeeps(s, m, p, items);
      StartCommits(s, m, p, items);
    }
  }

  lemma StartCommits(s: State, m: State, p: Id, items: seq<RunStart>)
    requires p in s.projects && items != [] && NewStarts(s, p, items) && StartsKeep(s, m, p, items[..|items|-1])
    requires var i := items[|items|-1]; i.task.id in m.tasks && i.run.id !in m.runs
    ensures var i := items[|items|-1];
      && p in TablesOf(m).projects
      && InsertRun(UpdateTask(TablesOf(m), i.task), i.run, i.position)
        == Going(TablesOf(WithRun(PutTaskIn(m, i.task), i.run)))
  {
    hide OrderTable, ListTable, ItemTable;
    var i := items[|items|-1];
    TaskUpdated(m, i.task);
    RunInserted(PutTaskIn(m, i.task), i.run);
  }

  // The sandboxes are not part of the projection.
  lemma BoxesUnseen(s: State, boxes: map<Id, seq<Sandbox>>)
    ensures TablesOf(s.(sandboxes := boxes)) == TablesOf(s)
  {
  }

  lemma EndedCommits(s: State, p: Id, task: Task, run: Run, boxes: seq<Sandbox>)
    requires task.id in s.tasks && s.tasks[task.id].projectId == task.projectId
    requires s.tasks[task.id].body.createdAt == task.body.createdAt
    requires run.id in s.runs && s.runs[run.id].projectId == run.projectId
    requires s.runs[run.id].body.taskId == run.body.taskId && s.runs[run.id].body.startedAt == run.body.startedAt
    ensures UpdateRun(UpdateTask(TablesOf(s), task), run) == TablesOf(EndedIn(s, p, task, run, boxes))
  {
    TaskUpdated(s, task);
    RunUpdated(PutTaskIn(s, task), run);
    hide TablesOf;
    BoxesUnseen(PutRunIn(PutTaskIn(s, task), run), s.sandboxes[p := boxes]);
  }

  // ----- The service's commits ----------------------------------------------------------

  // The records and ids of a sound state, as the commits need them; i is a new id.
  ghost predicate Commitable(s: State, i: Id) {
    && NoRepeats(s.requirements) && NoRepeats(s.plans) && NoRepeats(s.contracts)
    && i !in AllIds(s.requirements) && i !in AllIds(s.plans) && i !in AllIds(s.contracts)
    && i !in s.projects && i !in s.tasks && i !in s.runs && i !in s.artifacts
    && (forall p | p in s.projects :: s.projects[p].id == p)
    && (forall t | t in s.tasks :: s.tasks[t].id == t && s.tasks[t].projectId in s.projects)
    && (forall r | r in s.runs :: s.runs[r].id == r && s.runs[r].projectId in s.projects)
  }

  lemma SoundCommits(s: State, x: Index, execs: map<Id, Executor>, owner: map<Id, Id>, home: map<Id, Id>, n: Id, i: Id)
    requires Sound(s, x, execs, owner, home, n) && n <= i
    ensures Commitable(s, i)
  {
    hide Indexed, StatesHomed, StatesOk, TimelinesOk, LeasesOk, WorldOf, ListsOk, NoRepeats, AllIds;
    assert WorldOf(s, execs, owner, n).owner == owner && WorldOf(s, execs, owner, n).nextId == n by {
      WorldFields(s, execs, owner, n);
    }
    ListsDiffer(s.requirements, s.projects.Keys, owner);
    ListsDiffer(s.plans, s.projects.Keys, owner);
    ListsDiffer(s.contracts, s.projects.Keys, owner);
    ItemsHomed(s, owner, home);
  }

  lemma ItemsOwned<B>(l: Ledger<B>, owner: map<Id, Id>, keys: set<Id>)
    requires LedgerOk(l, owner) && l.order.Keys <= keys
    ensures l.items.Keys <= owner.Keys && forall x | x in l.items :: l.items[x].id == x && l.items[x].projectId in keys
  {
    forall x | x in l.items ensures l.items[x].id == x && l.items[x].projectId in keys && x in owner {
      assert x in Get(l.order, l.items[x].projectId);
    }
  }

  lemma ItemsHomed(s: State, owner: map<Id, Id>, home: map<Id, Id>)
    requires FlatOk(s, owner, home)
    ensures forall t | t in s.tasks :: s.tasks[t].id == t && s.tasks[t].projectId in s.projects
    ensures forall r | r in s.runs :: s.runs[r].id == r && s.runs[r].projectId in s.projects
    ensures forall a | a in s.artifacts :: s.artifacts[a].id == a
    ensures s.tasks.Keys <= owner.Keys && s.runs.Keys <= owner.Keys && s.artifacts.Keys <= owner.Keys
  {
    hide FilesOk, LedgerOk;
    ItemsOwned(Ledger(s.tasks, s.taskOrder), owner, s.projects.Keys);
    ItemsOwned(Ledger(s.runs, s.runOrder), owner, s.projects.Keys);
    ItemsOwned(Ledger(s.artifacts, s.artifactOrder), owner, s.projects.Keys);
  }

  // A sound state can be saved as a whole.
  ghost predicate Savable(s: State) {
    && (forall p | p in s.projects :: s.projects[p].id == p) && (forall t | t in s.tasks :: s.tasks[t].id == t)
    && (forall r | r in s.runs :: s.runs[r].id == r) && (forall a | a in s.artifacts :: s.artifacts[a].id == a)
    && NoRepeats(s.requirements) && NoRepeats(s.plans) && NoRepeats(s.contracts)
  }

  lemma SoundSaves(s: State, x: Index, execs: map<Id, Executor>, owner: map<Id, Id>, home: map<Id, Id>, n: Id)
    requires Sound(s, x, execs, owner, home, n)
    ensures Savable(s)
  {
    hide FlatOk, Indexed, StatesHomed, Inv, WorldOf, NoRepeats, AllIds;
    SoundCommits(s, x, execs, owner, home, n, n);
    ItemsHomed(s, owner, home);
  }

  // StartRun: the started task is updated, its run inserted at the end of the order.
  lemma StartRunCommits(s: State, n: Id, p: Id, t: Task, reason: string, now: Time)
    requires Commitable(s, n + 1) && p in s.projects && t.id in s.tasks && s.tasks[t.id] == t && t.projectId == p
    ensures StartRunsTx(TablesOf(s),
                        [RunStart(StartedTask(t, true, reason, now), NewRun(n, p, t.id, now), |Get(s.runOrder, p)|)])
      == Going(TablesOf(StartedIn(s, n, p, t, true, reason, now)))
  {
    var task, run := StartedTask(t, true, reason, now), NewRun(n, p, t.id, now);
    assert task.id == t.id && task.projectId == p && task.body.createdAt == t.body.createdAt && run.id == n + 1;
    assert run.projectId == p;
    var items := [RunStart(task, run, |Get(s.runOrder, p)|)];
    var m := WithRun(PutTaskIn(s, task), run);
    assert NewStarts(s, p, items);
    hide TablesOf, NoRepeats, AllIds, StartedTask, NewRun, StartRunsTx, Get;
    StartRunsCommits(s, p, items);
    assert items[..0] == [];
    assert WithStarts(s, items[..0]) == s;
    assert WithStarts(s, items) == m;
    assert StartedIn(s, n, p, t, true, reason, now)
      == m.(sandboxes := WithSandbox(s, p, NewBox(n, p, t.id, now)).sandboxes);
    BoxesUnseen(m, WithSandbox(s, p, NewBox(n, p, t.id, now)).sandboxes);
  }

  lemma CompleteRunCommits(s: State, p: Id, r: Id, t: Id, a: Artifact, uri: string, usage: Usage, summary: string,
                           now: Time)
    requires Commitable(s, a.id) && r in s.runs && t in s.tasks && s.runs[r].projectId == p == a.projectId
    ensures CompleteRunTx(TablesOf(s), CompletedTask(s.tasks[t], uri, now),
                          CompletedRun(s.runs[r], a.id, usage, summary, now), a, |Get(s.artifactOrder, p)|)
      == Going(TablesOf(CompletedIn(s, p, r, t, a, uri, usage, summary, now)))
  {
    var task, run := CompletedTask(s.tasks[t], uri, now), CompletedRun(s.runs[r], a.id, usage, summary, now);
    assert task.id == t && task.projectId == s.tasks[t].projectId && task.body.createdAt == s.tasks[t].body.createdAt;
    var boxes := SettledBoxes(Get(s.sandboxes, p), s.runs[r].body.sandboxId, Released, None, now);
    ProjectsLocked(s);
    hide TablesOf, NoRepeats, AllIds, CompletedTask, SettledBoxes, UpdateRun, UpdateTask, InsertArtifact;
    EndedCommits(s, p, task, run, boxes);
    ArtifactInserted(EndedIn(s, p, task, run, boxes), a);
  }

  lemma FailRunCommits(s: State, p: Id, r: Id, t: Id, i: Id, failure: string, usage: Usage, now: Time)
    requires Commitable(s, i) && r in s.runs && t in s.tasks && s.runs[r].projectId == p
    ensures FailRunTx(TablesOf(s), Some(FailedTask(s.tasks[t], now)), CrashedRun(s.runs[r], failure, usage, now))
      == Going(TablesOf(FailedIn(s, p, r, t, failure, usage, now)))
  {
    var task, run := FailedTask(s.tasks[t], now), CrashedRun(s.runs[r], failure, usage, now);
    assert task.id == t && task.projectId == s.tasks[t].projectId && task.body.createdAt == s.tasks[t].body.createdAt;
    ProjectsLocked(s);
    hide TablesOf, NoRepeats, AllIds, FailedTask, SettledBoxes, UpdateRun, UpdateTask;
    EndedCommits(s, p, task, run,
                 SettledBoxes(Get(s.sandboxes, p), s.runs[r].body.sandboxId, Broken, Some(failure), now));
  }

  // The records a start commits, read off the state after it.
  lemma StartedItem(s: State, n: Id, p: Id, t: Task, reason: string, now: Time)
    requires t.projectId == p
    ensures var m := StartedIn(s, n, p, t, true, reason, now);
      && t.id in m.tasks && n + 1 in m.runs && |Get(m.runOrder, p)| == |Get(s.runOrder, p)| + 1
      && m.tasks[t.id] == StartedTask(t, true, reason, now) && m.runs[n + 1] == NewRun(n, p, t.id, now)
  {
    hide MovedOrSame;
  }

  // From a service in step with its tables the commit of a start succeeds and leaves them in step.
  lemma StartInStep(s: State, x: Index, execs: map<Id, Executor>, owner: map<Id, Id>, home: map<Id, Id>, n: Id, p: Id,
                    t: Task, reason: string, now: Time)
    requires Sound(s, x, execs, owner, home, n) && TaskOf(WorldOf(s, execs, owner, n), p, t)
    ensures t.projectId == p
    ensures StartRunsTx(TablesOf(s),
                        [RunStart(StartedTask(t, true, reason, now), NewRun(n, p, t.id, now), |Get(s.runOrder, p)|)])
      == Going(TablesOf(StartedIn(s, n, p, t, true, reason, now)))
  {
    hide FlatOk, Indexed, StatesHomed, Inv, WorldOf, NoRepeats, AllIds, TablesOf, StartRunsTx, StartedTask, NewRun,
      StartedIn, ProjectOf, Commitable;
    SoundCommits(s, x, execs, owner, home, n, n + 1);
    TaskStored(s, x, execs, owner, home, n, p, t);
    WorldLive(s, execs, owner, n, p);
    TaskKnown(s, execs, owner, home, n, p, t.id);
    StartRunCommits(s, n, p, t, reason, now);
  }

  // ... and so do the commits of an ended run ...
  lemma CompleteInStep(s: State, x: Index, execs: map<Id, Executor>, owner: map<Id, Id>, home: map<Id, Id>, n: Id,
                       p: Id, r: Id, t: Id, a: Artifact, uri: string, usage: Usage, summary: string, now: Time)
    requires Sound(s, x, execs, owner, home, n) && a.id == n && r in s.runs && t in s.tasks
    requires s.runs[r].projectId == p == a.projectId
    ensures CompleteRunTx(TablesOf(s), CompletedTask(s.tasks[t], uri, now),
                          CompletedRun(s.runs[r], a.id, usage, summary, now), a, |Get(s.artifactOrder, p)|)
      == Going(TablesOf(CompletedIn(s, p, r, t, a, uri, usage, summary, now)))
  {
    hide Sound, TablesOf, CompleteRunTx, CompletedIn, CompletedTask, CompletedRun, Commitable;
    SoundCommits(s, x, execs, owner, home, n, n);
    CompleteRunCommits(s, p, r, t, a, uri, usage, summary, now);
  }

  lemma FailInStep(s: State, x: Index, execs: map<Id, Executor>, owner: map<Id, Id>, home: map<Id, Id>, n: Id, p: Id,
                   r: Id, t: Id, failure: string, usage: Usage, now: Time)
    requires Sound(s, x, execs, owner, home, n) && r in s.runs && t in s.tasks && s.runs[r].projectId == p
    ensures FailRunTx(TablesOf(s), Some(FailedTask(s.tasks[t], now)), CrashedRun(s.runs[r], failure, usage, now))
      == Going(TablesOf(FailedIn(s, p, r, t, failure, usage, now)))
  {
    hide Sound, TablesOf, FailRunTx, FailedIn, FailedTask, CrashedRun, Commitable;
    SoundCommits(s, x, execs, owner, home, n, n);
    FailRunCommits(s, p, r, t, n, failure, usage, now);
  }

  // ... and of a plan.
  lemma PlanInStep(s: State, x: Index, execs: map<Id, Executor>, owner: map<Id, Id>, home: map<Id, Id>, n: Id, p: Id,
                   plan: Plan, task: Task, now: Time)
    requires Sound(s, x, execs, owner, home, n) && p in s.projects && plan.id == n && task.id == n + 1
    requires plan.projectId == p == task.projectId
    ensures var m := s.(plans := s.plans[p := Get(s.plans, p) + [plan]], tasks := s.tasks[task.id := task],
                        taskOrder := s.taskOrder[p := Get(s.taskOrder, p) + [task.id]],
                        projects := s.projects[p := s.projects[p].(updatedAt := now)]);
      GeneratePlanTx(TablesOf(s), s.projects[p].(updatedAt := now), plan, task, |Get(s.taskOrder, p)|)
        == Going(TablesOf(m))
  {
    hide Sound, TablesOf, GeneratePlanTx, NoRepeats, AllIds;
    SoundCommits(s, x, execs, owner, home, n, n);
    SoundCommits(s, x, execs, owner, home, n, n + 1);
    GeneratePlanCommits(s, p, plan, task, now);
  }

  // ... of a project, a requirement and a contract ...
  lemma ProjectInStep(s: State, x: Index, execs: map<Id, Executor>, owner: map<Id, Id>, home: map<Id, Id>, n: Id,
                      p: Project)
    requires Sound(s, x, execs, owner, home, n) && p.id == n
    ensures CreateProjectTx(TablesOf(s), p)
      == Going(TablesOf(s.(projects := s.projects[n := p], projectBranch := s.projectBranch[n := "main"])))
  {
    hide Sound, CreateProjectTx, NoRepeats, AllIds;
    SoundCommits(s, x, execs, owner, home, n, n);
    CreateProjectCommits(s, p);
  }

  lemma RequirementInStep(s: State, x: Index, execs: map<Id, Executor>, owner: map<Id, Id>, home: map<Id, Id>, n: Id,
                          p: Id, r: Requirement, now: Time)
    requires Sound(s, x, execs, owner, home, n) && p in s.projects && r.id == n
    ensures var m := s.(requirements := s.requirements[p := Get(s.requirements, p) + [r]],
                        projects := s.projects[p := s.projects[p].(updatedAt := now)]);
      AddRequirementTx(TablesOf(s), s.projects[p].(updatedAt := now), r, |Get(s.requirements, p)|)
        == Going(TablesOf(m))
  {
    hide Sound, AddRequirementTx, NoRepeats, AllIds, TablesOf;
    SoundCommits(s, x, execs, owner, home, n, n);
    AddRequirementCommits(s, p, r, now);
  }

  lemma ContractInStep(s: State, x: Index, execs: map<Id, Executor>, owner: map<Id, Id>, home: map<Id, Id>, n: Id,
                       p: Id, c: Contract, now: Time)
    requires Sound(s, x, execs, owner, home, n) && p in s.projects && c.id == n && c.projectId == p
    ensures var m := s.(contracts := s.contracts[p := Get(s.contracts, p) + [c]],
                        projects := s.projects[p := s.projects[p].(updatedAt := now)]);
      GenerateContractTx(TablesOf(s), s.projects[p].(updatedAt := now), c) == Going(TablesOf(m))
  {
    hide Sound, GenerateContractTx, NoRepeats, AllIds, TablesOf;
    SoundCommits(s, x, execs, owner, home, n, n);
    GenerateContractCommits(s, p, c, now);
  }

  // ... and of new tasks with the next ids, at the end of the project's order.
  ghost predicate NextTasks(s: State, n: Id, p: Id, tasks: seq<Task>, positions: map<Id, nat>) {
    forall i | 0 <= i < |tasks| ::
      && tasks[i].projectId == p && tasks[i].id == n + i
      && tasks[i].id in positions && positions[tasks[i].id] == |Get(s.taskOrder, p)| + i
  }

  lemma TasksInStep(s: State, x: Index, execs: map<Id, Executor>, owner: map<Id, Id>, home: map<Id, Id>, n: Id,
                    p: Id, tasks: seq<Task>, positions: map<Id, nat>, now: Time)
    requires Sound(s, x, execs, owner, home, n) && p in s.projects && NextTasks(s, n, p, tasks, positions)
    ensures SaveTasksTx(TablesOf(s), s.projects[p].(updatedAt := now), tasks, positions)
      == Going(TablesOf(TouchIn(WithTasks(s, tasks), p, now)))
  {
    hide Sound, SaveTasksTx, NoRepeats, AllIds, TablesOf, WithTasks;
    SoundCommits(s, x, execs, owner, home, n, n);
    forall i | 0 <= i < |tasks| ensures tasks[i].id !in s.tasks {
      SoundCommits(s, x, execs, owner, home, n, n + i);
    }
    SaveTasksCommits(s, p, tasks, positions, now);
  }

  // A project is stored under its own id.
  lemma ProjectItself(s: State, x: Index, execs: map<Id, Executor>, owner: map<Id, Id>, home: map<Id, Id>, n: Id, p: Id)
    requires Sound(s, x, execs, owner, home, n) && p in s.projects
    ensures s.projects[p].id == p
  {
    hide Sound, NoRepeats, AllIds;
    SoundCommits(s, x, execs, owner, home, n, n);
  }

  lemma OneFiled(s: State, t: Task)
    ensures WithTasks(s, [t]) == WithTask(s, t)
  {
    hide WithTask;
    assert [t][..0] == [];
  }

  // Filing a task does not depend on the touch of its project.
  lemma FiledThenTouched(s: State, t: Task, p: Id, now: Time)
    requires p in s.projects && t.projectId == p
    ensures WithTask(TouchIn(s, p, now), t) == TouchIn(WithTask(s, t), p, now)
    ensures var m := TouchIn(s, p, now);
      && WithTask(m, t)
        == m.(tasks := m.tasks[t.id := t], taskOrder := m.taskOrder[p := Get(m.taskOrder, p) + [t.id]])
  {
  }

  // ----- The commit of a batch of starts ------------------------------------------------

  // The starts of a batch as they are read off the state after it.
  function Starts(m: State, k: nat, tasks: seq<Id>, runs: seq<Id>): (s: seq<RunStart>)
    requires |tasks| == |runs|
    requires (forall x | x in tasks :: x in m.tasks) && forall r | r in runs :: r in m.runs
    ensures |s| == |runs|
  {
    seq(|runs|, i requires 0 <= i < |runs| =>
      var t: Id, r: Id := tasks[i], runs[i];
      assert t in tasks && r in runs;
      RunStart(m.tasks[t], m.runs[r], k + i))
  }

  // From the tables of s the commit of the starts made on the way to m goes through, and gives the
  // tables of m.
  ghost predicate BatchFiled(s: State, m: State, p: Id, tasks: seq<Id>, runs: seq<Id>) {
    && |tasks| == |runs| && Get(m.runOrder, p) == Get(s.runOrder, p) + runs
    && (forall x | x in tasks :: x in m.tasks) && (forall r | r in runs :: r in m.runs)
    && StartRunsTx(TablesOf(s), Starts(m, |Get(s.runOrder, p)|, tasks, runs)) == Going(TablesOf(m))
  }

  lemma NoStartsFiled(s: State, p: Id)
    ensures BatchFiled(s, s, p, [], [])
  {
    hide TablesOf;
  }

  // A transaction that goes on.
  lemma StartsThen(t: Tables, items: seq<RunStart>, u: Tables, item: RunStart)
    requires StartRunsTx(t, items) == Going(u)
    ensures StartRunsTx(t, items + [item]) == StartRunsTx(u, [item])
  {
    hide InsertRun, UpdateTask;
    assert (items + [item])[..|items|] == items && (items + [item])[|items|] == item;
    assert [item][..0] == [];
  }

  lemma OneMoreFiled(s: State, m: State, x: Index, execs: map<Id, Executor>, owner: map<Id, Id>, home: map<Id, Id>,
                     n: Id, p: Id, tasks: seq<Id>, runs: seq<Id>, t: Task, reason: string, now: Time)
    requires BatchFiled(s, m, p, tasks, runs) && t.id !in tasks
    requires Sound(m, x, execs, owner, home, n) && TaskOf(WorldOf(m, execs, owner, n), p, t)
    ensures BatchFiled(s, StartedIn(m, n, p, t, true, reason, now), p, tasks + [t.id], runs + [n + 1])
  {
    hide Sound, WorldOf, TablesOf, StartRunsTx, TaskOf, StartedIn, StartedTask, NewRun, Starts;
    var m' := StartedIn(m, n, p, t, true, reason, now);
    var k, task, run := |Get(s.runOrder, p)|, StartedTask(t, true, reason, now), NewRun(n, p, t.id, now);
    StartInStep(m, x, execs, owner, home, n, p, t, reason, now);
    StartedLeaves(m, n, p, t, reason, now);
    NewRunId(m, x, execs, owner, home, n);
    StartsGrow(m, m', k, tasks, runs, t.id, task, n + 1, run);
    StartsThen(TablesOf(s), Starts(m, k, tasks, runs), TablesOf(m), RunStart(task, run, k + |runs|));
  }

  lemma StartsGrow(m: State, m': State, k: nat, tasks: seq<Id>, runs: seq<Id>, t: Id, task: Task, r: Id, run: Run)
    requires |tasks| == |runs| && t !in tasks && r !in m.runs
    requires (forall x | x in tasks :: x in m.tasks) && forall x | x in runs :: x in m.runs
    requires m'.tasks == m.tasks[t := task] && m'.runs == m.runs[r := run]
    ensures (forall x | x in tasks + [t] :: x in m'.tasks) && forall x | x in runs + [r] :: x in m'.runs
    ensures Starts(m', k, tasks + [t], runs + [r]) == Starts(m, k, tasks, runs) + [RunStart(task, run, k + |runs|)]
  {
  }

  lemma NewRunId(m: State, x: Index, execs: map<Id, Executor>, owner: map<Id, Id>, home: map<Id, Id>, n: Id)
    requires Sound(m, x, execs, owner, home, n)
    ensures n + 1 !in m.runs
  {
    hide Sound, NoRepeats, AllIds;
    SoundCommits(m, x, execs, owner, home, n, n + 1);
  }

  // What a start leaves alone.
  lemma StartedLeaves(m: State, n: Id, p: Id, t: Task, reason: string, now: Time)
    requires t.projectId == p
    ensures var m' := StartedIn(m, n, p, t, true, reason, now);
      && Get(m'.runOrder, p) == Get(m.runOrder, p) + [n + 1]
      && m'.tasks == m.tasks[t.id := StartedTask(t, true, reason, now)]
      && m'.runs == m.runs[n + 1 := NewRun(n, p, t.id, now)]
  {
    hide MovedOrSame;
  }

  // The place of a run in its project's order.
  lemma RunPlaced(s: State, x: Index, execs: map<Id, Executor>, owner: map<Id, Id>, home: map<Id, Id>, n: Id, p: Id)
    requires Sound(s, x, execs, owner, home, n)
    ensures Distinct(Get(s.runOrder, p))
  {
    hide FilesOk, KeysOk, Indexed, Inv, StatesHomed, WorldOf;
  }

  // ----- When a commit fails ------------------------------------------------------------

  // The start can be filed: one project for both, which is there, a run and a place not taken.
  ghost predicate Fileable(t: Tables, i: RunStart) {
    && i.task.projectId == i.run.projectId && i.run.projectId in t.projects
    && i.run.id !in t.runs && Place(i.run.projectId, i.position) !in t.runOrder
  }

  function RunPlace(i: RunStart): Place {
    Place(i.run.projectId, i.position)
  }

  ghost predicate StartsDiffer(items: seq<RunStart>) {
    forall i, j | 0 <= i < j < |items| ::
      items[i].run.id != items[j].run.id && RunPlace(items[i]) != RunPlace(items[j])
  }

  function RunIds(items: seq<RunStart>): set<Id> {
    set i | 0 <= i < |items| :: items[i].run.id
  }

  function RunPlaces(items: seq<RunStart>): set<Place> {
    set i | 0 <= i < |items| :: RunPlace(items[i])
  }

  // What a batch of starts does to the keys of the tables.
  ghost predicate StartsFiled(t: Tables, n: Tables, items: seq<RunStart>) {
    && n.projects == t.projects && n.tasks.Keys == t.tasks.Keys
    && n.runs.Keys == t.runs.Keys + RunIds(items) && n.runOrder.Keys == t.runOrder.Keys + RunPlaces(items)
  }

  lemma OneMoreStart(front: seq<RunStart>, x: RunStart)
    ensures RunIds(front + [x]) == RunIds(front) + {x.run.id}
    ensures RunPlaces(front + [x]) == RunPlaces(front) + {RunPlace(x)}
    ensures StartsDiffer(front + [x]) <==>
      StartsDiffer(front) && x.run.id !in RunIds(front) && RunPlace(x) !in RunPlaces(front)
  {
    var items, n := front + [x], |front|;
    assert items[n] == x && forall i | 0 <= i < n :: items[i] == front[i];
    forall y | y in RunIds(front) ensures y in RunIds(items) {
      var i :| 0 <= i < n && front[i].run.id == y;
      assert items[i].run.id == y;
    }
    forall q | q in RunPlaces(front) ensures q in RunPlaces(items) {
      var i :| 0 <= i < n && RunPlace(front[i]) == q;
      assert RunPlace(items[i]) == q;
    }
    assert items[n].run.id in RunIds(items) && RunPlace(items[n]) in RunPlaces(items);
    if StartsDiffer(items) {
      assert forall i | 0 <= i < n :: items[i].run.id != items[n].run.id && RunPlace(items[i]) != RunPlace(items[n]);
    }
  }

  ghost predicate AllStarts(t: Tables, items: seq<RunStart>) {
    forall i | 0 <= i < |items| :: Fileable(t, items[i])
  }

  lemma AllStartsMore(t: Tables, front: seq<RunStart>, x: RunStart)
    ensures AllStarts(t, front + [x]) <==> AllStarts(t, front) && Fileable(t, x)
  {
    hide Fileable;
    var items := front + [x];
    assert items[|front|] == x && forall i | 0 <= i < |front| :: items[i] == front[i];
  }

  // A batch of starts goes through exactly when each of them can be filed and no two of them want the
  // same run id or the same place.
  lemma {:induction false} StartsFailExactly(t: Tables, items: seq<RunStart>)
    ensures StartRunsTx(t, items).Going? <==> AllStarts(t, items) && StartsDiffer(items)
    ensures StartRunsTx(t, items).Going? ==> StartsFiled(t, StartRunsTx(t, items).tables, items)
  {
    if items == [] {
    } else {
      hide AllStarts, StartsDiffer, Fileable, RunIds, RunPlaces, StartsFiled, UpdateTask, InsertRun;
      var last := |items| - 1;
      var front, x := items[..last], items[last];
      assert items == front + [x];
      StartsFailExactly(t, front);
      OneMoreStart(front, x);
      AllStartsMore(t, front, x);
      FileableIs(t, x);
      var before := StartRunsTx(t, front);
      if before.Going? {
        OneStartFails(t, before.tables, front, x);
      }
    }
  }

  lemma OneStartFails(t: Tables, m: Tables, front: seq<RunStart>, x: RunStart)
    requires StartsFiled(t, m, front)
    ensures Fileable(t, x) && x.run.id !in RunIds(front) && RunPlace(x) !in RunPlaces(front) <==>
      && x.task.projectId == x.run.projectId && x.run.projectId in m.projects
      && InsertRun(UpdateTask(m, x.task), x.run, x.position).Going?
    ensures InsertRun(UpdateTask(m, x.task), x.run, x.position).Going? ==>
      StartsFiled(t, InsertRun(UpdateTask(m, x.task), x.run, x.position).tables, front + [x])
  {
    hide RunIds, RunPlaces, UpdateTask, InsertRun, StartsFiled;
    UpdateKeeps(m, x.task);
    var u := UpdateTask(m, x.task);
    InsertKeys(u, x.run, x.position);
    TakenBy(t, m, front, x);
    if InsertRun(u, x.run, x.position).Going? {
      FiledThen(t, m, InsertRun(u, x.run, x.position).tables, front, x);
    }
  }

  lemma TakenBy(t: Tables, m: Tables, front: seq<RunStart>, x: RunStart)
    requires StartsFiled(t, m, front)
    ensures m.projects == t.projects
    ensures x.run.id in m.runs <==> x.run.id in t.runs || x.run.id in RunIds(front)
    ensures RunPlace(x) in m.runOrder <==> RunPlace(x) in t.runOrder || RunPlace(x) in RunPlaces(front)
  {
    hide RunIds, RunPlaces;
  }

  lemma FiledThen(t: Tables, m: Tables, n: Tables, front: seq<RunStart>, x: RunStart)
    requires StartsFiled(t, m, front) && n.projects == m.projects && n.tasks.Keys == m.tasks.Keys
    requires n.runs.Keys == m.runs.Keys + {x.run.id} && n.runOrder.Keys == m.runOrder.Keys + {RunPlace(x)}
    ensures StartsFiled(t, n, front + [x])
  {
    hide RunIds, RunPlaces, StartsDiffer, RunPlace;
    OneMoreStart(front, x);
  }

  lemma UpdateKeeps(t: Tables, k: Task)
    ensures var u := UpdateTask(t, k);
      u.projects == t.projects && u.runs == t.runs && u.runOrder == t.runOrder && u.tasks.Keys == t.tasks.Keys
  {
    if k.id in t.tasks {
      SameKeys(t.tasks, k.id, UpdateTask(t, k).tasks[k.id]);
    }
  }

  lemma SameKeys<R>(m: map<Id, R>, x: Id, r: R)
    requires x in m
    ensures m[x := r].Keys == m.Keys
  {
  }

  lemma InsertKeys(t: Tables, r: Run, position: nat)
    ensures InsertRun(t, r, position).Going? <==> r.id !in t.runs && Place(r.projectId, position) !in t.runOrder
    ensures InsertRun(t, r, position).Going? ==>
      var n := InsertRun(t, r, position).tables;
      && n.projects == t.projects && n.tasks == t.tasks && n.runs.Keys == t.runs.Keys + {r.id}
      && n.runOrder.Keys == t.runOrder.Keys + {Place(r.projectId, position)}
  {
  }

  lemma FileableIs(t: Tables, i: RunStart)
    ensures Fileable(t, i) <==>
      && i.task.projectId == i.run.projectId && i.run.projectId in t.projects
      && i.run.id !in t.runs && RunPlace(i) !in t.runOrder
  {
  }

  // The task can be filed: it has a position, its id is not taken and neither is its place.
  ghost predicate TaskFileable(t: Tables, p: Id, k: Task, positions: map<Id, nat>) {
    k.id in positions && k.id !in t.tasks && Place(p, positions[k.id]) !in t.taskOrder
  }

  ghost predicate TasksDiffer(tasks: seq<Task>, positions: map<Id, nat>)
    requires forall k | k in tasks :: k.id in positions
  {
    forall i, j | 0 <= i < j < |tasks| ::
      tasks[i].id != tasks[j].id && positions[tasks[i].id] != positions[tasks[j].id]
  }

  function TaskIds(tasks: seq<Task>): set<Id> {
    set k | k in tasks :: k.id
  }

  function TaskPlaces(p: Id, tasks: seq<Task>, positions: map<Id, nat>): set<Place> {
    set k | k in tasks && k.id in positions :: Place(p, positions[k.id])
  }

  // What filing the tasks does to the keys of the tables.
  ghost predicate TasksFiled(t: Tables, n: Tables, p: Id, tasks: seq<Task>, positions: map<Id, nat>) {
    && n.projects == t.projects && n.tasks.Keys == t.tasks.Keys + TaskIds(tasks)
    && n.taskOrder.Keys == t.taskOrder.Keys + TaskPlaces(p, tasks, positions)
  }

  lemma OneTaskFiled(t: Tables, p: Id, k: Task, position: nat)
    ensures InsertTask(t, p, k, position).Going? <==> k.id !in t.tasks && Place(p, position) !in t.taskOrder
    ensures InsertTask(t, p, k, position).Going? ==>
      var n := InsertTask(t, p, k, position).tables;
      && n.projects == t.projects && n.tasks.Keys == t.tasks.Keys + {k.id}
      && n.taskOrder.Keys == t.taskOrder.Keys + {Place(p, position)}
  {
  }

  lemma OneMoreTask(p: Id, front: seq<Task>, x: Task, positions: map<Id, nat>)
    requires x.id in positions && forall k | k in front :: k.id in positions
    ensures forall k | k in front + [x] :: k.id in positions
    ensures TaskIds(front + [x]) == TaskIds(front) + {x.id}
    ensures TaskPlaces(p, front + [x], positions) == TaskPlaces(p, front, positions) + {Place(p, positions[x.id])}
    ensures TasksDiffer(front + [x], positions) <==>
      && TasksDiffer(front, positions) && x.id !in TaskIds(front)
      && Place(p, positions[x.id]) !in TaskPlaces(p, front, positions)
  {
    var tasks, n := front + [x], |front|;
    assert tasks[n] == x && forall i | 0 <= i < n :: tasks[i] == front[i] && tasks[i] in front;
    if TasksDiffer(tasks, positions) {
      forall k | k in front ensures k.id != x.id && positions[k.id] != positions[x.id] {
        var i :| 0 <= i < n && front[i] == k;
        assert tasks[i] == k;
      }
      forall i, j | 0 <= i < j < n
        ensures front[i].id != front[j].id && positions[front[i].id] != positions[front[j].id]
      {
        assert tasks[i] == front[i] && tasks[j] == front[j];
      }
    }
  }

  lemma TasksTaken(t: Tables, m: Tables, p: Id, front: seq<Task>, x: Task, positions: map<Id, nat>)
    requires TasksFiled(t, m, p, front, positions) && x.id in positions
    ensures m.projects == t.projects
    ensures x.id in m.tasks <==> x.id in t.tasks || x.id in TaskIds(front)
    ensures var q := Place(p, positions[x.id]);
      q in m.taskOrder <==> q in t.taskOrder || q in TaskPlaces(p, front, positions)
  {
    hide TaskIds, TaskPlaces;
  }

  lemma TasksThen(t: Tables, m: Tables, n: Tables, p: Id, front: seq<Task>, x: Task, positions: map<Id, nat>)
    requires TasksFiled(t, m, p, front, positions) && x.id in positions && forall k | k in front :: k.id in positions
    requires n.projects == m.projects && n.tasks.Keys == m.tasks.Keys + {x.id}
    requires n.taskOrder.Keys == m.taskOrder.Keys + {Place(p, positions[x.id])}
    ensures TasksFiled(t, n, p, front + [x], positions)
  {
    hide TaskIds, TaskPlaces, TasksDiffer;
    OneMoreTask(p, front, x, positions);
  }

  ghost predicate AllFileable(t: Tables, p: Id, tasks: seq<Task>, positions: map<Id, nat>) {
    && (forall k | k in tasks :: TaskFileable(t, p, k, positions))
    && (forall k | k in tasks :: k.id in positions)
  }

  // New tasks go through exactly when each of them can be filed and no two of them want the same id
  // or the same place.
  lemma {:induction false} TasksFailExactly(t: Tables, p: Id, tasks: seq<Task>, positions: map<Id, nat>)
    ensures InsertTasks(t, p, tasks, positions).Going? <==>
      AllFileable(t, p, tasks, positions) && TasksDiffer(tasks, positions)
    ensures InsertTasks(t, p, tasks, positions).Going? ==>
      TasksFiled(t, InsertTasks(t, p, tasks, positions).tables, p, tasks, positions)
  {
    if tasks == [] {
    } else {
      hide TasksFiled, TaskIds, TaskPlaces, TasksDiffer, AllFileable, InsertTask;
      var last := |tasks| - 1;
      var front, x := tasks[..last], tasks[last];
      assert tasks == front + [x];
      TasksFailExactly(t, p, front, positions);
      AllMore(t, p, front, x, positions);
      var before := InsertTasks(t, p, front, positions);
      if before.Going? && x.id in positions {
        OneTaskFiled(before.tables, p, x, positions[x.id]);
        TasksTaken(t, before.tables, p, front, x, positions);
        OneMoreTask(p, front, x, positions);
        if InsertTask(before.tables, p, x, positions[x.id]).Going? {
          TasksThen(t, before.tables, InsertTask(before.tables, p, x, positions[x.id]).tables, p, front, x, positions);
        }
      }
      if AllFileable(t, p, tasks, positions) {
        OneMoreTask(p, front, x, positions);
      }
    }
  }

  lemma AllMore(t: Tables, p: Id, front: seq<Task>, x: Task, positions: map<Id, nat>)
    ensures AllFileable(t, p, front + [x], positions) <==>
      && AllFileable(t, p, front, positions)
      && x.id in positions && x.id !in t.tasks && Place(p, positions[x.id]) !in t.taskOrder
    ensures AllFileable(t, p, front + [x], positions) ==> forall k | k in front + [x] :: k.id in positions
    ensures AllFileable(t, p, front, positions) ==> forall k | k in front :: k.id in positions
  {
    var tasks := front + [x];
    assert forall k :: k in tasks <==> k in front || k == x;
    assert TaskFileable(t, p, x, positions) <==>
      x.id in positions && x.id !in t.tasks && Place(p, positions[x.id]) !in t.taskOrder;
    hide TaskFileable;
  }

  lemma SaveTasksFails(t: Tables, p: Project, tasks: seq<Task>, positions: map<Id, nat>)
    ensures SaveTasksTx(t, p, tasks, positions).Going? <==>
      p.id in t.projects && AllFileable(t, p.id, tasks, positions) && TasksDiffer(tasks, positions)
  {
    hide AllFileable, TasksDiffer, InsertTasks, UpdateProject;
    TasksFailExactly(t, p.id, tasks, positions);
  }

  // The other commits fail exactly for a project that is not there, an id or a place that is taken.
  lemma PlanningFails(t: Tables, p: Project, r: Requirement, plan: Plan, c: Contract, task: Task, position: nat)
    ensures CreateProjectTx(t, p).Going? <==> p.id !in t.projects
    ensures AddRequirementTx(t, p, r, position).Going? <==> p.id in t.projects && r.id !in t.requirements
    ensures GenerateContractTx(t, p, c).Going? <==> p.id in t.projects && c.id !in t.contracts
    ensures GeneratePlanTx(t, p, plan, task, position).Going? <==>
      && p.id in t.projects && plan.id !in t.plans && task.id !in t.tasks && Place(p.id, position) !in t.taskOrder
  {
    hide UpdateProject;
  }

  lemma EndingFails(t: Tables, task: Task, some: Option<Task>, run: Run, a: Artifact, position: nat)
    ensures FailRunTx(t, some, run).Going? <==> run.projectId in t.projects
    ensures CompleteRunTx(t, task, run, a, position).Going? <==>
      run.projectId in t.projects && a.id !in t.artifacts && Place(a.projectId, position) !in t.artifactOrder
  {
    hide UpdateTask, UpdateRun, InsertArtifact;
    ArtifactsLeft(t, task, run);
    InsertArtifactFails(UpdateRun(UpdateTask(t, task), run), a, position);
  }

  lemma ArtifactsLeft(t: Tables, task: Task, run: Run)
    ensures var n := UpdateRun(UpdateTask(t, task), run);
      n.artifacts == t.artifacts && n.artifactOrder == t.artifactOrder
  {
    var m := UpdateTask(t, task);
    assert m.artifacts == t.artifacts && m.artifactOrder == t.artifactOrder;
    hide UpdateTask;
  }

  lemma InsertArtifactFails(t: Tables, a: Artifact, position: nat)
    ensures InsertArtifact(t, a, position).Going? <==>
      a.id !in t.artifacts && Place(a.projectId, position) !in t.artifactOrder
  {
  }
}
