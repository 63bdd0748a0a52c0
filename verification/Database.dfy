// The database as the repositories and the state store use it: every call works on a copy of the
// tables, which replaces them only when all of its statements have gone through.
module Database {
  import opened Records
  import opened Domain
  import opened States
  import opened Tables
  import opened Commits

  lemma NothingListed<B>(row: Rower<B>)
    ensures NoRepeats<B>(map[]) && ListTable(map[], row) == map[]
  {
  }

  lemma NewKeyIds<B>(done: map<Id, seq<Record<B>>>, k: Id)
    requires NoRepeats(done) && k !in done
    ensures NoRepeats(done[k := []]) && AllIds(done[k := []]) == AllIds(done)
  {
    var n := done[k := []];
    forall l, i | l in done && 0 <= i < |done[l]| ensures done[l][i].id in AllIds(n) {
      assert n[l][i] == done[l][i];
    }
  }

  lemma TableIds<B>(lists: map<Id, seq<Record<B>>>, row: Rower<B>)
    ensures ListTable(lists, row).Keys == AllIds(lists)
  {
    hide AllIds, Spot;
  }

  lemma NewKey<B>(done: map<Id, seq<Record<B>>>, row: Rower<B>, k: Id)
    requires NoRepeats(done) && k !in done
    ensures NoRepeats(done[k := []]) && ListTable(done[k := []], row) == ListTable(done, row)
  {
    var n := done[k := []];
    NewKeyIds(done, k);
    TableIds(done, row);
    TableIds(n, row);
    hide *;
    forall x | x in AllIds(done) ensures ListTable(n, row)[x] == ListTable(done, row)[x] {
      SameRow(done, n, row, x);
    }
  }

  lemma SameRow<B>(done: map<Id, seq<Record<B>>>, n: map<Id, seq<Record<B>>>, row: Rower<B>, x: Id)
    requires NoRepeats(done) && NoRepeats(n) && x in AllIds(done) && x in AllIds(n)
    requires forall l | l in done :: l in n && n[l] == done[l]
    ensures ListTable(n, row)[x] == ListTable(done, row)[x]
  {
    hide NoRepeats, AllIds;
    var p := Spot(done, x);
    RowAt(done, row, p.projectId, p.position);
    RowAt(n, row, p.projectId, p.position);
  }

  // A second row for an id means that the id is listed twice.
  lemma Repeated<B>(lists: map<Id, seq<Record<B>>>, done: map<Id, seq<Record<B>>>, k: Id, i: nat)
    requires k in lists && i < |lists[k]| && lists[k][i].id in AllIds(done[k := lists[k][..i]])
    requires done.Keys <= lists.Keys && k !in done && forall l | l in done :: done[l] == lists[l]
    ensures !NoRepeats(lists)
  {
    var part := done[k := lists[k][..i]];
    var p := Spot(part, lists[k][i].id);
    assert lists[p.projectId][p.position] == part[p.projectId][p.position];
  }

  lemma NextRow<B>(lists: map<Id, seq<Record<B>>>, done: map<Id, seq<Record<B>>>, row: Rower<B>, k: Id, i: nat)
    requires k in lists && i < |lists[k]| && k !in done && done.Keys <= lists.Keys
    requires forall l | l in done :: done[l] == lists[l]
    requires NoRepeats(done[k := lists[k][..i]])
    ensures var r, t := lists[k][i], ListTable(done[k := lists[k][..i]], row);
      var more := done[k := lists[k][..i+1]];
      if r.id in t then !NoRepeats(lists) else NoRepeats(more) && ListTable(more, row) == t[r.id := row(k, i, r)]
  {
    hide NoRepeats, AllIds, Spot;
    var part, r := done[k := lists[k][..i]], lists[k][i];
    assert lists[k][..i+1] == lists[k][..i] + [r];
    assert Appended(part, k, r) == done[k := lists[k][..i+1]];
    if r.id in AllIds(part) {
      Repeated(lists, done, k, i);
    } else {
      ListGrows(part, row, k, r);
    }
  }

  // One table of listed records, key by key in no particular order.
  method InsertLists<B>(lists: map<Id, seq<Record<B>>>, row: Rower<B>) returns (ok: bool, table: map<Id, ListRow<B>>)
    ensures ok <==> NoRepeats(lists)
    ensures ok ==> table == ListTable(lists, row)
  {
    hide NoRepeats, ListTable;
    table := map[];
    var rest := lists.Keys;
    ghost var done: map<Id, seq<Record<B>>> := map[];
    NothingListed(row);
    while rest != {}
      invariant rest <= lists.Keys && done == lists - rest && NoRepeats(done) && table == ListTable(done, row)
      decreases |rest|
    {
      var k := AnyOf(rest);
      NewKey(done, row, k);
      for i := 0 to |lists[k]|
        invariant NoRepeats(done[k := lists[k][..i]]) && table == ListTable(done[k := lists[k][..i]], row)
      {
        NextRow(lists, done, row, k, i);
        if lists[k][i].id in table {
          return false, table;
        }
        table := table[lists[k][i].id := row(k, i, lists[k][i])];
      }
      assert lists[k][..|lists[k]|] == lists[k];
      done := done[k := lists[k]];
      rest := rest - {k};
    }
    assert done == lists;
    ok := true;
  }

  lemma NewOrder(done: map<Id, seq<Id>>, p: Id)
    requires p !in done
    ensures OrderTable(done[p := []]) == OrderTable(done)
  {
    var n := done[p := []];
    forall q ensures q in Places(n) <==> q in Places(done) {
      PlaceIs(n, q);
      PlaceIs(done, q);
    }
    hide Places;
    assert OrderTable(n).Keys == Places(n) == Places(done);
  }

  lemma PlaceIs(order: map<Id, seq<Id>>, q: Place)
    ensures q in Places(order) <==> q.projectId in order && 0 <= q.position < |order[q.projectId]|
  {
    if q.projectId in order && 0 <= q.position < |order[q.projectId]| {
      assert q == Place(q.projectId, q.position);
    }
  }

  lemma NextPlace(done: map<Id, seq<Id>>, p: Id, s: seq<Id>, i: nat)
    requires p !in done && i < |s|
    ensures OrderTable(done[p := s[..i+1]]) == OrderTable(done[p := s[..i]])[Place(p, i) := s[i]]
  {
    var part := done[p := s[..i]];
    OrderGrows(part, p, s[i]);
    assert s[..i+1] == s[..i] + [s[i]];
    assert part[p := s[..i+1]] == done[p := s[..i+1]];
  }

  method InsertOrder(order: map<Id, seq<Id>>) returns (table: map<Place, Id>)
    ensures table == OrderTable(order)
  {
    hide OrderTable;
    table := map[];
    var rest := order.Keys;
    ghost var done: map<Id, seq<Id>> := map[];
    NoPlaces();
    while rest != {}
      invariant rest <= order.Keys && done == order - rest && table == OrderTable(done)
      decreases |rest|
    {
      var p := AnyOf(rest);
      NewOrder(done, p);
      for i := 0 to |order[p]|
        invariant table == OrderTable(done[p := order[p][..i]])
      {
        NextPlace(done, p, order[p], i);
        table := table[Place(p, i) := order[p][i]];
      }
      assert order[p][..|order[p]|] == order[p];
      done := done[p := order[p]];
      rest := rest - {p};
    }
    assert done == order;
  }

  lemma NoPlaces()
    ensures OrderTable(map[]) == map[]
  {
  }

  method InsertItems<B, R>(items: map<Id, Record<B>>, row: Record<B> -> R) returns (table: map<Id, R>)
    requires forall x | x in items :: items[x].id == x
    ensures table == ItemTable(items, row)
  {
    table := map[];
    var rest := items.Keys;
    while rest != {}
      invariant rest <= items.Keys && table == ItemTable(items - rest, row)
      decreases |rest|
    {
      var x := AnyOf(rest);
      table := table[items[x].id := row(items[x])];
      rest := rest - {x};
    }
    assert items - rest == items;
  }

  method InsertProjects(projects: map<Id, Project>) returns (table: map<Id, ProjectRow>)
    requires forall p | p in projects :: projects[p].id == p
    ensures table == ProjectTable(projects)
  {
    table := map[];
    var rest := projects.Keys;
    while rest != {}
      invariant rest <= projects.Keys && table == ProjectTable(projects - rest)
      decreases |rest|
    {
      var p := AnyOf(rest);
      table := table[projects[p].id := ProjectRowOf(projects[p])];
      rest := rest - {p};
    }
    assert projects - rest == projects;
  }

  // All or nothing: the tables are the transaction's, or nothing happened and the problem is reported.
  ghost predicate Ends(before: Tables, tx: Tx, after: Tables, problem: Option<Problem>) {
    match tx
    case Going(t) => after == t && problem == None
    case Aborted(e) => after == before && problem == Some(e)
  }

  class Store {
    var tables: Tables

    constructor ()
      ensures tables == Tables(map[], map[], map[], map[], map[], map[], map[], map[], map[], map[])
    {
      tables := Tables(map[], map[], map[], map[], map[], map[], map[], map[], map[], map[]);
    }

    // saveServiceStateProjection: every table is emptied and written anew.  It fails, and changes
    // nothing, exactly when a listed id repeats.
    method SaveState(s: State) returns (problem: Option<Problem>)
      requires forall p | p in s.projects :: s.projects[p].id == p
      requires forall t | t in s.tasks :: s.tasks[t].id == t
      requires forall r | r in s.runs :: s.runs[r].id == r
      requires forall a | a in s.artifacts :: s.artifacts[a].id == a
      modifies this
      ensures problem.None? <==> NoRepeats(s.requirements) && NoRepeats(s.plans) && NoRepeats(s.contracts)
      ensures tables == if problem.None? then TablesOf(s) else old(tables)
    {
      hide NoRepeats, ListTable, OrderTable, ItemTable, ProjectTable;
      var projects := InsertProjects(s.projects);
      var ok, requirements := InsertLists(s.requirements, RequirementRowOf);
      if !ok {
        return Some(DuplicateKey);
      }
      var plans, contracts;
      ok, plans := InsertLists(s.plans, PlanRowOf);
      if !ok {
        return Some(DuplicateKey);
      }
      ok, contracts := InsertLists(s.contracts, ContractRowOf);
      if !ok {
        return Some(DuplicateKey);
      }
      var tasks := InsertItems(s.tasks, TaskRowOf);
      var taskOrder := InsertOrder(s.taskOrder);
      var runs := InsertItems(s.runs, RunRowOf);
      var runOrder := InsertOrder(s.runOrder);
      var artifacts := InsertItems(s.artifacts, ArtifactRowOf);
      var artifactOrder := InsertOrder(s.artifactOrder);
      tables := Tables(projects, requirements, plans, contracts, tasks, taskOrder, runs, runOrder, artifacts,
                       artifactOrder);
      problem := None;
    }

    method CreateProject(p: Project) returns (problem: Option<Problem>)
      modifies this
      ensures Ends(old(tables), CreateProjectTx(old(tables), p), tables, problem)
    {
      if p.id in tables.projects {
        return Some(DuplicateKey);
      }
      tables := tables.(projects := tables.projects[p.id := ProjectRowOf(p)]);
      problem := None;
    }

    method AddRequirement(p: Project, r: Requirement, position: nat) returns (problem: Option<Problem>)
      modifies this
      ensures Ends(old(tables), AddRequirementTx(old(tables), p, r, position), tables, problem)
    {
      if p.id !in tables.projects {
        return Some(ProjectMissing);
      }
      var inserted := InsertRequirement(tables, p.id, r, position);
      if inserted.Aborted? {
        return Some(inserted.problem);
      }
      tables := UpdateProject(inserted.tables, p);
      problem := None;
    }

    method GeneratePlan(p: Project, plan: Plan, task: Task, position: nat) returns (problem: Option<Problem>)
      modifies this
      ensures Ends(old(tables), GeneratePlanTx(old(tables), p, plan, task, position), tables, problem)
    {
      hide InsertPlan, InsertTask, UpdateProject;
      if p.id !in tables.projects {
        return Some(ProjectMissing);
      }
      var tx := InsertPlan(tables, plan);
      if tx.Aborted? {
        return Some(tx.problem);
      }
      tx := InsertTask(tx.tables, p.id, task, position);
      if tx.Aborted? {
        return Some(tx.problem);
      }
      tables := UpdateProject(tx.tables, p);
      problem := None;
    }

    method GenerateContract(p: Project, c: Contract) returns (problem: Option<Problem>)
      modifies this
      ensures Ends(old(tables), GenerateContractTx(old(tables), p, c), tables, problem)
    {
      if p.id !in tables.projects {
        return Some(ProjectMissing);
      }
      var inserted := InsertContract(tables, c);
      if inserted.Aborted? {
        return Some(inserted.problem);
      }
      tables := UpdateProject(inserted.tables, p);
      problem := None;
    }

    method SaveTasks(p: Project, tasks: seq<Task>, positions: map<Id, nat>) returns (problem: Option<Problem>)
      modifies this
      ensures Ends(old(tables), SaveTasksTx(old(tables), p, tasks, positions), tables, problem)
    {
      hide InsertTask, UpdateProject;
      if p.id !in tables.projects {
        return Some(ProjectMissing);
      }
      var work := tables;
      for i := 0 to |tasks|
        invariant tables == old(tables) && InsertTasks(tables, p.id, tasks[..i], positions) == Going(work)
      {
        assert tasks[..i+1][..i] == tasks[..i];
        var k := tasks[i];
        if k.id !in positions {
          StaysAborted(tables, p.id, tasks, i + 1, positions);
          return Some(if k.id in work.tasks then DuplicateKey else BadInput);
        }
        var tx := InsertTask(work, p.id, k, positions[k.id]);
        if tx.Aborted? {
          StaysAborted(tables, p.id, tasks, i + 1, positions);
          return Some(tx.problem);
        }
        work := tx.tables;
      }
      assert tasks[..|tasks|] == tasks;
      tables := UpdateProject(work, p);
      problem := None;
    }

    method StartRuns(items: seq<RunStart>) returns (problem: Option<Problem>)
      modifies this
      ensures Ends(old(tables), StartRunsTx(old(tables), items), tables, problem)
    {
      hide InsertRun, UpdateTask;
      var work := tables;
      for i := 0 to |items|
        invariant tables == old(tables) && StartRunsTx(tables, items[..i]) == Going(work)
      {
        assert items[..i+1][..i] == items[..i];
        StartsAborted(tables, items, i + 1);
        var item := items[i];
        if item.task.projectId != item.run.projectId {
          return Some(BadInput);
        }
        if item.run.projectId !in work.projects {
          return Some(ProjectMissing);
        }
        var tx := InsertRun(UpdateTask(work, item.task), item.run, item.position);
        if tx.Aborted? {
          return Some(tx.problem);
        }
        work := tx.tables;
      }
      assert items[..|items|] == items;
      tables := work;
      problem := None;
    }

    method CompleteRun(task: Task, run: Run, a: Artifact, position: nat) returns (problem: Option<Problem>)
      modifies this
      ensures Ends(old(tables), CompleteRunTx(old(tables), task, run, a, position), tables, problem)
    {
      hide UpdateTask, UpdateRun, InsertArtifact;
      if run.projectId !in tables.projects {
        return Some(ProjectMissing);
      }
      var work := UpdateTask(tables, task);
      work := UpdateRun(work, run);
      var tx := InsertArtifact(work, a, position);
      if tx.Aborted? {
        return Some(tx.problem);
      }
      tables := tx.tables;
      problem := None;
    }

    method FailRun(task: Option<Task>, run: Run) returns (problem: Option<Problem>)
      modifies this
      ensures Ends(old(tables), FailRunTx(old(tables), task, run), tables, problem)
    {
      if run.projectId !in tables.projects {
        return Some(ProjectMissing);
      }
      var work := tables;
      if task.Some? {
        work := UpdateTask(work, task.value);
      }
      tables := UpdateRun(work, run);
      problem := None;
    }
  }

  lemma {:induction false} StaysAborted(t: Tables, p: Id, tasks: seq<Task>, n: nat, positions: map<Id, nat>)
    requires n <= |tasks|
    ensures InsertTasks(t, p, tasks[..n], positions).Aborted? ==>
      InsertTasks(t, p, tasks, positions) == InsertTasks(t, p, tasks[..n], positions)
    decreases |tasks|
  {
    hide InsertTask;
    if n == |tasks| {
      assert tasks[..n] == tasks;
    } else {
      var m := |tasks| - 1;
      StaysAborted(t, p, tasks[..m], n, positions);
      assert tasks[..m][..n] == tasks[..n];
    }
  }

  lemma {:induction false} StartsAborted(t: Tables, items: seq<RunStart>, n: nat)
    requires n <= |items|
    ensures StartRunsTx(t, items[..n]).Aborted? ==> StartRunsTx(t, items) == StartRunsTx(t, items[..n])
    decreases |items|
  {
    hide InsertRun, UpdateTask;
    if n == |items| {
      assert items[..n] == items;
    } else {
      var m := |items| - 1;
      StartsAborted(t, items[..m], n);
      assert items[..m][..n] == items[..n];
    }
  }
}
