// The SQL projection: ten tables as maps from primary keys to rows.  Besides the payload a row
// repeats some fields of the record in columns of its own.
module Tables {
  import opened Records
  import opened Domain
  import opened States

  datatype ProjectRow = ProjectRow(createdAt: Time, updatedAt: Time, payload: Project)

  // requirements (ranked by position), plans and contracts (ranked by version).
  datatype ListRow<+B> = ListRow(projectId: Id, rank: int, createdAt: Time, payload: Record<B>)

  datatype TaskRow = TaskRow(projectId: Id, status: TaskStatus, assignee: string, createdAt: Time, updatedAt: Time,
                             payload: Task)
  datatype RunRow = RunRow(projectId: Id, taskId: Id, status: RunStatus, createdAt: Time, updatedAt: Time, payload: Run)
  datatype ArtifactRow = ArtifactRow(projectId: Id, runId: Id, createdAt: Time, payload: Artifact)

  // The primary key of the three order tables.
  datatype Place = Place(projectId: Id, position: nat)

  datatype Tables = Tables(
    projects: map<Id, ProjectRow>,
    requirements: map<Id, ListRow<RequirementBody>>,
    plans: map<Id, ListRow<PlanBody>>,
    contracts: map<Id, ListRow<ContractBody>>,
    tasks: map<Id, TaskRow>,
    taskOrder: map<Place, Id>,
    runs: map<Id, RunRow>,
    runOrder: map<Place, Id>,
    artifacts: map<Id, ArtifactRow>,
    artifactOrder: map<Place, Id>)

  function ProjectRowOf(p: Project): ProjectRow {
    ProjectRow(p.createdAt, p.updatedAt, p)
  }

  function RequirementRowOf(p: Id, position: nat, r: Requirement): ListRow<RequirementBody> {
    ListRow(p, position, r.body.createdAt, r)
  }

  function PlanRowOf(p: Id, position: nat, r: Plan): ListRow<PlanBody> {
    ListRow(p, r.body.version, r.body.createdAt, r)
  }

  function ContractRowOf(p: Id, position: nat, r: Contract): ListRow<ContractBody> {
    ListRow(p, r.body.version, r.body.createdAt, r)
  }

  function TaskRowOf(t: Task): TaskRow {
    TaskRow(t.projectId, t.body.status, t.body.assignee, t.body.createdAt, t.body.updatedAt, t)
  }

  // repositoryRunUpdatedAt.
  function RunUpdatedAt(r: RunBody): Time {
    if r.endedAt.None? then r.startedAt else r.endedAt.value
  }

  function RunRowOf(r: Run): RunRow {
    RunRow(r.projectId, r.body.taskId, r.body.status, r.body.startedAt, RunUpdatedAt(r.body), r)
  }

  function ArtifactRowOf(a: Artifact): ArtifactRow {
    ArtifactRow(a.projectId, a.body.runId, a.body.createdAt, a)
  }

  // ----- The tables of a state ----------------------------------------------------------

  ghost function AllIds<B>(lists: map<Id, seq<Record<B>>>): set<Id> {
    set k, i | k in lists && 0 <= i < |lists[k]| :: lists[k][i].id
  }

  // No id is listed twice, be it in one list or in two.
  ghost predicate NoRepeats<B>(lists: map<Id, seq<Record<B>>>) {
    forall k, i, l, j | k in lists && 0 <= i < |lists[k]| && l in lists && 0 <= j < |lists[l]|
      && lists[k][i].id == lists[l][j].id ::
      k == l && i == j
  }

  ghost function Spot<B>(lists: map<Id, seq<Record<B>>>, x: Id): (s: Place)
    requires x in AllIds(lists)
    ensures s.projectId in lists && s.position < |lists[s.projectId]| && lists[s.projectId][s.position].id == x
  {
    var k, i :| k in lists && 0 <= i < |lists[k]| && lists[k][i].id == x;
    Place(k, i)
  }

  type Rower<!B> = (Id, nat, Record<B>) -> ListRow<B>

  ghost function ListTable<B>(lists: map<Id, seq<Record<B>>>, row: Rower<B>): map<Id, ListRow<B>> {
    map x | x in AllIds(lists) ::
      row(Spot(lists, x).projectId, Spot(lists, x).position, lists[Spot(lists, x).projectId][Spot(lists, x).position])
  }

  ghost function Places(order: map<Id, seq<Id>>): set<Place> {
    set p, i | p in order && 0 <= i < |order[p]| :: Place(p, i)
  }

  ghost function OrderTable(order: map<Id, seq<Id>>): map<Place, Id> {
    map q | q in Places(order) :: order[q.projectId][q.position]
  }

  function ItemTable<B, R>(items: map<Id, Record<B>>, row: Record<B> -> R): map<Id, R> {
    map x | x in items :: row(items[x])
  }

  function ProjectTable(projects: map<Id, Project>): map<Id, ProjectRow> {
    map p | p in projects :: ProjectRowOf(projects[p])
  }

  ghost function TablesOf(s: State): Tables {
    Tables(
      ProjectTable(s.projects), ListTable(s.requirements, RequirementRowOf), ListTable(s.plans, PlanRowOf),
      ListTable(s.contracts, ContractRowOf),
      ItemTable(s.tasks, TaskRowOf), OrderTable(s.taskOrder), ItemTable(s.runs, RunRowOf), OrderTable(s.runOrder),
      ItemTable(s.artifacts, ArtifactRowOf), OrderTable(s.artifactOrder))
  }

  // ----- How the tables grow ------------------------------------------------------------

  lemma SpotAt<B>(lists: map<Id, seq<Record<B>>>, k: Id, i: nat)
    requires NoRepeats(lists) && k in lists && i < |lists[k]|
    ensures lists[k][i].id in AllIds(lists) && Spot(lists, lists[k][i].id) == Place(k, i)
  {
  }

  lemma RowAt<B>(lists: map<Id, seq<Record<B>>>, row: Rower<B>, k: Id, i: nat)
    requires NoRepeats(lists) && k in lists && i < |lists[k]|
    ensures lists[k][i].id in ListTable(lists, row) && ListTable(lists, row)[lists[k][i].id] == row(k, i, lists[k][i])
  {
    SpotAt(lists, k, i);
  }

  lemma IdsGrow<B>(lists: map<Id, seq<Record<B>>>, k: Id, r: Record<B>)
    ensures AllIds(Appended(lists, k, r)) == AllIds(lists) + {r.id}
  {
    var n := Appended(lists, k, r);
    forall l, j | l in lists && 0 <= j < |lists[l]|
      ensures lists[l][j].id in AllIds(n) && lists[l][j].id in AllIds(lists)
    {
      assert n[l][j] == lists[l][j];
    }
    assert n[k][|Get(lists, k)|] == r;
  }

  lemma StillNoRepeats<B>(lists: map<Id, seq<Record<B>>>, k: Id, r: Record<B>)
    requires NoRepeats(lists) && r.id !in AllIds(lists)
    ensures NoRepeats(Appended(lists, k, r))
  {
    var n := Appended(lists, k, r);
    forall l, j | l in lists && 0 <= j < |lists[l]| ensures lists[l][j].id in AllIds(lists) && lists[l][j].id != r.id {}
  }

  // A record whose id is new adds one row and leaves the others alone.
  lemma ListGrows<B>(lists: map<Id, seq<Record<B>>>, row: Rower<B>, k: Id, r: Record<B>)
    requires NoRepeats(lists) && r.id !in AllIds(lists)
    ensures NoRepeats(Appended(lists, k, r)) && r.id !in ListTable(lists, row)
    ensures ListTable(Appended(lists, k, r), row) == ListTable(lists, row)[r.id := row(k, |Get(lists, k)|, r)]
  {
    hide NoRepeats, AllIds, Spot;
    var n := Appended(lists, k, r);
    IdsGrow(lists, k, r);
    StillNoRepeats(lists, k, r);
    hide Appended;
    var a, b := ListTable(n, row), ListTable(lists, row)[r.id := row(k, |Get(lists, k)|, r)];
    assert a.Keys == b.Keys;
    forall x | x in AllIds(n) ensures a[x] == b[x] {
      RowGrows(lists, row, k, r, x);
    }
  }

  lemma RowGrows<B>(lists: map<Id, seq<Record<B>>>, row: Rower<B>, k: Id, r: Record<B>, x: Id)
    requires NoRepeats(lists) && NoRepeats(Appended(lists, k, r)) && x in AllIds(Appended(lists, k, r))
    requires r.id !in AllIds(lists)
    requires x != r.id ==> x in AllIds(lists)
    ensures ListTable(Appended(lists, k, r), row)[x] == if x == r.id then row(k, |Get(lists, k)|, r)
      else ListTable(lists, row)[x]
  {
    hide NoRepeats, AllIds;
    var n := Appended(lists, k, r);
    if x == r.id {
      RowAt(n, row, k, |Get(lists, k)|);
    } else {
      var p := Spot(lists, x);
      RowAt(lists, row, p.projectId, p.position);
      RowAt(n, row, p.projectId, p.position);
    }
  }

  lemma OrderGrows(order: map<Id, seq<Id>>, p: Id, x: Id)
    ensures Place(p, |Get(order, p)|) !in OrderTable(order)
    ensures OrderTable(order[p := Get(order, p) + [x]]) == OrderTable(order)[Place(p, |Get(order, p)|) := x]
  {
    var n := order[p := Get(order, p) + [x]];
    assert forall q :: q in Places(n) <==> q in Places(order) || q == Place(p, |Get(order, p)|);
  }

  lemma ItemPut<B, R>(items: map<Id, Record<B>>, row: Record<B> -> R, x: Id, r: Record<B>)
    ensures ItemTable(items[x := r], row) == ItemTable(items, row)[x := row(r)]
  {
  }

  lemma ProjectPut(projects: map<Id, Project>, p: Project)
    ensures ProjectTable(projects[p.id := p]) == ProjectTable(projects)[p.id := ProjectRowOf(p)]
  {
  }

  lemma ListsDiffer<B>(lists: map<Id, seq<Record<B>>>, keys: set<Id>, home: map<Id, Id>)
    requires ListsOk(lists, keys, home)
    ensures NoRepeats(lists)
    ensures forall x | x in AllIds(lists) :: x in home
  {
  }

  // ----- What the columns say -----------------------------------------------------------

  ghost predicate RequirementFits(r: ListRow<RequirementBody>, x: Id, lists: map<Id, seq<Requirement>>) {
    && r.payload.id == x && r.createdAt == r.payload.body.createdAt && r.projectId in lists
    && 0 <= r.rank < |lists[r.projectId]| && lists[r.projectId][r.rank] == r.payload
  }

  ghost predicate PlanFits(r: ListRow<PlanBody>, x: Id, lists: map<Id, seq<Plan>>) {
    && r.payload.id == x && r.createdAt == r.payload.body.createdAt && r.rank == r.payload.body.version
    && r.projectId in lists && r.payload in lists[r.projectId]
  }

  ghost predicate ContractFits(r: ListRow<ContractBody>, x: Id, lists: map<Id, seq<Contract>>) {
    && r.payload.id == x && r.createdAt == r.payload.body.createdAt && r.rank == r.payload.body.version
    && r.projectId in lists && r.payload in lists[r.projectId]
  }

  ghost predicate TaskFits(r: TaskRow) {
    && r.projectId == r.payload.projectId && r.status == r.payload.body.status
    && r.assignee == r.payload.body.assignee && r.createdAt == r.payload.body.createdAt
    && r.updatedAt == r.payload.body.updatedAt
  }

  // A run was last updated when it ended, or else when it was started.
  ghost predicate RunFits(r: RunRow) {
    && r.projectId == r.payload.projectId && r.taskId == r.payload.body.taskId
    && r.status == r.payload.body.status && r.createdAt == r.payload.body.startedAt
    && (r.payload.body.endedAt == None ==> r.updatedAt == r.payload.body.startedAt)
    && (r.payload.body.endedAt != None ==> r.payload.body.endedAt == Some(r.updatedAt))
  }

  ghost predicate ArtifactFits(r: ArtifactRow) {
    && r.projectId == r.payload.projectId && r.runId == r.payload.body.runId
    && r.createdAt == r.payload.body.createdAt
  }

  lemma RequirementColumns(lists: map<Id, seq<Requirement>>, x: Id)
    requires x in ListTable(lists, RequirementRowOf)
    ensures RequirementFits(ListTable(lists, RequirementRowOf)[x], x, lists)
  {
    hide ListTable;
    var p, i := RowComesFrom(lists, RequirementRowOf, x);
  }

  lemma PlanColumns(lists: map<Id, seq<Plan>>, x: Id)
    requires x in ListTable(lists, PlanRowOf)
    ensures PlanFits(ListTable(lists, PlanRowOf)[x], x, lists)
  {
    hide ListTable;
    var p, i := RowComesFrom(lists, PlanRowOf, x);
  }

  lemma ContractColumns(lists: map<Id, seq<Contract>>, x: Id)
    requires x in ListTable(lists, ContractRowOf)
    ensures ContractFits(ListTable(lists, ContractRowOf)[x], x, lists)
  {
    hide ListTable;
    var p, i := RowComesFrom(lists, ContractRowOf, x);
  }

  ghost predicate ListedFit(t: Tables, s: State) {
    && (forall x | x in t.requirements :: RequirementFits(t.requirements[x], x, s.requirements))
    && (forall x | x in t.plans :: PlanFits(t.plans[x], x, s.plans))
    && (forall x | x in t.contracts :: ContractFits(t.contracts[x], x, s.contracts))
  }

  ghost predicate RecordsFit(t: Tables, s: State) {
    && (forall x | x in t.tasks :: TaskFits(t.tasks[x]) && x in s.tasks && t.tasks[x].payload == s.tasks[x])
    && (forall x | x in t.runs :: RunFits(t.runs[x]) && x in s.runs && t.runs[x].payload == s.runs[x])
    && (forall x | x in t.artifacts ::
          ArtifactFits(t.artifacts[x]) && x in s.artifacts && t.artifacts[x].payload == s.artifacts[x])
  }

  lemma ListedRowsFit(s: State)
    ensures ListedFit(TablesOf(s), s)
  {
    hide ListTable, OrderTable, ItemTable, RequirementFits, PlanFits, ContractFits;
    var t := TablesOf(s);
    forall x | x in t.requirements ensures RequirementFits(t.requirements[x], x, s.requirements) {
      RequirementColumns(s.requirements, x);
    }
    forall x | x in t.plans ensures PlanFits(t.plans[x], x, s.plans) {
      PlanColumns(s.plans, x);
    }
    forall x | x in t.contracts ensures ContractFits(t.contracts[x], x, s.contracts) {
      ContractColumns(s.contracts, x);
    }
  }

  lemma ItemRowsFit(s: State)
    ensures RecordsFit(TablesOf(s), s)
  {
    hide ListTable, OrderTable;
  }

  // Every column repeats what the record in its row says; requirements are ranked by their place in
  // the list, plans and contracts by their version.
  lemma ColumnsFit(s: State)
    ensures ListedFit(TablesOf(s), s) && RecordsFit(TablesOf(s), s)
  {
    ListedRowsFit(s);
    ItemRowsFit(s);
    hide ListedFit, RecordsFit, TablesOf;
  }

  lemma RowComesFrom<B>(lists: map<Id, seq<Record<B>>>, row: Rower<B>, x: Id) returns (p: Id, i: nat)
    requires x in ListTable(lists, row)
    ensures p in lists && i < |lists[p]| && lists[p][i].id == x && lists[p][i] in lists[p]
    ensures ListTable(lists, row)[x] == row(p, i, lists[p][i])
  {
    hide AllIds;
    p, i := Spot(lists, x).projectId, Spot(lists, x).position;
  }

  // The order tables hold the id at every place of every order, and nothing else.
  lemma PlacesFit(order: map<Id, seq<Id>>, q: Place)
    ensures q in OrderTable(order) <==> q.projectId in order && q.position < |order[q.projectId]|
    ensures q in OrderTable(order) ==> OrderTable(order)[q] == order[q.projectId][q.position]
  {
    if q.projectId in order && q.position < |order[q.projectId]| {
      assert q == Place(q.projectId, q.position);
    }
  }
}
