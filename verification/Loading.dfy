// Loading the projection: each query answers with the rows of a table, the listed ones ordered
// by rank within a project, and the loaders append what they read.
module Loading {
  import opened Records
  import opened Domain
  import opened Projects
  import opened Machine
  import opened MachineProofs
  import opened States
  import opened ServiceProofs
  import opened Tables

  datatype Ranked<+T> = Ranked(key: Id, rank: int, value: T)

  // Appending row by row to the list of the row's key.
  function Grouped<T>(rows: seq<Ranked<T>>): map<Id, seq<T>> {
    if rows == [] then map[]
    else
      var before := Grouped(rows[..|rows|-1]);
      var r := rows[|rows|-1];
      before[r.key := Get(before, r.key) + [r.value]]
  }

  // The rows are the ranked members of the lists, each once.
  ghost predicate Covers<T(!new)>(rows: seq<Ranked<T>>, lists: map<Id, seq<T>>, base: int) {
    && Distinct(rows)
    && (forall k, c | k in lists && 0 <= c < |lists[k]| :: Ranked(k, base + c, lists[k][c]) in rows)
    && (forall j | 0 <= j < |rows| ::
          && rows[j].key in lists && 0 <= rows[j].rank - base < |lists[rows[j].key]|
          && rows[j].value == lists[rows[j].key][rows[j].rank - base])
  }

  // ORDER BY project, rank; the order of the projects does not matter.
  ghost predicate InOrder<T>(rows: seq<Ranked<T>>) {
    forall i, j | 0 <= i < j < |rows| && rows[i].key == rows[j].key :: rows[i].rank <= rows[j].rank
  }

  lemma RowOf<T(!new)>(rows: seq<Ranked<T>>, lists: map<Id, seq<T>>, base: int, k: Id, c: nat) returns (j: nat)
    requires Covers(rows, lists, base) && c < |Get(lists, k)|
    ensures j < |rows| && rows[j] == Ranked(k, base + c, Get(lists, k)[c])
  {
    assert Ranked(k, base + c, lists[k][c]) in rows;
    j :| 0 <= j < |rows| && rows[j] == Ranked(k, base + c, lists[k][c]);
  }

  lemma RowIs<T(!new)>(rows: seq<Ranked<T>>, lists: map<Id, seq<T>>, base: int, i: nat)
    requires Covers(rows, lists, base) && i < |rows|
    ensures rows[i] !in rows[..i]
    ensures var r := rows[i]; 0 <= r.rank - base < |Get(lists, r.key)| && r.value == Get(lists, r.key)[r.rank - base]
  {
  }

  // After the first i rows each list is a prefix of the original ...
  ghost predicate PrefixesOf<T(!new)>(got: map<Id, seq<T>>, lists: map<Id, seq<T>>) {
    forall k :: Get(got, k) <= Get(lists, k)
  }

  // ... and exactly the rows of that prefix have been read.
  ghost predicate ReachedBy<T>(rows: seq<Ranked<T>>, base: int, got: map<Id, seq<T>>) {
    forall j | 0 <= j < |rows| :: rows[j].rank - base < |Get(got, rows[j].key)|
  }

  ghost predicate FoundIn<T(!new)>(rows: seq<Ranked<T>>, base: int, got: map<Id, seq<T>>) {
    forall k, c | 0 <= c < |Get(got, k)| :: Ranked(k, base + c, Get(got, k)[c]) in rows
  }

  ghost predicate Prefixes<T(!new)>(rows: seq<Ranked<T>>, lists: map<Id, seq<T>>, base: int, got: map<Id, seq<T>>) {
    PrefixesOf(got, lists) && ReachedBy(rows, base, got) && FoundIn(rows, base, got)
  }

  lemma FoundAt<T(!new)>(rows: seq<Ranked<T>>, base: int, got: map<Id, seq<T>>, k: Id, c: nat)
    requires FoundIn(rows, base, got) && c < |Get(got, k)|
    ensures Ranked(k, base + c, Get(got, k)[c]) in rows
  {
  }

  lemma ReachedAt<T>(rows: seq<Ranked<T>>, i: nat, base: int, got: map<Id, seq<T>>, j: nat)
    requires j < i <= |rows| && ReachedBy(rows[..i], base, got)
    ensures rows[j].rank - base < |Get(got, rows[j].key)|
  {
    assert rows[..i][j] == rows[j];
  }

  lemma OrderAt<T>(rows: seq<Ranked<T>>, i: nat, j: nat)
    requires InOrder(rows) && i < j < |rows| && rows[i].key == rows[j].key
    ensures rows[i].rank <= rows[j].rank
  {
  }

  lemma PrefixAt<T(!new)>(got: map<Id, seq<T>>, lists: map<Id, seq<T>>, k: Id)
    requires PrefixesOf(got, lists)
    ensures Get(got, k) <= Get(lists, k)
  {
  }

  // The next row continues its list.
  lemma NextInList<T(!new)>(rows: seq<Ranked<T>>, lists: map<Id, seq<T>>, base: int, i: nat, got: map<Id, seq<T>>)
    requires Covers(rows, lists, base) && InOrder(rows) && i < |rows| && Prefixes(rows[..i], lists, base, got)
    ensures var k := rows[i].key;
      rows[i].rank - base == |Get(got, k)| < |Get(lists, k)| && rows[i].value == Get(lists, k)[|Get(got, k)|]
  {
    hide Covers, Get, PrefixesOf, ReachedBy, FoundIn, InOrder;
    var k := rows[i].key;
    var c, d := |Get(got, k)|, rows[i].rank - base;
    RowIs(rows, lists, base, i);
    PrefixAt(got, lists, k);
    if d < c {
      FoundAt(rows[..i], base, got, k, d);
    }
    if c < d {
      var j := RowOf(rows, lists, base, k, c);
      if j < i {
        ReachedAt(rows, i, base, got, j);
      } else if i < j {
        OrderAt(rows, i, j);
      }
    }
  }

  function Fed<T>(got: map<Id, seq<T>>, r: Ranked<T>): map<Id, seq<T>> {
    got[r.key := Get(got, r.key) + [r.value]]
  }

  lemma FedGet<T>(got: map<Id, seq<T>>, r: Ranked<T>, k: Id)
    ensures Get(Fed(got, r), k) == if k == r.key then Get(got, k) + [r.value] else Get(got, k)
  {
  }

  lemma StaysPrefix<T(!new)>(lists: map<Id, seq<T>>, got: map<Id, seq<T>>, r: Ranked<T>)
    requires PrefixesOf(got, lists) && |Get(got, r.key)| < |Get(lists, r.key)|
    requires r.value == Get(lists, r.key)[|Get(got, r.key)|]
    ensures PrefixesOf(Fed(got, r), lists)
  {
    hide Fed, Get;
    forall k ensures Get(Fed(got, r), k) <= Get(lists, k) {
      FedGet(got, r, k);
    }
  }

  lemma StaysReached<T(!new)>(rows: seq<Ranked<T>>, base: int, got: map<Id, seq<T>>, r: Ranked<T>)
    requires ReachedBy(rows, base, got) && r.rank - base == |Get(got, r.key)|
    ensures ReachedBy(rows + [r], base, Fed(got, r))
  {
    hide Fed, Get;
    var s := rows + [r];
    forall j | 0 <= j < |s| ensures s[j].rank - base < |Get(Fed(got, r), s[j].key)| {
      FedGet(got, r, s[j].key);
    }
  }

  lemma StaysFound<T(!new)>(rows: seq<Ranked<T>>, base: int, got: map<Id, seq<T>>, r: Ranked<T>)
    requires FoundIn(rows, base, got) && r.rank - base == |Get(got, r.key)|
    ensures FoundIn(rows + [r], base, Fed(got, r))
  {
    hide Fed, Get;
    forall k, c | 0 <= c < |Get(Fed(got, r), k)| ensures Ranked(k, base + c, Get(Fed(got, r), k)[c]) in rows + [r] {
      FedGet(got, r, k);
      assert c < |Get(got, k)| ==> Ranked(k, base + c, Get(got, k)[c]) in rows;
    }
  }

  lemma PrefixGrows<T(!new)>(rows: seq<Ranked<T>>, lists: map<Id, seq<T>>, base: int, got: map<Id, seq<T>>,
                             r: Ranked<T>)
    requires Prefixes(rows, lists, base, got)
    requires r.rank - base == |Get(got, r.key)| < |Get(lists, r.key)| && r.value == Get(lists, r.key)[|Get(got, r.key)|]
    ensures Prefixes(rows + [r], lists, base, Fed(got, r))
  {
    hide Fed, Get, PrefixesOf, ReachedBy, FoundIn;
    StaysPrefix(lists, got, r);
    StaysReached(rows, base, got, r);
    StaysFound(rows, base, got, r);
  }

  lemma NothingRead<T(!new)>(lists: map<Id, seq<T>>, base: int)
    ensures Prefixes([], lists, base, Grouped([]))
  {
  }

  lemma {:induction false} AllPrefixes<T(!new)>(rows: seq<Ranked<T>>, lists: map<Id, seq<T>>, base: int, i: nat)
    requires Covers(rows, lists, base) && InOrder(rows) && i <= |rows|
    ensures Prefixes(rows[..i], lists, base, Grouped(rows[..i]))
  {
    hide Covers, InOrder, Get, Prefixes, Grouped;
    if i == 0 {
      assert rows[..0] == [];
      NothingRead(lists, base);
    } else {
      var before, r := rows[..i-1], rows[i-1];
      AllPrefixes(rows, lists, base, i - 1);
      NextInList(rows, lists, base, i - 1, Grouped(before));
      PrefixGrows(before, lists, base, Grouped(before), r);
      assert rows[..i] == before + [r];
      GroupedNext(before, r);
    }
  }

  lemma GroupedNext<T>(rows: seq<Ranked<T>>, r: Ranked<T>)
    ensures Grouped(rows + [r]) == Fed(Grouped(rows), r)
  {
    assert (rows + [r])[..|rows|] == rows;
  }

  // Reading the rows in order gives every list back; a missing key reads as an empty list.
  lemma GroupedBack<T(!new)>(rows: seq<Ranked<T>>, lists: map<Id, seq<T>>, base: int)
    requires Covers(rows, lists, base) && InOrder(rows)
    ensures forall k :: Get(Grouped(rows), k) == Get(lists, k)
  {
    AllPrefixes(rows, lists, base, |rows|);
    assert rows[..|rows|] == rows;
    forall k ensures Get(Grouped(rows), k) == Get(lists, k) {
      ListBack(rows, lists, base, Grouped(rows), k);
    }
  }

  lemma ListBack<T(!new)>(rows: seq<Ranked<T>>, lists: map<Id, seq<T>>, base: int, got: map<Id, seq<T>>, k: Id)
    requires Covers(rows, lists, base) && Prefixes(rows, lists, base, got)
    ensures Get(got, k) == Get(lists, k)
  {
    hide Covers, PrefixesOf, ReachedBy, FoundIn, Get;
    PrefixAt(got, lists, k);
    if Get(lists, k) != [] {
      var j := RowOf(rows, lists, base, k, |Get(lists, k)| - 1);
      assert rows[..|rows|] == rows;
      ReachedAt(rows, |rows|, base, got, j);
    }
  }

  // ----- The queries and the loaders ----------------------------------------------------

  ghost predicate ListAnswer<B>(rows: seq<ListRow<B>>, table: map<Id, ListRow<B>>) {
    && Distinct(rows)
    && (forall j | 0 <= j < |rows| :: rows[j].payload.id in table && table[rows[j].payload.id] == rows[j])
    && (forall x | x in table :: table[x] in rows)
    && (forall i, j | 0 <= i < j < |rows| && rows[i].projectId == rows[j].projectId :: rows[i].rank <= rows[j].rank)
  }

  ghost predicate OrderAnswer(rows: seq<Ranked<Id>>, table: map<Place, Id>) {
    && Distinct(rows) && InOrder(rows)
    && (forall j | 0 <= j < |rows| ::
          && rows[j].rank >= 0 && Place(rows[j].key, rows[j].rank) in table
          && table[Place(rows[j].key, rows[j].rank)] == rows[j].value)
    && (forall q | q in table :: Ranked(q.projectId, q.position, table[q]) in rows)
  }

  ghost predicate ItemAnswer<R(!new)>(rows: seq<R>, table: map<Id, R>) {
    && (forall j | 0 <= j < |rows| :: exists x: Id :: x in table && table[x] == rows[j])
    && forall x | x in table :: table[x] in rows
  }

  datatype Answers = Answers(
    projects: seq<ProjectRow>,
    requirements: seq<ListRow<RequirementBody>>,
    plans: seq<ListRow<PlanBody>>,
    contracts: seq<ListRow<ContractBody>>,
    tasks: seq<TaskRow>,
    taskOrder: seq<Ranked<Id>>,
    runs: seq<RunRow>,
    runOrder: seq<Ranked<Id>>,
    artifacts: seq<ArtifactRow>,
    artifactOrder: seq<Ranked<Id>>)

  // The answers of the ten queries; rows that tie may come in any order.
  ghost predicate Answered(t: Tables, a: Answers) {
    && ItemAnswer(a.projects, t.projects)
    && ListAnswer(a.requirements, t.requirements) && ListAnswer(a.plans, t.plans)
    && ListAnswer(a.contracts, t.contracts)
    && ItemAnswer(a.tasks, t.tasks) && ItemAnswer(a.runs, t.runs) && ItemAnswer(a.artifacts, t.artifacts)
    && OrderAnswer(a.taskOrder, t.taskOrder) && OrderAnswer(a.runOrder, t.runOrder)
    && OrderAnswer(a.artifactOrder, t.artifactOrder)
  }

  // A loaded record is filed under the project its payload names.
  function Views<B>(rows: seq<ListRow<B>>): (v: seq<Ranked<Record<B>>>)
    ensures |v| == |rows|
    ensures forall j | 0 <= j < |rows| :: v[j] == Ranked(rows[j].payload.projectId, rows[j].rank, rows[j].payload)
  {
    seq(|rows|, j requires 0 <= j < |rows| => Ranked(rows[j].payload.projectId, rows[j].rank, rows[j].payload))
  }

  method LoadLists<B>(rows: seq<ListRow<B>>) returns (lists: map<Id, seq<Record<B>>>)
    ensures lists == Grouped(Views(rows))
  {
    lists := map[];
    for i := 0 to |rows|
      invariant lists == Grouped(Views(rows)[..i])
    {
      var r := rows[i].payload;
      assert Views(rows)[..i+1] == Views(rows)[..i] + [Views(rows)[i]];
      GroupedNext(Views(rows)[..i], Views(rows)[i]);
      lists := lists[r.projectId := Get(lists, r.projectId) + [r]];
    }
    assert Views(rows)[..|rows|] == Views(rows);
  }

  method LoadOrder(rows: seq<Ranked<Id>>) returns (order: map<Id, seq<Id>>)
    ensures order == Grouped(rows)
  {
    order := map[];
    for i := 0 to |rows|
      invariant order == Grouped(rows[..i])
    {
      assert rows[..i+1] == rows[..i] + [rows[i]];
      GroupedNext(rows[..i], rows[i]);
      order := order[rows[i].key := Get(order, rows[i].key) + [rows[i].value]];
    }
    assert rows[..|rows|] == rows;
  }

  function Payloads<B, R>(rows: seq<R>, payload: R -> Record<B>): (v: seq<Record<B>>)
    ensures |v| == |rows| && forall j | 0 <= j < |rows| :: v[j] == payload(rows[j])
  {
    seq(|rows|, j requires 0 <= j < |rows| => payload(rows[j]))
  }

  // Each record under its own id.
  function ById<B>(records: seq<Record<B>>): map<Id, Record<B>> {
    if records == [] then map[]
    else ById(records[..|records|-1])[records[|records|-1].id := records[|records|-1]]
  }

  method LoadItems<B, R>(rows: seq<R>, payload: R -> Record<B>) returns (items: map<Id, Record<B>>)
    ensures items == ById(Payloads(rows, payload))
  {
    items := map[];
    for i := 0 to |rows|
      invariant items == ById(Payloads(rows, payload)[..i])
    {
      var r := payload(rows[i]);
      assert Payloads(rows, payload)[..i+1][..i] == Payloads(rows, payload)[..i];
      items := items[r.id := r];
    }
    assert Payloads(rows, payload)[..|rows|] == Payloads(rows, payload);
  }

  lemma {:induction false} ByIdHas<B>(records: seq<Record<B>>, items: map<Id, Record<B>>)
    requires forall j | 0 <= j < |records| :: records[j].id in items && items[records[j].id] == records[j]
    ensures forall x | x in ById(records) :: x in items && ById(records)[x] == items[x]
    ensures forall j | 0 <= j < |records| :: records[j].id in ById(records)
  {
    if records == [] {
    } else {
      var n := |records| - 1;
      ByIdHas(records[..n], items);
      forall j | 0 <= j < n ensures records[j].id in ById(records) {
        assert records[..n][j] == records[j];
      }
    }
  }

  // Reading the rows of a table of items in any order gives the items back.
  lemma ItemsBack<B(!new), R(!new)>(items: map<Id, Record<B>>, row: Record<B> -> R, payload: R -> Record<B>,
                                    rows: seq<R>)
    requires ItemAnswer(rows, ItemTable(items, row))
    requires forall x | x in items :: items[x].id == x && payload(row(items[x])) == items[x]
    ensures ById(Payloads(rows, payload)) == items
  {
    var records := Payloads(rows, payload);
    forall j | 0 <= j < |records| ensures records[j].id in items && items[records[j].id] == records[j] {
      var x :| x in ItemTable(items, row) && ItemTable(items, row)[x] == rows[j];
    }
    ByIdHas(records, items);
    forall x | x in items ensures x in ById(records) {
      assert ItemTable(items, row)[x] in rows;
      var j :| 0 <= j < |rows| && rows[j] == row(items[x]);
      assert records[j] == items[x];
    }
    var a := ById(records);
    forall x | x in a ensures x in items && a[x] == items[x] {}
    SameMap(a, items);
  }

  lemma SameMap<K(!new), V>(a: map<K, V>, b: map<K, V>)
    requires (forall x | x in a :: x in b && a[x] == b[x]) && forall x | x in b :: x in a
    ensures a == b
  {
  }

  function ProjectsById(rows: seq<ProjectRow>): map<Id, Project> {
    if rows == [] then map[]
    else ProjectsById(rows[..|rows|-1])[rows[|rows|-1].payload.id := rows[|rows|-1].payload]
  }

  method LoadProjects(rows: seq<ProjectRow>) returns (projects: map<Id, Project>)
    ensures projects == ProjectsById(rows)
  {
    projects := map[];
    for i := 0 to |rows|
      invariant projects == ProjectsById(rows[..i])
    {
      assert rows[..i+1][..i] == rows[..i];
      projects := projects[rows[i].payload.id := rows[i].payload];
    }
    assert rows[..|rows|] == rows;
  }

  lemma {:induction false} ProjectsHave(rows: seq<ProjectRow>, projects: map<Id, Project>)
    requires forall j | 0 <= j < |rows| ::
      rows[j].payload.id in projects && projects[rows[j].payload.id] == rows[j].payload
    ensures forall p | p in ProjectsById(rows) :: p in projects && ProjectsById(rows)[p] == projects[p]
    ensures forall j | 0 <= j < |rows| :: rows[j].payload.id in ProjectsById(rows)
  {
    if rows == [] {
    } else {
      var n := |rows| - 1;
      ProjectsHave(rows[..n], projects);
      forall j | 0 <= j < n ensures rows[j].payload.id in ProjectsById(rows) {
        assert rows[..n][j] == rows[j];
      }
    }
  }

  lemma ProjectsBack(projects: map<Id, Project>, rows: seq<ProjectRow>)
    requires ItemAnswer(rows, ProjectTable(projects)) && forall p | p in projects :: projects[p].id == p
    ensures ProjectsById(rows) == projects
  {
    forall j | 0 <= j < |rows|
      ensures rows[j].payload.id in projects && projects[rows[j].payload.id] == rows[j].payload
    {
      assert rows[j] in ProjectTable(projects).Values;
      var p :| p in ProjectTable(projects) && ProjectTable(projects)[p] == rows[j];
    }
    ProjectsHave(rows, projects);
    forall p | p in projects ensures p in ProjectsById(rows) {
      assert ProjectTable(projects)[p] in rows;
      var j :| 0 <= j < |rows| && rows[j] == ProjectRowOf(projects[p]);
    }
    var a := ProjectsById(rows);
    forall p | p in a ensures p in projects && a[p] == projects[p] {}
    SameMap(a, projects);
  }

  lemma OrdersBack(order: map<Id, seq<Id>>, rows: seq<Ranked<Id>>)
    requires OrderAnswer(rows, OrderTable(order))
    ensures forall p :: Get(Grouped(rows), p) == Get(order, p)
  {
    forall p, c | p in order && 0 <= c < |order[p]| ensures Ranked(p, c, order[p][c]) in rows {
      assert Place(p, c) in OrderTable(order);
    }
    assert Covers(rows, order, 0);
    GroupedBack(rows, order, 0);
  }

  // The rank runs through base, base + 1, ... along each list, and the row names the project of
  // the record.
  ghost predicate RanksRun<B(!new)>(lists: map<Id, seq<Record<B>>>, row: Rower<B>, base: int) {
    forall k, c | k in lists && 0 <= c < |lists[k]| ::
      var r := row(k, c, lists[k][c]);
      r.rank == base + c && r.projectId == k && r.payload == lists[k][c] && r.payload.projectId == k
  }

  lemma ListsBack<B(!new)>(lists: map<Id, seq<Record<B>>>, row: Rower<B>, base: int, rows: seq<ListRow<B>>)
    requires NoRepeats(lists) && RanksRun(lists, row, base) && ListAnswer(rows, ListTable(lists, row))
    ensures forall k :: Get(Grouped(Views(rows)), k) == Get(lists, k)
  {
    ViewsCover(lists, row, base, rows);
    hide Covers, NoRepeats, ListTable, Views, Get, Grouped, RanksRun, ListAnswer, InOrder;
    GroupedBack(Views(rows), lists, base);
  }

  lemma ViewsCover<B(!new)>(lists: map<Id, seq<Record<B>>>, row: Rower<B>, base: int, rows: seq<ListRow<B>>)
    requires NoRepeats(lists) && RanksRun(lists, row, base) && ListAnswer(rows, ListTable(lists, row))
    ensures Covers(Views(rows), lists, base) && InOrder(Views(rows))
  {
    var views := Views(rows);
    ViewsDiffer(lists, row, base, rows);
    hide *;
    forall j | 0 <= j < |rows| ensures Drawn(views[j], lists, base) && rows[j].projectId == views[j].key {
      RowFrom(lists, row, base, rows, j);
    }
    forall k, c | k in lists && 0 <= c < |lists[k]| ensures Ranked(k, base + c, lists[k][c]) in views {
      var j := ViewOf(lists, row, base, rows, k, c);
    }
    CoversBy(views, lists, base);
    InOrderBy(rows);
  }

  // The view is a ranked member of the lists.
  ghost predicate Drawn<T(!new)>(v: Ranked<T>, lists: map<Id, seq<T>>, base: int) {
    v.key in lists && 0 <= v.rank - base < |lists[v.key]| && v.value == lists[v.key][v.rank - base]
  }

  lemma CoversBy<T(!new)>(rows: seq<Ranked<T>>, lists: map<Id, seq<T>>, base: int)
    requires Distinct(rows)
    requires forall k, c | k in lists && 0 <= c < |lists[k]| :: Ranked(k, base + c, lists[k][c]) in rows
    requires forall j | 0 <= j < |rows| :: Drawn(rows[j], lists, base)
    ensures Covers(rows, lists, base)
  {
  }

  lemma InOrderBy<B(!new)>(rows: seq<ListRow<B>>)
    requires forall j | 0 <= j < |rows| :: rows[j].projectId == Views(rows)[j].key
    requires forall i, j | 0 <= i < j < |rows| && rows[i].projectId == rows[j].projectId :: rows[i].rank <= rows[j].rank
    ensures InOrder(Views(rows))
  {
  }

  lemma ViewOf<B(!new)>(lists: map<Id, seq<Record<B>>>, row: Rower<B>, base: int, rows: seq<ListRow<B>>, k: Id,
                        c: nat) returns (j: nat)
    requires NoRepeats(lists) && RanksRun(lists, row, base) && ListAnswer(rows, ListTable(lists, row)) && k in lists
    requires c < |lists[k]|
    ensures j < |rows| && Views(rows)[j] == Ranked(k, base + c, lists[k][c])
  {
    hide NoRepeats, AllIds;
    RowAt(lists, row, k, c);
    j :| 0 <= j < |rows| && rows[j] == ListTable(lists, row)[lists[k][c].id];
  }

  lemma ViewsDiffer<B(!new)>(lists: map<Id, seq<Record<B>>>, row: Rower<B>, base: int, rows: seq<ListRow<B>>)
    requires ListAnswer(rows, ListTable(lists, row))
    ensures Distinct(Views(rows))
    ensures (forall i,
             j | 0 <= i < j < |rows| && rows[i].projectId == rows[j].projectId :: rows[i].rank <= rows[j].rank)
  {
    hide NoRepeats, AllIds, ListTable;
  }

  lemma RowFrom<B(!new)>(lists: map<Id, seq<Record<B>>>, row: Rower<B>, base: int, rows: seq<ListRow<B>>, j: nat)
    requires NoRepeats(lists) && RanksRun(lists, row, base) && ListAnswer(rows, ListTable(lists, row)) && j < |rows|
    ensures Drawn(Views(rows)[j], lists, base) && rows[j].projectId == Views(rows)[j].key
  {
    hide NoRepeats, AllIds;
    var x := rows[j].payload.id;
    var p := Spot(lists, x);
    RowAt(lists, row, p.projectId, p.position);
  }

  // ----- The round trip -----------------------------------------------------------------

  // The legacy state with the projected parts loaded over it.
  function LoadedState(legacy: State, a: Answers): State {
    legacy.(
      projects := ProjectsById(a.projects),
      requirements := Grouped(Views(a.requirements)), plans := Grouped(Views(a.plans)),
      contracts := Grouped(Views(a.contracts)),
      tasks := ById(Payloads(a.tasks, (r: TaskRow) => r.payload)), taskOrder := Grouped(a.taskOrder),
      runs := ById(Payloads(a.runs, (r: RunRow) => r.payload)), runOrder := Grouped(a.runOrder),
      artifacts := ById(Payloads(a.artifacts, (r: ArtifactRow) => r.payload)),
      artifactOrder := Grouped(a.artifactOrder))
  }

  // loadServiceStateProjection.
  method LoadProjection(legacy: State, a: Answers) returns (s: State)
    ensures s == LoadedState(legacy, a)
  {
    hide ProjectsById, Grouped, Views, ById, Payloads;
    var projects := LoadProjects(a.projects);
    var requirements := LoadLists(a.requirements);
    var plans := LoadLists(a.plans);
    var contracts := LoadLists(a.contracts);
    var tasks := LoadItems(a.tasks, (r: TaskRow) => r.payload);
    var taskOrder := LoadOrder(a.taskOrder);
    var runs := LoadItems(a.runs, (r: RunRow) => r.payload);
    var runOrder := LoadOrder(a.runOrder);
    var artifacts := LoadItems(a.artifacts, (r: ArtifactRow) => r.payload);
    var artifactOrder := LoadOrder(a.artifactOrder);
    s := legacy.(projects := projects, requirements := requirements, plans := plans, contracts := contracts,
                 tasks := tasks, taskOrder := taskOrder, runs := runs, runOrder := runOrder,
                 artifacts := artifacts, artifactOrder := artifactOrder);
  }

  ghost predicate SameLists<T(!new)>(a: map<Id, seq<T>>, b: map<Id, seq<T>>) {
    forall k :: Get(a, k) == Get(b, k)
  }

  // The same state, a missing list being an empty one.
  ghost predicate SameState(m: State, s: State) {
    && m.projects == s.projects && m.tasks == s.tasks && m.runs == s.runs && m.artifacts == s.artifacts
    && SameLists(m.requirements, s.requirements) && SameLists(m.plans, s.plans) && SameLists(m.contracts, s.contracts)
    && SameLists(m.taskOrder, s.taskOrder) && SameLists(m.runOrder, s.runOrder)
    && SameLists(m.artifactOrder, s.artifactOrder)
    && m == s.(requirements := m.requirements, plans := m.plans, contracts := m.contracts,
               taskOrder := m.taskOrder, runOrder := m.runOrder, artifactOrder := m.artifactOrder)
  }

  // Plans and contracts carry the versions 1, 2, ... along their lists.
  ghost predicate RowsRun(s: State) {
    && RanksRun(s.requirements, RequirementRowOf, 0)
    && RanksRun(s.plans, PlanRowOf, 1)
    && RanksRun(s.contracts, ContractRowOf, 1)
  }

  lemma PlansRanked(lists: map<Id, seq<Plan>>)
    requires forall k, c | k in lists && 0 <= c < |lists[k]| ::
      lists[k][c].body.version == 1 + c && lists[k][c].projectId == k
    ensures RanksRun(lists, PlanRowOf, 1)
  {
  }

  lemma ContractsRanked(lists: map<Id, seq<Contract>>)
    requires forall k, c | k in lists && 0 <= c < |lists[k]| ::
      lists[k][c].body.version == 1 + c && lists[k][c].projectId == k
    ensures RanksRun(lists, ContractRowOf, 1)
  {
  }

  lemma RequirementsRanked(lists: map<Id, seq<Requirement>>)
    requires forall k | k in lists :: Filed(lists[k], k)
    ensures RanksRun(lists, RequirementRowOf, 0)
  {
  }

  lemma SoundRows(s: State, x: Index, execs: map<Id, Executor>, owner: map<Id, Id>, home: map<Id, Id>, n: Id)
    requires Sound(s, x, execs, owner, home, n)
    ensures RowsRun(s) && NoRepeats(s.requirements) && NoRepeats(s.plans) && NoRepeats(s.contracts)
  {
    hide Inv, Indexed, StatesHomed, WorldOf, NoRepeats, LedgerOk;
    ListsDiffer(s.requirements, s.projects.Keys, owner);
    ListsDiffer(s.plans, s.projects.Keys, owner);
    ListsDiffer(s.contracts, s.projects.Keys, owner);
    forall p | p in s.projects
      ensures Filed(Get(s.requirements, p), p) && Filed(Get(s.plans, p), p) && Filed(Get(s.contracts, p), p)
      ensures PlansOk(ProjectOf(s, p))
    {
      ProjectGood(s, execs, owner, n, p);
      hide Protocol, DepsOk, OrderOk, AuditsOk, ContextsOk, Filed, PlansOk, SliceOk;
    }
    forall k, c | k in s.plans && 0 <= c < |s.plans[k]|
      ensures s.plans[k][c].body.version == 1 + c && s.plans[k][c].projectId == k
    {
      assert ProjectOf(s, k).plans[c].body.version == c + 1;
    }
    forall k, c | k in s.contracts && 0 <= c < |s.contracts[k]|
      ensures s.contracts[k][c].body.version == 1 + c && s.contracts[k][c].projectId == k
    {
      assert ProjectOf(s, k).contracts[c].body.version == c + 1;
    }
    hide Filed, RanksRun, FlatOk, PlansOk, ProjectOf;
    RequirementsRanked(s.requirements);
    PlansRanked(s.plans);
    ContractsRanked(s.contracts);
  }

  lemma ItemsLoaded(s: State, owner: map<Id, Id>, a: Answers)
    requires LedgersOk(s, owner) && (forall p | p in s.projects :: s.projects[p].id == p) && Answered(TablesOf(s), a)
    ensures ProjectsById(a.projects) == s.projects
    ensures ById(Payloads(a.tasks, (r: TaskRow) => r.payload)) == s.tasks
    ensures ById(Payloads(a.runs, (r: RunRow) => r.payload)) == s.runs
    ensures ById(Payloads(a.artifacts, (r: ArtifactRow) => r.payload)) == s.artifacts
  {
    hide ItemAnswer, ListAnswer, OrderAnswer, ItemTable, ListTable, OrderTable, ProjectTable, ById, Payloads,
      ProjectsById;
    ProjectsBack(s.projects, a.projects);
    ItemsBack(s.tasks, TaskRowOf, (r: TaskRow) => r.payload, a.tasks);
    ItemsBack(s.runs, RunRowOf, (r: RunRow) => r.payload, a.runs);
    ItemsBack(s.artifacts, ArtifactRowOf, (r: ArtifactRow) => r.payload, a.artifacts);
  }

  lemma ListsLoaded(s: State, a: Answers)
    requires RowsRun(s) && NoRepeats(s.requirements) && NoRepeats(s.plans) && NoRepeats(s.contracts)
    requires Answered(TablesOf(s), a)
    ensures SameLists(Grouped(Views(a.requirements)), s.requirements) && SameLists(Grouped(Views(a.plans)), s.plans)
    ensures SameLists(Grouped(Views(a.contracts)), s.contracts)
    ensures SameLists(Grouped(a.taskOrder), s.taskOrder) && SameLists(Grouped(a.runOrder), s.runOrder)
    ensures SameLists(Grouped(a.artifactOrder), s.artifactOrder)
  {
    hide ItemAnswer, ListAnswer, OrderAnswer, ItemTable, ListTable, OrderTable, ProjectTable, Grouped, Views, RanksRun,
      NoRepeats, Get;
    ListsBack(s.requirements, RequirementRowOf, 0, a.requirements);
    ListsBack(s.plans, PlanRowOf, 1, a.plans);
    ListsBack(s.contracts, ContractRowOf, 1, a.contracts);
    OrdersBack(s.taskOrder, a.taskOrder);
    OrdersBack(s.runOrder, a.runOrder);
    OrdersBack(s.artifactOrder, a.artifactOrder);
  }

  // Saving a state and loading the projection over the legacy payload gives the state back, and
  // with it the same world; whatever projected parts the legacy payload holds are overwritten.
  lemma LoadSaved(s: State, x: Index, execs: map<Id, Executor>, owner: map<Id, Id>, home: map<Id, Id>, n: Id,
                  legacy: State, a: Answers)
    requires Sound(s, x, execs, owner, home, n) && Answered(TablesOf(s), a)
    requires s
      == legacy.(projects := s.projects, requirements := s.requirements, plans := s.plans, contracts := s.contracts,
                          tasks := s.tasks, taskOrder := s.taskOrder, runs := s.runs, runOrder := s.runOrder,
                          artifacts := s.artifacts, artifactOrder := s.artifactOrder)
    ensures SameState(LoadedState(legacy, a), s)
    ensures WorldOf(LoadedState(legacy, a), execs, owner, n) == WorldOf(s, execs, owner, n)
  {
    SoundRows(s, x, execs, owner, home, n);
    hide Answered, TablesOf, RowsRun, NoRepeats, Indexed, Inv, StatesHomed, WorldOf, ById, Payloads, Grouped, Views,
      ProjectsById, SameLists;
    ItemsLoaded(s, owner, a);
    ListsLoaded(s, a);
    SameWorld(LoadedState(legacy, a), s, execs, owner, n);
  }

  lemma SameWorld(m: State, s: State, execs: map<Id, Executor>, owner: map<Id, Id>, n: Id)
    requires SameState(m, s)
    ensures WorldOf(m, execs, owner, n) == WorldOf(s, execs, owner, n)
  {
    hide ProjectOf, TimelineIn;
    SameParts(m, s);
    hide LiveIn, TimelinesIn;
  }

  lemma SameParts(m: State, s: State)
    requires SameState(m, s)
    ensures LiveIn(m) == LiveIn(s) && TimelinesIn(m) == TimelinesIn(s)
  {
    forall p | p in s.projects ensures ProjectOf(m, p) == ProjectOf(s, p) && TimelineIn(m, p) == TimelineIn(s, p) {
      hide SliceOf, ContextsOf;
      SameProject(m, s, p);
    }
    hide ProjectOf, TimelineIn;
  }

  lemma SameProject(m: State, s: State, p: Id)
    requires SameState(m, s) && p in s.projects
    ensures ProjectOf(m, p) == ProjectOf(s, p)
  {
    assert Get(m.taskOrder, p) == Get(s.taskOrder, p) && Get(m.runOrder, p) == Get(s.runOrder, p);
    assert Get(m.artifactOrder, p) == Get(s.artifactOrder, p);
    assert Get(m.requirements, p) == Get(s.requirements, p) && Get(m.plans, p) == Get(s.plans, p);
    assert Get(m.contracts, p) == Get(s.contracts, p);
  }
}
