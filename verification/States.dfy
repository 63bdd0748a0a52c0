// The flat state of the service, as it is captured and persisted: global maps of records, one
// order or list per project.  ProjectOf and WorldOf say which world of the machine it stands for.
module States {
  import opened Records
  import opened Domain
  import opened Projects
  import opened Machine
  import opened MachineProofs

  datatype State = State(
    projects: map<Id, Project>,
    requirements: map<Id, seq<Requirement>>,
    plans: map<Id, seq<Plan>>,
    contracts: map<Id, seq<Contract>>,
    contexts: map<Id, seq<Context>>,
    overrides: map<Id, seq<Override>>,
    locks: map<Id, seq<CodeLock>>,
    conflicts: map<Id, seq<QueueEntry>>,
    previews: map<Id, seq<Preview>>,
    sandboxes: map<Id, seq<Sandbox>>,
    sandboxFaults: map<Id, string>,
    snapshots: map<Id, seq<Snapshot>>,
    snapshotState: map<Id, ProjectState>,
    projectBranch: map<Id, string>,
    stableBranch: map<Id, Id>,
    branchSeq: map<Id, nat>,
    tasks: map<Id, Task>,
    taskOrder: map<Id, seq<Id>>,
    runs: map<Id, Run>,
    runOrder: map<Id, seq<Id>>,
    artifacts: map<Id, Artifact>,
    artifactOrder: map<Id, seq<Id>>)

  // The context histories of the tasks in an order.
  function ContextsOf(contexts: map<Id, seq<Context>>, order: seq<Id>): map<Id, seq<Context>> {
    map t | t in contexts && t in order && contexts[t] != [] :: contexts[t]
  }

  function ProjectOf(s: State, p: Id): ProjectState
    requires p in s.projects
  {
    ProjectState(
      s.projects[p], Get(s.requirements, p), Get(s.plans, p), Get(s.contracts, p),
      ContextsOf(s.contexts, Get(s.taskOrder, p)), Get(s.sandboxes, p),
      SliceOf(Ledger(s.tasks, s.taskOrder),
              p), SliceOf(Ledger(s.runs, s.runOrder), p), SliceOf(Ledger(s.artifacts, s.artifactOrder), p))
  }

  function TimelineIn(s: State, p: Id): Timeline {
    Timeline(
      Get(s.snapshots, p),
      if p in s.projectBranch then s.projectBranch[p] else "",
      if p in s.stableBranch then Some(s.stableBranch[p]) else None,
      if p in s.branchSeq then s.branchSeq[p] else 0)
  }

  function LiveIn(s: State): map<Id, ProjectState> {
    map p | p in s.projects :: ProjectOf(s, p)
  }

  function TimelinesIn(s: State): map<Id, Timeline> {
    map p | p in s.projects :: TimelineIn(s, p)
  }

  function WorldOf(s: State, execs: map<Id, Executor>, owner: map<Id, Id>, nextId: Id): World {
    World(LiveIn(s), s.overrides, s.locks, s.conflicts, s.previews, s.sandboxFaults, TimelinesIn(s), s.snapshotState,
          execs, owner, nextId)
  }

  // ----- Consistency of the flat state --------------------------------------------------

  ghost predicate ListsOk<B>(lists: map<Id, seq<Record<B>>>, keys: set<Id>, home: map<Id, Id>) {
    forall k | k in lists :: k in keys && ListOk(lists[k], k, home)
  }

  ghost predicate LedgersOk(s: State, owner: map<Id, Id>) {
    && LedgerOk(Ledger(s.tasks, s.taskOrder), owner)
    && LedgerOk(Ledger(s.runs, s.runOrder), owner)
    && LedgerOk(Ledger(s.artifacts, s.artifactOrder), owner)
  }

  // `home` maps a context's id to its task.
  ghost predicate FilesOk(s: State, owner: map<Id, Id>, home: map<Id, Id>) {
    && ListsOk(s.requirements, s.projects.Keys, owner)
    && ListsOk(s.plans, s.projects.Keys, owner)
    && ListsOk(s.contracts, s.projects.Keys, owner)
    && ListsOk(s.sandboxes, s.projects.Keys, owner)
    && ListsOk(s.overrides, s.projects.Keys, owner)
    && ListsOk(s.locks, s.projects.Keys, owner)
    && ListsOk(s.conflicts, s.projects.Keys, owner)
    && ListsOk(s.previews, s.projects.Keys, owner)
    && ListsOk(s.snapshots, s.projects.Keys, owner)
    && ListsOk(s.contexts, s.tasks.Keys, home)
    && (forall t | t in s.contexts :: s.contexts[t] != [])
  }

  ghost predicate KeysOk(s: State, owner: map<Id, Id>, home: map<Id, Id>) {
    && s.taskOrder.Keys <= s.projects.Keys && s.runOrder.Keys <= s.projects.Keys
    && s.artifactOrder.Keys <= s.projects.Keys
    && s.projectBranch.Keys == s.projects.Keys && s.stableBranch.Keys <= s.projects.Keys
    && s.branchSeq.Keys <= s.projects.Keys
    && s.projects.Keys <= owner.Keys && home.Keys <= owner.Keys
    && (forall p | p in s.projects :: owner[p] == p && s.projects[p].id == p)
  }

  ghost predicate FlatOk(s: State, owner: map<Id, Id>, home: map<Id, Id>) {
    LedgersOk(s, owner) && FilesOk(s, owner, home) && KeysOk(s, owner, home)
  }

  // Everything but project p looks the same in n as in s, and p looks as given.
  ghost predicate Becomes(s: State, n: State, p: Id, ps: ProjectState) {
    && n.projects.Keys == s.projects.Keys && p in s.projects && ProjectOf(n, p) == ps
    && (forall q | q in s.projects && q != p :: ProjectOf(n, q) == ProjectOf(s, q))
  }

  // ----- Updates ------------------------------------------------------------------------

  function WithTask(s: State, t: Task): State {
    s.(tasks := s.tasks[t.id := t], taskOrder := s.taskOrder[t.projectId := Get(s.taskOrder, t.projectId) + [t.id]])
  }

  function PutTaskIn(s: State, t: Task): State {
    s.(tasks := s.tasks[t.id := t])
  }

  function WithRun(s: State, r: Run): State {
    s.(runs := s.runs[r.id := r], runOrder := s.runOrder[r.projectId := Get(s.runOrder, r.projectId) + [r.id]])
  }

  function PutRunIn(s: State, r: Run): State {
    s.(runs := s.runs[r.id := r])
  }

  function WithArtifact(s: State, a: Artifact): State {
    s.(artifacts := s.artifacts[a.id := a],
       artifactOrder := s.artifactOrder[a.projectId := Get(s.artifactOrder, a.projectId) + [a.id]])
  }

  function TouchIn(s: State, p: Id, now: Time): State
    requires p in s.projects
  {
    s.(projects := s.projects[p := s.projects[p].(updatedAt := now)])
  }

  lemma WithTaskOk(s: State, owner: map<Id, Id>, home: map<Id, Id>, t: Task)
    requires FlatOk(s, owner, home) && Owned(t, owner) && t.id !in s.tasks && t.projectId in s.projects
    ensures FlatOk(WithTask(s, t), owner, home)
    ensures Becomes(s, WithTask(s, t), t.projectId, AddTask(ProjectOf(s, t.projectId), t))
  {
    WithTaskFlat(s, owner, home, t);
    hide LedgerOk, ListsOk, SliceOf, ContextsOf;
    var n := WithTask(s, t);
    forall q | q in s.projects
      ensures ProjectOf(n, q) == if q == t.projectId then AddTask(ProjectOf(s, q), t) else ProjectOf(s, q)
    {
      AddToLedgerSlices(Ledger(s.tasks, s.taskOrder), owner, t, q);
      NewTaskContexts(s, owner, home, t, q);
    }
  }

  lemma WithTaskFlat(s: State, owner: map<Id, Id>, home: map<Id, Id>, t: Task)
    requires FlatOk(s, owner, home) && Owned(t, owner) && t.id !in s.tasks && t.projectId in s.projects
    ensures FlatOk(WithTask(s, t), owner, home)
  {
    AddToLedgerOk(Ledger(s.tasks, s.taskOrder), owner, t);
    MoreKeys(s.contexts, s.tasks.Keys, WithTask(s, t).tasks.Keys, home);
    hide LedgerOk, ListsOk;
  }

  lemma MoreKeys<B>(lists: map<Id, seq<Record<B>>>, keys: set<Id>, keys': set<Id>, home: map<Id, Id>)
    requires ListsOk(lists, keys, home) && keys <= keys'
    ensures ListsOk(lists, keys', home)
  {
    hide ListOk;
  }

  // A task that was not there has no contexts yet.
  lemma NewTaskContexts(s: State, owner: map<Id, Id>, home: map<Id, Id>, t: Task, q: Id)
    requires ListsOk(s.contexts, s.tasks.Keys, home) && t.id !in s.tasks
    ensures ContextsOf(WithTask(s, t).contexts, Get(WithTask(s, t).taskOrder, q))
      == ContextsOf(s.contexts, Get(s.taskOrder, q))
  {
    hide ListOk;
  }

  lemma PutTaskInOk(s: State, owner: map<Id, Id>, home: map<Id, Id>, t: Task)
    requires FlatOk(s, owner, home) && t.id in s.tasks && s.tasks[t.id].projectId == t.projectId
    requires t.projectId in s.projects
    ensures FlatOk(PutTaskIn(s, t), owner, home)
    ensures Becomes(s, PutTaskIn(s, t), t.projectId, PutTask(ProjectOf(s, t.projectId), t))
  {
    var n := PutTaskIn(s, t);
    PutInLedgerOk(Ledger(s.tasks, s.taskOrder), owner, t);
    forall q | q in s.projects
      ensures ProjectOf(n, q) == if q == t.projectId then PutTask(ProjectOf(s, q), t) else ProjectOf(s, q)
    {
      PutInLedgerSlices(Ledger(s.tasks, s.taskOrder), owner, t, q);
    }
  }

  lemma WithRunOk(s: State, owner: map<Id, Id>, home: map<Id, Id>, r: Run)
    requires FlatOk(s, owner, home) && Owned(r, owner) && r.id !in s.runs && r.projectId in s.projects
    ensures FlatOk(WithRun(s, r), owner, home)
    ensures var ps := ProjectOf(s, r.projectId);
      Becomes(s, WithRun(s, r), r.projectId, ps.(runs := AddToSlice(ps.runs, r)))
  {
    var n := WithRun(s, r);
    AddToLedgerOk(Ledger(s.runs, s.runOrder), owner, r);
    forall q | q in s.projects
      ensures SliceOf(Ledger(n.runs, n.runOrder), q) == if q == r.projectId then AddToSlice(ProjectOf(s, q).runs, r)
        else ProjectOf(s, q).runs
    {
      AddToLedgerSlices(Ledger(s.runs, s.runOrder), owner, r, q);
    }
  }

  lemma PutRunInOk(s: State, owner: map<Id, Id>, home: map<Id, Id>, r: Run)
    requires FlatOk(s, owner, home) && r.id in s.runs && s.runs[r.id].projectId == r.projectId
    requires r.projectId in s.projects
    ensures FlatOk(PutRunIn(s, r), owner, home)
    ensures var ps := ProjectOf(s, r.projectId);
      Becomes(s, PutRunIn(s, r), r.projectId, ps.(runs := PutInSlice(ps.runs, r)))
  {
    var n := PutRunIn(s, r);
    PutInLedgerOk(Ledger(s.runs, s.runOrder), owner, r);
    forall q | q in s.projects
      ensures SliceOf(Ledger(n.runs, n.runOrder), q) == if q == r.projectId then PutInSlice(ProjectOf(s, q).runs, r)
        else ProjectOf(s, q).runs
    {
      PutInLedgerSlices(Ledger(s.runs, s.runOrder), owner, r, q);
    }
  }

  lemma WithArtifactOk(s: State, owner: map<Id, Id>, home: map<Id, Id>, a: Artifact)
    requires FlatOk(s, owner, home) && Owned(a, owner) && a.id !in s.artifacts && a.projectId in s.projects
    ensures FlatOk(WithArtifact(s, a), owner, home)
    ensures var ps := ProjectOf(s, a.projectId);
      Becomes(s, WithArtifact(s, a), a.projectId, ps.(artifacts := AddToSlice(ps.artifacts, a)))
  {
    var n := WithArtifact(s, a);
    AddToLedgerOk(Ledger(s.artifacts, s.artifactOrder), owner, a);
    forall q | q in s.projects
      ensures SliceOf(Ledger(n.artifacts, n.artifactOrder), q) == if q == a.projectId
        then AddToSlice(ProjectOf(s, q).artifacts, a) else ProjectOf(s, q).artifacts
    {
      AddToLedgerSlices(Ledger(s.artifacts, s.artifactOrder), owner, a, q);
    }
  }

  lemma TouchInOk(s: State, owner: map<Id, Id>, home: map<Id, Id>, p: Id, now: Time)
    requires FlatOk(s, owner, home) && p in s.projects
    ensures FlatOk(TouchIn(s, p, now), owner, home)
    ensures Becomes(s, TouchIn(s, p, now), p, Touch(ProjectOf(s, p), now))
  {
  }

  // ----- Lists --------------------------------------------------------------------------

  function Appended<B>(lists: map<Id, seq<Record<B>>>, k: Id, r: Record<B>): map<Id, seq<Record<B>>> {
    lists[k := Get(lists, k) + [r]]
  }

  lemma AppendedOk<B>(lists: map<Id, seq<Record<B>>>, keys: set<Id>, home: map<Id, Id>, k: Id, r: Record<B>)
    requires ListsOk(lists, keys, home) && k in keys && r.id in home && home[r.id] == k && r.id !in Ids(Get(lists, k))
    ensures ListsOk(Appended(lists, k, r), keys, home)
    ensures forall q | q != k :: Get(Appended(lists, k, r), q) == Get(lists, q)
  {
    var s := Get(lists, k);
    assert forall i | 0 <= i < |s| :: s[i].id in Ids(s);
  }

  lemma ReplacedOk<B>(lists: map<Id, seq<Record<B>>>, keys: set<Id>, home: map<Id, Id>, k: Id, r: Record<B>)
    requires ListsOk(lists, keys, home) && k in keys
    ensures ListsOk(lists[k := PutInList(Get(lists, k), r)], keys, home)
  {
  }

  function WithRequirement(s: State, p: Id, r: Requirement): State {
    s.(requirements := Appended(s.requirements, p, r))
  }

  function WithPlan(s: State, p: Id, r: Plan): State {
    s.(plans := Appended(s.plans, p, r))
  }

  function WithContract(s: State, p: Id, r: Contract): State {
    s.(contracts := Appended(s.contracts, p, r))
  }

  function WithSandbox(s: State, p: Id, r: Sandbox): State {
    s.(sandboxes := Appended(s.sandboxes, p, r))
  }

  function PutSandboxIn(s: State, p: Id, r: Sandbox): State {
    s.(sandboxes := s.sandboxes[p := PutInList(Get(s.sandboxes, p), r)])
  }

  function WithContext(s: State, c: Context): State {
    s.(contexts := Appended(s.contexts, c.body.taskId, c))
  }

  lemma WithRequirementOk(s: State, owner: map<Id, Id>, home: map<Id, Id>, p: Id, r: Requirement)
    requires FlatOk(s, owner, home) && p in s.projects && r.id in owner && owner[r.id] == p
    requires r.id !in Ids(Get(s.requirements, p))
    ensures FlatOk(WithRequirement(s, p, r), owner, home)
    ensures var ps := ProjectOf(s, p);
      Becomes(s, WithRequirement(s, p, r), p, ps.(requirements := ps.requirements + [r]))
  {
    AppendedOk(s.requirements, s.projects.Keys, owner, p, r);
  }

  lemma WithPlanOk(s: State, owner: map<Id, Id>, home: map<Id, Id>, p: Id, r: Plan)
    requires FlatOk(s, owner, home) && p in s.projects && r.id in owner && owner[r.id] == p
    requires r.id !in Ids(Get(s.plans, p))
    ensures FlatOk(WithPlan(s, p, r), owner, home)
    ensures var ps := ProjectOf(s, p); Becomes(s, WithPlan(s, p, r), p, ps.(plans := ps.plans + [r]))
  {
    AppendedOk(s.plans, s.projects.Keys, owner, p, r);
  }

  lemma WithContractOk(s: State, owner: map<Id, Id>, home: map<Id, Id>, p: Id, r: Contract)
    requires FlatOk(s, owner, home) && p in s.projects && r.id in owner && owner[r.id] == p
    requires r.id !in Ids(Get(s.contracts, p))
    ensures FlatOk(WithContract(s, p, r), owner, home)
    ensures var ps := ProjectOf(s, p); Becomes(s, WithContract(s, p, r), p, ps.(contracts := ps.contracts + [r]))
  {
    AppendedOk(s.contracts, s.projects.Keys, owner, p, r);
  }

  lemma WithSandboxOk(s: State, owner: map<Id, Id>, home: map<Id, Id>, p: Id, r: Sandbox)
    requires FlatOk(s, owner, home) && p in s.projects && r.id in owner && owner[r.id] == p
    requires r.id !in Ids(Get(s.sandboxes, p))
    ensures FlatOk(WithSandbox(s, p, r), owner, home)
    ensures Becomes(s, WithSandbox(s, p, r), p, AddSandbox(ProjectOf(s, p), r))
  {
    AppendedOk(s.sandboxes, s.projects.Keys, owner, p, r);
  }

  lemma PutSandboxInOk(s: State, owner: map<Id, Id>, home: map<Id, Id>, p: Id, r: Sandbox)
    requires FlatOk(s, owner, home) && p in s.projects
    ensures FlatOk(PutSandboxIn(s, p, r), owner, home)
    ensures Becomes(s, PutSandboxIn(s, p, r), p, PutSandbox(ProjectOf(s, p), r))
  {
    ReplacedOk(s.sandboxes, s.projects.Keys, owner, p, r);
  }

  lemma ContextsAppended(contexts: map<Id, seq<Context>>, order: seq<Id>, c: Context)
    requires forall t | t in contexts :: contexts[t] != []
    ensures ContextsOf(Appended(contexts, c.body.taskId, c), order) ==
      if c.body.taskId in order
      then Appended(ContextsOf(contexts, order), c.body.taskId, c)
      else ContextsOf(contexts, order)
  {
  }

  // A task is in the order of its own project only.
  lemma OrderHome(l: Ledger<TaskBody>, owner: map<Id, Id>, t: Id, q: Id)
    requires LedgerOk(l, owner) && t in l.items
    ensures t in Get(l.order, q) <==> q == l.items[t].projectId
  {
  }

  lemma WithContextOk(s: State, owner: map<Id, Id>, home: map<Id, Id>, p: Id, c: Context)
    requires FlatOk(s, owner, home) && p in s.projects && c.body.taskId in s.tasks
    requires s.tasks[c.body.taskId].projectId == p
    requires c.id in home && home[c.id] == c.body.taskId && c.id !in Ids(Get(s.contexts, c.body.taskId))
    ensures FlatOk(WithContext(s, c), owner, home)
    ensures Becomes(s, WithContext(s, c), p, AddContext(ProjectOf(s, p), c))
  {
    hide LedgerOk, SliceOf;
    var n, t := WithContext(s, c), c.body.taskId;
    AppendedOk(s.contexts, s.tasks.Keys, home, t, c);
    hide ListsOk;
    forall q | q in s.projects
      ensures ProjectOf(n, q) == if q == p then AddContext(ProjectOf(s, p), c) else ProjectOf(s, q)
    {
      OrderHome(Ledger(s.tasks, s.taskOrder), owner, t, q);
      ContextsAppended(s.contexts, Get(s.taskOrder, q), c);
    }
  }

  // ----- Restoring one project ----------------------------------------------------------

  // The flat state with project p taken from ps and the given ledgers and contexts.
  function Assembled(s: State, p: Id, ps: ProjectState, tasks: Ledger<TaskBody>, runs: Ledger<RunBody>,
                     artifacts: Ledger<ArtifactBody>, contexts: map<Id, seq<Context>>): State {
    s.(projects := s.projects[p := ps.project],
       requirements := s.requirements[p := ps.requirements], plans := s.plans[p := ps.plans],
       contracts := s.contracts[p := ps.contracts],
       contexts := contexts,
       overrides := s.overrides - {p}, sandboxes := s.sandboxes[p := ps.sandboxes],
       sandboxFaults := s.sandboxFaults - Elements(Get(s.taskOrder, p)),
       tasks := tasks.items, taskOrder := tasks.order, runs := runs.items, runOrder := runs.order,
       artifacts := artifacts.items, artifactOrder := artifacts.order)
  }

  function ContextsWithout(contexts: map<Id, seq<Context>>, before: seq<Id>, after: seq<Id>): map<Id, seq<Context>> {
    contexts - Elements(before) - Elements(after)
  }

  // The flat maps after the project has been cleared and restored without contexts.
  function RestoreIn(s: State, p: Id, ps: ProjectState): State {
    Assembled(s, p, ps,
              RestoreLedger(ClearLedger(Ledger(s.tasks, s.taskOrder), p), p, ps.tasks),
              RestoreLedger(ClearLedger(Ledger(s.runs, s.runOrder), p), p, ps.runs),
              RestoreLedger(ClearLedger(Ledger(s.artifacts, s.artifactOrder), p), p, ps.artifacts),
              ContextsWithout(s.contexts, Get(s.taskOrder, p), ps.tasks.order))
  }

  lemma OwnedParts(ps: ProjectState, p: Id, owner: map<Id, Id>)
    requires StateOk(ps, p, owner)
    ensures SliceOwned(ps.tasks, owner) && SliceOwned(ps.runs, owner) && SliceOwned(ps.artifacts, owner)
    ensures ListOk(ps.requirements, p, owner) && ListOk(ps.plans, p, owner) && ListOk(ps.contracts, p, owner)
    ensures ListOk(ps.sandboxes, p, owner)
  {
    hide Protocol, DepsOk, OrderOk, AuditsOk, PlansOk, ContextsOk;
    forall x | x in ps.tasks.items || x in ps.runs.items || x in ps.artifacts.items
      ensures x in owner && owner[x] == p
    {
      assert Uses(ps, x);
    }
    ListOwned(ps.requirements, ps, p, owner);
    ListOwned(ps.plans, ps, p, owner);
    ListOwned(ps.contracts, ps, p, owner);
    ListOwned(ps.sandboxes, ps, p, owner);
  }

  lemma ListOwned<B>(s: seq<Record<B>>, ps: ProjectState, p: Id, owner: map<Id, Id>)
    requires Filed(s, p) && forall x | x in Ids(s) :: Uses(ps, x)
    requires forall x | Uses(ps, x) :: x in owner && owner[x] == p
    ensures ListOk(s, p, owner)
  {
    forall i | 0 <= i < |s| ensures s[i].id in owner && owner[s[i].id] == p {
      assert s[i].id in Ids(s);
    }
  }

  // Dropping the contexts of the old and the restored tasks empties the project's contexts and
  // no other's.
  lemma ContextsGone(contexts: map<Id, seq<Context>>, l: Ledger<TaskBody>, owner: map<Id, Id>, home: map<Id, Id>, p: Id,
                     ts: Slice<TaskBody>)
    requires LedgerOk(l, owner) && ListsOk(contexts, l.items.Keys, home) && SliceOk(ts, p) && SliceOwned(ts, owner)
    ensures var n := RestoreLedger(ClearLedger(l, p), p, ts);
      var rest := ContextsWithout(contexts, Get(l.order, p), ts.order);
      && ListsOk(rest, n.items.Keys, home)
      && forall q ::
        ContextsOf(rest, Get(n.order, q)) == if q == p then map[] else ContextsOf(contexts, Get(l.order, q))
  {
    var n := RestoreLedger(ClearLedger(l, p), p, ts);
    var rest := ContextsWithout(contexts, Get(l.order, p), ts.order);
    forall q
      ensures ContextsOf(rest, Get(n.order, q)) == if q == p then map[] else ContextsOf(contexts, Get(l.order, q))
    {
      if q == p {
        assert Get(n.order, p) == ts.order;
        assert forall t :: t !in ContextsOf(rest, ts.order);
      } else {
        OthersApart(l, owner, p, ts, q);
        assert Get(n.order, q) == Get(l.order, q);
        forall t | t in Get(l.order, q)
          ensures (t in rest <==> t in contexts) && (t in rest ==> rest[t] == contexts[t])
        {
        }
        assert ContextsOf(rest, Get(l.order, q)) == ContextsOf(contexts, Get(l.order, q));
      }
    }
  }

  lemma OthersApart(l: Ledger<TaskBody>, owner: map<Id, Id>, p: Id, ts: Slice<TaskBody>, q: Id)
    requires LedgerOk(l, owner) && SliceOk(ts, p) && SliceOwned(ts, owner) && q != p
    ensures forall t | t in Get(l.order, q) :: t !in Get(l.order, p) && t !in ts.order
  {
    forall t | t in Get(l.order, q) ensures t !in Get(l.order, p) && t !in ts.order {
      assert q in l.order && l.items[t].projectId == q;
    }
  }

  lemma AssembledFlat(s: State, owner: map<Id, Id>, home: map<Id, Id>, p: Id, ps: ProjectState, tasks: Ledger<TaskBody>,
                      runs: Ledger<RunBody>, artifacts: Ledger<ArtifactBody>, contexts: map<Id, seq<Context>>)
    requires FlatOk(s, owner, home) && p in s.projects && ps.project.id == p
    requires ListOk(ps.requirements, p, owner) && ListOk(ps.plans, p, owner) && ListOk(ps.contracts, p, owner)
    requires ListOk(ps.sandboxes, p, owner)
    requires LedgerOk(tasks, owner) && LedgerOk(runs, owner) && LedgerOk(artifacts, owner)
    requires ListsOk(contexts, tasks.items.Keys, home)
    requires tasks.order.Keys == s.taskOrder.Keys + {p} && runs.order.Keys == s.runOrder.Keys + {p}
    requires artifacts.order.Keys == s.artifactOrder.Keys + {p}
    requires forall t | t in contexts :: contexts[t] != []
    ensures FlatOk(Assembled(s, p, ps, tasks, runs, artifacts, contexts), owner, home)
  {
    AssembledFiles(s, owner, home, p, ps, tasks, runs, artifacts, contexts);
    AssembledKeys(s, owner, home, p, ps, tasks, runs, artifacts, contexts);
    hide LedgerOk, ListsOk, FilesOk, KeysOk, Elements, Get;
    assert Ledger(tasks.items, tasks.order) == tasks && Ledger(runs.items, runs.order) == runs;
    assert Ledger(artifacts.items, artifacts.order) == artifacts;
  }

  lemma AssembledKeys(s: State, owner: map<Id, Id>, home: map<Id, Id>, p: Id, ps: ProjectState, tasks: Ledger<TaskBody>,
                      runs: Ledger<RunBody>, artifacts: Ledger<ArtifactBody>, contexts: map<Id, seq<Context>>)
    requires KeysOk(s, owner, home) && p in s.projects && ps.project.id == p
    requires tasks.order.Keys == s.taskOrder.Keys + {p} && runs.order.Keys == s.runOrder.Keys + {p}
    requires artifacts.order.Keys == s.artifactOrder.Keys + {p}
    ensures KeysOk(Assembled(s, p, ps, tasks, runs, artifacts, contexts), owner, home)
  {
    hide Elements, Get;
    assert s.projects[p := ps.project].Keys == s.projects.Keys;
  }

  lemma AssembledFiles(s: State, owner: map<Id, Id>, home: map<Id, Id>, p: Id, ps: ProjectState,
                       tasks: Ledger<TaskBody>, runs: Ledger<RunBody>, artifacts: Ledger<ArtifactBody>,
                       contexts: map<Id, seq<Context>>)
    requires FilesOk(s, owner, home) && p in s.projects
    requires ListOk(ps.requirements, p, owner) && ListOk(ps.plans, p, owner) && ListOk(ps.contracts, p, owner)
    requires ListOk(ps.sandboxes, p, owner)
    requires ListsOk(contexts, tasks.items.Keys, home) && forall t | t in contexts :: contexts[t] != []
    ensures FilesOk(Assembled(s, p, ps, tasks, runs, artifacts, contexts), owner, home)
  {
    hide ListOk, ListsOk, Elements, Get;
    ListPut(s.requirements, s.projects.Keys, owner, p, ps.requirements);
    ListPut(s.plans, s.projects.Keys, owner, p, ps.plans);
    ListPut(s.contracts, s.projects.Keys, owner, p, ps.contracts);
    ListPut(s.sandboxes, s.projects.Keys, owner, p, ps.sandboxes);
    ListDrop(s.overrides, s.projects.Keys, owner, p);
    assert s.projects[p := ps.project].Keys == s.projects.Keys;
  }

  lemma ListPut<B>(lists: map<Id, seq<Record<B>>>, keys: set<Id>, home: map<Id, Id>, p: Id, s: seq<Record<B>>)
    requires ListsOk(lists, keys, home) && p in keys && ListOk(s, p, home)
    ensures ListsOk(lists[p := s], keys, home)
  {
    hide ListOk;
  }

  lemma ListDrop<B>(lists: map<Id, seq<Record<B>>>, keys: set<Id>, home: map<Id, Id>, p: Id)
    requires ListsOk(lists, keys, home)
    ensures ListsOk(lists - {p}, keys, home)
  {
    hide ListOk;
  }

  lemma RestoreInFlat(s: State, owner: map<Id, Id>, home: map<Id, Id>, p: Id, ps: ProjectState)
    requires FlatOk(s, owner, home) && p in s.projects && StateOk(ps, p, owner)
    ensures FlatOk(RestoreIn(s, p, ps), owner, home)
  {
    OwnedParts(ps, p, owner);
    ShapesOf(ps, p, owner);
    hide StateOk, LedgerOk, ListOk, ListsOk, SliceOk, SliceOwned, Filed, ClearLedger, RestoreLedger, Assembled;
    var tasks := Ledger(s.tasks, s.taskOrder);
    var runs := Ledger(s.runs, s.runOrder);
    var artifacts := Ledger(s.artifacts, s.artifactOrder);
    RestoreLedgerOk(tasks, owner, p, ps.tasks);
    RestoreLedgerOk(runs, owner, p, ps.runs);
    RestoreLedgerOk(artifacts, owner, p, ps.artifacts);
    ContextsGone(s.contexts, tasks, owner, home, p, ps.tasks);
    RestoredKeys(tasks, p, ps.tasks);
    RestoredKeys(runs, p, ps.runs);
    RestoredKeys(artifacts, p, ps.artifacts);
    AssembledFlat(s, owner, home, p, ps, RestoreLedger(ClearLedger(tasks, p), p, ps.tasks),
                  RestoreLedger(ClearLedger(runs, p), p, ps.runs),
                  RestoreLedger(ClearLedger(artifacts, p), p, ps.artifacts), ContextsWithout(s.contexts,
                      Get(s.taskOrder, p), ps.tasks.order));
  }

  lemma AssembledProject(s: State, p: Id, ps: ProjectState, tasks: Ledger<TaskBody>, runs: Ledger<RunBody>,
                         artifacts: Ledger<ArtifactBody>, contexts: map<Id, seq<Context>>, q: Id)
    requires p in s.projects && q in s.projects
    requires SliceOf(tasks, q) == if q == p then ps.tasks else SliceOf(Ledger(s.tasks, s.taskOrder), q)
    requires SliceOf(runs, q) == if q == p then ps.runs else SliceOf(Ledger(s.runs, s.runOrder), q)
    requires SliceOf(artifacts, q) == if q == p then ps.artifacts else SliceOf(Ledger(s.artifacts, s.artifactOrder), q)
    requires ContextsOf(contexts, Get(tasks.order, q)) == if q == p then map[]
      else ContextsOf(s.contexts, Get(s.taskOrder, q))
    ensures ProjectOf(Assembled(s, p, ps, tasks, runs, artifacts, contexts), q) == if q == p then ps.(contexts := map[])
      else ProjectOf(s, q)
  {
    hide SliceOf, ContextsOf;
    assert Ledger(tasks.items, tasks.order) == tasks && Ledger(runs.items, runs.order) == runs;
    assert Ledger(artifacts.items, artifacts.order) == artifacts;
  }

  lemma RestoredKeys<B>(l: Ledger<B>, p: Id, s: Slice<B>)
    ensures RestoreLedger(ClearLedger(l, p), p, s).order.Keys == l.order.Keys + {p}
  {
  }

  // Restoring gives the project back as stored, without contexts, and changes no other project.
  lemma RestoreInOk(s: State, owner: map<Id, Id>, home: map<Id, Id>, p: Id, ps: ProjectState)
    requires FlatOk(s, owner, home) && p in s.projects && StateOk(ps, p, owner)
    ensures FlatOk(RestoreIn(s, p, ps), owner, home)
    ensures Becomes(s, RestoreIn(s, p, ps), p, ps.(contexts := map[]))
  {
    RestoreInFlat(s, owner, home, p, ps);
    OwnedParts(ps, p, owner);
    ShapesOf(ps, p, owner);
    hide StateOk, LedgerOk, ListsOk, SliceOk, SliceOwned, Filed, ClearLedger, RestoreLedger, SliceOf, ContextsOf,
      ProjectOf;
    var tasks := Ledger(s.tasks, s.taskOrder);
    var runs := Ledger(s.runs, s.runOrder);
    var artifacts := Ledger(s.artifacts, s.artifactOrder);
    ContextsGone(s.contexts, tasks, owner, home, p, ps.tasks);
    var n := RestoreIn(s, p, ps);
    forall q | q in s.projects ensures ProjectOf(n, q) == if q == p then ps.(contexts := map[]) else ProjectOf(s, q) {
      RestoreLedgerSlices(tasks, owner, p, ps.tasks, q);
      RestoreLedgerSlices(runs, owner, p, ps.runs, q);
      RestoreLedgerSlices(artifacts, owner, p, ps.artifacts, q);
      AssembledProject(s, p, ps, RestoreLedger(ClearLedger(tasks, p), p, ps.tasks),
                       RestoreLedger(ClearLedger(runs, p), p, ps.runs),
                       RestoreLedger(ClearLedger(artifacts, p), p, ps.artifacts), ContextsWithout(s.contexts,
                           Get(s.taskOrder, p), ps.tasks.order), q);
    }
  }

  lemma ShapesOf(ps: ProjectState, p: Id, owner: map<Id, Id>)
    requires StateOk(ps, p, owner)
    ensures Shapes(ps, p)
  {
  }

  // ----- From flat states to worlds -----------------------------------------------------

  lemma FlatGrows(s: State, owner: map<Id, Id>, home: map<Id, Id>, owner': map<Id, Id>)
    requires FlatOk(s, owner, home) && forall i | i in owner :: i in owner' && owner'[i] == owner[i]
    ensures FlatOk(s, owner', home)
  {
    LedgerGrows(Ledger(s.tasks, s.taskOrder), owner, owner');
    LedgerGrows(Ledger(s.runs, s.runOrder), owner, owner');
    LedgerGrows(Ledger(s.artifacts, s.artifactOrder), owner, owner');
    FilesGrow(s, owner, home, owner');
    hide LedgerOk, FilesOk;
  }

  lemma FilesGrow(s: State, owner: map<Id, Id>, home: map<Id, Id>, owner': map<Id, Id>)
    requires FilesOk(s, owner, home) && forall i | i in owner :: i in owner' && owner'[i] == owner[i]
    ensures FilesOk(s, owner', home)
  {
    ListsGrow(s.requirements, s.projects.Keys, owner, owner');
    ListsGrow(s.plans, s.projects.Keys, owner, owner');
    ListsGrow(s.contracts, s.projects.Keys, owner, owner');
    ListsGrow(s.sandboxes, s.projects.Keys, owner, owner');
    ListsGrow(s.overrides, s.projects.Keys, owner, owner');
    ListsGrow(s.locks, s.projects.Keys, owner, owner');
    ListsGrow(s.conflicts, s.projects.Keys, owner, owner');
    ListsGrow(s.previews, s.projects.Keys, owner, owner');
    ListsGrow(s.snapshots, s.projects.Keys, owner, owner');
    hide ListsOk;
  }

  lemma ListsGrow<B>(lists: map<Id, seq<Record<B>>>, keys: set<Id>, home: map<Id, Id>, home': map<Id, Id>)
    requires ListsOk(lists, keys, home) && forall i | i in home :: i in home' && home'[i] == home[i]
    ensures ListsOk(lists, keys, home')
  {
  }

  lemma LedgerGrows<B>(l: Ledger<B>, owner: map<Id, Id>, owner': map<Id, Id>)
    requires LedgerOk(l, owner) && forall i | i in owner :: i in owner' && owner'[i] == owner[i]
    ensures LedgerOk(l, owner')
  {
  }

  // Nothing of the timelines and the stored project states changes.
  ghost predicate SameTimes(s: State, n: State) {
    && n.snapshots == s.snapshots && n.snapshotState == s.snapshotState && n.projectBranch == s.projectBranch
    && n.stableBranch == s.stableBranch && n.branchSeq == s.branchSeq
  }

  // Nothing changes that belongs to no single project's ProjectState.
  ghost predicate SameRest(s: State, n: State) {
    && n.overrides == s.overrides && n.locks == s.locks && n.conflicts == s.conflicts && n.previews == s.previews
    && n.sandboxFaults == s.sandboxFaults && SameTimes(s, n)
  }

  lemma LiveBecomes(s: State, n: State, p: Id, ps: ProjectState)
    requires Becomes(s, n, p, ps)
    ensures LiveIn(n) == LiveIn(s)[p := ps]
  {
    hide ProjectOf;
  }

  lemma TimelinesSame(s: State, n: State)
    requires n.projects.Keys == s.projects.Keys && SameTimes(s, n)
    ensures TimelinesIn(n) == TimelinesIn(s)
  {
    forall p ensures TimelineIn(n, p) == TimelineIn(s, p) {}
    hide TimelineIn;
  }

  lemma WorldBecomes(s: State, n: State, p: Id, ps: ProjectState, execs: map<Id, Executor>, owner: map<Id, Id>,
                     nextId: Id, k: nat)
    requires Becomes(s, n, p, ps) && SameRest(s, n)
    ensures WorldOf(n, execs, Grant(owner, p, nextId, k), nextId + k)
      == Put(Claim(WorldOf(s, execs, owner, nextId), p, k), p, ps)
  {
    LiveBecomes(s, n, p, ps);
    TimelinesSame(s, n);
    hide Grant, LiveIn, TimelinesIn, Becomes;
  }

  lemma BecomesIs(s: State, n: State, p: Id)
    requires exists ps :: Becomes(s, n, p, ps)
    ensures p in s.projects && p in n.projects && n.projects.Keys == s.projects.Keys
    ensures forall ps | Becomes(s, n, p, ps) :: ps == ProjectOf(n, p)
  {
  }

  lemma BecomesThen(s: State, m: State, n: State, p: Id, a: ProjectState, b: ProjectState)
    requires Becomes(s, m, p, a) && Becomes(m, n, p, b)
    ensures Becomes(s, n, p, b)
  {
    hide ProjectOf;
  }

  // ----- Indexes ------------------------------------------------------------------------

  lemma IndexGrows<B>(lists: map<Id, seq<Record<B>>>, index: map<Id, Record<B>>, home: map<Id, Id>, home': map<Id, Id>)
    requires Indexes(lists, index, home) && forall i | i in home :: i in home' && home'[i] == home[i]
    ensures Indexes(lists, index, home')
  {
  }

  // The secondary indexes, each from record id to record.
  datatype Index = Index(
    plans: map<Id, Plan>, contracts: map<Id, Contract>, contexts: map<Id, Context>, overrides: map<Id, Override>,
    locks: map<Id, CodeLock>, conflicts: map<Id, QueueEntry>, previews: map<Id, Preview>, sandboxes: map<Id, Sandbox>,
    snapshots: map<Id, Snapshot>)

  // Every index holds exactly the records of its lists.
  ghost predicate Indexed(s: State, x: Index, owner: map<Id, Id>, home: map<Id, Id>) {
    && Indexes(s.plans, x.plans, owner)
    && Indexes(s.contracts, x.contracts, owner)
    && Indexes(s.contexts, x.contexts, home)
    && Indexes(s.overrides, x.overrides, owner)
    && Indexes(s.locks, x.locks, owner)
    && Indexes(s.conflicts, x.conflicts, owner)
    && Indexes(s.previews, x.previews, owner)
    && Indexes(s.sandboxes, x.sandboxes, owner)
    && Indexes(s.snapshots, x.snapshots, owner)
  }

  lemma IndexedGrows(s: State, x: Index, owner: map<Id, Id>, home: map<Id, Id>, owner': map<Id, Id>, home': map<Id, Id>)
    requires Indexed(s, x, owner, home)
    requires forall i | i in owner :: i in owner' && owner'[i] == owner[i]
    requires forall i | i in home :: i in home' && home'[i] == home[i]
    ensures Indexed(s, x, owner', home')
  {
    IndexGrows(s.plans, x.plans, owner, owner');
    IndexGrows(s.contracts, x.contracts, owner, owner');
    IndexGrows(s.contexts, x.contexts, home, home');
    IndexGrows(s.overrides, x.overrides, owner, owner');
    IndexGrows(s.locks, x.locks, owner, owner');
    IndexGrows(s.conflicts, x.conflicts, owner, owner');
    IndexGrows(s.previews, x.previews, owner, owner');
    IndexGrows(s.sandboxes, x.sandboxes, owner, owner');
    IndexGrows(s.snapshots, x.snapshots, owner, owner');
    hide Indexes;
  }

  // Two sets of indexes of one state are the same: rebuilding gives back what was there.
  lemma IndexedUnique(s: State, x: Index, y: Index, owner: map<Id, Id>, home: map<Id, Id>)
    requires Indexed(s, x, owner, home) && Indexed(s, y, owner, home)
    ensures x == y
  {
    IndexUnique(s.plans, owner, x.plans, y.plans);
    IndexUnique(s.contracts, owner, x.contracts, y.contracts);
    IndexUnique(s.contexts, home, x.contexts, y.contexts);
    IndexUnique(s.overrides, owner, x.overrides, y.overrides);
    IndexUnique(s.locks, owner, x.locks, y.locks);
    IndexUnique(s.conflicts, owner, x.conflicts, y.conflicts);
    IndexUnique(s.previews, owner, x.previews, y.previews);
    IndexUnique(s.sandboxes, owner, x.sandboxes, y.sandboxes);
    IndexUnique(s.snapshots, owner, x.snapshots, y.snapshots);
  }

  // Appending a record with a new id and indexing it.
  lemma IndexAppended<B>(lists: map<Id, seq<Record<B>>>, index: map<Id, Record<B>>, keys: set<Id>, home: map<Id, Id>,
                         home': map<Id, Id>, k: Id, r: Record<B>)
    requires ListsOk(lists, keys, home) && Indexes(lists, index, home) && r.id !in home
    requires (forall i | i in home :: i in home' && home'[i] == home[i]) && r.id in home' && home'[r.id] == k
    ensures Indexes(Appended(lists, k, r), index[r.id := r], home')
    ensures r.id !in Ids(Get(lists, k))
  {
    AddToShelfOk(Shelf(lists, index), home', k, r);
    var n := AddToShelf(Shelf(lists, index), k, r);
    assert n.lists == Appended(lists, k, r) && n.index == index[r.id := r];
    forall i | 0 <= i < |Get(lists, k)| ensures Get(lists, k)[i].id != r.id {
      assert lists[k][i].id in home;
    }
  }

  // An id that was not handed out occurs nowhere.
  lemma FreshIn(s: State, owner: map<Id, Id>, home: map<Id, Id>, p: Id, x: Id)
    requires FlatOk(s, owner, home) && x !in owner
    ensures x !in s.tasks && x !in s.runs && x !in s.artifacts && x !in home && x !in s.projects
    ensures x !in Ids(Get(s.requirements, p)) && x !in Ids(Get(s.plans, p)) && x !in Ids(Get(s.contracts, p))
    ensures x !in Ids(Get(s.sandboxes, p))
    ensures x !in Ids(Get(s.overrides, p)) && x !in Ids(Get(s.locks, p)) && x !in Ids(Get(s.conflicts, p))
    ensures x !in Ids(Get(s.snapshots, p))
    ensures x !in Ids(Get(s.previews, p))
  {
    ListFresh(s.requirements, s.projects.Keys, owner, p, x);
    ListFresh(s.plans, s.projects.Keys, owner, p, x);
    ListFresh(s.contracts, s.projects.Keys, owner, p, x);
    ListFresh(s.sandboxes, s.projects.Keys, owner, p, x);
    ListFresh(s.overrides, s.projects.Keys, owner, p, x);
    ListFresh(s.locks, s.projects.Keys, owner, p, x);
    ListFresh(s.conflicts, s.projects.Keys, owner, p, x);
    ListFresh(s.previews, s.projects.Keys, owner, p, x);
    ListFresh(s.snapshots, s.projects.Keys, owner, p, x);
    hide ListsOk;
  }

  lemma ListFresh<B>(lists: map<Id, seq<Record<B>>>, keys: set<Id>, home: map<Id, Id>, p: Id, x: Id)
    requires ListsOk(lists, keys, home) && x !in home
    ensures x !in Ids(Get(lists, p))
  {
  }

  lemma ProjectIds(s: State, owner: map<Id, Id>, home: map<Id, Id>, p: Id)
    requires FlatOk(s, owner, home) && p in s.projects
    ensures s.projects[p].id == p && ProjectOf(s, p).project.id == p
  {
  }

  lemma OwnersBelow(s: State, execs: map<Id, Executor>, owner: map<Id, Id>, nextId: Id)
    requires Inv(WorldOf(s, execs, owner, nextId))
    ensures forall i | i in owner :: i < nextId
  {
  }

  // ----- Clearing and restoring context histories ---------------------------------------

  function ClearAll<B>(h: Shelf<B>, order: seq<Id>): Shelf<B> {
    if order == [] then h else ClearShelf(ClearAll(h, order[..|order|-1]), order[|order|-1])
  }

  // Put the histories of the tasks in the order on the shelf.
  function RestoreAll<B>(h: Shelf<B>, order: seq<Id>, histories: map<Id, seq<Record<B>>>): Shelf<B> {
    if order == [] then h
    else
      var rest, t := RestoreAll(h, order[..|order|-1], histories), order[|order|-1];
      if t in histories then RestoreShelf(rest, t, histories[t]) else rest
  }

  lemma {:induction false} ClearAllOk<B>(h: Shelf<B>, order: seq<Id>, home: map<Id, Id>)
    requires ShelfOk(h, home)
    ensures ShelfOk(ClearAll(h, order), home)
    ensures ClearAll(h, order).lists == h.lists - Elements(order)
  {
    if order == [] {
    } else {
      ClearAllOk(h, order[..|order|-1], home);
      ClearShelfOk(ClearAll(h, order[..|order|-1]), home, order[|order|-1]);
      assert order == order[..|order|-1] + [order[|order|-1]];
      hide ShelfOk;
    }
  }

  lemma {:induction false} RestoreAllOk<B>(h: Shelf<B>, order: seq<Id>, histories: map<Id, seq<Record<B>>>,
                                           home: map<Id, Id>)
    requires ShelfOk(h, home) && Distinct(order) && forall t | t in order :: t !in h.lists
    requires forall t | t in histories :: ListOk(histories[t], t, home)
    ensures ShelfOk(RestoreAll(h, order, histories), home)
    ensures forall k | k !in order :: k in RestoreAll(h, order, histories).lists <==> k in h.lists
    ensures forall k | k !in order && k in h.lists :: RestoreAll(h, order, histories).lists[k] == h.lists[k]
  {
    hide ShelfOk, ListOk;
    if order == [] {
    } else {
      var front, t := order[..|order|-1], order[|order|-1];
      assert order == front + [t];
      RestoreAllOk(h, front, histories, home);
      var rest := RestoreAll(h, front, histories);
      assert t !in front;
      if t in histories {
        RestoreAbsent(rest, home, t, histories[t]);
      }
    }
  }

  lemma RestoreAbsent<B>(h: Shelf<B>, home: map<Id, Id>, k: Id, s: seq<Record<B>>)
    requires ShelfOk(h, home) && k !in h.lists && ListOk(s, k, home)
    ensures ShelfOk(RestoreShelf(h, k, s), home)
  {
    RestoreShelfOk(h, home, k, s);
    assert ClearShelf(h, k) == h;
  }

  // Restoring histories and clearing the same tasks afterwards leaves the shelf without them.
  lemma RestoredThenCleared<B>(h: Shelf<B>, before: seq<Id>, after: seq<Id>, histories: map<Id, seq<Record<B>>>,
                               home: map<Id, Id>)
    requires ShelfOk(h, home) && Distinct(after) && forall t | t in after :: t in h.lists ==> t in before
    requires forall t | t in histories :: ListOk(histories[t], t, home)
    ensures var n := ClearAll(RestoreAll(ClearAll(h, before), after, histories), after);
      ShelfOk(n, home) && n.lists == h.lists - Elements(before) - Elements(after)
  {
    hide ShelfOk, ListOk, ClearAll, RestoreAll;
    var a := ClearAll(h, before);
    ClearAllOk(h, before, home);
    RestoreAllOk(a, after, histories, home);
    var b := RestoreAll(a, after, histories);
    ClearAllOk(b, after, home);
    SameOutside(h.lists, a.lists, b.lists, before, after);
  }

  lemma SameOutside<B>(h: map<Id, B>, a: map<Id, B>, b: map<Id, B>, before: seq<Id>, after: seq<Id>)
    requires a == h - Elements(before)
    requires (forall k | k !in after :: k in b <==> k in a) && forall k | k !in after && k in a :: b[k] == a[k]
    ensures b - Elements(after) == h - Elements(before) - Elements(after)
  {
    var x, y := b - Elements(after), a - Elements(after);
    forall k ensures k in x <==> k in y {
      assert k in x <==> k in b && k !in after;
      assert k in y <==> k in a && k !in after;
    }
    forall k | k in x ensures x[k] == y[k] {
      assert k in b && k !in after && k in a;
      assert x[k] == b[k] == a[k] == y[k];
    }
    assert x == y;
  }

  // The indexes after clearing and restoring project p.
  function RestoredIndex(s: State, x: Index, p: Id, ps: ProjectState): Index {
    x.(plans := RestoreShelf(ClearShelf(Shelf(s.plans, x.plans), p), p, ps.plans).index,
       contracts := RestoreShelf(ClearShelf(Shelf(s.contracts, x.contracts), p), p, ps.contracts).index,
       sandboxes := RestoreShelf(ClearShelf(Shelf(s.sandboxes, x.sandboxes), p), p, ps.sandboxes).index,
       overrides := ClearShelf(Shelf(s.overrides, x.overrides), p).index,
       contexts := ClearAll(RestoreAll(ClearAll(Shelf(s.contexts, x.contexts), Get(s.taskOrder, p)), ps.tasks.order,
                                       ps.contexts), ps.tasks.order).index)
  }

  lemma ShelvesOk(s: State, x: Index, owner: map<Id, Id>, home: map<Id, Id>)
    requires FlatOk(s, owner, home) && Indexed(s, x, owner, home)
    ensures ShelfOk(Shelf(s.plans, x.plans), owner) && ShelfOk(Shelf(s.contracts, x.contracts), owner)
    ensures ShelfOk(Shelf(s.sandboxes, x.sandboxes), owner) && ShelfOk(Shelf(s.overrides, x.overrides), owner)
    ensures ShelfOk(Shelf(s.contexts, x.contexts), home)
  {
    hide LedgerOk, ListOk, Indexes;
  }

  lemma ShelfIndexes<B>(h: Shelf<B>, home: map<Id, Id>)
    requires ShelfOk(h, home)
    ensures Indexes(h.lists, h.index, home)
  {
  }

  lemma RestoredIndexed(s: State, x: Index, owner: map<Id, Id>, home: map<Id, Id>, p: Id, ps: ProjectState)
    requires FlatOk(s, owner, home) && Indexed(s, x, owner, home) && p in s.projects && StateOk(ps, p, owner)
    requires forall t | t in ps.contexts :: ListOk(ps.contexts[t], t, home)
    ensures Indexed(RestoreIn(s, p, ps), RestoredIndex(s, x, p, ps), owner, home)
  {
    OwnedParts(ps, p, owner);
    ShapesOf(ps, p, owner);
    ShelvesOk(s, x, owner, home);
    RestoreShelfOk(Shelf(s.plans, x.plans), owner, p, ps.plans);
    RestoreShelfOk(Shelf(s.contracts, x.contracts), owner, p, ps.contracts);
    RestoreShelfOk(Shelf(s.sandboxes, x.sandboxes), owner, p, ps.sandboxes);
    ClearShelfOk(Shelf(s.overrides, x.overrides), owner, p);
    ContextsApart(s, owner, home, p, ps);
    RestoredThenCleared(Shelf(s.contexts, x.contexts), Get(s.taskOrder, p), ps.tasks.order, ps.contexts, home);
    hide FlatOk, StateOk, Indexes, ShelfOk, ListOk, Filed, SliceOk, SliceOwned, RestoreShelf, ClearShelf, ClearAll,
      RestoreAll, RestoreLedger, ClearLedger;
    ShelfIndexes(RestoreShelf(ClearShelf(Shelf(s.plans, x.plans), p), p, ps.plans), owner);
    ShelfIndexes(RestoreShelf(ClearShelf(Shelf(s.contracts, x.contracts), p), p, ps.contracts), owner);
    ShelfIndexes(RestoreShelf(ClearShelf(Shelf(s.sandboxes, x.sandboxes), p), p, ps.sandboxes), owner);
    ShelfIndexes(ClearShelf(Shelf(s.overrides, x.overrides), p), owner);
    ClearedLists(Shelf(s.overrides, x.overrides), p);
    ShelfIndexes(ClearAll(RestoreAll(ClearAll(Shelf(s.contexts, x.contexts), Get(s.taskOrder, p)), ps.tasks.order,
                                     ps.contexts), ps.tasks.order), home);
  }

  lemma ClearedLists<B>(h: Shelf<B>, k: Id)
    ensures ClearShelf(h, k).lists == h.lists - {k}
  {
  }

  // A restored task with a context history on file is one of the project's current tasks.
  lemma ContextsApart(s: State, owner: map<Id, Id>, home: map<Id, Id>, p: Id, ps: ProjectState)
    requires FlatOk(s, owner, home) && SliceOk(ps.tasks, p) && SliceOwned(ps.tasks, owner)
    ensures Distinct(ps.tasks.order) && forall t | t in ps.tasks.order :: t in s.contexts ==> t in Get(s.taskOrder, p)
  {
    forall t | t in ps.tasks.order && t in s.contexts ensures t in Get(s.taskOrder, p) {
      assert t in ps.tasks.items && owner[t] == p;
      assert t in s.tasks;
    }
  }

  // The context histories inside stored snapshots belong to their tasks.
  ghost predicate StatesHomed(states: map<Id, ProjectState>, home: map<Id, Id>) {
    forall s, t | s in states && t in states[s].contexts :: ListOk(states[s].contexts[t], t, home)
  }

  lemma CapturedHomed(s: State, owner: map<Id, Id>, home: map<Id, Id>, p: Id, snap: Id)
    requires FlatOk(s, owner, home) && StatesHomed(s.snapshotState, home) && p in s.projects
    ensures StatesHomed(s.snapshotState[snap := ProjectOf(s, p)], home)
  {
    hide LedgerOk;
  }

  // Everything the service relies on.
  ghost predicate Sound(s: State, x: Index, execs: map<Id, Executor>, owner: map<Id, Id>, home: map<Id, Id>, n: Id) {
    && FlatOk(s, owner, home) && Indexed(s, x, owner, home) && StatesHomed(s.snapshotState, home)
    && Inv(WorldOf(s, execs, owner, n))
  }

  // ----- Snapshots ----------------------------------------------------------------------

  // The flat state after recording a snapshot of project p as it is now.
  function RecordIn(s: State, p: Id, snap: Snapshot): State
    requires p in s.projects
  {
    s.(snapshots := Appended(s.snapshots, p, snap), snapshotState := s.snapshotState[snap.id := ProjectOf(s, p)],
       projectBranch := s.projectBranch[p := snap.body.branch],
       stableBranch := if snap.body.stable then s.stableBranch[p := snap.id] else s.stableBranch)
  }

  lemma RecordInOk(s: State, owner: map<Id, Id>, home: map<Id, Id>, p: Id, snap: Snapshot)
    requires FlatOk(s, owner, home) && p in s.projects && snap.id in owner && owner[snap.id] == p
    requires snap.id !in Ids(Get(s.snapshots, p))
    ensures FlatOk(RecordIn(s, p, snap), owner, home)
  {
    hide LedgerOk, ProjectOf;
    AppendedOk(s.snapshots, s.projects.Keys, owner, p, snap);
  }

  lemma LiveRecorded(s: State, p: Id, snap: Snapshot)
    requires p in s.projects
    ensures LiveIn(RecordIn(s, p, snap)) == LiveIn(s)
  {
    var n := RecordIn(s, p, snap);
    forall q | q in s.projects ensures ProjectOf(n, q) == ProjectOf(s, q) {}
    hide ProjectOf;
  }

  lemma RecordedTimeline(s: State, p: Id, snap: Snapshot, q: Id)
    requires p in s.projects && q in s.projects
    ensures TimelineIn(RecordIn(s, p, snap), q)
      == if q == p then Recorded(TimelineIn(s, p), snap) else TimelineIn(s, q)
  {
    hide ProjectOf;
    if q == p {
    } else {
    }
  }

  lemma TimelineRecorded(s: State, p: Id, snap: Snapshot)
    requires p in s.projects
    ensures TimelinesIn(RecordIn(s, p, snap)) == TimelinesIn(s)[p := Recorded(TimelineIn(s, p), snap)]
  {
    hide ProjectOf, TimelineIn, Recorded, RecordIn;
    RecordedFields(s, p, snap);
    forall q | q in s.projects
      ensures TimelineIn(RecordIn(s, p, snap), q)
        == if q == p then Recorded(TimelineIn(s, p), snap) else TimelineIn(s, q)
    {
      RecordedTimeline(s, p, snap, q);
    }
  }

  lemma RecordedFields(s: State, p: Id, snap: Snapshot)
    requires p in s.projects
    ensures var n := RecordIn(s, p, snap);
      && n.projects == s.projects && n.overrides == s.overrides && n.locks == s.locks && n.conflicts == s.conflicts
      && n.previews == s.previews && n.sandboxFaults == s.sandboxFaults
      && n.snapshotState == s.snapshotState[snap.id := ProjectOf(s, p)]
  {
    hide ProjectOf;
  }

  lemma WorldRecorded(s: State, execs: map<Id, Executor>, owner: map<Id, Id>, n: Id, p: Id, snap: Snapshot)
    requires p in s.projects
    ensures p in WorldOf(s, execs, owner, n).live && p in WorldOf(s, execs, owner, n).timelines
    ensures WorldOf(RecordIn(s, p, snap), execs, Grant(owner, p, n, 1), n + 1)
      == AddSnapshot(WorldOf(s, execs, owner, n), p, snap)
  {
    hide LiveIn, TimelinesIn, Grant, Recorded, TimelineIn, ProjectOf, RecordIn;
    LiveRecorded(s, p, snap);
    TimelineRecorded(s, p, snap);
    RecordedFields(s, p, snap);
    WorldParts(s, p);
  }

  lemma WorldParts(s: State, p: Id)
    requires p in s.projects
    ensures p in LiveIn(s) && LiveIn(s)[p] == ProjectOf(s, p) && p in TimelinesIn(s)
    ensures TimelinesIn(s)[p] == TimelineIn(s, p)
  {
  }

  lemma TimelinesRestored(s: State, p: Id, ps: ProjectState, now: Time)
    requires p in s.projects && p in RestoreIn(s, p, ps).projects
    ensures TimelinesIn(TouchIn(RestoreIn(s, p, ps), p, now)) == TimelinesIn(s)
  {
    hide RestoreLedger, ClearLedger, ContextsWithout;
    var n := TouchIn(RestoreIn(s, p, ps), p, now);
    assert n.projects.Keys == s.projects.Keys;
    assert SameTimes(s, n);
    hide RestoreIn, TouchIn;
    TimelinesSame(s, n);
  }

  lemma WorldRestored(s: State, execs: map<Id, Executor>, owner: map<Id, Id>, home: map<Id, Id>, n: Id, p: Id,
                      ps: ProjectState, now: Time)
    requires FlatOk(s, owner, home) && p in s.projects && StateOk(ps, p, owner)
    ensures p in RestoreIn(s, p, ps).projects && FlatOk(TouchIn(RestoreIn(s, p, ps), p, now), owner, home)
    ensures p in WorldOf(s, execs, owner, n).live
    ensures WorldOf(TouchIn(RestoreIn(s, p, ps), p, now), execs, owner, n)
      == RestoreProject(WorldOf(s, execs, owner, n), p, ps, now)
  {
    RestoreInOk(s, owner, home, p, ps);
    RestoreRest(s, p, ps);
    var a := RestoreIn(s, p, ps);
    TouchInOk(a, owner, home, p, now);
    BecomesThen(s, a, TouchIn(a, p, now), p, ps.(contexts := map[]), Restored(ps, now));
    LiveBecomes(s, TouchIn(a, p, now), p, Restored(ps, now));
    TimelinesRestored(s, p, ps, now);
    WorldParts(s, p);
    SliceOrder(Ledger(s.tasks, s.taskOrder), p);
    hide LiveIn, TimelinesIn, TimelineIn, FlatOk, StateOk, Becomes, RestoreIn, SliceOf;
  }

  lemma SliceOrder<B>(l: Ledger<B>, p: Id)
    ensures SliceOf(l, p).order == Get(l.order, p)
  {
  }

  lemma RestoreRest(s: State, p: Id, ps: ProjectState)
    requires p in s.projects
    ensures var n := RestoreIn(s, p, ps);
      && n.projects == s.projects[p := ps.project] && n.overrides == s.overrides - {p} && n.locks == s.locks
      && n.conflicts == s.conflicts
      && n.previews == s.previews && n.sandboxFaults == s.sandboxFaults - Elements(Get(s.taskOrder, p))
      && n.snapshotState == s.snapshotState
  {
  }

  // An index answers as the search through the project's list does.
  lemma IndexLookup<B>(lists: map<Id, seq<Record<B>>>, index: map<Id, Record<B>>, home: map<Id, Id>, p: Id, id: Id)
    requires Indexes(lists, index, home) && forall k | k in lists :: Filed(lists[k], k)
    ensures FindById(Get(lists, p), id) == if id in index && index[id].projectId == p then Some(index[id]) else None
  {
    FindByIdIn(Get(lists, p), id);
    var found := FindById(Get(lists, p), id);
    if id in index && index[id].projectId == p {
      var k := home[id];
      assert index[id] in Get(lists, k);
      var i :| 0 <= i < |Get(lists, k)| && Get(lists, k)[i] == index[id];
      assert k == p && Get(lists, p)[i].id == id;
      assert id in Ids(Get(lists, p));
    }
    if found.Some? {
      assert found.value in lists[p];
      var j :| 0 <= j < |lists[p]| && lists[p][j] == found.value;
    }
  }
}
