// What the updates of the flat service state mean for the machine: planning, tasks, leases,
// previews and merging.
module ServiceSteps {
  import opened Records
  import opened Domain
  import opened Text
  import opened Projects
  import opened ProjectProofs
  import opened Leases
  import opened Machine
  import opened MachineProofs
  import opened States
  import opened ServiceProofs
  import CV = ContractValidation

  // ----- One step -----------------------------------------------------------------------

  // The world with the parts that belong to no project state taken from m.
  function WithRest(w: World, m: State): World {
    w.(overrides := m.overrides, locks := m.locks, queue := m.conflicts, previews := m.previews,
       faults := m.sandboxFaults)
  }

  lemma WorldSteps(s: State, m: State, p: Id, ps: ProjectState, execs: map<Id, Executor>, owner: map<Id, Id>, n: Id,
                   k: nat)
    requires Becomes(s, m, p, ps) && SameTimes(s, m)
    ensures WorldOf(m, execs, Grant(owner, p, n, k), n + k)
      == WithRest(Put(Claim(WorldOf(s, execs, owner, n), p, k), p, ps), m)
  {
    hide ProjectOf, Grant, LiveIn, TimelinesIn;
    LiveBecomes(s, m, p, ps);
    TimelinesSame(s, m);
    hide Becomes;
  }

  lemma HomedGrows(states: map<Id, ProjectState>, home: map<Id, Id>, home': map<Id, Id>)
    requires StatesHomed(states, home) && forall i | i in home :: i in home' && home'[i] == home[i]
    ensures StatesHomed(states, home')
  {
  }

  // The flat state is sound and, with the verdict, stands for the reply.
  ghost predicate Gives(m: State, y: Index, execs: map<Id, Executor>, owner: map<Id, Id>, home: map<Id, Id>, n: Id,
                        refused: Option<Error>, r: Reply) {
    Sound(m, y, execs, owner, home, n) && r == Reply(WorldOf(m, execs, owner, n), refused)
  }

  // A consistent update of one project's state and of the lists beside it is sound when the
  // world it stands for is.
  lemma StepSound(s: State, x: Index, execs: map<Id, Executor>, owner: map<Id, Id>, home: map<Id, Id>, n: Id,
                  p: Id, k: nat, m: State, y: Index, home': map<Id, Id>, ps: ProjectState)
    requires Sound(s, x, execs, owner, home, n)
    requires FlatOk(m, Grant(owner, p, n, k), home') && Indexed(m, y, Grant(owner, p, n, k), home')
    requires Becomes(s, m, p, ps) && SameTimes(s, m) && forall i | i in home :: i in home' && home'[i] == home[i]
    requires Inv(WithRest(Put(Claim(WorldOf(s, execs, owner, n), p, k), p, ps), m))
    ensures Sound(m, y, execs, Grant(owner, p, n, k), home', n + k)
    ensures WorldOf(m, execs, Grant(owner, p, n, k), n + k)
      == WithRest(Put(Claim(WorldOf(s, execs, owner, n), p, k), p, ps), m)
  {
    hide FlatOk, Indexed, Inv, StatesHomed, WorldOf, Becomes, Put, Claim, WithRest, Grant;
    WorldSteps(s, m, p, ps, execs, owner, n, k);
    HomedGrows(s.snapshotState, home, home');
  }

  // ... and when the lists beside it stay as they are.
  lemma StepSoundAlone(s: State, x: Index, execs: map<Id, Executor>, owner: map<Id, Id>, home: map<Id, Id>, n: Id,
                       p: Id, k: nat, m: State, y: Index, home': map<Id, Id>, ps: ProjectState)
    requires Sound(s, x, execs, owner, home, n)
    requires FlatOk(m, Grant(owner, p, n, k), home') && Indexed(m, y, Grant(owner, p, n, k), home')
    requires Becomes(s, m, p, ps) && SameRest(s, m) && forall i | i in home :: i in home' && home'[i] == home[i]
    requires Inv(Put(Claim(WorldOf(s, execs, owner, n), p, k), p, ps))
    ensures Sound(m, y, execs, Grant(owner, p, n, k), home', n + k)
    ensures WorldOf(m, execs, Grant(owner, p, n, k), n + k) == Put(Claim(WorldOf(s, execs, owner, n), p, k), p, ps)
  {
    hide FlatOk, Indexed, Inv, StatesHomed, WorldOf, Becomes, Put, Claim, WithRest, Grant;
    WorldBecomes(s, m, p, ps, execs, owner, n, k);
    HomedGrows(s.snapshotState, home, home');
  }

  // What is known before a step that hands out k ids.
  lemma StepStarts(s: State, x: Index, execs: map<Id, Executor>, owner: map<Id, Id>, home: map<Id, Id>, n: Id, p: Id,
                   k: nat)
    requires Sound(s, x, execs, owner, home, n)
    ensures FlatOk(s, owner, home) && Indexed(s, x, owner, home) && Inv(WorldOf(s, execs, owner, n))
    ensures FlatOk(s, Grant(owner, p, n, k), home) && Indexed(s, x, Grant(owner, p, n, k), home)
    ensures forall i | i in owner :: i < n
  {
    hide FlatOk, Indexed, Inv, StatesHomed, WorldOf;
    OwnersBelow(s, execs, owner, n);
    FlatGrows(s, owner, home, Grant(owner, p, n, k));
    IndexedGrows(s, x, owner, home, Grant(owner, p, n, k), home);
  }

  // The same lists have the same index.
  lemma IndexedSame(s: State, m: State, x: Index, owner: map<Id, Id>, home: map<Id, Id>)
    requires Indexed(s, x, owner, home) && SameLists(s, m) && m.sandboxes == s.sandboxes
    ensures Indexed(m, x, owner, home)
  {
    hide Indexes;
  }

  // An update followed by a touch of the project.
  lemma ThenTouched(s: State, owner: map<Id, Id>, home: map<Id, Id>, m: State, y: Index, p: Id, ps: ProjectState,
                    now: Time)
    requires FlatOk(m, owner, home) && Indexed(m, y, owner, home) && Becomes(s, m, p, ps)
    ensures p in m.projects
    ensures var t := TouchIn(m, p, now);
      FlatOk(t, owner, home) && Indexed(t, y, owner, home) && Becomes(s, t, p, Touch(ps, now))
  {
    hide FlatOk, Indexed, Becomes, ProjectOf;
    BecomesIs(s, m, p);
    TouchInOk(m, owner, home, p, now);
    BecomesThen(s, m, TouchIn(m, p, now), p, ps, Touch(ps, now));
    TouchIndexed(m, y, owner, home, p, now);
  }

  // A new task, and the project touched.
  lemma TaskAdded(s: State, x: Index, execs: map<Id, Executor>, owner: map<Id, Id>, home: map<Id, Id>, n: Id, p: Id,
                  t: Task, now: Time)
    requires Sound(s, x, execs, owner, home, n) && p in s.projects && t.id == n && t.projectId == p
    requires Inv(Put(Claim(WorldOf(s, execs, owner, n), p, 1), p, Touch(AddTask(ProjectOf(s, p), t), now)))
    ensures p in WithTask(s, t).projects
    ensures var m := TouchIn(WithTask(s, t), p, now); var owner' := Grant(owner, p, n, 1);
      && Sound(m, x, execs, owner', home, n + 1)
      && WorldOf(m, execs, owner', n + 1)
        == Put(Claim(WorldOf(s, execs, owner, n), p, 1), p, Touch(AddTask(ProjectOf(s, p), t), now))
  {
    hide Sound, FlatOk, Indexed, Inv, WorldOf, ProjectOf, AddTask, Touch, Put, Claim, Becomes;
    StepStarts(s, x, execs, owner, home, n, p, 1);
    FreshIn(s, owner, home, p, n);
    var g := Grant(owner, p, n, 1);
    WithTaskOk(s, g, home, t);
    IndexedSame(s, WithTask(s, t), x, g, home);
    ThenTouched(s, g, home, WithTask(s, t), x, p, AddTask(ProjectOf(s, p), t), now);
    StepSoundAlone(s, x, execs, owner, home, n, p, 1, TouchIn(WithTask(s, t), p, now), x, home,
                   Touch(AddTask(ProjectOf(s, p), t), now));
  }

  // ----- Planning -----------------------------------------------------------------------

  lemma RequirementCases(s: State, execs: map<Id, Executor>, owner: map<Id, Id>, n: Id, p: Id, title: string,
                         content: string, now: Time)
    ensures var w := WorldOf(s, execs, owner, n); var t := TrimSpace(title); var c := TrimSpace(content);
      var r := Machine.AddRequirement(w, p, title, content, now);
      var bad := t == "" || c == "" || |t| > MAX_REQUIREMENT_TITLE || |c| > MAX_REQUIREMENT_CONTENT;
      && (bad ==> r == Refuse(w, Invalid))
      && (!bad && p !in s.projects ==> r == Refuse(w, NotFound))
      && (!bad && p in s.projects ==>
            r == Reply(Put(Claim(w, p, 1), p, Projects.AddRequirement(ProjectOf(s, p), n, t, c, now)), None))
  {
    hide TrimSpace, Put, Claim, Projects.AddRequirement, WorldOf, ProjectOf;
    WorldFields(s, execs, owner, n);
    if p in s.projects {
      WorldLive(s, execs, owner, n, p);
    }
  }

  lemma RequirementFacts(s: State, x: Index, execs: map<Id, Executor>, owner: map<Id, Id>, home: map<Id, Id>, n: Id,
                         p: Id, t: string, c: string, now: Time)
    requires Sound(s, x, execs, owner, home, n) && p in s.projects
    requires Inv(Put(Claim(WorldOf(s, execs, owner, n), p, 1), p,
                     Projects.AddRequirement(ProjectOf(s, p), n, t, c, now)))
    ensures var m := TouchIn(WithRequirement(s, p, Record(n, p, RequirementBody(t, c, now))), p, now);
      var owner' := Grant(owner, p, n, 1);
      && Sound(m, x, execs, owner', home, n + 1)
      && WorldOf(m, execs, owner', n + 1)
        == Put(Claim(WorldOf(s, execs, owner, n), p, 1), p, Projects.AddRequirement(ProjectOf(s, p), n, t, c, now))
  {
    hide Sound, FlatOk, Indexed, Inv, WorldOf, ProjectOf, Put, Claim, Becomes, Touch;
    StepStarts(s, x, execs, owner, home, n, p, 1);
    FreshIn(s, owner, home, p, n);
    ProjectIds(s, owner, home, p);
    var g, r := Grant(owner, p, n, 1), Record(n, p, RequirementBody(t, c, now));
    var ps := ProjectOf(s, p);
    WithRequirementOk(s, g, home, p, r);
    IndexedSame(s, WithRequirement(s, p, r), x, g, home);
    ThenTouched(s, g, home, WithRequirement(s, p, r), x, p, ps.(requirements := ps.requirements + [r]), now);
    StepSoundAlone(s, x, execs, owner, home, n, p, 1, TouchIn(WithRequirement(s, p, r), p, now), x, home,
                   Projects.AddRequirement(ps, n, t, c, now));
  }

  // AddRequirement, refused or done.
  lemma RequirementDone(s: State, x: Index, execs: map<Id, Executor>, owner: map<Id, Id>, home: map<Id, Id>, n: Id,
                        p: Id, title: string, content: string, now: Time)
    requires Sound(s, x, execs, owner, home, n) && p in s.projects
    requires Machine.AddRequirement(WorldOf(s, execs, owner, n), p, title, content, now).refused.None?
    ensures var r := Record(n, p, RequirementBody(TrimSpace(title), TrimSpace(content), now));
      var m := TouchIn(WithRequirement(s, p, r), p, now);
      Gives(m, x, execs, Grant(owner, p, n, 1), home, n + 1, None,
            Machine.AddRequirement(WorldOf(s, execs, owner, n), p, title, content, now))
  {
    hide FlatOk, Indexed, Inv, StatesHomed, WorldOf, ProjectOf, Put, Claim, TrimSpace, Machine.AddRequirement,
      Projects.AddRequirement, Grant, TouchIn, WithRequirement;
    RequirementCases(s, execs, owner, n, p, title, content, now);
    AddRequirementStep(WorldOf(s, execs, owner, n), p, title, content, now);
    RequirementFacts(s, x, execs, owner, home, n, p, TrimSpace(title), TrimSpace(content), now);
  }

  lemma BuiltIds(id: Id, p: Id, req: Requirement, plan: Plan, version: nat, now: Time)
    ensures var c := CV.BuildContract(id, p, req, plan, version, now); c.id == id && c.projectId == p
  {
    hide CV.ResourceOf, TrimSpace;
  }

  lemma ContractIndexed(s: State, x: Index, owner: map<Id, Id>, home: map<Id, Id>, n: Id, p: Id, c: Contract)
    requires FlatOk(s, owner, home) && Indexed(s, x, owner, home) && c.id == n && n !in owner
    ensures Indexed(WithContract(s, p, c), x.(contracts := x.contracts[n := c]), Grant(owner, p, n, 1), home)
  {
    hide LedgersOk, KeysOk, Appended, Indexes, ListsOk, Grant;
    IndexedGrows(s, x, owner, home, Grant(owner, p, n, 1), home);
    IndexAppended(s.contracts, x.contracts, s.projects.Keys, owner, Grant(owner, p, n, 1), p, c);
  }

  // The contract GenerateContract makes of the newest plan.
  function NextContract(s: State, n: Id, p: Id, plan: Plan, req: Requirement, now: Time): Contract {
    CV.BuildContract(n, p, req, plan, |Get(s.contracts, p)| + 1, now)
  }

  lemma ContractCases(s: State, execs: map<Id, Executor>, owner: map<Id, Id>, n: Id, p: Id, now: Time)
    ensures var w := WorldOf(s, execs, owner, n); var r := GenerateContract(w, p, now); var plans := Get(s.plans, p);
      && (p !in s.projects ==> r == Refuse(w, NotFound))
      && (p in s.projects && plans == [] ==> r == Refuse(w, Invalid))
      && (p in s.projects && plans != [] ==>
            var plan := plans[|plans|-1]; var req := FindById(Get(s.requirements, p), plan.body.requirementId);
            && (req.None? ==> r == Refuse(w, NotFound))
            && (req.Some? ==>
                  r == Reply(Put(Claim(w, p, 1), p,
                                 AddContract(ProjectOf(s, p), NextContract(s, n, p, plan, req.value, now),
                                             now)), None)))
  {
    hide FindById, CV.BuildContract, Put, Claim, AddContract, LiveIn, TimelinesIn;
    LiveKeys(s, p);
    hide SliceOf, ContextsOf;
  }

  lemma ContractFacts(s: State, x: Index, execs: map<Id, Executor>, owner: map<Id, Id>, home: map<Id, Id>, n: Id,
                      p: Id, plan: Plan, req: Requirement, now: Time)
    requires Sound(s, x, execs, owner, home, n) && p in s.projects && Get(s.plans, p) != []
    requires plan == Get(s.plans, p)[|Get(s.plans, p)|-1]
    requires FindById(Get(s.requirements, p), plan.body.requirementId) == Some(req)
    ensures var c := NextContract(s, n, p, plan, req, now);
      Gives(TouchIn(WithContract(s, p, c), p, now), x.(contracts := x.contracts[n := c]), execs, Grant(owner, p, n, 1),
            home, n + 1, None,
            GenerateContract(WorldOf(s, execs, owner, n), p, now))
  {
    hide Sound, FlatOk, Indexed, Inv, WorldOf, ProjectOf, Put, Claim, Becomes, Touch, FindById, CV.BuildContract,
      GenerateContract;
    var w, c, g := WorldOf(s, execs, owner, n), NextContract(s, n, p, plan, req, now), Grant(owner, p, n, 1);
    var ps, y := ProjectOf(s, p), x.(contracts := x.contracts[n := c]);
    ContractCases(s, execs, owner, n, p, now);
    StepStarts(s, x, execs, owner, home, n, p, 1);
    GenerateContractStep(w, p, now);
    FreshIn(s, owner, home, p, n);
    BuiltIds(n, p, req, plan, |Get(s.contracts, p)| + 1, now);
    WithContractOk(s, g, home, p, c);
    ContractIndexed(s, x, owner, home, n, p, c);
    ThenTouched(s, g, home, WithContract(s, p, c), y, p, ps.(contracts := ps.contracts + [c]), now);
    StepSoundAlone(s, x, execs, owner, home, n, p, 1, TouchIn(WithContract(s, p, c), p, now), y, home,
                   AddContract(ps, c, now));
  }

  // ----- Contexts -----------------------------------------------------------------------

  // Everything filed in a project carries the project's id.
  lemma ListsFiled(s: State, execs: map<Id, Executor>, owner: map<Id, Id>, home: map<Id, Id>, n: Id)
    requires FlatOk(s, owner, home) && Inv(WorldOf(s, execs, owner, n))
    ensures forall k | k in s.plans :: Filed(s.plans[k], k)
    ensures forall k | k in s.contracts :: Filed(s.contracts[k], k)
  {
    hide Inv, Filed, LedgersOk;
    forall k | k in s.plans || k in s.contracts ensures Filed(Get(s.plans, k), k) && Filed(Get(s.contracts, k), k) {
      ProjectGood(s, execs, owner, n, k);
      ProjectLists(s, k);
    }
  }

  lemma ProjectLists(s: State, p: Id)
    requires p in s.projects && ProjectOk(ProjectOf(s, p), p)
    ensures Filed(Get(s.plans, p), p) && Filed(Get(s.contracts, p), p)
  {
    hide Filed, Protocol, DepsOk, OrderOk, AuditsOk, PlansOk, ContextsOk, SliceOk, SliceOf, ContextsOf;
  }

  // The plan index knows the plan of every task, and so does the project.
  lemma PlanKnown(s: State, x: Index, execs: map<Id, Executor>, owner: map<Id, Id>, home: map<Id, Id>, n: Id, p: Id,
                  t: Task)
    requires Sound(s, x, execs, owner, home, n) && p in s.projects
    requires t.id in ProjectOf(s, p).tasks.items && ProjectOf(s, p).tasks.items[t.id] == t
    ensures t.body.planId in x.plans && FindById(Get(s.plans, p), t.body.planId) == Some(x.plans[t.body.planId])
  {
    hide FlatOk, Indexed, Inv, StatesHomed, FindById, Filed, Indexes, WorldOf, ProjectOf, ProjectOk;
    ProjectGood(s, execs, owner, n, p);
    PlanOfTask(ProjectOf(s, p), p, t);
    PlansAre(s, p);
    FindByIdIn(Get(s.plans, p), t.body.planId);
    ListsFiled(s, execs, owner, home, n);
    ListsIndexed(s, x, owner, home);
    IndexLookup(s.plans, x.plans, owner, p, t.body.planId);
  }

  lemma PlanOfTask(ps: ProjectState, p: Id, t: Task)
    requires ProjectOk(ps, p) && t.id in ps.tasks.items && ps.tasks.items[t.id] == t
    ensures t.body.planId in Ids(ps.plans)
  {
    hide Protocol, DepsOk, OrderOk, AuditsOk, ContextsOk, Shapes;
  }

  lemma PlansAre(s: State, p: Id)
    requires p in s.projects
    ensures ProjectOf(s, p).plans == Get(s.plans, p) && ProjectOf(s, p).contracts == Get(s.contracts, p)
    ensures ProjectOf(s, p).requirements == Get(s.requirements, p) && ProjectOf(s, p).sandboxes == Get(s.sandboxes, p)
  {
    hide SliceOf, ContextsOf;
  }

  // The contract index answers as the search through the project's contracts.
  lemma ContractKnown(s: State, x: Index, execs: map<Id, Executor>, owner: map<Id, Id>, home: map<Id, Id>, n: Id, p: Id,
                      id: Id)
    requires Sound(s, x, execs, owner, home, n) && p in s.projects
    ensures ProjectOf(s, p).contracts == Get(s.contracts, p)
    ensures FindById(Get(s.contracts, p), id) == if id in x.contracts && x.contracts[id].projectId == p
      then Some(x.contracts[id]) else None
  {
    hide FlatOk, Indexed, Inv, StatesHomed, FindById, Filed, Indexes, WorldOf, ProjectOf;
    PlansAre(s, p);
    ListsFiled(s, execs, owner, home, n);
    ListsIndexed(s, x, owner, home);
    IndexLookup(s.contracts, x.contracts, owner, p, id);
  }

  // A task's own context history is the one in its project.
  lemma HistoryOf(s: State, owner: map<Id, Id>, home: map<Id, Id>, p: Id, t: Id)
    requires FlatOk(s, owner, home) && p in s.projects && t in ProjectOf(s, p).tasks.items
    ensures Get(ProjectOf(s, p).contexts, t) == Get(s.contexts, t)
  {
    hide LedgerOk, ListsOk;
  }

  lemma FlatHomed(s: State, owner: map<Id, Id>, home: map<Id, Id>, home': map<Id, Id>)
    requires FlatOk(s, owner, home) && home'.Keys <= owner.Keys
    requires forall i | i in home :: i in home' && home'[i] == home[i]
    ensures FlatOk(s, owner, home')
  {
    ListsGrow(s.contexts, s.tasks.Keys, home, home');
    hide LedgersOk, ListsOk;
  }

  lemma ContextIndexed(s: State, x: Index, owner: map<Id, Id>, owner': map<Id, Id>, home: map<Id, Id>, c: Context)
    requires FlatOk(s, owner, home) && Indexed(s, x, owner', home) && c.id !in home
    ensures Indexed(WithContext(s, c), x.(contexts := x.contexts[c.id := c]), owner', home[c.id := c.body.taskId])
    ensures c.id !in Ids(Get(s.contexts, c.body.taskId))
  {
    hide LedgersOk, KeysOk, Appended, Indexes, ListsOk;
    var home' := home[c.id := c.body.taskId];
    IndexedGrows(s, x, owner', home, owner', home');
    IndexAppended(s.contexts, x.contexts, s.tasks.Keys, home, home', c.body.taskId, c);
  }

  // The task is filed in project p.
  ghost predicate FiledTask(s: State, p: Id, t: Task)
    requires p in s.projects
  {
    && t.id in s.tasks && s.tasks[t.id] == t && t.projectId == p
    && t.id in ProjectOf(s, p).tasks.items && ProjectOf(s, p).tasks.items[t.id] == t
  }

  ghost predicate ContextReply(w: World, r: Reply, ps: ProjectState, p: Id, t: Task, now: Time) {
    var c := ContextFor(ps, p, t, w.nextId, now);
    && (c.Refused? ==> r == Refuse(w, c.error))
    && (c.Ok? ==> r == Reply(Put(Claim(w, p, 1), p, AddContext(ps, c.value)), None))
  }

  lemma ContextCases(s: State, x: Index, execs: map<Id, Executor>, owner: map<Id, Id>, home: map<Id, Id>, n: Id, p: Id,
                     taskId: Option<Id>, now: Time)
    requires Sound(s, x, execs, owner, home, n)
    ensures var w := WorldOf(s, execs, owner, n); var r := GenerateTaskContext(w, p, taskId, now);
      && (p !in s.projects ==> r == Refuse(w, NotFound))
      && (p in s.projects ==> var t := ResolveTask(ProjectOf(s, p), taskId);
            && (t.Refused? ==> r == Refuse(w, t.error))
            && (t.Ok? ==> FiledTask(s, p, t.value) && ContextReply(w, r, ProjectOf(s, p), p, t.value, now)))
  {
    hide FlatOk, Indexed, Inv, StatesHomed, WorldOf, ProjectOf, ResolveTask, ContextFor, Put, Claim, AddContext;
    WorldFields(s, execs, owner, n);
    if p in s.projects {
      WorldLive(s, execs, owner, n, p);
      if ResolveTask(ProjectOf(s, p), taskId).Ok? {
        ResolvedHere(s, execs, owner, home, n, p, taskId);
      }
    }
  }

  lemma ContextFacts(s: State, x: Index, execs: map<Id, Executor>, owner: map<Id, Id>, home: map<Id, Id>, n: Id,
                     p: Id, taskId: Option<Id>, c: Context, now: Time)
    requires Sound(s, x, execs, owner, home, n) && p in s.projects && ResolveTask(ProjectOf(s, p), taskId).Ok?
    requires ContextFor(ProjectOf(s, p), p, ResolveTask(ProjectOf(s, p), taskId).value, n, now) == Ok(c)
    ensures c.id == n
    ensures Gives(WithContext(s, c), x.(contexts := x.contexts[n := c]), execs, Grant(owner, p, n, 1),
                  home[n := c.body.taskId], n + 1, None,
                  GenerateTaskContext(WorldOf(s, execs, owner, n), p, taskId, now))
  {
    hide WithContext, Sound, FlatOk, Indexed, Inv, WorldOf, ProjectOf, ResolveTask, ContextFor, Put, Claim, AddContext,
      Becomes, GenerateTaskContext, Grant;
    var w, g, home' := WorldOf(s, execs, owner, n), Grant(owner, p, n, 1), home[n := c.body.taskId];
    ContextIds(ProjectOf(s, p), p, ResolveTask(ProjectOf(s, p), taskId).value, n, now);
    ContextRest(s, c);
    WorldFields(s, execs, owner, n);
    ContextCases(s, x, execs, owner, home, n, p, taskId, now);
    StepStarts(s, x, execs, owner, home, n, p, 1);
    GenerateTaskContextStep(w, p, taskId, now);
    FreshIn(s, owner, home, p, n);
    FlatKeys(s, g, home);
    FlatHomed(s, g, home, home');
    ContextIndexed(s, x, g, g, home, c);
    WithContextOk(s, g, home', p, c);
    StepSoundAlone(s, x, execs, owner, home, n, p, 1, WithContext(s, c), x.(contexts := x.contexts[n := c]), home',
                   AddContext(ProjectOf(s, p), c));
  }

  lemma ContextRest(s: State, c: Context)
    ensures SameRest(s, WithContext(s, c))
  {
    hide Appended;
  }

  lemma FlatKeys(s: State, owner: map<Id, Id>, home: map<Id, Id>)
    requires FlatOk(s, owner, home)
    ensures home.Keys <= owner.Keys
  {
    hide LedgersOk, FilesOk;
  }

  lemma ContextIds(ps: ProjectState, p: Id, t: Task, id: Id, now: Time)
    ensures var c := ContextFor(ps, p, t, id, now);
      c.Ok? ==> c.value.id == id && c.value.projectId == p && c.value.body.taskId == t.id
  {
    hide FindById, TaskContract;
  }

  // ----- Tasks --------------------------------------------------------------------------

  function Last<T>(s: seq<T>): T
    requires s != []
  {
    s[|s|-1]
  }

  lemma DispatchCases(s: State, x: Index, execs: map<Id, Executor>, owner: map<Id, Id>, home: map<Id, Id>, n: Id, p: Id,
                      now: Time)
    requires Sound(s, x, execs, owner, home, n)
    ensures var w := WorldOf(s, execs, owner, n); var r := DispatchTasks(w, p, now);
      && (p !in s.projects ==> r == Refuse(w, NotFound))
      && (p in s.projects && (Get(s.plans, p) == [] || Get(s.contracts, p) == []) ==> r == Refuse(w, Invalid))
      && (p in s.projects && Get(s.plans, p) != [] && Get(s.contracts, p) != [] ==>
            DispatchReply(w, r, ProjectOf(s, p), p, Last(Get(s.plans, p)), Last(Get(s.contracts, p)), now))
  {
    hide FlatOk, Indexed, Inv, StatesHomed, WorldOf, ProjectOf, Dispatched, Dispatch, Put, Claim;
    WorldFields(s, execs, owner, n);
    if p in s.projects {
      WorldLive(s, execs, owner, n, p);
      PlansAre(s, p);
    }
  }

  ghost predicate DispatchReply(w: World, r: Reply, ps: ProjectState, p: Id, plan: Plan, contract: Contract,
                                now: Time) {
    && (Dispatched(ps.tasks.order, ps.tasks.items, plan.id, contract.id) != [] ==> r == Reply(w, None))
    && (Dispatched(ps.tasks.order, ps.tasks.items, plan.id, contract.id) == [] ==>
          r == Reply(Put(Claim(w, p, 3), p, Dispatch(ps, plan, contract, w.nextId, now)), None))
  }

  // The search through the global task map finds what the project's own would.
  lemma {:induction false} DispatchedHere(order: seq<Id>, tasks: map<Id, Task>, others: map<Id, Task>, planId: Id,
                                          contractId: Id)
    requires forall t | t in order :: t in tasks && t in others && tasks[t] == others[t]
    ensures Dispatched(order, tasks, planId, contractId) == Dispatched(order, others, planId, contractId)
  {
    if order == [] {
    } else {
      DispatchedHere(order[..|order|-1], tasks, others, planId, contractId);
    }
  }

  lemma DispatchedSame(s: State, x: Index, execs: map<Id, Executor>, owner: map<Id, Id>, home: map<Id, Id>, n: Id,
                       p: Id, planId: Id, contractId: Id)
    requires Sound(s, x, execs, owner, home, n) && p in s.projects
    ensures var ps := ProjectOf(s, p);
      Dispatched(Get(s.taskOrder, p), s.tasks, planId, contractId)
        == Dispatched(ps.tasks.order, ps.tasks.items, planId, contractId)
  {
    hide FlatOk, Indexed, Inv, StatesHomed, Dispatched, ProjectOf;
    TasksOf(s, owner, home, p, ProjectOf(s, p));
    DispatchedHere(Get(s.taskOrder, p), s.tasks, ProjectOf(s, p).tasks.items, planId, contractId);
  }

  lemma ThreeAdded(s: State, x: Index, owner: map<Id, Id>, home: map<Id, Id>, p: Id, a: Task, b: Task, c: Task)
    requires FlatOk(s, owner, home) && Indexed(s, x, owner, home) && p in s.projects
    requires a.projectId == b.projectId == c.projectId == p && Owned(a, owner) && Owned(b, owner) && Owned(c, owner)
    requires a.id !in s.tasks && b.id !in s.tasks && c.id !in s.tasks && a.id != b.id && a.id != c.id && b.id != c.id
    ensures var m := WithTask(WithTask(WithTask(s, a), b), c);
      && FlatOk(m, owner, home) && Indexed(m, x, owner, home) && SameRest(s, m)
      && Becomes(s, m, p, AddTask(AddTask(AddTask(ProjectOf(s, p), a), b), c))
  {
    hide FlatOk, Indexed, ProjectOf, AddTask, Becomes;
    WithTaskOk(s, owner, home, a);
    var s1 := WithTask(s, a);
    BecomesIs(s, s1, p);
    WithTaskOk(s1, owner, home, b);
    var s2 := WithTask(s1, b);
    BecomesIs(s1, s2, p);
    WithTaskOk(s2, owner, home, c);
    var s3 := WithTask(s2, c);
    BecomesIs(s2, s3, p);
    BecomesThen(s, s1, s2, p, ProjectOf(s1, p), ProjectOf(s2, p));
    BecomesThen(s, s2, s3, p, ProjectOf(s2, p), ProjectOf(s3, p));
    IndexedSame(s, s3, x, owner, home);
  }

  // The three tasks of a dispatch.
  function DispatchTask(id: Id, p: Id, plan: Plan, contract: Contract, name: string, kind: TaskKind, agent: string,
                        deps: seq<Id>, now: Time): Task {
    NewTask(id, p, plan.id, name + plan.body.title, kind, agent, deps, ContractRef(contract.id), now)
  }

  ghost predicate Three(a: Task, b: Task, c: Task, n: Id, p: Id, plan: Plan, contract: Contract, now: Time) {
    && a == DispatchTask(n, p, plan, contract, "Build backend implementation for ", Backend, "go-backend-agent", [],
                         now)
    && b == DispatchTask(n + 1, p, plan, contract, "Build frontend implementation for ", Frontend, "vue-frontend-agent",
                         [], now)
    && c == DispatchTask(n + 2, p, plan, contract, "Merge and verify ", Integration, "integration-agent", [n, n + 1],
                         now)
  }

  lemma DispatchIs(ps: ProjectState, p: Id, plan: Plan, contract: Contract, n: Id, a: Task, b: Task, c: Task, now: Time)
    requires ps.project.id == p && Three(a, b, c, n, p, plan, contract, now)
    ensures a.id == n && b.id == n + 1 && c.id == n + 2 && a.projectId == b.projectId == c.projectId == p
    ensures Dispatch(ps, plan, contract, n, now) == Touch(AddTask(AddTask(AddTask(ps, a), b), c), now)
  {
    hide AddTask, Touch;
  }

  lemma DispatchBuilt(s: State, x: Index, owner: map<Id, Id>, home: map<Id, Id>, n: Id, p: Id, plan: Plan,
                      contract: Contract, a: Task, b: Task, c: Task, now: Time)
    requires FlatOk(s, owner, home) && Indexed(s, x, owner, home) && p in s.projects && (forall i | i in owner :: i < n)
    requires Three(a, b, c, n, p, plan, contract, now)
    ensures p in WithTask(WithTask(WithTask(s, a), b), c).projects
    ensures var m := TouchIn(WithTask(WithTask(WithTask(s, a), b), c), p, now); var g := Grant(owner, p, n, 3);
      && FlatOk(m, g, home) && Indexed(m, x, g, home) && SameRest(s, m)
      && Becomes(s, m, p, Dispatch(ProjectOf(s, p), plan, contract, n, now))
  {
    hide FlatOk, Indexed, ProjectOf, Becomes, Touch, AddTask, WithTask, Dispatch, SameRest, Three;
    var g, ps, m := Grant(owner, p, n, 3), ProjectOf(s, p), WithTask(WithTask(WithTask(s, a), b), c);
    FlatGrows(s, owner, home, g);
    IndexedGrows(s, x, owner, home, g, home);
    FreshIn(s, owner, home, p, n);
    FreshIn(s, owner, home, p, n + 1);
    FreshIn(s, owner, home, p, n + 2);
    ProjectIds(s, owner, home, p);
    DispatchIs(ps, p, plan, contract, n, a, b, c, now);
    ThreeAdded(s, x, g, home, p, a, b, c);
    ThenTouched(s, g, home, m, x, p, AddTask(AddTask(AddTask(ps, a), b), c), now);
    TouchRest(s, m, p, now);
  }

  lemma DispatchFacts(s: State, x: Index, execs: map<Id, Executor>, owner: map<Id, Id>, home: map<Id, Id>, n: Id,
                      p: Id, plan: Plan, contract: Contract, a: Task, b: Task, c: Task, now: Time)
    requires Sound(s, x, execs, owner, home, n) && p in s.projects && Get(s.plans, p) != [] && Get(s.contracts, p) != []
    requires plan == Get(s.plans, p)[|Get(s.plans, p)|-1] && contract == Get(s.contracts, p)[|Get(s.contracts, p)|-1]
    requires Dispatched(Get(s.taskOrder, p), s.tasks, plan.id, contract.id) == []
    requires Three(a, b, c, n, p, plan, contract, now)
    ensures p in WithTask(WithTask(WithTask(s, a), b), c).projects
    ensures Gives(TouchIn(WithTask(WithTask(WithTask(s, a), b), c), p, now), x, execs, Grant(owner, p, n, 3), home,
                  n + 3, None,
                  DispatchTasks(WorldOf(s, execs, owner, n), p, now))
  {
    hide Sound, FlatOk, Indexed, Inv, WorldOf, ProjectOf, Put, Claim, Becomes, WithTask, DispatchTasks, Three, Dispatch,
      Dispatched, SameRest, Grant, TouchIn;
    WorldFields(s, execs, owner, n);
    DispatchCases(s, x, execs, owner, home, n, p, now);
    StepStarts(s, x, execs, owner, home, n, p, 3);
    DispatchTasksStep(WorldOf(s, execs, owner, n), p, now);
    TasksOf(s, owner, home, p, ProjectOf(s, p));
    DispatchedHere(Get(s.taskOrder, p), s.tasks, ProjectOf(s, p).tasks.items, plan.id, contract.id);
    DispatchBuilt(s, x, owner, home, n, p, plan, contract, a, b, c, now);
    StepSoundAlone(s, x, execs, owner, home, n, p, 3, TouchIn(WithTask(WithTask(WithTask(s, a), b), c), p, now), x,
                   home,
                   Dispatch(ProjectOf(s, p), plan, contract, n, now));
  }

  lemma TouchRest(s: State, m: State, p: Id, now: Time)
    requires SameRest(s, m) && p in m.projects
    ensures SameRest(s, TouchIn(m, p, now))
  {
  }

  lemma ValidateCases(s: State, execs: map<Id, Executor>, owner: map<Id, Id>, n: Id, p: Id,
                      contractId: Option<Id>, endpoints: seq<Endpoint>, schemas: seq<Schema>, now: Time)
    ensures var w := WorldOf(s, execs, owner, n); var r := ValidateContract(w, p, contractId, endpoints, schemas, now);
      && (p !in s.projects ==> r == Refuse(w, NotFound))
      && (p in s.projects ==> var c := ResolveContract(ProjectOf(s, p), contractId);
            && (c.Refused? ==> r == Refuse(w, c.error))
            && (c.Ok? && endpoints == [] && schemas == [] ==> r == Refuse(w, Invalid))
            && (c.Ok? && (endpoints != [] || schemas != []) ==>
                  if CV.Report(c.value.body, endpoints, schemas) == [] then r == Reply(w, None)
                  else r == Reply(Put(Claim(w, p, 1), p,
                                      Touch(AddTask(ProjectOf(s, p), ReworkTask(ProjectOf(s, p), c.value, n, now)),
                                            now)), None)))
  {
    hide ResolveContract, CV.Report, Put, Claim, Touch, AddTask, ReworkTask, WorldOf, ProjectOf;
    WorldFields(s, execs, owner, n);
    if p in s.projects {
      WorldLive(s, execs, owner, n, p);
    }
  }

  // createContractRemediationTaskLocked.
  function GateTask(p: Id, c: Contract, id: Id, later: Time): Task {
    NewTask(id, p, c.body.planId, "Resolve contract conflicts for v" + Decimal(c.body.version), Rework, DEFAULT_AGENT,
            [], ContractRef(c.id), later)
  }

  lemma ReworkHere(s: State, x: Index, execs: map<Id, Executor>, owner: map<Id, Id>, home: map<Id, Id>, n: Id, p: Id,
                   c: Contract, id: Id, now: Time)
    requires Sound(s, x, execs, owner, home, n) && p in s.projects
    ensures ReworkTask(ProjectOf(s, p), c, id, now) == GateTask(p, c, id, now) && GateTask(p, c, id, now).projectId == p
  {
    hide FlatOk, Indexed, Inv, StatesHomed, ProjectOf, Decimal;
    ProjectIds(s, owner, home, p);
  }

  lemma ReworkIds(ps: ProjectState, c: Contract, id: Id, now: Time)
    ensures ReworkTask(ps, c, id, now).id == id && ReworkTask(ps, c, id, now).projectId == ps.project.id
  {
    hide Decimal;
  }

  lemma ValidateFacts(s: State, x: Index, execs: map<Id, Executor>, owner: map<Id, Id>, home: map<Id, Id>, n: Id, p: Id,
                      contractId: Option<Id>, c: Contract, endpoints: seq<Endpoint>, schemas: seq<Schema>, now: Time)
    requires Sound(s, x, execs, owner, home, n) && p in s.projects
    requires ResolveContract(ProjectOf(s, p), contractId) == Ok(c)
    requires (endpoints != [] || schemas != []) && CV.Report(c.body, endpoints, schemas) != []
    ensures var t := ReworkTask(ProjectOf(s, p), c, n, now);
      && p in WithTask(s, t).projects
      && Gives(TouchIn(WithTask(s, t), p, now), x, execs, Grant(owner, p, n, 1), home, n + 1, None,
               ValidateContract(WorldOf(s, execs, owner, n), p, contractId, endpoints, schemas, now))
  {
    hide FlatOk, Indexed, Inv, StatesHomed, WorldOf, ProjectOf, Put, Claim, Touch, AddTask, ReworkTask,
      ValidateContract, ResolveContract, CV.Report, WithTask, TouchIn, Grant;
    ValidateCases(s, execs, owner, n, p, contractId, endpoints, schemas, now);
    ValidateContractStep(WorldOf(s, execs, owner, n), p, contractId, endpoints, schemas, now);
    ProjectIds(s, owner, home, p);
    ReworkIds(ProjectOf(s, p), c, n, now);
    TaskAdded(s, x, execs, owner, home, n, p, ReworkTask(ProjectOf(s, p), c, n, now), now);
  }

  lemma RetryCases(s: State, x: Index, execs: map<Id, Executor>, owner: map<Id, Id>, home: map<Id, Id>, n: Id, p: Id,
                   taskId: Option<Id>, now: Time)
    requires Sound(s, x, execs, owner, home, n)
    ensures var w := WorldOf(s, execs, owner, n); var r := RetryTask(w, p, taskId, now);
      && (p !in s.projects ==> r == Refuse(w, NotFound))
      && (p in s.projects ==> var t := ResolveTask(ProjectOf(s, p), taskId);
            && (t.Refused? ==> r == Refuse(w, t.error))
            && (t.Ok? && t.value.body.status != Failed ==> r == Refuse(w, Conflict))
            && (t.Ok? ==> t.value.projectId == p)
            && (t.Ok? && t.value.body.status == Failed ==>
                  r
                    == Reply(Put(Claim(w, p, 1), p, Touch(AddTask(ProjectOf(s, p), RetryOf(t.value, n, now)), now)),
                             None)))
  {
    hide FlatOk, Indexed, Inv, StatesHomed, WorldOf, ProjectOf, ResolveTask, RetryOf, Put, Claim, Touch, AddTask;
    WorldFields(s, execs, owner, n);
    if p in s.projects {
      WorldLive(s, execs, owner, n, p);
      if ResolveTask(ProjectOf(s, p), taskId).Ok? {
        ResolvedHere(s, execs, owner, home, n, p, taskId);
      }
    }
  }

  lemma RetryIds(t: Task, id: Id, now: Time)
    ensures RetryOf(t, id, now).id == id && RetryOf(t, id, now).projectId == t.projectId
  {
  }

  lemma RetryFacts(s: State, x: Index, execs: map<Id, Executor>, owner: map<Id, Id>, home: map<Id, Id>, n: Id, p: Id,
                   taskId: Option<Id>, t: Task, now: Time)
    requires Sound(s, x, execs, owner, home, n) && p in s.projects && ResolveTask(ProjectOf(s, p), taskId) == Ok(t)
    requires t.body.status == Failed
    ensures var u := RetryOf(t, n, now);
      && p in WithTask(s, u).projects
      && Gives(TouchIn(WithTask(s, u), p, now), x, execs, Grant(owner, p, n, 1), home, n + 1, None,
               RetryTask(WorldOf(s, execs, owner, n), p, taskId, now))
  {
    hide FlatOk, Indexed, Inv, StatesHomed, WorldOf, ProjectOf, ResolveTask, RetryOf, Put, Claim, Touch, AddTask,
      RetryTask, WithTask, TouchIn, Grant;
    RetryCases(s, x, execs, owner, home, n, p, taskId, now);
    RetryTaskStep(WorldOf(s, execs, owner, n), p, taskId, now);
    RetryIds(t, n, now);
    TaskAdded(s, x, execs, owner, home, n, p, RetryOf(t, n, now), now);
  }

  // Nothing but the faults differs.
  lemma FaultsSound(s: State, x: Index, execs: map<Id, Executor>, owner: map<Id, Id>, home: map<Id, Id>, n: Id,
                    faults: map<Id, string>)
    requires Sound(s, x, execs, owner, home, n)
    ensures var m := s.(sandboxFaults := faults);
      && Sound(m, x, execs, owner, home, n)
      && WorldOf(m, execs, owner, n) == WorldOf(s, execs, owner, n).(faults := faults)
  {
    hide FlatOk, Indexed, Inv, StatesHomed, ProjectOf, TimelineIn, LiveIn, TimelinesIn;
    var m := s.(sandboxFaults := faults);
    FaultsFlat(s, x, owner, home, faults);
    FaultsLive(s, faults);
    FaultsOk(WorldOf(s, execs, owner, n), faults);
  }

  lemma FaultsFlat(s: State, x: Index, owner: map<Id, Id>, home: map<Id, Id>, faults: map<Id, string>)
    requires FlatOk(s, owner, home) && Indexed(s, x, owner, home)
    ensures FlatOk(s.(sandboxFaults := faults), owner, home) && Indexed(s.(sandboxFaults := faults), x, owner, home)
  {
    hide LedgerOk, ListsOk, Indexes;
  }

  lemma FaultsLive(s: State, faults: map<Id, string>)
    ensures LiveIn(s.(sandboxFaults := faults)) == LiveIn(s)
    ensures TimelinesIn(s.(sandboxFaults := faults)) == TimelinesIn(s)
  {
    var m := s.(sandboxFaults := faults);
    forall q | q in s.projects ensures ProjectOf(m, q) == ProjectOf(s, q) && TimelineIn(m, q) == TimelineIn(s, q) {
      hide SliceOf, ContextsOf, Get;
    }
    hide ProjectOf, TimelineIn;
  }

  lemma MarkCases(s: State, execs: map<Id, Executor>, owner: map<Id, Id>, n: Id, p: Id, taskId: Option<Id>,
                  reason: string)
    ensures var w := WorldOf(s, execs, owner, n); var r := MarkFault(w, p, taskId, reason);
      && (p !in s.projects ==> r == Refuse(w, NotFound))
      && (p in s.projects ==> var t := ResolveTask(ProjectOf(s, p), taskId);
            && (t.Refused? ==> r == Refuse(w, t.error))
            && (t.Ok? ==> var why := if TrimSpace(reason) == "" then SIMULATED_FAULT else TrimSpace(reason);
                  r == Reply(w.(faults := s.sandboxFaults[t.value.id := why]), None)))
  {
    hide ResolveTask, TrimSpace, LiveIn, TimelinesIn, ProjectOf;
    LiveKeys(s, p);
  }

  // ----- Lists beside the projects ------------------------------------------------------

  // The id is new and was handed out for project p.
  ghost predicate NewId(i: Id, p: Id, owner: map<Id, Id>, g: map<Id, Id>) {
    i !in owner && i in g && g[i] == p && forall j | j in owner :: j in g && g[j] == owner[j]
  }

  lemma GrantedNew(owner: map<Id, Id>, p: Id, n: Id, k: nat, i: Id)
    requires (forall j | j in owner :: j < n) && n <= i < n + k
    ensures NewId(i, p, owner, Grant(owner, p, n, k))
  {
    hide Grant;
  }

  lemma BesideFlat(s: State, m: State, owner: map<Id, Id>, home: map<Id, Id>, p: Id)
    requires FlatOk(s, owner, home) && p in s.projects
    requires m == s.(overrides := m.overrides, locks := m.locks, conflicts := m.conflicts, previews := m.previews)
    requires ListsOk(m.overrides, s.projects.Keys, owner) && ListsOk(m.locks, s.projects.Keys, owner)
    requires ListsOk(m.conflicts, s.projects.Keys, owner) && ListsOk(m.previews, s.projects.Keys, owner)
    ensures FlatOk(m, owner, home) && Becomes(s, m, p, ProjectOf(s, p))
  {
    hide LedgerOk, ListsOk;
    forall q | q in s.projects ensures ProjectOf(m, q) == ProjectOf(s, q) {
      hide SliceOf, ContextsOf, Get;
    }
    hide ProjectOf;
  }

  function WithConflict(s: State, p: Id, r: QueueEntry): State {
    s.(conflicts := Appended(s.conflicts, p, r))
  }

  lemma ConflictAdded(s: State, x: Index, owner: map<Id, Id>, home: map<Id, Id>, g: map<Id, Id>, p: Id, r: QueueEntry)
    requires FlatOk(s, owner, home) && Indexed(s, x, owner, home) && p in s.projects && NewId(r.id, p, owner, g)
    ensures var m := WithConflict(s, p, r);
      && FlatOk(m, g, home) && Indexed(m, x.(conflicts := x.conflicts[r.id := r]), g, home)
      && Becomes(s, m, p, ProjectOf(s, p)) && SameTimes(s, m)
  {
    hide LedgersOk, KeysOk, Appended, Indexes, ListsOk, Becomes, ProjectOf;
    FlatGrows(s, owner, home, g);
    IndexedGrows(s, x, owner, home, g, home);
    IndexAppended(s.conflicts, x.conflicts, s.projects.Keys, owner, g, p, r);
    AppendedOk(s.conflicts, s.projects.Keys, g, p, r);
    BesideFlat(s, WithConflict(s, p, r), g, home, p);
  }

  function WithLock(s: State, p: Id, r: CodeLock): State {
    s.(locks := Appended(s.locks, p, r))
  }

  lemma LockAdded(s: State, x: Index, owner: map<Id, Id>, home: map<Id, Id>, g: map<Id, Id>, p: Id, r: CodeLock)
    requires FlatOk(s, owner, home) && Indexed(s, x, owner, home) && p in s.projects && NewId(r.id, p, owner, g)
    ensures var m := WithLock(s, p, r);
      && FlatOk(m, g, home) && Indexed(m, x.(locks := x.locks[r.id := r]), g, home)
      && Becomes(s, m, p, ProjectOf(s, p)) && SameTimes(s, m)
  {
    hide LedgersOk, KeysOk, Appended, Indexes, ListsOk, Becomes, ProjectOf;
    FlatGrows(s, owner, home, g);
    IndexedGrows(s, x, owner, home, g, home);
    IndexAppended(s.locks, x.locks, s.projects.Keys, owner, g, p, r);
    AppendedOk(s.locks, s.projects.Keys, g, p, r);
    BesideFlat(s, WithLock(s, p, r), g, home, p);
  }

  function WithOverride(s: State, p: Id, r: Override): State {
    s.(overrides := Appended(s.overrides, p, r))
  }

  lemma OverrideAdded(s: State, x: Index, owner: map<Id, Id>, home: map<Id, Id>, g: map<Id, Id>, p: Id, r: Override)
    requires FlatOk(s, owner, home) && Indexed(s, x, owner, home) && p in s.projects && NewId(r.id, p, owner, g)
    ensures var m := WithOverride(s, p, r);
      && FlatOk(m, g, home) && Indexed(m, x.(overrides := x.overrides[r.id := r]), g, home)
      && Becomes(s, m, p, ProjectOf(s, p)) && SameTimes(s, m)
  {
    hide LedgersOk, KeysOk, Appended, Indexes, ListsOk, Becomes, ProjectOf;
    FlatGrows(s, owner, home, g);
    IndexedGrows(s, x, owner, home, g, home);
    IndexAppended(s.overrides, x.overrides, s.projects.Keys, owner, g, p, r);
    AppendedOk(s.overrides, s.projects.Keys, g, p, r);
    BesideFlat(s, WithOverride(s, p, r), g, home, p);
  }

  function WithPreview(s: State, p: Id, r: Preview): State {
    s.(previews := Appended(s.previews, p, r))
  }

  lemma PreviewAdded(s: State, x: Index, owner: map<Id, Id>, home: map<Id, Id>, g: map<Id, Id>, p: Id, r: Preview)
    requires FlatOk(s, owner, home) && Indexed(s, x, owner, home) && p in s.projects && NewId(r.id, p, owner, g)
    ensures var m := WithPreview(s, p, r);
      && FlatOk(m, g, home) && Indexed(m, x.(previews := x.previews[r.id := r]), g, home)
      && Becomes(s, m, p, ProjectOf(s, p)) && SameTimes(s, m)
  {
    hide LedgersOk, KeysOk, Appended, Indexes, ListsOk, Becomes, ProjectOf;
    FlatGrows(s, owner, home, g);
    IndexedGrows(s, x, owner, home, g, home);
    IndexAppended(s.previews, x.previews, s.projects.Keys, owner, g, p, r);
    AppendedOk(s.previews, s.projects.Keys, g, p, r);
    BesideFlat(s, WithPreview(s, p, r), g, home, p);
  }

  // ----- Leases -------------------------------------------------------------------------

  lemma ClaimTwice(w: World, p: Id)
    ensures Claim(Claim(w, p, 1), p, 1) == Claim(w, p, 2)
  {
    assert Grant(Grant(w.owner, p, w.nextId, 1), p, w.nextId + 1, 0) == Grant(w.owner, p, w.nextId, 1);
  }

  // A queued conflict and a touch.
  lemma QueuedSound(s: State, x: Index, execs: map<Id, Executor>, owner: map<Id, Id>, home: map<Id, Id>, n: Id, p: Id,
                    k: nat, r: QueueEntry, now: Time)
    requires Sound(s, x, execs, owner, home, n) && p in s.projects && n <= r.id < n + k
    requires Inv(WithRest(Put(Claim(WorldOf(s, execs, owner, n), p, k), p, Touch(ProjectOf(s, p), now)),
                          WithConflict(s, p, r)))
    ensures p in WithConflict(s, p, r).projects
    ensures var m := TouchIn(WithConflict(s, p, r), p, now); var g := Grant(owner, p, n, k);
      && Sound(m, x.(conflicts := x.conflicts[r.id := r]), execs, g, home, n + k)
      && WorldOf(m, execs, g, n + k)
        == WithRest(Put(Claim(WorldOf(s, execs, owner, n), p, k), p, Touch(ProjectOf(s, p), now)),
                    WithConflict(s, p, r))
  {
    hide Sound, FlatOk, Indexed, Inv, WorldOf, ProjectOf, Put, Claim, Becomes, Touch, Grant, NewId, WithConflict,
      WithRest, SameTimes;
    StepStarts(s, x, execs, owner, home, n, p, k);
    GrantedNew(owner, p, n, k, r.id);
    var g, m, y := Grant(owner, p, n, k), WithConflict(s, p, r), x.(conflicts := x.conflicts[r.id := r]);
    ConflictAdded(s, x, owner, home, g, p, r);
    ThenTouched(s, g, home, m, y, p, ProjectOf(s, p), now);
    TouchBeside(WorldOf(s, execs, owner, n), s, m, p, k, Touch(ProjectOf(s, p), now), now);
    StepSound(s, x, execs, owner, home, n, p, k, TouchIn(m, p, now), y, home, Touch(ProjectOf(s, p), now));
  }

  lemma TouchBeside(w: World, s: State, m: State, p: Id, k: nat, ps: ProjectState, now: Time)
    requires SameTimes(s, m) && p in m.projects
    ensures SameTimes(s, TouchIn(m, p, now))
    ensures WithRest(Put(Claim(w, p, k), p, ps), TouchIn(m, p, now)) == WithRest(Put(Claim(w, p, k), p, ps), m)
  {
    hide Put, Claim;
  }

  // A registered lock and a touch.
  lemma LockedSound(s: State, x: Index, execs: map<Id, Executor>, owner: map<Id, Id>, home: map<Id, Id>, n: Id, p: Id,
                    r: CodeLock, now: Time)
    requires Sound(s, x, execs, owner, home, n) && p in s.projects && r.id == n
    requires Inv(WithRest(Put(Claim(WorldOf(s, execs, owner, n), p, 1), p, Touch(ProjectOf(s, p), now)),
                          WithLock(s, p, r)))
    ensures p in WithLock(s, p, r).projects
    ensures var m := TouchIn(WithLock(s, p, r), p, now); var g := Grant(owner, p, n, 1);
      && Sound(m, x.(locks := x.locks[n := r]), execs, g, home, n + 1)
      && WorldOf(m, execs, g, n + 1)
        == WithRest(Put(Claim(WorldOf(s, execs, owner, n), p, 1), p, Touch(ProjectOf(s, p), now)), WithLock(s, p, r))
  {
    hide Sound, FlatOk, Indexed, Inv, WorldOf, ProjectOf, Put, Claim, Becomes, Touch, Grant, NewId, WithLock, WithRest,
      SameTimes;
    StepStarts(s, x, execs, owner, home, n, p, 1);
    GrantedNew(owner, p, n, 1, n);
    var g, m, y := Grant(owner, p, n, 1), WithLock(s, p, r), x.(locks := x.locks[n := r]);
    LockAdded(s, x, owner, home, g, p, r);
    ThenTouched(s, g, home, m, y, p, ProjectOf(s, p), now);
    TouchBeside(WorldOf(s, execs, owner, n), s, m, p, 1, Touch(ProjectOf(s, p), now), now);
    StepSound(s, x, execs, owner, home, n, p, 1, TouchIn(m, p, now), y, home, Touch(ProjectOf(s, p), now));
  }

  function LockClash(list: seq<CodeLock>, l: CodeLock, now: Time): (r: Option<nat>)
    ensures r.Some? ==> r.value < |list|
  {
    FirstClash(LockLeases(list), LockScope(LockKey(l.body)), LockOwner(l.body), now)
  }

  // The queue entry of a refused lock.
  function LockEntry(id: Id, p: Id, l: CodeLock, holder: CodeLock, now: Time): QueueEntry {
    Record(id, p, QueueBody(LockKey(l.body), holder.id, LockOwner(l.body), LockOwner(holder.body), true, now))
  }

  lemma QueueWorld(s: State, execs: map<Id, Executor>, owner: map<Id, Id>, n: Id, p: Id, k: nat, r: QueueEntry,
                   ps: ProjectState)
    ensures var v := Put(Claim(WorldOf(s, execs, owner, n), p, k), p, ps);
      v.(queue := s.conflicts[p := Get(s.conflicts, p) + [r]]) == WithRest(v, WithConflict(s, p, r))
  {
    hide LiveIn, TimelinesIn, Grant;
  }

  lemma LockWorld(s: State, execs: map<Id, Executor>, owner: map<Id, Id>, n: Id, p: Id, r: CodeLock, ps: ProjectState)
    ensures var v := Put(Claim(WorldOf(s, execs, owner, n), p, 1), p, ps);
      v.(locks := s.locks[p := Get(s.locks, p) + [r]]) == WithRest(v, WithLock(s, p, r))
  {
    hide LiveIn, TimelinesIn, Grant;
  }

  lemma AdmitLockIs(w: World, p: Id, l: CodeLock, now: Time)
    requires p in w.live
    ensures var r := AdmitLock(w, p, l, now); var locks := Get(w.locks, p);
      var clash := LockClash(locks, l, now);
      if clash.Some? then
        var entry := LockEntry(w.nextId + 1, p, l, locks[clash.value], now);
        r
          == Refuse(Put(Claim(w, p, 2), p, Touch(w.live[p], now)).(queue := w.queue[p := Get(w.queue, p) + [entry]]),
                    Conflict)
      else
        r == Reply(Put(Claim(w, p, 1), p, Touch(w.live[p], now)).(locks := w.locks[p := locks + [l]]), None)
  {
    hide Touch, FirstClash, LockKey, LockOwner, LockLeases, Grant;
    ClaimTwice(w, p);
  }

  lemma AdmitLockCases(s: State, execs: map<Id, Executor>, owner: map<Id, Id>, n: Id, p: Id, l: CodeLock, now: Time)
    requires p in s.projects
    ensures p in WorldOf(s, execs, owner, n).live
    ensures var w := WorldOf(s, execs, owner, n); var r := AdmitLock(w, p, l, now); var locks := Get(s.locks, p);
      var clash := LockClash(locks, l, now);
      if clash.Some? then
        var entry := LockEntry(n + 1, p, l, locks[clash.value], now);
        r == Refuse(WithRest(Put(Claim(w, p, 2), p, Touch(ProjectOf(s, p), now)), WithConflict(s, p, entry)), Conflict)
      else
        r == Reply(WithRest(Put(Claim(w, p, 1), p, Touch(ProjectOf(s, p), now)), WithLock(s, p, l)), None)
  {
    hide WorldOf, ProjectOf, Touch, LockClash, LockEntry, Put, Claim, WithRest, WithConflict, WithLock, AdmitLock;
    WorldIs(s, execs, owner, n);
    AdmitLockIs(WorldOf(s, execs, owner, n), p, l, now);
    var clash := LockClash(Get(s.locks, p), l, now);
    if clash.Some? {
      QueueWorld(s, execs, owner, n, p, 2, LockEntry(n + 1, p, l, Get(s.locks, p)[clash.value], now),
                 Touch(ProjectOf(s, p), now));
    } else {
      LockWorld(s, execs, owner, n, p, l, Touch(ProjectOf(s, p), now));
    }
  }

  lemma LockCases(s: State, execs: map<Id, Executor>, owner: map<Id, Id>, n: Id, p: Id, i: LockInput, now: Time)
    ensures var w := WorldOf(s, execs, owner, n); var r := ApplyCodeLock(w, p, i, now);
      && (p !in s.projects ==> r == Refuse(w, NotFound))
      && (p in s.projects && !LockInputOk(i) ==> r == Refuse(w, Invalid))
      && (p in s.projects && LockInputOk(i) ==>
            p in w.live
            && var known := i.taskId.None? || ResolveTask(ProjectOf(s, p), i.taskId).Ok?;
            && (!known ==> r == Refuse(w, NotFound))
            && (known && i.ttl < 0 ==> r == Refuse(w, Invalid))
            && (known && i.ttl >= 0 ==> r == AdmitLock(w, p, LockOf(n, p, i, now), now)))
  {
    hide WorldOf, ProjectOf, ResolveTask, LockInputOk, AdmitLock, LockOf;
    WorldFields(s, execs, owner, n);
    if p in s.projects {
      WorldLive(s, execs, owner, n, p);
    }
  }

  lemma LockId(n: Id, p: Id, i: LockInput, now: Time)
    ensures LockOf(n, p, i, now).id == n && LockOf(n, p, i, now).projectId == p
  {
    hide TrimSpace, NormalMode, FirstNonBlank;
  }

  ghost function AdmitLockHere(s: State, execs: map<Id, Executor>, owner: map<Id, Id>, n: Id, p: Id, l: CodeLock,
                               now: Time): Reply
    requires p in s.projects
  {
    LiveKeys(s, p);
    AdmitLock(WorldOf(s, execs, owner, n), p, l, now)
  }

  ghost function AdmitOverrideHere(s: State, execs: map<Id, Executor>, owner: map<Id, Id>, n: Id, p: Id, t: Task,
                                   o: Override, now: Time): Reply
    requires p in s.projects
  {
    LiveKeys(s, p);
    AdmitOverride(WorldOf(s, execs, owner, n), p, t, o, now)
  }

  // The conflict of a lock is queued.
  lemma LockQueued(s: State, x: Index, execs: map<Id, Executor>, owner: map<Id, Id>, home: map<Id, Id>, n: Id, p: Id,
                   l: CodeLock, k: nat, now: Time, r: Reply)
    requires Sound(s, x, execs, owner, home, n) && p in s.projects && k < |Get(s.locks, p)|
    requires LockClash(Get(s.locks, p), l, now) == Some(k)
    requires Inv(r.world) && r == AdmitLockHere(s, execs, owner, n, p, l, now)
    ensures var entry := LockEntry(n + 1, p, l, Get(s.locks, p)[k], now);
      Gives(TouchIn(WithConflict(s, p, entry), p, now), x.(conflicts := x.conflicts[n + 1 := entry]), execs,
            Grant(owner, p, n, 2), home, n + 2,
            Some(Conflict), r)
  {
    hide FlatOk, Indexed, Inv, StatesHomed, WorldOf, ProjectOf, AdmitLock, LockClash, LockEntry, WithConflict, WithLock,
      WithRest, Put, Claim, Touch, Grant;
    AdmitLockCases(s, execs, owner, n, p, l, now);
    EntryIds(n + 1, p, l, Get(s.locks, p)[k], now);
    QueuedSound(s, x, execs, owner, home, n, p, 2, LockEntry(n + 1, p, l, Get(s.locks, p)[k], now), now);
  }

  // The lock is registered.
  lemma LockRegistered(s: State, x: Index, execs: map<Id, Executor>, owner: map<Id, Id>, home: map<Id, Id>, n: Id,
                       p: Id, l: CodeLock, now: Time, r: Reply)
    requires Sound(s, x, execs, owner, home, n) && p in s.projects && l.id == n
    requires LockClash(Get(s.locks, p), l, now).None?
    requires Inv(r.world) && r == AdmitLockHere(s, execs, owner, n, p, l, now)
    ensures Gives(TouchIn(WithLock(s, p, l), p, now), x.(locks := x.locks[n := l]), execs, Grant(owner, p, n, 1), home,
                  n + 1, None, r)
  {
    hide FlatOk, Indexed, Inv, StatesHomed, WorldOf, ProjectOf, AdmitLock, LockClash, LockEntry, WithConflict, WithLock,
      WithRest, Put, Claim, Touch, Grant;
    AdmitLockCases(s, execs, owner, n, p, l, now);
    LockedSound(s, x, execs, owner, home, n, p, l, now);
  }

  lemma EntryIds(id: Id, p: Id, l: CodeLock, holder: CodeLock, now: Time)
    ensures LockEntry(id, p, l, holder, now).id == id
  {
    hide LockKey, LockOwner;
  }

  // ----- Overrides ----------------------------------------------------------------------

  ghost predicate OverrideReply(s: State, w: World, r: Reply, p: Id, n: Id, t: Task, i: OverrideInput, now: Time)
    requires p in w.live
  {
    && (!OverrideInputOk(i) ==> r == Refuse(w, Invalid))
    && (OverrideInputOk(i) && !Busy(t.body.status) ==> r == Refuse(w, Conflict))
    && (OverrideInputOk(i) && Busy(t.body.status) && !OverrideMetaOk(i) ==> r == Refuse(w, Invalid))
    && (OverrideInputOk(i) && Busy(t.body.status) && OverrideMetaOk(i) ==>
          r == AdmitOverride(w, p, t, OverrideOf(n, p, t.id, i, now), now))
  }

  lemma OverrideCases(s: State, x: Index, execs: map<Id, Executor>, owner: map<Id, Id>, home: map<Id, Id>, n: Id, p: Id,
                      i: OverrideInput, now: Time)
    requires Sound(s, x, execs, owner, home, n)
    ensures var w := WorldOf(s, execs, owner, n); var r := ApplyHumanOverride(w, p, i, now);
      && (p !in s.projects ==> r == Refuse(w, NotFound))
      && (p in s.projects ==>
            p in w.live
            && var t := ResolveTask(ProjectOf(s, p), i.taskId);
            && (t.Refused? ==> r == Refuse(w, t.error))
            && (t.Ok? ==> FiledTask(s, p, t.value) && OverrideReply(s, w, r, p, n, t.value, i, now)))
  {
    hide FlatOk, Indexed, Inv, StatesHomed, WorldOf, ProjectOf, ResolveTask, OverrideInputOk, OverrideMetaOk,
      AdmitOverride, OverrideOf;
    WorldFields(s, execs, owner, n);
    if p in s.projects {
      WorldLive(s, execs, owner, n, p);
      if ResolveTask(ProjectOf(s, p), i.taskId).Ok? {
        ResolvedHere(s, execs, owner, home, n, p, i.taskId);
      }
    }
  }

  // The queue entry of a refused override.
  function OverrideEntry(id: Id, p: Id, o: Override, holder: Override, now: Time): QueueEntry {
    Record(id, p,
           QueueBody(ScopeName(o.body.lockScope), holder.id, o.body.owner, OverrideOwner(holder.body), true, now))
  }

  // The task handed over to the human.
  function HandedOver(t: Task, o: Override, now: Time): Task {
    t.(body := MovedOrSame(t.body, HumanOverride, OVERRIDE_REQUESTED + o.body.operator, now))
  }

  function OverrideClash(list: seq<Override>, o: Override, now: Time): (r: Option<nat>)
    ensures r.Some? ==> r.value < |list|
  {
    FirstClash(OverrideLeases(list), OverrideScope(o.body.taskId, ScopeName(o.body.lockScope)), o.body.owner, now)
  }

  lemma AdmitOverrideIs(w: World, p: Id, t: Task, o: Override, now: Time)
    requires p in w.live
    ensures var r := AdmitOverride(w, p, t, o, now); var list := Get(w.overrides, p);
      var clash := OverrideClash(list, o, now);
      if clash.Some? then
        var entry := OverrideEntry(w.nextId, p, o, list[clash.value], now);
        r
          == Refuse(Put(Claim(w, p, 1), p, Touch(w.live[p], now)).(queue := w.queue[p := Get(w.queue, p) + [entry]]),
                    Conflict)
      else
        r == Reply(Put(Claim(w, p, 1), p,
                       Touch(PutTask(w.live[p], HandedOver(t, o, now)),
                             now)).(overrides := w.overrides[p := list + [o]]), None)
  {
    hide Touch, FirstClash, OverrideOwner, OverrideLeases, ScopeName, Grant, PutTask, MovedOrSame;
  }

  lemma OverrideWorld(s: State, execs: map<Id, Executor>, owner: map<Id, Id>, n: Id, p: Id, u: Task, r: Override,
                      ps: ProjectState)
    ensures var v := Put(Claim(WorldOf(s, execs, owner, n), p, 1), p, ps);
      v.(overrides := s.overrides[p := Get(s.overrides, p) + [r]]) == WithRest(v, WithOverride(PutTaskIn(s, u), p, r))
  {
    hide LiveIn, TimelinesIn, Grant;
  }

  lemma AdmitOverrideCases(s: State, execs: map<Id, Executor>, owner: map<Id, Id>, n: Id, p: Id, t: Task, o: Override,
                           now: Time)
    requires p in s.projects
    ensures p in WorldOf(s, execs, owner, n).live
    ensures var w := WorldOf(s, execs, owner, n); var r := AdmitOverride(w, p, t, o, now);
      var list := Get(s.overrides, p);
      var clash := OverrideClash(list, o, now); var u := HandedOver(t, o, now);
      if clash.Some? then
        var entry := OverrideEntry(n, p, o, list[clash.value], now);
        r == Refuse(WithRest(Put(Claim(w, p, 1), p, Touch(ProjectOf(s, p), now)), WithConflict(s, p, entry)), Conflict)
      else
        r == Reply(WithRest(Put(Claim(w, p, 1), p, Touch(PutTask(ProjectOf(s, p), u), now)),
                            WithOverride(PutTaskIn(s, u), p, o)), None)
  {
    hide WorldOf, ProjectOf, Touch, OverrideClash, HandedOver, OverrideEntry, Put, Claim, WithRest, WithConflict,
      WithOverride, PutTaskIn, PutTask, AdmitOverride;
    WorldIs(s, execs, owner, n);
    AdmitOverrideIs(WorldOf(s, execs, owner, n), p, t, o, now);
    var clash, u := OverrideClash(Get(s.overrides, p), o, now), HandedOver(t, o, now);
    if clash.Some? {
      QueueWorld(s, execs, owner, n, p, 1, OverrideEntry(n, p, o, Get(s.overrides, p)[clash.value], now),
                 Touch(ProjectOf(s, p), now));
    } else {
      OverrideWorld(s, execs, owner, n, p, u, o, Touch(PutTask(ProjectOf(s, p), u), now));
    }
  }

  // The task handed over, the override recorded, the project touched.
  lemma OverriddenBuilt(s: State, x: Index, owner: map<Id, Id>, home: map<Id, Id>, g: map<Id, Id>, p: Id, u: Task,
                        o: Override, now: Time)
    requires FlatOk(s, owner, home) && Indexed(s, x, owner, home) && p in s.projects && NewId(o.id, p, owner, g)
    requires u.id in s.tasks && s.tasks[u.id].projectId == u.projectId == p
    ensures p in WithOverride(PutTaskIn(s, u), p, o).projects
    ensures var m := TouchIn(WithOverride(PutTaskIn(s, u), p, o), p, now);
      && FlatOk(m, g, home) && Indexed(m, x.(overrides := x.overrides[o.id := o]), g, home)
      && Becomes(s, m, p, Touch(PutTask(ProjectOf(s, p), u), now)) && SameTimes(s, WithOverride(PutTaskIn(s, u), p, o))
  {
    hide FlatOk, Indexed, ProjectOf, Becomes, Touch, PutTask, NewId, WithOverride;
    PutTaskInOk(s, owner, home, u);
    var s1 := PutTaskIn(s, u);
    IndexedSame(s, s1, x, owner, home);
    BecomesIs(s, s1, p);
    OverrideAdded(s1, x, owner, home, g, p, o);
    var s2 := WithOverride(s1, p, o);
    BecomesThen(s, s1, s2, p, ProjectOf(s1, p), ProjectOf(s1, p));
    ThenTouched(s, g, home, s2, x.(overrides := x.overrides[o.id := o]), p, PutTask(ProjectOf(s, p), u), now);
  }

  lemma OverriddenSound(s: State, x: Index, execs: map<Id, Executor>, owner: map<Id, Id>, home: map<Id, Id>, n: Id,
                        p: Id, u: Task, o: Override, now: Time)
    requires Sound(s, x, execs, owner, home, n) && p in s.projects && o.id == n && u.id in s.tasks
    requires s.tasks[u.id].projectId == u.projectId == p
    requires Inv(WithRest(Put(Claim(WorldOf(s, execs, owner, n), p, 1), p, Touch(PutTask(ProjectOf(s, p), u), now)),
                          WithOverride(PutTaskIn(s, u), p, o)))
    ensures p in WithOverride(PutTaskIn(s, u), p, o).projects
    ensures var m := TouchIn(WithOverride(PutTaskIn(s, u), p, o), p, now); var g := Grant(owner, p, n, 1);
      && Sound(m, x.(overrides := x.overrides[n := o]), execs, g, home, n + 1)
      && WorldOf(m, execs, g, n + 1)
        == WithRest(Put(Claim(WorldOf(s, execs, owner, n), p, 1), p, Touch(PutTask(ProjectOf(s, p), u), now)),
                                                 WithOverride(PutTaskIn(s, u), p, o))
  {
    hide Sound, FlatOk, Indexed, Inv, WorldOf, ProjectOf, Put, Claim, Becomes, Touch, PutTask, Grant, NewId,
      WithOverride, PutTaskIn, WithRest, SameTimes;
    StepStarts(s, x, execs, owner, home, n, p, 1);
    GrantedNew(owner, p, n, 1, n);
    var g, m, y := Grant(owner, p, n, 1), WithOverride(PutTaskIn(s, u), p, o), x.(overrides := x.overrides[n := o]);
    OverriddenBuilt(s, x, owner, home, g, p, u, o, now);
    TouchBeside(WorldOf(s, execs, owner, n), s, m, p, 1, Touch(PutTask(ProjectOf(s, p), u), now), now);
    StepSound(s, x, execs, owner, home, n, p, 1, TouchIn(m, p, now), y, home, Touch(PutTask(ProjectOf(s, p), u), now));
  }

  // The conflict of an override is queued.
  lemma OverrideQueued(s: State, x: Index, execs: map<Id, Executor>, owner: map<Id, Id>, home: map<Id, Id>, n: Id,
                       p: Id, t: Task, o: Override, k: nat, now: Time, r: Reply)
    requires Sound(s, x, execs, owner, home, n) && p in s.projects && k < |Get(s.overrides, p)|
    requires OverrideClash(Get(s.overrides, p), o, now) == Some(k)
    requires Inv(r.world) && r == AdmitOverrideHere(s, execs, owner, n, p, t, o, now)
    ensures var entry := OverrideEntry(n, p, o, Get(s.overrides, p)[k], now);
      Gives(TouchIn(WithConflict(s, p, entry), p, now), x.(conflicts := x.conflicts[n := entry]), execs,
            Grant(owner, p, n, 1), home, n + 1,
            Some(Conflict), r)
  {
    hide FlatOk, Indexed, Inv, StatesHomed, WorldOf, ProjectOf, AdmitOverride, OverrideClash, OverrideEntry, HandedOver,
      WithConflict, WithOverride, PutTaskIn, WithRest, Put, Claim, Touch, PutTask, Grant;
    AdmitOverrideCases(s, execs, owner, n, p, t, o, now);
    OverrideEntryId(n, p, o, Get(s.overrides, p)[k], now);
    QueuedSound(s, x, execs, owner, home, n, p, 1, OverrideEntry(n, p, o, Get(s.overrides, p)[k], now), now);
  }

  // The override is recorded and the task handed over.
  lemma OverrideRecorded(s: State, x: Index, execs: map<Id, Executor>, owner: map<Id, Id>, home: map<Id, Id>, n: Id,
                         p: Id, t: Task, o: Override, now: Time, r: Reply)
    requires Sound(s, x, execs, owner, home, n) && p in s.projects && FiledTask(s, p, t) && o.id == n
    requires OverrideClash(Get(s.overrides, p), o, now).None?
    requires Inv(r.world) && r == AdmitOverrideHere(s, execs, owner, n, p, t, o, now)
    ensures Gives(TouchIn(WithOverride(PutTaskIn(s, HandedOver(t, o, now)), p, o), p, now),
                  x.(overrides := x.overrides[n := o]), execs,
                  Grant(owner, p, n, 1), home, n + 1, None, r)
  {
    hide FlatOk, Indexed, Inv, StatesHomed, WorldOf, ProjectOf, AdmitOverride, OverrideClash, OverrideEntry, HandedOver,
      WithConflict, WithOverride, PutTaskIn, WithRest, Put, Claim, Touch, PutTask, Grant;
    AdmitOverrideCases(s, execs, owner, n, p, t, o, now);
    HandedOverIds(t, o, now);
    OverriddenSound(s, x, execs, owner, home, n, p, HandedOver(t, o, now), o, now);
  }

  lemma OverrideEntryId(id: Id, p: Id, o: Override, holder: Override, now: Time)
    ensures OverrideEntry(id, p, o, holder, now).id == id
  {
    hide ScopeName, OverrideOwner;
  }

  // A task that is with the human already stays as it is.
  lemma StaysWithHuman(t: Task, o: Override, now: Time)
    requires Busy(t.body.status)
    ensures t.body.status != InProgress ==> HandedOver(t, o, now) == t
  {
  }

  lemma HandedOverIds(t: Task, o: Override, now: Time)
    ensures HandedOver(t, o, now).id == t.id && HandedOver(t, o, now).projectId == t.projectId
  {
    hide MovedOrSame;
  }

  lemma OverrideId(n: Id, p: Id, t: Id, i: OverrideInput, now: Time)
    ensures OverrideOf(n, p, t, i, now).id == n && OverrideOf(n, p, t, i, now).body.taskId == t
  {
    hide TrimSpace, FirstNonBlank, ExpiresAt;
  }

  // ----- Previews -----------------------------------------------------------------------

  lemma PreviewWorld(s: State, execs: map<Id, Executor>, owner: map<Id, Id>, n: Id, p: Id, r: Preview, ps: ProjectState)
    ensures var v := Put(Claim(WorldOf(s, execs, owner, n), p, 1), p, ps);
      v.(previews := s.previews[p := Get(s.previews, p) + [r]]) == WithRest(v, WithPreview(s, p, r))
  {
    hide LiveIn, TimelinesIn, Grant;
  }

  lemma StartPreviewIs(w: World, p: Id, now: Time)
    ensures var r := StartPreview(w, p, now);
      && (p !in w.live ==> r == Refuse(w, NotFound))
      && (p in w.live && LatestShared(w.live[p].sandboxes).None? ==> r == Refuse(w, Conflict))
      && (p in w.live && LatestShared(w.live[p].sandboxes).Some? ==>
            var preview := PreviewOf(w.nextId, p, LatestShared(w.live[p].sandboxes).value, now);
            r == Reply(Put(Claim(w, p, 1), p,
                           Touch(w.live[p], now)).(previews := w.previews[p := Get(w.previews, p) + [preview]]), None))
  {
    hide LatestShared, Touch, Grant;
  }

  lemma PreviewCases(s: State, execs: map<Id, Executor>, owner: map<Id, Id>, n: Id, p: Id, now: Time)
    ensures var w := WorldOf(s, execs, owner, n); var r := StartPreview(w, p, now);
      && (p !in s.projects ==> r == Refuse(w, NotFound))
      && (p in s.projects ==> var box := LatestShared(Get(s.sandboxes, p));
            && (box.None? ==> r == Refuse(w, Conflict))
            && (box.Some? ==> r == Reply(WithRest(Put(Claim(w, p, 1), p, Touch(ProjectOf(s, p), now)),
                                                  WithPreview(s, p, PreviewOf(n, p, box.value, now))), None)))
  {
    hide WorldOf, ProjectOf, Touch, LatestShared, PreviewOf, Put, Claim, WithRest, WithPreview, StartPreview;
    WorldIs(s, execs, owner, n);
    StartPreviewIs(WorldOf(s, execs, owner, n), p, now);
    if p in s.projects {
      PlansAre(s, p);
      var box := LatestShared(Get(s.sandboxes, p));
      if box.Some? {
        PreviewWorld(s, execs, owner, n, p, PreviewOf(n, p, box.value, now), Touch(ProjectOf(s, p), now));
      }
    }
  }

  lemma PreviewFacts(s: State, x: Index, execs: map<Id, Executor>, owner: map<Id, Id>, home: map<Id, Id>, n: Id, p: Id,
                     box: Sandbox, now: Time)
    requires Sound(s, x, execs, owner, home, n) && p in s.projects && LatestShared(Get(s.sandboxes, p)) == Some(box)
    ensures var r := PreviewOf(n, p, box, now);
      Gives(TouchIn(WithPreview(s, p, r), p, now), x.(previews := x.previews[n := r]), execs, Grant(owner, p, n, 1),
            home, n + 1, None,
            StartPreview(WorldOf(s, execs, owner, n), p, now))
  {
    hide Sound, FlatOk, Indexed, Inv, WorldOf, ProjectOf, Put, Claim, Becomes, Touch, Grant, NewId, WithPreview,
      WithRest, SameTimes, LatestShared, StartPreview;
    var r := PreviewOf(n, p, box, now);
    PreviewCases(s, execs, owner, n, p, now);
    StepStarts(s, x, execs, owner, home, n, p, 1);
    StartPreviewStep(WorldOf(s, execs, owner, n), p, now);
    GrantedNew(owner, p, n, 1, n);
    var g, m, y := Grant(owner, p, n, 1), WithPreview(s, p, r), x.(previews := x.previews[n := r]);
    PreviewAdded(s, x, owner, home, g, p, r);
    ThenTouched(s, g, home, m, y, p, ProjectOf(s, p), now);
    TouchBeside(WorldOf(s, execs, owner, n), s, m, p, 1, Touch(ProjectOf(s, p), now), now);
    StepSound(s, x, execs, owner, home, n, p, 1, TouchIn(m, p, now), y, home, Touch(ProjectOf(s, p), now));
  }

  // ----- New projects -------------------------------------------------------------------

  function WithProject(s: State, p: Project): State {
    s.(projects := s.projects[p.id := p], projectBranch := s.projectBranch[p.id := "main"])
  }

  lemma NewProjectFlat(s: State, x: Index, owner: map<Id, Id>, home: map<Id, Id>, p: Project)
    requires FlatOk(s, owner, home) && Indexed(s, x, owner, home) && p.id !in owner
    ensures var g := Grant(owner, p.id, p.id, 1);
      FlatOk(WithProject(s, p), g, home) && Indexed(WithProject(s, p), x, g, home)
  {
    hide FilesOk, LedgersOk, KeysOk, Indexed, Grant, WithProject;
    var g := Grant(owner, p.id, p.id, 1);
    FlatGrows(s, owner, home, g);
    IndexedGrows(s, x, owner, home, g, home);
    NewProjectFiles(s, g, home, p);
    NewProjectKeys(s, g, home, p);
    NewProjectLists(s, p);
    LedgersSame(s, WithProject(s, p), g);
    IndexedSame(s, WithProject(s, p), x, g, home);
  }

  lemma NewProjectKeys(s: State, owner: map<Id, Id>, home: map<Id, Id>, p: Project)
    requires KeysOk(s, owner, home) && p.id in owner && owner[p.id] == p.id
    ensures KeysOk(WithProject(s, p), owner, home)
  {
  }

  lemma NewProjectLists(s: State, p: Project)
    ensures var m := WithProject(s, p);
      && SameLists(s, m) && m.sandboxes == s.sandboxes && m.tasks == s.tasks && m.taskOrder == s.taskOrder
      && m.runs == s.runs && m.runOrder == s.runOrder && m.artifacts == s.artifacts
      && m.artifactOrder == s.artifactOrder
  {
  }

  lemma NewProjectFiles(s: State, owner: map<Id, Id>, home: map<Id, Id>, p: Project)
    requires FilesOk(s, owner, home)
    ensures FilesOk(WithProject(s, p), owner, home)
  {
    var keys, keys' := s.projects.Keys, WithProject(s, p).projects.Keys;
    MoreKeys(s.requirements, keys, keys', owner);
    MoreKeys(s.plans, keys, keys', owner);
    MoreKeys(s.contracts, keys, keys', owner);
    MoreKeys(s.sandboxes, keys, keys', owner);
    MoreKeys(s.overrides, keys, keys', owner);
    MoreKeys(s.locks, keys, keys', owner);
    MoreKeys(s.conflicts, keys, keys', owner);
    MoreKeys(s.previews, keys, keys', owner);
    MoreKeys(s.snapshots, keys, keys', owner);
    hide ListsOk;
  }

  // The lists and orders of a project not created yet are empty.
  lemma NothingFiled(s: State, owner: map<Id, Id>, home: map<Id, Id>, p: Id)
    requires FlatOk(s, owner, home) && p !in s.projects
    ensures p !in s.requirements && p !in s.plans && p !in s.contracts && p !in s.sandboxes && p !in s.snapshots
    ensures p !in s.taskOrder && p !in s.runOrder && p !in s.artifactOrder && p !in s.stableBranch && p !in s.branchSeq
  {
    hide LedgersOk, ListOk;
  }

  lemma NewProjectOf(s: State, owner: map<Id, Id>, home: map<Id, Id>, p: Project, q: Id)
    requires FlatOk(s, owner, home) && p.id !in s.projects && p.createdAt == p.updatedAt
    requires (q == p.id || q in s.projects)
    ensures q in WithProject(s, p).projects
    ensures ProjectOf(WithProject(s, p), q) == if q == p.id then EmptyProject(p.id, p.name, p.description, p.createdAt)
      else ProjectOf(s, q)
    ensures TimelineIn(WithProject(s, p), q) == if q == p.id then Timeline([], "main", None, 0) else TimelineIn(s, q)
  {
    hide FlatOk;
    if q == p.id {
      NothingFiled(s, owner, home, p.id);
    }
  }

  lemma NewProjectWorld(s: State, execs: map<Id, Executor>, owner: map<Id, Id>, home: map<Id, Id>, n: Id, p: Project)
    requires FlatOk(s, owner, home) && p.id == n && n !in s.projects && p.createdAt == p.updatedAt
    ensures var w := Put(Claim(WorldOf(s, execs, owner, n), n, 1), n,
                         EmptyProject(n, p.name, p.description, p.createdAt));
      WorldOf(WithProject(s, p), execs, Grant(owner, n, n, 1), n + 1)
        == w.(timelines := w.timelines[n := Timeline([], "main", None, 0)])
  {
    hide FlatOk, Grant, ProjectOf, TimelineIn, EmptyProject, LiveIn, TimelinesIn;
    NewProjectMaps(s, owner, home, p);
  }

  lemma NewProjectMaps(s: State, owner: map<Id, Id>, home: map<Id, Id>, p: Project)
    requires FlatOk(s, owner, home) && p.id !in s.projects && p.createdAt == p.updatedAt
    ensures LiveIn(WithProject(s, p)) == LiveIn(s)[p.id := EmptyProject(p.id, p.name, p.description, p.createdAt)]
    ensures TimelinesIn(WithProject(s, p)) == TimelinesIn(s)[p.id := Timeline([], "main", None, 0)]
  {
    hide FlatOk, ProjectOf, TimelineIn, EmptyProject;
    var m := WithProject(s, p);
    forall q | q in m.projects
      ensures ProjectOf(m, q) == if q == p.id then EmptyProject(p.id, p.name, p.description, p.createdAt)
        else ProjectOf(s, q)
      ensures TimelineIn(m, q) == if q == p.id then Timeline([], "main", None, 0) else TimelineIn(s, q)
    {
      NewProjectOf(s, owner, home, p, q);
    }
  }

  lemma CreateCases(s: State, x: Index, execs: map<Id, Executor>, owner: map<Id, Id>, home: map<Id, Id>, n: Id,
                    name: string, description: string, now: Time)
    requires Sound(s, x, execs, owner, home, n)
    ensures var w := WorldOf(s, execs, owner, n); var r := CreateProject(w, name, description, now);
      if TrimSpace(name)
        == "" || |TrimSpace(name)| > MAX_PROJECT_NAME || |TrimSpace(description)| > MAX_PROJECT_DESCRIPTION
      then r == Refuse(w, Invalid)
      else Gives(WithProject(s, Project(n, TrimSpace(name), TrimSpace(description), now, now)), x, execs,
                 Grant(owner, n, n, 1), home, n + 1, None, r)
  {
    hide FlatOk, Indexed, Inv, StatesHomed, WorldOf, TrimSpace, Put, Claim, Grant, EmptyProject, WithProject;
    var w, p := WorldOf(s, execs, owner, n), Project(n, TrimSpace(name), TrimSpace(description), now, now);
    WorldFields(s, execs, owner, n);
    CreateProjectStep(w, name, description, now);
    StepStarts(s, x, execs, owner, home, n, n, 1);
    FreshIn(s, owner, home, n, n);
    NewProjectFlat(s, x, owner, home, p);
    NewProjectWorld(s, execs, owner, home, n, p);
    NewProjectKeeps(s, p);
  }

  lemma NewProjectKeeps(s: State, p: Project)
    ensures WithProject(s, p).snapshotState == s.snapshotState
  {
  }

  // ----- Executors ----------------------------------------------------------------------

  lemma PhaseSound(s: State, x: Index, execs: map<Id, Executor>, owner: map<Id, Id>, home: map<Id, Id>, n: Id, r: Id,
                   e: Executor)
    requires Sound(s, x, execs, owner, home, n) && Inv(PutExec(WorldOf(s, execs, owner, n), r, e))
    ensures Sound(s, x, execs[r := e], owner, home, n)
    ensures WorldOf(s, execs[r := e], owner, n) == PutExec(WorldOf(s, execs, owner, n), r, e)
  {
    hide FlatOk, Indexed, Inv, StatesHomed, WorldOf, PutExec;
    PhasedWorld(s, execs, owner, n, r, e);
  }

  // What snapshotForExecution finds in the flat maps, in the order in which it looks.
  function PreparedIn(s: State, x: Index, e: Executor, r: Id): Executor {
    if r !in s.runs then e.(phase := Failing(NO_RUN))
    else
      var t := s.runs[r].body.taskId;
      if t !in s.tasks then e.(phase := Failing(NO_TASK))
      else if s.tasks[t].body.planId !in x.plans then e.(phase := Failing(NO_PLAN))
      else e.(taskId := t, phase := Prepared)
  }

  lemma PrepareFacts(s: State, x: Index, execs: map<Id, Executor>, owner: map<Id, Id>, home: map<Id, Id>, n: Id, r: Id)
    requires Sound(s, x, execs, owner, home, n) && At(WorldOf(s, execs, owner, n), r, Spawned) && r in execs
    ensures var execs' := execs[r := PreparedIn(s, x, execs[r], r)];
      Sound(s, x, execs', owner, home, n) && WorldOf(s, execs', owner, n) == Prepare(WorldOf(s, execs, owner, n), r)
  {
    hide Sound, Inv, WorldOf, ProjectOf, ProjectOk, PutExec, FindById;
    var p := execs[r].projectId;
    SoundInv(s, x, execs, owner, home, n);
    PrepareStep(WorldOf(s, execs, owner, n), r);
    WorldFields(s, execs, owner, n);
    ExecutorSees(s, x, execs, owner, home, n, r);
    WorldLive(s, execs, owner, n, p);
    if r in s.runs {
      PlanKnown(s, x, execs, owner, home, n, p, s.tasks[execs[r].taskId]);
      PlansAre(s, p);
    }
    PhaseSound(s, x, execs, owner, home, n, r, PreparedIn(s, x, execs[r], r));
  }

  lemma SoundInv(s: State, x: Index, execs: map<Id, Executor>, owner: map<Id, Id>, home: map<Id, Id>, n: Id)
    requires Sound(s, x, execs, owner, home, n)
    ensures Inv(WorldOf(s, execs, owner, n))
  {
    hide FlatOk, Indexed, StatesHomed, Inv, WorldOf;
  }

  lemma CheckFaultFacts(s: State, x: Index, execs: map<Id, Executor>, owner: map<Id, Id>, home: map<Id, Id>, n: Id,
                        r: Id)
    requires Sound(s, x, execs, owner, home, n) && At(WorldOf(s, execs, owner, n), r, Prepared) && r in execs
    ensures var t := execs[r].taskId; var w := WorldOf(s, execs, owner, n);
      var failure := if t in s.sandboxFaults then TrimSpace(s.sandboxFaults[t]) else "";
      var execs' := execs[r := execs[r].(phase := if failure == "" then Checked else Failing(failure))];
      var m := if failure == "" then s else s.(sandboxFaults := s.sandboxFaults - {t});
      Sound(m, x, execs', owner, home, n) && WorldOf(m, execs', owner, n) == CheckFault(w, r)
  {
    hide Sound, Inv, WorldOf, PutExec, TrimSpace;
    var w, t := WorldOf(s, execs, owner, n), execs[r].taskId;
    var failure := if t in s.sandboxFaults then TrimSpace(s.sandboxFaults[t]) else "";
    var m := if failure == "" then s else s.(sandboxFaults := s.sandboxFaults - {t});
    WorldIs(s, execs, owner, n);
    SoundInv(s, x, execs, owner, home, n);
    CheckFaultStep(w, r);
    if failure != "" {
      FaultsSound(s, x, execs, owner, home, n, s.sandboxFaults - {t});
    }
    PhaseSound(m, x, execs, owner, home, n, r, execs[r].(phase := if failure == "" then Checked else Failing(failure)));
  }

  lemma BreakFacts(s: State, x: Index, execs: map<Id, Executor>, owner: map<Id, Id>, home: map<Id, Id>, n: Id, r: Id,
                   failure: string)
    requires Sound(s, x, execs, owner, home, n) && At(WorldOf(s, execs, owner, n), r, Armed) && r in execs
    ensures var execs' := execs[r := execs[r].(phase := Failing(failure))];
      && Sound(s, x, execs', owner, home, n)
      && WorldOf(s, execs', owner, n) == Break(WorldOf(s, execs, owner, n), r, failure)
  {
    hide Sound, Inv, WorldOf, PutExec;
    WorldFields(s, execs, owner, n);
    SoundInv(s, x, execs, owner, home, n);
    BreakStep(WorldOf(s, execs, owner, n), r, failure);
    PhaseSound(s, x, execs, owner, home, n, r, execs[r].(phase := Failing(failure)));
  }

  // ----- Merging ------------------------------------------------------------------------

  // A shared sandbox in its final state.
  function ClosedBox(box: Sandbox, status: SandboxStatus, failure: string, later: Time): Sandbox {
    box.(body := box.body.(status := status, failure := failure, updatedAt := later))
  }

  // The flat state with a shared sandbox opened, the project touched and the sandbox closed.
  function SharedIn(s: State, p: Id, box: Sandbox, closed: Sandbox, now: Time): State
    requires p in s.projects
  {
    PutSandboxIn(TouchIn(WithSandbox(s, p, box), p, now), p, closed)
  }

  lemma BoxReplacedIndexed(s: State, x: Index, owner: map<Id, Id>, home: map<Id, Id>, p: Id, r: Sandbox)
    requires FlatOk(s, owner, home) && Indexed(s, x, owner, home) && r.id in x.sandboxes && r.id in owner
    requires owner[r.id] == p
    ensures Indexed(PutSandboxIn(s, p, r), x.(sandboxes := x.sandboxes[r.id := r]), owner, home)
  {
    ShelvesOk(s, x, owner, home);
    PutInShelfOk(Shelf(s.sandboxes, x.sandboxes), owner, p, r);
    ShelfIndexes(PutInShelf(Shelf(s.sandboxes, x.sandboxes), p, r), owner);
    hide Indexes, FlatOk, ShelfOk, PutInList;
  }

  lemma SharedBuilt(s: State, x: Index, owner: map<Id, Id>, home: map<Id, Id>, n: Id, k: nat, p: Id, box: Sandbox,
                    closed: Sandbox, now: Time)
    requires FlatOk(s, owner, home) && Indexed(s, x, owner, home) && p in s.projects && (forall i | i in owner :: i < n)
    requires k > 0
    requires box.id == closed.id == n
    ensures var m := SharedIn(s, p, box, closed, now); var g := Grant(owner, p, n, k);
      && FlatOk(m, g, home) && Indexed(m, x.(sandboxes := x.sandboxes[n := closed]), g, home) && SameRest(s, m)
      && Becomes(s, m, p, PutSandbox(Touch(AddSandbox(ProjectOf(s, p), box), now), closed))
  {
    hide FlatOk, Indexed, ProjectOf, Becomes, Touch, AddSandbox, PutSandbox, Grant, WithSandbox, PutSandboxIn, SameRest,
      SameLists, Appended;
    var g, y := Grant(owner, p, n, k), x.(sandboxes := x.sandboxes[n := box]);
    FlatGrows(s, owner, home, g);
    FreshIn(s, owner, home, p, n);
    BoxesListed(s, owner, home);
    BoxAdded(s, p, box);
    WithSandboxOk(s, g, home, p, box);
    var s1 := WithSandbox(s, p, box);
    BoxIndexed(s, s1, x, owner, home, n, p, k, box);
    ThenTouched(s, g, home, s1, y, p, AddSandbox(ProjectOf(s, p), box), now);
    var s2 := TouchIn(s1, p, now);
    TouchRest(s, s1, p, now);
    BecomesIs(s, s2, p);
    PutSandboxInOk(s2, g, home, p, closed);
    BoxReplacedIndexed(s2, y, g, home, p, closed);
    BoxPut(s, s2, p, closed);
    BecomesThen(s, s2, PutSandboxIn(s2, p, closed), p, ProjectOf(s2, p), PutSandbox(ProjectOf(s2, p), closed));
    BoxTwice(x.sandboxes, n, box, closed);
  }

  lemma BoxAdded(s: State, p: Id, box: Sandbox)
    ensures var m := WithSandbox(s, p, box);
      SameRest(s, m) && SameLists(s, m) && m.sandboxes == Appended(s.sandboxes, p, box)
  {
    hide Appended;
  }

  lemma BoxPut(s: State, m: State, p: Id, r: Sandbox)
    requires SameRest(s, m)
    ensures SameRest(s, PutSandboxIn(m, p, r))
  {
  }

  ghost function SharedMadeHere(s: State, execs: map<Id, Executor>, owner: map<Id, Id>, n: Id, p: Id, box: Sandbox,
                                status: SandboxStatus, failure: string, now: Time, later: Time): World
    requires p in s.projects
  {
    LiveKeys(s, p);
    SharedMade(WorldOf(s, execs, owner, n), p, box, status, failure, now, later)
  }

  ghost function GateBlockedHere(s: State, execs: map<Id, Executor>, owner: map<Id, Id>, n: Id, p: Id, box: Sandbox,
                                 c: Contract, now: Time, later: Time): World
    requires p in s.projects
  {
    LiveKeys(s, p);
    GateBlocked(WorldOf(s, execs, owner, n), p, box, c, now, later)
  }

  // A merge that stops or ends with the sandbox closed.
  lemma SharedSound(s: State, x: Index, execs: map<Id, Executor>, owner: map<Id, Id>, home: map<Id, Id>, n: Id, p: Id,
                    box: Sandbox, status: SandboxStatus, failure: string, now: Time, later: Time)
    requires Sound(s, x, execs, owner, home, n) && p in s.projects && box.id == n && box.projectId == p
    requires box.body.scope == Shared
    ensures var closed := ClosedBox(box, status, failure, later); var m := SharedIn(s, p, box, closed, now);
      var g := Grant(owner, p, n, 1);
      && Sound(m, x.(sandboxes := x.sandboxes[n := closed]), execs, g, home, n + 1)
      && WorldOf(m, execs, g, n + 1) == SharedMadeHere(s, execs, owner, n, p, box, status, failure, now, later)
  {
    hide Sound, FlatOk, Indexed, Inv, WorldOf, ProjectOf, Put, Claim, Becomes, Touch, Grant, AddSandbox, PutSandbox,
      SharedIn, SameRest;
    var closed := ClosedBox(box, status, failure, later);
    WorldIs(s, execs, owner, n);
    StepStarts(s, x, execs, owner, home, n, p, 1);
    SharedStep(WorldOf(s, execs, owner, n), p, box, status, failure, now, later);
    SharedBuilt(s, x, owner, home, n, 1, p, box, closed, now);
    StepSoundAlone(s, x, execs, owner, home, n, p, 1, SharedIn(s, p, box, closed, now),
                   x.(sandboxes := x.sandboxes[n := closed]), home,
                   PutSandbox(Touch(AddSandbox(ProjectOf(s, p), box), now), closed));
  }

  lemma GateTaskIs(ps: ProjectState, p: Id, box: Sandbox, closed: Sandbox, c: Contract, id: Id, now: Time, later: Time)
    requires ps.project.id == p
    ensures ReworkTask(PutSandbox(Touch(AddSandbox(ps, box), now), closed), c, id, later) == GateTask(p, c, id, later)
    ensures GateTask(p, c, id, later).id == id && GateTask(p, c, id, later).projectId == p
  {
    hide Decimal, PutInList;
  }

  lemma BlockedSound(s: State, x: Index, execs: map<Id, Executor>, owner: map<Id, Id>, home: map<Id, Id>, n: Id, p: Id,
                     box: Sandbox, c: Contract, now: Time, later: Time)
    requires Sound(s, x, execs, owner, home, n) && p in s.projects && c in Get(s.contracts, p)
    requires box.id == n && box.projectId == p && box.body.scope == Shared
    ensures var closed := ClosedBox(box, Broken, GATE_FAILURE, later);
      var m := WithTask(SharedIn(s, p, box, closed, now), GateTask(p, c, n + 1, later)); var g := Grant(owner, p, n, 2);
      && Sound(m, x.(sandboxes := x.sandboxes[n := closed]), execs, g, home, n + 2)
      && WorldOf(m, execs, g, n + 2) == GateBlockedHere(s, execs, owner, n, p, box, c, now, later)
  {
    hide Sound, FlatOk, Indexed, Inv, WorldOf, ProjectOf, Put, Claim, Becomes, Touch, Grant, AddSandbox, PutSandbox,
      SharedIn, SameRest, WithTask, AddTask, GateTask, ReworkTask;
    var closed := ClosedBox(box, Broken, GATE_FAILURE, later);
    var g := Grant(owner, p, n, 2);
    var t := GateTask(p, c, n + 1, later);
    var y, m0 := x.(sandboxes := x.sandboxes[n := closed]), SharedIn(s, p, box, closed, now);
    var ps0 := PutSandbox(Touch(AddSandbox(ProjectOf(s, p), box), now), closed);
    WorldIs(s, execs, owner, n);
    StepStarts(s, x, execs, owner, home, n, p, 2);
    PlansAre(s, p);
    ProjectIds(s, owner, home, p);
    FreshIn(s, owner, home, p, n + 1);
    GateTaskIs(ProjectOf(s, p), p, box, closed, c, n + 1, now, later);
    GateBlockedStep(WorldOf(s, execs, owner, n), p, box, c, now, later);
    SharedBuilt(s, x, owner, home, n, 2, p, box, closed, now);
    BecomesIs(s, m0, p);
    SharedTasks(s, p, box, closed, now);
    TaskBuilt(s, m0, y, g, home, p, ps0, t);
    StepSoundAlone(s, x, execs, owner, home, n, p, 2, WithTask(m0, t), y, home, AddTask(ps0, t));
  }

  lemma SharedTasks(s: State, p: Id, box: Sandbox, closed: Sandbox, now: Time)
    requires p in s.projects
    ensures SharedIn(s, p, box, closed, now).tasks == s.tasks
  {
    hide PutInList;
  }

  // One more task on top of an update.
  lemma TaskBuilt(s: State, m: State, y: Index, owner: map<Id, Id>, home: map<Id, Id>, p: Id, ps: ProjectState, t: Task)
    requires FlatOk(m, owner, home) && Indexed(m, y, owner, home) && Becomes(s, m, p, ps) && SameRest(s, m)
    requires p in m.projects && t.projectId == p && Owned(t, owner) && t.id !in m.tasks
    ensures FlatOk(WithTask(m, t), owner, home) && Indexed(WithTask(m, t), y, owner, home)
    ensures Becomes(s, WithTask(m, t), p, AddTask(ps, t)) && SameRest(s, WithTask(m, t))
  {
    hide FlatOk, Indexed, Becomes, ProjectOf, AddTask;
    BecomesIs(s, m, p);
    WithTaskOk(m, owner, home, t);
    IndexedSame(m, WithTask(m, t), y, owner, home);
    BecomesThen(s, m, WithTask(m, t), p, ps, AddTask(ps, t));
  }

  // The snapshot of a merge.
  function MergeSnapshot(s: State, n: Id, p: Id, later: Time): Snapshot {
    var tl := TimelineIn(s, p);
    Record(n, p, SnapshotBody(CurrentBranch(tl), LatestSnapshot(tl), TrimSpace(MERGE_CHECKPOINT), true, later))
  }

  lemma MergeRecordedIs(w: World, p: Id, later: Time)
    requires p in w.live && p in w.timelines
    ensures var tl := w.timelines[p];
      MergeRecorded(w, p, later) == AddSnapshot(w, p, Record(w.nextId, p,
        SnapshotBody(CurrentBranch(tl), LatestSnapshot(tl), TrimSpace(MERGE_CHECKPOINT), true, later)))
  {
    hide CurrentBranch, LatestSnapshot, TrimSpace, AddSnapshot;
  }

  lemma MergeSnapshotSound(s: State, x: Index, execs: map<Id, Executor>, owner: map<Id, Id>, home: map<Id, Id>, n: Id,
                           p: Id, later: Time)
    requires Sound(s, x, execs, owner, home, n) && p in s.projects
    ensures MergeSnapshot(s, n, p, later).id == n
    ensures var snap := MergeSnapshot(s, n, p, later); var m := RecordIn(s, p, snap); var g := Grant(owner, p, n, 1);
      && Sound(m, x.(snapshots := x.snapshots[n := snap]), execs, g, home, n + 1)
      && WorldOf(m, execs, g, n + 1) == MergeRecorded(WorldOf(s, execs, owner, n), p, later)
  {
    hide FlatOk, Indexed, Inv, StatesHomed, WorldOf, ProjectOf, TimelineIn, RecordIn, Grant, AddSnapshot, MergeRecorded,
      CurrentBranch, LatestSnapshot, TrimSpace;
    var w, snap := WorldOf(s, execs, owner, n), MergeSnapshot(s, n, p, later);
    WorldIs(s, execs, owner, n);
    OwnersBelow(s, execs, owner, n);
    MergeRecordedStep(w, p, later);
    MergeRecordedIs(w, p, later);
    RecordedFlat(s, owner, home, n, p, snap);
    RecordedIndexed(s, x, owner, home, n, p, snap);
    WorldRecorded(s, execs, owner, n, p, snap);
  }

  // What a merge comes to, once its tasks and its contract are known.
  ghost predicate MergeReply(w: World, r: Reply, p: Id, i: MergeInput, tasks: seq<Id>, contract: Option<Contract>,
                             now: Time, later: Time)
    requires p in w.live && p in w.timelines
  {
    && (!i.made ==> r == Refuse(w, Internal))
    && (i.made ==> r == Reply(MergeGate(w, p, i, SharedBox(w, p, tasks, now), contract, now, later), None))
  }

  lemma MergeCases(s: State, execs: map<Id, Executor>, owner: map<Id, Id>, n: Id, p: Id, i: MergeInput, now: Time,
                   later: Time)
    ensures var w := WorldOf(s, execs, owner, n); var r := Merge(w, p, i, now, later);
      && (p !in s.projects ==> r == Refuse(w, NotFound))
      && (p in s.projects ==>
            p in w.live && p in w.timelines
            && (i.ids == [] ==> r == Refuse(w, Invalid))
            && (i.ids != [] ==>
                  var picked := PickMerge(ProjectOf(s, p), i.ids); var contract := MergeContract(ProjectOf(s, p), i);
                  && (picked.Refused? ==> r == Refuse(w, picked.error))
                  && (picked.Ok? && contract.Refused? ==> r == Refuse(w, contract.error))
                  && (picked.Ok? && contract.Ok? ==>
                        MergeReply(w, r, p, i, picked.value.tasks, contract.value, now, later))))
  {
    hide WorldOf, ProjectOf, PickMerge, MergeContract, MergeGate, SharedBox;
    WorldFields(s, execs, owner, n);
    WorldTimes(s, execs, owner, n);
    if p in s.projects {
      WorldLive(s, execs, owner, n, p);
    }
  }

  lemma WorldTimes(s: State, execs: map<Id, Executor>, owner: map<Id, Id>, n: Id)
    ensures WorldOf(s, execs, owner, n).timelines.Keys == s.projects.Keys
  {
    hide LiveIn;
  }

  lemma MergeGateIs(w: World, p: Id, i: MergeInput, box: Sandbox, contract: Option<Contract>, now: Time, later: Time)
    requires p in w.live && p in w.timelines
    ensures var v := MergeGate(w, p, i, box, contract, now, later);
      var blocked := contract.Some? && (i.endpoints != [] || i.schemas != [])
        && CV.Report(contract.value.body, i.endpoints, i.schemas) != [];
      && (blocked ==> v == GateBlocked(w, p, box, contract.value, now, later))
      && (!blocked && !i.manifest ==> v == SharedMade(w, p, box, Broken, MANIFEST_FAILURE, now, later))
      && (!blocked && i.manifest && i.simulateFailure ==>
            v == MergeUndone(SharedMade(w, p, box, Broken, SIMULATED_FAILURE, now, later), p, later))
      && (!blocked && i.manifest && !i.simulateFailure ==>
            v == MergeRecorded(SharedMade(w, p, box, Released, "", now, later), p, later))
  {
    hide CV.Report, GateBlocked, SharedMade, MergeUndone, MergeRecorded;
  }

  lemma MergeUndoneIs(s: State, execs: map<Id, Executor>, owner: map<Id, Id>, n: Id, p: Id, later: Time)
    requires p in s.projects
    ensures p in WorldOf(s, execs, owner, n).live && p in WorldOf(s, execs, owner, n).timelines
    ensures var w := WorldOf(s, execs, owner, n);
      MergeUndone(w, p, later)
        == if p !in s.stableBranch then w else RollbackTo(w, p, s.stableBranch[p], INTEGRATION_FAILURE, later).world
  {
    hide WorldOf, ProjectOf, RollbackTo;
    WorldIs(s, execs, owner, n);
  }

  lemma MergeBoxIs(s: State, execs: map<Id, Executor>, owner: map<Id, Id>, n: Id, p: Id, tasks: seq<Id>, now: Time)
    ensures SharedBox(WorldOf(s, execs, owner, n), p, tasks, now)
      == Record(n, p,
                SandboxBody(Shared, None, if tasks == [] then None else Some(tasks[|tasks|-1]), Active, "", now, now))
  {
    hide WorldOf;
    WorldFields(s, execs, owner, n);
  }

  // Facts about the steps of a merge on the flat state.

  lemma BoxLast(s: State, x: Index, execs: map<Id, Executor>, owner: map<Id, Id>, home: map<Id, Id>, n: Id, p: Id,
                box: Sandbox, now: Time)
    requires Sound(s, x, execs, owner, home, n) && p in s.projects && box.id == n
    ensures p in WithSandbox(s, p, box).projects
    ensures var boxes := Get(TouchIn(WithSandbox(s, p, box), p, now).sandboxes, p);
      boxes != [] && boxes[|boxes|-1] == box && forall i | 0 <= i < |boxes| - 1 :: boxes[i].id != n
  {
    hide Sound, FlatOk, Inv, WorldOf, Indexed;
    StepStarts(s, x, execs, owner, home, n, p, 0);
    FreshIn(s, owner, home, p, n);
    var list := Get(s.sandboxes, p);
    forall i | 0 <= i < |list| ensures list[i].id != n {
      assert list[i].id in Ids(list);
    }
    LastBox(s, p, box, now);
  }

  lemma LastBox(s: State, p: Id, box: Sandbox, now: Time)
    requires p in s.projects
    ensures p in WithSandbox(s, p, box).projects
    ensures Get(TouchIn(WithSandbox(s, p, box), p, now).sandboxes, p) == Get(s.sandboxes, p) + [box]
  {
  }

  lemma GrantNext(owner: map<Id, Id>, p: Id, n: Id)
    ensures Grant(Grant(owner, p, n, 1), p, n + 1, 1) == Grant(owner, p, n, 2)
  {
    assert Grant(Grant(owner, p, n, 1), p, n + 1, 0) == Grant(owner, p, n, 1);
  }

  lemma BoxTwice(boxes: map<Id, Sandbox>, n: Id, box: Sandbox, closed: Sandbox)
    ensures boxes[n := box][n := closed] == boxes[n := closed]
  {
  }

  lemma GateTaskHome(p: Id, c: Contract, id: Id, later: Time)
    ensures GateTask(p, c, id, later).projectId == p
  {
    hide Decimal;
  }
}
