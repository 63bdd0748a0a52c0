// What the planning sections bring about, said about the records before and after.
module PlanningOutcomes {
  import opened Records
  import opened Domain
  import opened Text
  import opened Projects
  import opened ProjectProofs
  import opened Machine
  import opened MachineProofs
  import opened Theorems
  import opened Outcomes
  import opened MergeOutcomes
  import CV = ContractValidation

  // Nothing but project p, and the ids handed out.
  ghost predicate OnlyLive(w: World, v: World, p: Id, qs: ProjectState, k: nat) {
    v == w.(live := w.live[p := qs], owner := v.owner, nextId := w.nextId + k)
  }

  lemma PutIs(w: World, p: Id, qs: ProjectState, k: nat)
    ensures OnlyLive(w, Put(Claim(w, p, k), p, qs), p, qs, k)
  {
    hide Grant;
  }

  // ----- Projects and requirements ------------------------------------------------------

  // A project with a name is created, without records, on branch main.
  lemma CreateDoes(w: World, name: string, description: string, now: Time)
    ensures var r := CreateProject(w, name, description, now);
      if !Blank(name) && |TrimSpace(name)| <= 256 && |TrimSpace(description)| <= 4096
      then
        && r.refused == None
        && var p := w.nextId;
        r.world
        == w.(live := w.live[p := ProjectState(Project(p, TrimSpace(name), TrimSpace(description), now, now), [], [],
                                               [], map[], [], Slice(map[], []), Slice(map[], []), Slice(map[], []))],
              timelines := w.timelines[p := Timeline([], "main", None, 0)], owner := r.world.owner,
              nextId := w.nextId + 1)
      else r == Reply(w, Some(Invalid))
  {
    hide TrimSpace, Blank, Grant;
    TrimSpaceBlank(name);
  }

  // A requirement with a title and a content is added at the end.
  lemma RequirementDoes(w: World, p: Id, title: string, content: string, now: Time)
    requires p in w.live && w.live[p].project.id == p
    ensures var r := Machine.AddRequirement(w, p, title, content, now); var ps := w.live[p];
      if !Blank(title) && !Blank(content) && |TrimSpace(title)| <= 512 && |TrimSpace(content)| <= 65536
      then
        && r.refused == None
        && OnlyLive(w, r.world, p,
                    ps.(requirements := ps.requirements
                                        + [Record(w.nextId, p,
                                                  RequirementBody(TrimSpace(title), TrimSpace(content), now))],
                        project := ps.project.(updatedAt := now)), 1)
      else r == Reply(w, Some(Invalid))
  {
    hide TrimSpace, Blank, Grant;
    TrimSpaceBlank(title);
    TrimSpaceBlank(content);
  }

  // ----- Plans and contracts ------------------------------------------------------------

  // The task's job and who does it.
  ghost predicate JobIs(t: Task, planId: Id, name: string, kind: TaskKind, assignee: string, dependsOn: seq<Id>,
                        inputRef: Ref) {
    && t.body.planId == planId && t.body.name == name && t.body.kind == kind && t.body.assignee == assignee
    && t.body.dependsOn == dependsOn && t.body.inputRef == inputRef
  }

  // One more plan, for the newest requirement, and one more task, to carry it out.
  ghost predicate PlanJoins(ps: ProjectState, qs: ProjectState, p: Id, n: Id, now: Time) {
    && ps.requirements != [] && n + 1 in qs.tasks.items
    && var req, t := ps.requirements[|ps.requirements|-1], qs.tasks.items[n + 1];
    && t.id == n + 1 && Untouched(t, p, now)
    && JobIs(t, n, "Implement " + req.body.title, Sprint1, "manager-agent-sprint1", [], PlanRef(n))
    && qs == ps.(plans := ps.plans + [Record(n, p, PlanBody(req.id, |ps.plans| + 1, req.body.title, now))],
                 tasks := Slice(ps.tasks.items[n + 1 := t], ps.tasks.order + [n + 1]),
                 project := ps.project.(updatedAt := now))
  }

  // The newest requirement is planned; without one the request is invalid.
  lemma PlanDoes(w: World, p: Id, now: Time)
    requires p in w.live && w.live[p].project.id == p
    ensures var r := Machine.GeneratePlan(w, p, now);
      if w.live[p].requirements == [] then r == Reply(w, Some(Invalid))
      else
        && r.refused == None && p in r.world.live && OnlyLive(w, r.world, p, r.world.live[p], 2)
        && PlanJoins(w.live[p], r.world.live[p], p, w.nextId, now)
  {
    hide Grant;
  }

  // One more contract, the next version, for the newest plan and its requirement.
  ghost predicate ContractJoins(ps: ProjectState, qs: ProjectState, p: Id, n: Id, now: Time) {
    && ps.plans != [] && qs.contracts != []
    && var plan, c := ps.plans[|ps.plans|-1], qs.contracts[|qs.contracts|-1];
    && c.id == n && c.projectId == p && c.body.planId == plan.id && c.body.version == |ps.contracts| + 1
    && c.body.requirementId == plan.body.requirementId && c.body.createdAt == now
    && CV.UniqueSchemas(c.body.schemas) && CV.Report(c.body, c.body.endpoints, c.body.schemas) == []
    && qs == ps.(contracts := ps.contracts + [c], project := ps.project.(updatedAt := now))
  }

  // The newest plan gets a contract, which validates against itself; without a plan the request is
  // invalid.
  lemma ContractDoes(w: World, p: Id, now: Time)
    requires Inv(w) && p in w.live
    ensures var r := GenerateContract(w, p, now);
      if w.live[p].plans == [] then r == Reply(w, Some(Invalid))
      else
        && r.refused == None && p in r.world.live && OnlyLive(w, r.world, p, r.world.live[p], 1)
        && ContractJoins(w.live[p], r.world.live[p], p, w.nextId, now)
  {
    hide Inv, ProjectOk, FindById, Grant, CV.Report, CV.UniqueSchemas, CV.BuildContract;
    var ps := w.live[p];
    if ps.plans != [] {
      MachineProofs.LiveOk(w, p);
      var plan := ps.plans[|ps.plans|-1];
      RequirementOfPlan(ps, p, plan);
      FindByIdIn(ps.requirements, plan.body.requirementId);
      var req := FindById(ps.requirements, plan.body.requirementId).value;
      BuiltIs(w.nextId, p, req, plan, |ps.contracts| + 1, now);
    }
  }

  lemma BuiltIs(id: Id, p: Id, req: Requirement, plan: Plan, version: nat, now: Time)
    ensures var c := CV.BuildContract(id, p, req, plan, version, now);
      && c.id == id && c.projectId == p && c.body.planId == plan.id && c.body.version == version
      && c.body.requirementId == req.id && c.body.createdAt == now
      && CV.UniqueSchemas(c.body.schemas) && CV.Report(c.body, c.body.endpoints, c.body.schemas) == []
  {
    CV.BuiltContractConforms(id, p, req, plan, version, now);
    hide CV.Report, CV.UniqueSchemas, CV.ResourceOf, CV.StandardEndpoints, CV.StandardSchemas, TrimSpace;
  }

  // ----- Contexts -----------------------------------------------------------------------

  // The contract of a task: the one it refers to, if that is there, or else the newest.
  ghost predicate ContractOf(ps: ProjectState, t: TaskBody, c: Contract) {
    && c in ps.contracts
    && if t.inputRef.ContractRef? && t.inputRef.id in Ids(ps.contracts) then c.id == t.inputRef.id
       else c == ps.contracts[|ps.contracts|-1]
  }

  // One more context of task x, the next version, from its plan, its contract and the requirement.
  ghost predicate ContextJoins(ps: ProjectState, qs: ProjectState, p: Id, x: Id, n: Id, now: Time) {
    && x in ps.tasks.items && Get(qs.contexts, x) != []
    && var c := Get(qs.contexts, x)[|Get(qs.contexts, x)|-1];
    && c.id == n && c.projectId == p && c.body.taskId == x && c.body.version == |Get(ps.contexts, x)| + 1
    && c.body.createdAt == now && c.body.planId == ps.tasks.items[x].body.planId
    && (exists k :: ContractOf(ps, ps.tasks.items[x].body, k) && c.body.contractId == k.id)
    && (exists plan :: plan in ps.plans && plan.id == c.body.planId
                       && c.body.requirementId == plan.body.requirementId)
    && qs == ps.(contexts := ps.contexts[x := Get(ps.contexts, x) + [c]])
  }

  ghost predicate ContextEnds(w: World, r: Reply, p: Id, x: Id, now: Time)
    requires p in w.live
  {
    if x !in w.live[p].tasks.items || w.live[p].contracts == [] then r == Reply(w, Some(NotFound))
    else
      && r.refused == None && p in r.world.live && OnlyLive(w, r.world, p, r.world.live[p], 1)
      && ContextJoins(w.live[p], r.world.live[p], p, x, w.nextId, now)
  }

  lemma ContractOfIs(ps: ProjectState, t: TaskBody)
    requires ps.contracts != []
    ensures TaskContract(ps, t).Ok? && ContractOf(ps, t, TaskContract(ps, t).value)
  {
    hide FindById;
    if t.inputRef.ContractRef? {
      FindByIdIn(ps.contracts, t.inputRef.id);
    }
  }

  // The context for task x.
  lemma ContextIs(ps: ProjectState, p: Id, x: Id, n: Id, now: Time)
    requires ProjectOk(ps, p) && x in ps.tasks.items && ps.tasks.items[x].id == x && ps.contracts != []
    ensures var c := ContextFor(ps, p, ps.tasks.items[x], n, now);
      c.Ok? && ContextJoins(ps, AddContext(ps, c.value), p, x, n, now)
  {
    hide ProjectOk, FindById, TaskContract, ContractOf;
    var t := ps.tasks.items[x];
    PlanOfTask(ps, p, x);
    FindByIdIn(ps.plans, t.body.planId);
    ContractOfIs(ps, t.body);
    var plan := FindById(ps.plans, t.body.planId).value;
    FindByIdIn(ps.requirements, plan.body.requirementId);
    var c := ContextFor(ps, p, t, n, now).value;
    var k := TaskContract(ps, t.body).value;
    assert ContractOf(ps, t.body, k) && c.body.contractId == k.id;
  }

  // A context is made for the task asked for; it is refused only when the task is not there or the
  // project has no contract.
  lemma ContextDoes(w: World, p: Id, taskId: Option<Id>, now: Time)
    requires Inv(w) && p in w.live
    ensures var r := GenerateTaskContext(w, p, taskId, now);
      && (forall x | Asks(w.live[p], taskId, x) :: ContextEnds(w, r, p, x, now))
      && ((forall x :: !Asks(w.live[p], taskId, x)) ==> r == Reply(w, Some(Invalid)))
  {
    hide Inv, ProjectOk, ResolveTask, Asks, ContextFor, ContextJoins, AddContext, ContextEnds;
    var ps := w.live[p];
    MachineProofs.LiveOk(w, p);
    AskedFound(ps, taskId, p);
    forall x | Asks(ps, taskId, x) ensures ContextEnds(w, GenerateTaskContext(w, p, taskId, now), p, x, now) {
      if x in ps.tasks.items {
        if ps.contracts == [] {
          NoContract(ps, ps.tasks.items[x].body);
          PlanOfTask(ps, p, x);
        } else {
          ContextIs(ps, p, x, w.nextId, now);
        }
      }
      ContextUnfolds(w, p, taskId, x, now);
    }
  }

  lemma ContextUnfolds(w: World, p: Id, taskId: Option<Id>, x: Id, now: Time)
    requires p in w.live
    requires var ps := w.live[p];
      if x !in ps.tasks.items then ResolveTask(ps, taskId) == Refused(NotFound)
      else
        && ResolveTask(ps, taskId) == Ok(ps.tasks.items[x])
        && var c := ContextFor(ps, p, ps.tasks.items[x], w.nextId, now);
        if ps.contracts == [] then FindById(ps.plans, ps.tasks.items[x].body.planId).Some?
                                   && TaskContract(ps, ps.tasks.items[x].body).Refused?
        else c.Ok? && ContextJoins(ps, AddContext(ps, c.value), p, x, w.nextId, now)
    ensures ContextEnds(w, GenerateTaskContext(w, p, taskId, now), p, x, now)
  {
    hide ResolveTask, ContextJoins, AddContext, FindById, Grant;
  }

  // ----- Dispatching and validating -----------------------------------------------------

  // The task was dispatched for this plan and contract.
  ghost predicate DispatchedFor(t: TaskBody, planId: Id, contractId: Id) {
    t.planId == planId && t.inputRef == ContractRef(contractId) && t.kind in {Backend, Frontend, Integration}
  }

  lemma {:induction false} DispatchedSome(order: seq<Id>, tasks: map<Id, Task>, planId: Id, contractId: Id)
    ensures Dispatched(order, tasks, planId, contractId) != [] <==>
      exists x :: x in order && x in tasks && DispatchedFor(tasks[x].body, planId, contractId)
  {
    if order != [] {
      DispatchedSome(order[..|order|-1], tasks, planId, contractId);
      assert order == order[..|order|-1] + [order[|order|-1]];
    }
  }

  // Three more tasks: two that depend on nothing and one, to integrate, that depends on both.
  ghost predicate TrioJoins(ps: ProjectState, qs: ProjectState, p: Id, n: Id, plan: Plan, c: Contract, now: Time) {
    && n in qs.tasks.items && n + 1 in qs.tasks.items && n + 2 in qs.tasks.items
    && var a, b, d := qs.tasks.items[n], qs.tasks.items[n + 1], qs.tasks.items[n + 2];
    && a.id == n && b.id == n + 1 && d.id == n + 2
    && Untouched(a, p, now) && Untouched(b, p, now) && Untouched(d, p, now)
    && JobIs(a, plan.id, "Build backend implementation for " + plan.body.title, Backend, "go-backend-agent", [],
             ContractRef(c.id))
    && JobIs(b, plan.id, "Build frontend implementation for " + plan.body.title, Frontend, "vue-frontend-agent", [],
             ContractRef(c.id))
    && JobIs(d, plan.id, "Merge and verify " + plan.body.title, Integration, "integration-agent", [n, n + 1],
             ContractRef(c.id))
    && qs == ps.(tasks := Slice(ps.tasks.items[n := a][n + 1 := b][n + 2 := d], ps.tasks.order + [n, n + 1, n + 2]),
                 project := ps.project.(updatedAt := now))
  }

  lemma TrioIs(ps: ProjectState, p: Id, n: Id, plan: Plan, c: Contract, now: Time)
    requires ps.project.id == p
    ensures TrioJoins(ps, Dispatch(ps, plan, c, n, now), p, n, plan, c, now)
  {
    assert ps.tasks.order + [n] + [n + 1] + [n + 2] == ps.tasks.order + [n, n + 1, n + 2];
  }

  // The newest plan and contract are dispatched once; without both the request is invalid.
  lemma DispatchDoes(w: World, p: Id, now: Time)
    requires Inv(w) && p in w.live
    ensures var r := DispatchTasks(w, p, now); var ps := w.live[p];
      if ps.plans == [] || ps.contracts == [] then r == Reply(w, Some(Invalid))
      else
        var plan, c := ps.plans[|ps.plans|-1], ps.contracts[|ps.contracts|-1];
        if exists x :: x in ps.tasks.items && DispatchedFor(ps.tasks.items[x].body, plan.id, c.id)
        then r == Reply(w, None)
        else
          && r.refused == None && p in r.world.live && OnlyLive(w, r.world, p, r.world.live[p], 3)
          && TrioJoins(ps, r.world.live[p], p, w.nextId, plan, c, now)
  {
    hide Inv, ProjectOk, Dispatched, Dispatch, TrioJoins, DispatchedFor, Grant;
    var ps := w.live[p];
    MachineProofs.LiveOk(w, p);
    ShapesOf(ps, p);
    OrderIsTasks(ps, p);
    if ps.plans != [] && ps.contracts != [] {
      var plan, c := ps.plans[|ps.plans|-1], ps.contracts[|ps.contracts|-1];
      DispatchedSome(ps.tasks.order, ps.tasks.items, plan.id, c.id);
      TrioIs(ps, p, w.nextId, plan, c, now);
    }
  }

  // The contract a request is about: the one it names, or else the newest.
  ghost predicate AboutContract(ps: ProjectState, contractId: Option<Id>, c: Contract) {
    && c in ps.contracts
    && if contractId.Some? then c.id == contractId.value else c == ps.contracts[|ps.contracts|-1]
  }

  lemma AboutIs(ps: ProjectState, contractId: Option<Id>, p: Id)
    requires Filed(ps.contracts, p)
    ensures forall c :: AboutContract(ps, contractId, c) <==> ResolveContract(ps, contractId) == Ok(c)
  {
    hide FindById;
    if contractId.Some? {
      FindByIdIn(ps.contracts, contractId.value);
      forall c | AboutContract(ps, contractId, c) ensures ResolveContract(ps, contractId) == Ok(c) {
        var k :| 0 <= k < |ps.contracts| && ps.contracts[k] == c;
        assert c.id in Ids(ps.contracts);
        OneFiled(ps.contracts, p, c, FindById(ps.contracts, c.id).value);
      }
    }
  }

  ghost predicate ValidateEnds(w: World, r: Reply, p: Id, c: Contract, endpoints: seq<Endpoint>, schemas: seq<Schema>,
                               now: Time)
    requires p in w.live
  {
    if endpoints == [] && schemas == [] then r == Reply(w, Some(Invalid))
    else if forall f ::
      !CV.EndpointDue(c.body.endpoints, endpoints, f) && !CV.SchemaDue(c.body.schemas, schemas, f)
    then r == Reply(w, None)
    else
      && r.refused == None && p in r.world.live && OnlyLive(w, r.world, p, r.world.live[p], 1)
      && ReworkJoins(w.live[p], r.world.live[p], p, w.nextId, c, now)
      && r.world.live[p] == w.live[p].(tasks := r.world.live[p].tasks,
                                       project := w.live[p].project.(updatedAt := now))
  }

  // Validating the contract asked for adds a task to resolve the conflicts exactly when something
  // differs.
  lemma ValidateDoes(w: World, p: Id, contractId: Option<Id>, endpoints: seq<Endpoint>, schemas: seq<Schema>, now: Time)
    requires Inv(w) && p in w.live
    ensures var r := ValidateContract(w, p, contractId, endpoints, schemas, now);
      && (forall c | AboutContract(w.live[p], contractId, c) :: ValidateEnds(w, r, p, c, endpoints, schemas, now))
      && ((forall c :: !AboutContract(w.live[p], contractId, c)) ==> r.refused.Some? && r.world == w)
  {
    hide Inv, ProjectOk, ResolveContract, AboutContract, ValidateEnds, CV.Report;
    var ps := w.live[p];
    MachineProofs.LiveOk(w, p);
    ShapesOf(ps, p);
    AboutIs(ps, contractId, p);
    forall c | AboutContract(ps, contractId, c)
      ensures ValidateEnds(w, ValidateContract(w, p, contractId, endpoints, schemas, now), p, c, endpoints, schemas,
                           now)
    {
      ValidateUnfolds(w, p, contractId, c, endpoints, schemas, now);
    }
    if ResolveContract(ps, contractId).Ok? {
      assert AboutContract(ps, contractId, ResolveContract(ps, contractId).value);
    }
  }

  lemma ValidateUnfolds(w: World, p: Id, contractId: Option<Id>, c: Contract, endpoints: seq<Endpoint>,
                        schemas: seq<Schema>, now: Time)
    requires p in w.live && ResolveContract(w.live[p], contractId) == Ok(c) && w.live[p].project.id == p
    ensures ValidateEnds(w, ValidateContract(w, p, contractId, endpoints, schemas, now), p, c, endpoints, schemas, now)
  {
    hide ResolveContract, CV.Report, CV.EndpointDue, CV.SchemaDue, Grant, Decimal;
    ReportedSome(c.body, endpoints, schemas);
  }

  // ----- Faults -------------------------------------------------------------------------

  // A fault is noted for the task asked for, and nothing else happens.
  lemma FaultDoes(w: World, p: Id, taskId: Option<Id>, reason: string, x: Id)
    requires Inv(w) && p in w.live && Asks(w.live[p], taskId, x)
    ensures MarkFault(w, p, taskId, reason)
      == if x !in w.live[p].tasks.items then Reply(w, Some(NotFound))
         else Reply(w.(faults := w.faults[x := if Blank(reason) then "simulated sandbox failure"
                                               else TrimSpace(reason)]), None)
  {
    hide Inv, ProjectOk, ResolveTask, Asks, TrimSpace, Blank;
    MachineProofs.LiveOk(w, p);
    AskedFound(w.live[p], taskId, p);
    TrimSpaceBlank(reason);
  }
}
