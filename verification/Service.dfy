// The service object: flat maps with secondary indexes, updated in place.  Every method is
// proved against the step of the machine it implements.
module Service {
  import opened Records
  import opened Domain
  import opened Text
  import opened Projects
  import opened Leases
  import opened Machine
  import opened MachineProofs
  import opened States
  import opened ServiceProofs
  import opened ServiceSteps
  import opened Tables
  import opened Commits
  import opened Database
  import CV = ContractValidation

  // ----- Loops over lists and orders ----------------------------------------------------

  // The items of an order, as captured in a snapshot.
  method Gather<B>(items: map<Id, Record<B>>, order: seq<Id>) returns (m: map<Id, Record<B>>)
    ensures m == Select(items, order)
  {
    m := map[];
    for i := 0 to |order|
      invariant m == Select(items, order[..i])
    {
      assert order[..i+1] == order[..i] + [order[i]];
      if order[i] in items {
        m := m[order[i] := items[order[i]]];
      }
    }
    assert order[..|order|] == order;
  }

  method RemoveKeys<V>(m: map<Id, V>, keys: seq<Id>) returns (n: map<Id, V>)
    ensures n == m - Elements(keys)
  {
    n := m;
    for i := 0 to |keys|
      invariant n == m - Elements(keys[..i])
    {
      assert keys[..i+1] == keys[..i] + [keys[i]];
      n := n - {keys[i]};
    }
    assert keys[..|keys|] == keys;
  }

  lemma SelectStep<B>(items: map<Id, Record<B>>, front: seq<Id>, x: Id)
    ensures Select(items, front + [x])
      == if x in items then Select(items, front)[x := items[x]] else Select(items, front)
  {
  }

  method PutItems<B>(items: map<Id, Record<B>>, s: Slice<B>) returns (m: map<Id, Record<B>>)
    ensures m == items + Select(s.items, s.order)
  {
    m := items;
    for i := 0 to |s.order|
      invariant m == items + Select(s.items, s.order[..i])
    {
      assert s.order[..i+1] == s.order[..i] + [s.order[i]];
      SelectStep(s.items, s.order[..i], s.order[i]);
      hide Select;
      if s.order[i] in s.items {
        PlusUpdate(items, Select(s.items, s.order[..i]), s.order[i], s.items[s.order[i]]);
        m := m[s.order[i] := s.items[s.order[i]]];
      }
    }
    assert s.order[..|s.order|] == s.order;
  }

  method Unindex<B>(index: map<Id, Record<B>>, s: seq<Record<B>>) returns (n: map<Id, Record<B>>)
    ensures n == index - Ids(s)
  {
    n := index;
    for i := 0 to |s|
      invariant n == index - Ids(s[..i])
    {
      assert s[..i+1] == s[..i] + [s[i]];
      IdsAppend(s[..i], s[i]);
      n := n - {s[i].id};
    }
    assert s[..|s|] == s;
  }

  lemma PlusUpdate<V>(a: map<Id, V>, b: map<Id, V>, k: Id, v: V)
    ensures a + b[k := v] == (a + b)[k := v]
  {
  }

  method Reindex<B>(index: map<Id, Record<B>>, s: seq<Record<B>>) returns (n: map<Id, Record<B>>)
    ensures n == index + IndexList(s)
  {
    n := index;
    for i := 0 to |s|
      invariant n == index + IndexList(s[..i])
    {
      assert s[..i+1] == s[..i] + [s[i]];
      IdsAppend(s[..i], s[i]);
      PlusUpdate(index, IndexList(s[..i]), s[i].id, s[i]);
      n := n[s[i].id := s[i]];
    }
    assert s[..|s|] == s;
  }

  // Delete the histories of the tasks in the order, with their index entries.
  method ClearHistories<B>(h: Shelf<B>, order: seq<Id>) returns (n: Shelf<B>)
    ensures n == ClearAll(h, order)
  {
    n := h;
    for i := 0 to |order|
      invariant n == ClearAll(h, order[..i])
    {
      assert order[..i+1][..i] == order[..i];
      var rest := Unindex(n.index, Get(n.lists, order[i]));
      n := Shelf(n.lists - {order[i]}, rest);
    }
    assert order[..|order|] == order;
  }

  method RestoreHistories<B>(h: Shelf<B>, order: seq<Id>, histories: map<Id, seq<Record<B>>>) returns (n: Shelf<B>)
    ensures n == RestoreAll(h, order, histories)
  {
    n := h;
    for i := 0 to |order|
      invariant n == RestoreAll(h, order[..i], histories)
    {
      assert order[..i+1][..i] == order[..i];
      if order[i] in histories {
        var rest := Reindex(n.index, histories[order[i]]);
        n := Shelf(n.lists[order[i] := histories[order[i]]], rest);
      }
    }
    assert order[..|order|] == order;
  }

  // One loop of rebuildIndexesLocked.  `home` says under which key each record is listed.
  method RebuildIndex<B>(lists: map<Id, seq<Record<B>>>, ghost home: map<Id, Id>) returns (index: map<Id, Record<B>>)
    requires forall k | k in lists :: ListOk(lists[k], k, home)
    ensures Indexes(lists, index, home)
  {
    hide ListOk;
    index := map[];
    var rest := lists.Keys;
    ghost var done: map<Id, seq<Record<B>>> := map[];
    while rest != {}
      invariant rest <= lists.Keys && done == lists - rest && ShelfOk(Shelf(done, index), home)
      decreases |rest|
    {
      hide ShelfOk;
      var k :| k in rest;
      RestoreAbsent(Shelf(done, index), home, k, lists[k]);
      index := Reindex(index, lists[k]);
      done := done[k := lists[k]];
      rest := rest - {k};
    }
    assert done == lists;
  }

  // The sandbox loop of executeRun and failRun: the first sandbox with the id is settled.
  method SettleBox(boxes: seq<Sandbox>, id: Id, status: SandboxStatus, failure: Option<string>, now: Time, ghost p: Id,
                   ghost home: map<Id, Id>)
    returns (settled: seq<Sandbox>)
    requires ListOk(boxes, p, home)
    ensures settled == SettledBoxes(boxes, id, status, failure, now)
  {
    hide SettledBody;
    for i := 0 to |boxes|
      invariant forall k | 0 <= k < i :: boxes[k].id != id
    {
      if boxes[i].id == id {
        IndexListFinds(boxes, i);
        return boxes[i := boxes[i].(body := SettledBody(boxes[i].body, status, failure, now))];
      }
    }
    settled := boxes;
  }

  // The first record with the id, as in resolveRequirementByID.
  method FindRecord<B>(s: seq<Record<B>>, id: Id) returns (r: Option<Record<B>>)
    ensures r == FindById(s, id)
  {
    for i := 0 to |s|
      invariant FindById(s, id) == FindById(s[i..], id)
    {
      assert s[i..][1..] == s[i+1..];
      if s[i].id == id {
        return Some(s[i]);
      }
    }
    r := None;
  }

  // A captured state with the project touched and the tasks filed one by one, and their places.
  method Filing(s: State, p: Id, ghost n: Id, tasks: seq<Task>, now: Time)
    returns (candidate: State, positions: map<Id, nat>)
    requires p in s.projects && forall i | 0 <= i < |tasks| :: tasks[i].projectId == p && tasks[i].id == n + i
    ensures candidate == TouchIn(WithTasks(s, tasks), p, now) && NextTasks(s, n, p, tasks, positions)
  {
    hide WithTask;
    candidate := s.(projects := s.projects[p := s.projects[p].(updatedAt := now)]);
    positions := map[];
    for i := 0 to |tasks|
      invariant candidate == TouchIn(WithTasks(s, tasks[..i]), p, now)
      invariant |Get(candidate.taskOrder, p)| == |Get(s.taskOrder, p)| + i
      invariant NextTasks(s, n, p, tasks[..i], positions)
    {
      assert tasks[..i+1][..i] == tasks[..i];
      var task := tasks[i];
      FiledThenTouched(WithTasks(s, tasks[..i]), task, p, now);
      candidate := candidate.(tasks := candidate.tasks[task.id := task],
                              taskOrder := candidate.taskOrder[p := Get(candidate.taskOrder, p) + [task.id]]);
      positions := positions[task.id := |candidate.taskOrder[p]| - 1];
    }
    assert tasks[..|tasks|] == tasks;
  }

  // slices.Index, for a member.
  method PlaceOf(order: seq<Id>, x: Id) returns (i: nat)
    requires x in order
    ensures i < |order| && order[i] == x && x !in order[..i]
  {
    i := 0;
    while order[i] != x
      invariant i < |order| && x !in order[..i] && x in order[i..]
      decreases |order| - i
    {
      i := i + 1;
    }
  }

  // What StartParallelRun commits.
  method BatchItems(m: State, p: Id, tasks: seq<Id>, runs: seq<Id>, ghost k: nat) returns (items: seq<RunStart>)
    requires |tasks| == |runs| && (forall x | x in tasks :: x in m.tasks) && forall r | r in runs :: r in m.runs
    requires Distinct(Get(m.runOrder, p)) && k <= |Get(m.runOrder, p)| && Get(m.runOrder, p)[k..] == runs
    ensures items == Starts(m, k, tasks, runs)
  {
    items := [];
    var order := Get(m.runOrder, p);
    for i := 0 to |runs|
      invariant items == Starts(m, k, tasks[..i], runs[..i])
    {
      var t, r := tasks[i], runs[i];
      assert order[k..][i] == order[k + i] == r && t in tasks && r in runs;
      var place := PlaceOf(order, r);
      assert t in m.tasks;
      assert r in m.runs;
      items := items + [RunStart(m.tasks[t], m.runs[r], place)];
    }
    assert tasks[..|tasks|] == tasks && runs[..|runs|] == runs;
  }

  lemma TouchedProject(s: State, p: Id, now: Time)
    requires p in s.projects
    ensures var m := TouchIn(s, p, now); p in m.projects && m.projects[p] == s.projects[p].(updatedAt := now)
  {
  }

  lemma GateTaskId(p: Id, c: Contract, id: Id, now: Time)
    ensures GateTask(p, c, id, now).id == id && GateTask(p, c, id, now).projectId == p
  {
    hide Decimal;
  }

  lemma ThreeFiled(s: State, n: Id, p: Id, plan: Plan, contract: Contract, a: Task, b: Task, c: Task, now: Time)
    requires Three(a, b, c, n, p, plan, contract, now)
    ensures WithTasks(s, [a, b, c]) == WithTask(WithTask(WithTask(s, a), b), c)
    ensures forall i | 0 <= i < 3 :: [a, b, c][i].projectId == p && [a, b, c][i].id == n + i
  {
    assert a.id == n && b.id == n + 1 && c.id == n + 2 && a.projectId == b.projectId == c.projectId == p;
    hide WithTask;
    assert [a, b, c][..2] == [a, b] && [a, b][..1] == [a] && [a][..0] == [];
    OneFiled(s, a);
    assert WithTasks(s, [a, b]) == WithTask(WithTasks(s, [a]), b);
  }

  class Service {
    var state: State
    var index: Index
    var nextId: Id

    // The executor goroutines, the project each id was handed out for, the task of each context.
    ghost var execs: map<Id, Executor>
    ghost var owner: map<Id, Id>
    ghost var home: map<Id, Id>

    // The machine state this object stands for.
    ghost function Now(): World
      reads this
    {
      WorldOf(state, execs, owner, nextId)
    }

    ghost predicate Valid()
      reads this
    {
      Sound(state, index, execs, owner, home, nextId)
    }

    constructor ()
      ensures Valid() && Now() == Init()
    {
      state, index := EMPTY, NO_INDEX;
      nextId, execs, owner, home := 0, map[], map[], map[];
      new;
      hide Sound, WorldOf;
      EmptyState();
    }

    // ----- Reading --------------------------------------------------------------------

    // The project as the machine sees it.
    ghost function Project(p: Id): ProjectState
      requires p in state.projects
      reads this
    {
      ProjectOf(state, p)
    }

    // resolveTaskLocked.
    method ResolveTask(p: Id, taskId: Option<Id>) returns (r: Outcome<Task>)
      requires Valid() && p in state.projects
      ensures r == Projects.ResolveTask(Project(p), taskId)
    {
      hide FlatOk, Inv, Indexed, ProjectOf;
      TasksOf(state, owner, home, p, Project(p));
      if taskId.Some? {
        var id := taskId.value;
        if id !in state.tasks || state.tasks[id].projectId != p {
          assert id !in Project(p).tasks.items;
          return Refused(NotFound);
        }
        assert id in Project(p).tasks.items;
        return Ok(state.tasks[id]);
      }
      var order := Get(state.taskOrder, p);
      if |order| == 0 {
        return Refused(Invalid);
      }
      var last := order[|order|-1];
      assert last in order;
      r := Ok(state.tasks[last]);
    }

    // ensureTaskReadyLocked.
    method EnsureReady(task: Task) returns (ready: bool)
      ensures ready == Ready(state.tasks, task.body)
    {
      if task.body.status != Created {
        return false;
      }
      for i := 0 to |task.body.dependsOn|
        invariant forall d | d in task.body.dependsOn[..i] :: d in state.tasks && state.tasks[d].body.status == Done
      {
        var d := task.body.dependsOn[i];
        if d !in state.tasks || state.tasks[d].body.status != Done {
          assert d in task.body.dependsOn;
          return false;
        }
        assert task.body.dependsOn[..i+1] == task.body.dependsOn[..i] + [d];
      }
      assert task.body.dependsOn[..|task.body.dependsOn|] == task.body.dependsOn;
      ready := true;
    }

    // resolveParallelTasksLocked.
    method PickParallel(p: Id, ids: seq<Option<Id>>) returns (r: Outcome<Picked>)
      requires Valid() && p in state.projects
      ensures r == Pick(Project(p), ids)
    {
      hide FlatOk, Inv, Indexed, ProjectOf, Ready;
      var picked := Picked([], []);
      if |ids| > 0 {
        for i := 0 to |ids|
          invariant Ok(picked) == PickGiven(Project(p), ids[..i])
        {
          assert ids[..i+1][..i] == ids[..i];
          var t := ResolveTask(p, ids[i]);
          if t.Refused? {
            GivenRefused(Project(p), ids, i);
            return Refused(t.error);
          }
          if t.value.id in picked.selected || t.value.id in picked.blocked {
            continue;
          }
          ResolvedHere(state, execs, owner, home, nextId, p, ids[i]);
          var ready := EnsureReady(t.value);
          picked := if ready then picked.(selected := picked.selected + [t.value.id])
            else picked.(blocked := picked.blocked + [t.value.id]);
        }
        assert ids[..|ids|] == ids;
      } else {
        var order := Get(state.taskOrder, p);
        TasksOf(state, owner, home, p, Project(p));
        for i := 0 to |order|
          invariant picked == PickAuto(order[..i], Project(p).tasks.items)
        {
          assert order[..i+1][..i] == order[..i];
          var x := order[i];
          assert x in order;
          var task := state.tasks[x];
          if task.body.kind == Sprint1 || task.body.status != Created {
            continue;
          }
          ReadyInProject(state, execs, owner, home, nextId, p, x);
          TaskKnown(state, execs, owner, home, nextId, p, x);
          var ready := EnsureReady(task);
          picked := if ready then picked.(selected := picked.selected + [x])
            else picked.(blocked := picked.blocked + [x]);
        }
        assert order[..|order|] == order;
      }
      if |picked.selected| == 0 {
        return Refused(Conflict);
      }
      r := Ok(picked);
    }

    // resolveLatestSucceededArtifactForTaskLocked.
    method FindArtifact(p: Id, taskId: Id) returns (r: Option<Id>)
      requires Valid() && p in state.projects
      ensures r == LatestArtifact(Project(p).runs.order, Project(p).runs.items, Project(p).artifacts.items, taskId)
    {
      hide FlatOk, Inv, Indexed, ProjectOf;
      RunsOf(state, owner, home, p, Project(p));
      ghost var runs, artifacts := Project(p).runs.items, Project(p).artifacts.items;
      var order := Get(state.runOrder, p);
      var i := |order|;
      assert order[..i] == order;
      while i > 0
        invariant 0 <= i <= |order|
        invariant LatestArtifact(order, runs, artifacts, taskId) == LatestArtifact(order[..i], runs, artifacts, taskId)
      {
        assert order[..i][..i-1] == order[..i-1];
        i := i - 1;
        var x := order[i];
        assert x in order;
        var run := state.runs[x];
        if run.body.taskId == taskId && run.body.status == Succeeded && |run.body.artifactIds| > 0 {
          var a := run.body.artifactIds[|run.body.artifactIds|-1];
          ArtifactHere(state, execs, owner, home, nextId, p, x, a);
          if a in state.artifacts {
            return Some(a);
          }
        }
      }
      r := None;
    }

    // resolveMergeTasksLocked.
    method PickForMerge(p: Id, ids: seq<Option<Id>>) returns (r: Outcome<Merged>)
      requires Valid() && p in state.projects
      ensures r == PickMerge(Project(p), ids)
    {
      hide FlatOk, Inv, Indexed, ProjectOf, LatestArtifact;
      var merged := Merged([], []);
      for i := 0 to |ids|
        invariant Ok(merged) == PickMerge(Project(p), ids[..i])
      {
        assert ids[..i+1][..i] == ids[..i];
        var t := ResolveTask(p, ids[i]);
        if t.Refused? {
          MergeRefused(Project(p), ids, i);
          return Refused(t.error);
        }
        if t.value.id in merged.tasks {
          continue;
        }
        if t.value.body.status != Done {
          MergeRefused(Project(p), ids, i);
          return Refused(Conflict);
        }
        var a := FindArtifact(p, t.value.id);
        if a.None? {
          MergeRefused(Project(p), ids, i);
          return Refused(Conflict);
        }
        merged := Merged(merged.tasks + [t.value.id], merged.artifacts + [a.value]);
      }
      assert ids[..|ids|] == ids;
      r := Ok(merged);
    }

    // findActiveCodeLockConflictLocked, without the queue entry.
    method FindLockClash(p: Id, requested: LockBody, now: Time) returns (r: Option<nat>)
      ensures r == FirstClash(LockLeases(Get(state.locks, p)), LockScope(LockKey(requested)), LockOwner(requested), now)
      ensures r.Some? ==> r.value < |Get(state.locks, p)|
    {
      hide LockKey, LockOwner, LeaseActive;
      var s := Get(state.locks, p);
      ghost var leases := LockLeases(s);
      for i := 0 to |s|
        invariant FirstClash(leases[..i], LockScope(LockKey(requested)), LockOwner(requested), now).None?
      {
        assert leases[..i+1][..i] == leases[..i];
        var lock := s[i].body;
        if LeaseActive(now, lock.expiresAt) && LockKey(lock) == LockKey(requested)
          && LockOwner(lock) != LockOwner(requested) {
          FirstClashAt(leases, LockScope(LockKey(requested)), LockOwner(requested), now, i);
          return Some(i);
        }
      }
      assert leases[..|s|] == leases;
      r := None;
    }

    // findActiveOverrideConflictLocked, without the queue entry.
    method FindOverrideClash(p: Id, taskId: Id, lockScope: string, owner: string, now: Time) returns (r: Option<nat>)
      ensures r
        == FirstClash(OverrideLeases(Get(state.overrides, p)), OverrideScope(taskId, ScopeName(lockScope)), owner, now)
      ensures r.Some? ==> r.value < |Get(state.overrides, p)|
    {
      hide ScopeName, OverrideOwner, LeaseActive;
      var s := Get(state.overrides, p);
      ghost var leases := OverrideLeases(s);
      for i := 0 to |s|
        invariant FirstClash(leases[..i], OverrideScope(taskId, ScopeName(lockScope)), owner, now).None?
      {
        assert leases[..i+1][..i] == leases[..i];
        var o := s[i].body;
        if o.taskId != taskId || o.appliedAt.Some? || !LeaseActive(now, o.expiresAt) {
          continue;
        }
        if OverrideOwner(o) != owner && ScopeName(o.lockScope) == ScopeName(lockScope) {
          FirstClashAt(leases, OverrideScope(taskId, ScopeName(lockScope)), owner, now, i);
          return Some(i);
        }
      }
      assert leases[..|s|] == leases;
      r := None;
    }

    // The search of applyPendingHumanOverrideLocked: newest first.
    method FindPendingOverride(p: Id, taskId: Id, now: Time) returns (r: Option<nat>)
      ensures r == LatestPending(Get(state.overrides, p), taskId, now)
    {
      var s := Get(state.overrides, p);
      var i := |s|;
      while i > 0
        invariant 0 <= i <= |s|
        invariant LatestPending(s, taskId, now) == LatestPending(s[..i], taskId, now)
      {
        assert s[..i][..i-1] == s[..i-1];
        i := i - 1;
        var o := s[i].body;
        if o.taskId == taskId && o.appliedAt.None? && LeaseActive(now, o.expiresAt) {
          return Some(i);
        }
      }
      r := None;
    }

    // project.UpdatedAt = now.
    method Touch(p: Id, now: Time)
      requires p in state.projects
      modifies this`state
      ensures state == TouchIn(old(state), p, now) && p in state.projects
    {
      state := state.(projects := state.projects[p := state.projects[p].(updatedAt := now)]);
    }

    // ----- Snapshots ------------------------------------------------------------------

    // nextRollbackBranchLocked counts the rollbacks of a project.
    method CountRollback(p: Id)
      modifies this`state
      ensures state == CountedIn(old(state), p) && state.projects == old(state).projects
    {
      state := state.(branchSeq := state.branchSeq[p := (if p in state.branchSeq then state.branchSeq[p] else 0) + 1]);
    }

    // captureProjectSnapshotStateLocked.
    method CaptureProject(p: Id) returns (ps: ProjectState)
      requires p in state.projects
      ensures ps == Project(p)
    {
      var order := Get(state.taskOrder, p);
      var contexts: map<Id, seq<Context>> := map[];
      for i := 0 to |order|
        invariant contexts == ContextsOf(state.contexts, order[..i])
      {
        assert order[..i+1] == order[..i] + [order[i]];
        if |Get(state.contexts, order[i])| > 0 {
          contexts := contexts[order[i] := state.contexts[order[i]]];
        }
      }
      assert order[..|order|] == order;
      var tasks := Gather(state.tasks, order);
      var runs := Gather(state.runs, Get(state.runOrder, p));
      var artifacts := Gather(state.artifacts, Get(state.artifactOrder, p));
      ps := ProjectState(state.projects[p], Get(state.requirements, p), Get(state.plans, p), Get(state.contracts, p),
                         contexts,
                         Get(state.sandboxes, p), Slice(tasks, order), Slice(runs,
                             Get(state.runOrder, p)), Slice(artifacts, Get(state.artifactOrder, p)));
    }

    // restoreProjectFromSnapshotLocked after clearProjectStateLocked, then
    // clearProjectContextsLocked.
    method RestoreProject(p: Id, ps: ProjectState)
      requires FlatOk(state, owner, home) && Indexed(state, index, owner, home) && p in state.projects
      requires StateOk(ps, p, owner)
      requires forall t | t in ps.contexts :: ListOk(ps.contexts[t], t, home)
      modifies this`state, this`index
      ensures state == RestoreIn(old(state), p, ps) && index == RestoredIndex(old(state), old(index), p, ps)
    {
      hide FlatOk, Indexed, StateOk, ListOk, ClearAll, RestoreAll, Elements, Select, Ids, IndexList, RestoreIn,
        RestoredIndex;
      var s, x := state, index;
      var order := Get(s.taskOrder, p);
      var plans := Unindex(x.plans, Get(s.plans, p));
      var contracts := Unindex(x.contracts, Get(s.contracts, p));
      var contexts := ClearHistories(Shelf(s.contexts, x.contexts), order);
      var tasks := RemoveKeys(s.tasks, order);
      var faults := RemoveKeys(s.sandboxFaults, order);
      var sandboxes := Unindex(x.sandboxes, Get(s.sandboxes, p));
      var runs := RemoveKeys(s.runs, Get(s.runOrder, p));
      var artifacts := RemoveKeys(s.artifacts, Get(s.artifactOrder, p));
      var overrides := Unindex(x.overrides, Get(s.overrides, p));

      plans := Reindex(plans, ps.plans);
      contracts := Reindex(contracts, ps.contracts);
      tasks := PutItems(tasks, ps.tasks);
      contexts := RestoreHistories(contexts, ps.tasks.order, ps.contexts);
      sandboxes := Reindex(sandboxes, ps.sandboxes);
      runs := PutItems(runs, ps.runs);
      artifacts := PutItems(artifacts, ps.artifacts);
      contexts := ClearHistories(contexts, ps.tasks.order);

      RestoredParts(s, x, owner, home, p, ps);
      index := x.(plans := plans, contracts := contracts, contexts := contexts.index, sandboxes := sandboxes,
                  overrides := overrides);
      state := s.(
        projects := s.projects[p := ps.project], requirements := s.requirements[p := ps.requirements],
        plans := s.plans[p := ps.plans], contracts := s.contracts[p := ps.contracts], contexts := contexts.lists,
        overrides := s.overrides - {p}, sandboxes := s.sandboxes[p := ps.sandboxes], sandboxFaults := faults,
        tasks := tasks, taskOrder := (s.taskOrder - {p})[p := ps.tasks.order], runs := runs,
        runOrder := (s.runOrder - {p})[p := ps.runs.order],
        artifacts := artifacts, artifactOrder := (s.artifactOrder - {p})[p := ps.artifacts.order]);
    }

    // recordSnapshotWithWorkspaceLocked for the memory store.
    method RecordSnapshot(p: Id, snap: Snapshot)
      requires p in state.projects && snap.id == nextId
      modifies this
      ensures state == RecordIn(old(state), p, snap)
      ensures index == old(index).(snapshots := old(index).snapshots[snap.id := snap])
      ensures nextId == old(nextId) + 1 && owner == Grant(old(owner), p, old(nextId), 1) && execs == old(execs)
      ensures home == old(home)
    {
      hide ProjectOf;
      var captured := CaptureProject(p);
      var s := state;
      index := index.(snapshots := index.snapshots[snap.id := snap]);
      state := s.(
        snapshots := s.snapshots[p := Get(s.snapshots, p) + [snap]],
        snapshotState := s.snapshotState[snap.id := captured],
        projectBranch := s.projectBranch[p := snap.body.branch],
        stableBranch := if snap.body.stable then s.stableBranch[p := snap.id] else s.stableBranch);
      owner, nextId := Grant(owner, p, nextId, 1), nextId + 1;
    }

    // rollbackToSnapshotLocked for the directory workspace.
    method RollbackToSnapshot(p: Id, id: Id, reason: string, now: Time) returns (refused: Option<Error>)
      requires Valid() && p in state.projects
      modifies this
      ensures p in old(Now()).live && p in old(Now()).timelines
      ensures Valid() && Reply(Now(), refused) == RollbackTo(old(Now()), p, id, reason, now)
    {
      hide Sound, FlatOk, Indexed, WorldOf, RollbackTo, Grant, StateOk, RestoreIn, RecordIn, RestoredIndex, FindById,
        ListOk, RollbackSnapshot, CountedIn, TouchIn;
      ghost var s, x := state, index;
      RollbackLookup(s, x, execs, owner, home, nextId, p, id, reason, now);
      if id !in index.snapshots || index.snapshots[id].projectId != p {
        return Some(NotFound);
      }
      var source := index.snapshots[id];
      RollbackFacts(s, x, execs, owner, home, nextId, p, source, reason, now);
      var stored := state.snapshotState[id];
      var snap := RollbackSnapshot(state, nextId, p, source, reason, now);
      CountRollback(p);
      RestoreProject(p, stored);
      Touch(p, now);
      RecordSnapshot(p, snap);
      refused := None;
    }

    // RollbackToSnapshot, without its alert and audit entries.
    method Rollback(p: Id, id: Option<Id>, reason: string, now: Time) returns (refused: Option<Error>)
      requires Valid()
      modifies this
      ensures Valid() && Reply(Now(), refused) == Machine.Rollback(old(Now()), p, id, reason, now)
    {
      hide Sound, WorldOf, RollbackTo;
      WorldIs(state, execs, owner, nextId);
      if p !in state.projects {
        return Some(NotFound);
      }
      if id.None? {
        return Some(Invalid);
      }
      var why := if TrimSpace(reason) == "" then MANUAL_ROLLBACK else TrimSpace(reason);
      refused := RollbackToSnapshot(p, id.value, why, now);
    }

    // ----- Capture and restore of the whole state -------------------------------------

    // restorePersistedStateLocked: the state is replaced and every index rebuilt from its lists.
    method Restore(captured: State)
      requires FlatOk(captured, owner, home)
      modifies this`state, this`index
      ensures state == captured && Indexed(captured, index, owner, home)
    {
      hide FlatOk, Indexes, ListOk;
      ListsFit(captured, owner, home);
      var plans := RebuildIndex(captured.plans, owner);
      var contracts := RebuildIndex(captured.contracts, owner);
      var contexts := RebuildIndex(captured.contexts, home);
      var overrides := RebuildIndex(captured.overrides, owner);
      var locks := RebuildIndex(captured.locks, owner);
      var conflicts := RebuildIndex(captured.conflicts, owner);
      var previews := RebuildIndex(captured.previews, owner);
      var sandboxes := RebuildIndex(captured.sandboxes, owner);
      var snapshots := RebuildIndex(captured.snapshots, owner);
      state := captured;
      index := Index(plans, contracts, contexts, overrides, locks, conflicts, previews, sandboxes, snapshots);
    }

    // Capture and restore: nothing changes, indexes included.
    method Recapture()
      requires Valid()
      modifies this`state, this`index
      ensures Valid() && state == old(state) && index == old(index)
    {
      hide FlatOk, Indexed, StatesHomed, Inv;
      var captured := state;
      Restore(captured);
      IndexedUnique(state, index, old(index), owner, home);
    }

    // ----- Runs -----------------------------------------------------------------------

    // startTaskRunLocked.  When the sandbox workspace cannot be made the task stays FAILED.
    method StartTaskRun(p: Id, task: Task, made: bool, reason: string, now: Time)
      returns (run: Option<Id>, refused: Option<Error>)
      requires Valid() && TaskOf(Now(), p, task)
      modifies this
      ensures Valid() && StartSpec(old(Now()), Now(), p, task, made, reason, now, run, refused)
      ensures execs == old(execs) && home == old(home)
      ensures run.Some? ==>
        run.value == old(nextId) + 1 && state == StartedIn(old(state), old(nextId), p, task, true, reason, now)
    {
      hide Sound, WorldOf, Grant, StartSpec, StartedTask, NewBox, NewRun, Ready, StartedIn, TaskOf;
      var s, n := state, nextId;
      StartedStored(s, n, p, task, made, reason, now);
      StartFacts(s, index, execs, owner, home, n, p, task, made, reason, now);
      var ready := EnsureReady(task);
      if !ready {
        return None, Some(Conflict);
      }
      var moved := StartedTask(task, made, reason, now);
      owner, nextId := Grant(owner, p, n, 2), n + 2;
      if !made {
        state := s.(tasks := s.tasks[moved.id := moved]);
        return None, Some(Internal);
      }
      var box, started := NewBox(n, p, task.id, now), NewRun(n, p, task.id, now);
      index := index.(sandboxes := index.sandboxes[n := box]);
      state := s.(
        tasks := s.tasks[moved.id := moved],
        sandboxes := s.sandboxes[p := Get(s.sandboxes, p) + [box]],
        runs := s.runs[started.id := started],
        runOrder := s.runOrder[started.projectId := Get(s.runOrder, started.projectId) + [started.id]]);
      run, refused := Some(n + 1), None;
    }

    // StartRun without a repository: `allowed` is the answer of the budget gate.
    method StartRun(p: Id, taskId: Option<Id>, allowed: bool, made: bool, now: Time) returns (refused: Option<Error>)
      requires Valid()
      modifies this
      ensures Valid() && Reply(Now(), refused) == Machine.StartRun(old(Now()), p, taskId, allowed, made, now)
    {
      hide Sound, WorldOf, ProjectOf, StartSpec, StartedIn, TaskOf, Machine.StartRun;
      ghost var w := Now();
      StartRunCases(state, index, execs, owner, home, nextId, p, taskId, allowed, made, now);
      if p !in state.projects {
        return Some(NotFound);
      }
      var t := ResolveTask(p, taskId);
      if t.Refused? {
        return Some(t.error);
      }
      if !allowed {
        return Some(Conflict);
      }
      var run;
      run, refused := StartTaskRun(p, t.value, made, RUN_STARTED, now);
      StartRunEnds(w, state, index, execs, owner, home, nextId, p, taskId, made, now, run, refused);
      if run.Some? {
        execs := execs[run.value := Executor(p, t.value.id, Spawned)];
      }
    }

    // persistLocked: the whole state is written.
    method Persist(store: Store)
      requires Valid()
      modifies store
      ensures store.tables == TablesOf(state)
    {
      hide Sound, TablesOf, NoRepeats;
      SoundSaves(state, index, execs, owner, home, nextId);
      var problem := store.SaveState(state);
    }

    // Capture, start and commit; a rejected commit puts the captured state back.  From tables that
    // hold the state the commit succeeds, and they hold the new state afterwards.
    method StartAndCommit(store: Store, p: Id, task: Task, ghost taskId: Option<Id>, made: bool, now: Time)
      returns (refused: Option<Error>, ghost committed: bool)
      requires Valid() && Resolved(Now(), p, taskId, task)
      modifies this, store
      ensures Valid()
      ensures StoredSpec(old(Now()), Now(), state == old(state) && index == old(index) && execs == old(execs),
                                    p, taskId, true, made, committed, now, refused)
      ensures old(store.tables) == TablesOf(old(state)) ==> committed && store.tables == TablesOf(state)
    {
      hide Sound, WorldOf, StartSpec, StoredSpec, Resolved, TaskOf, FlatOk, Indexed, TablesOf, StartedTask, NewRun,
        StartRunsTx;
      ghost var w, x, owner0, n0 := Now(), index, owner, nextId;
      ResolvedTask(w, p, taskId, task);
      var original := state;
      StartInStep(original, x, execs, owner, home, n0, p, task, RUN_STARTED, now);
      StartedItem(original, n0, p, task, RUN_STARTED, now);
      var run;
      run, refused := StartTaskRun(p, task, made, RUN_STARTED, now);
      if run.None? {
        StoredNone(w, state, index, execs, owner, home, nextId, p, taskId, task, state == original && index == x, made,
                   true, now, refused);
        Persist(store);
        return refused, true;
      }
      var problem := store.StartRuns([RunStart(state.tasks[task.id], state.runs[run.value],
                                               |Get(state.runOrder, p)| - 1)]);
      if problem.Some? {
        StoredUndone(w, original, x, owner0, n0, state, index, execs, owner, home, nextId, p, taskId, task, made, now,
                     run.value, refused);
        Restore(original);
        IndexedUnique(state, index, x, owner, home);
        return Some(Internal), false;
      }
      StoredDone(w, state, index, execs, owner, home, nextId, p, taskId, task, made, now, run.value, refused);
      Recapture();
      execs := execs[run.value := Executor(p, task.id, Spawned)];
      committed := true;
    }

    // StartRun with a repository.
    method StartRunStored(store: Store, p: Id, taskId: Option<Id>, allowed: bool, made: bool, now: Time)
      returns (refused: Option<Error>, ghost committed: bool)
      requires Valid()
      modifies this, store
      ensures Valid()
      ensures StoredSpec(old(Now()), Now(), state == old(state) && index == old(index) && execs == old(execs),
                                    p, taskId, allowed, made, committed, now, refused)
      ensures old(store.tables) == TablesOf(old(state)) ==> committed && store.tables == TablesOf(state)
    {
      hide Sound, WorldOf, ProjectOf, TaskOf, Machine.StartRun, TablesOf;
      StartRunCases(state, index, execs, owner, home, nextId, p, taskId, allowed, made, now);
      if p !in state.projects {
        return Some(NotFound), true;
      }
      var t := ResolveTask(p, taskId);
      if t.Refused? {
        return Some(t.error), true;
      }
      if !allowed {
        return Some(Conflict), true;
      }
      refused, committed := StartAndCommit(store, p, t.value, taskId, made, now);
    }

    // The captured state with a run completed.
    method CompletedState(p: Id, r: Id, taskId: Id, artifact: Artifact, uri: string, usage: Usage, summary: string,
                          now: Time)
      returns (candidate: State)
      requires Valid() && p in state.projects && artifact.projectId == p
      requires taskId in state.tasks && state.tasks[taskId].id == taskId && r in state.runs && state.runs[r].id == r
      ensures candidate == CompletedIn(state, p, r, taskId, artifact, uri, usage, summary, now)
      ensures taskId in candidate.tasks && candidate.tasks[taskId] == CompletedTask(state.tasks[taskId], uri, now)
      ensures r in candidate.runs && candidate.runs[r] == CompletedRun(state.runs[r], artifact.id, usage, summary, now)
      ensures p in candidate.artifactOrder && |candidate.artifactOrder[p]| == |Get(state.artifactOrder, p)| + 1
    {
      hide Sound, CompletedRun, CompletedTask, SettledBoxes, CompletedIn;
      BoxesFit(state, index, execs, owner, home, nextId, p);
      candidate := state;
      var boxes := SettleBox(Get(candidate.sandboxes, p), candidate.runs[r].body.sandboxId, Released, None, now, p,
                             owner);
      candidate := candidate.(
        artifacts := candidate.artifacts[artifact.id := artifact],
        artifactOrder := candidate.artifactOrder[p := Get(candidate.artifactOrder, p) + [artifact.id]],
        runs := candidate.runs[r := CompletedRun(candidate.runs[r], artifact.id, usage, summary, now)],
        tasks := candidate.tasks[taskId := CompletedTask(candidate.tasks[taskId], uri, now)],
        sandboxes := candidate.sandboxes[p := boxes]);
      CompletedStored(state, p, r, taskId, artifact, uri, usage, summary, now);
    }

    // The last section of executeRun, for a run that has ended well: the changes are made on a
    // captured state, which is committed if there is a repository, and then restored.  A rejected
    // commit leaves the state as it was; from tables that hold the state there is none.
    method CompleteRun(store: Store?, r: Id, p: Id, taskId: Id, uri: string, usage: Usage, summary: string,
                       now: Time) returns (ghost committed: bool)
      requires Valid() && At(Now(), r, Armed) && execs[r].projectId == p && execs[r].taskId == taskId
      modifies this, store
      ensures Valid() && (committed ==> Now() == Complete(old(Now()), r, uri, usage, summary, now))
      ensures !committed ==> store != null && state == old(state) && index == old(index)
      ensures store != null && old(store.tables) == TablesOf(old(state)) ==>
        committed && store.tables == TablesOf(state)
    {
      hide Sound, WorldOf, Complete, FlatOk, CompletedRun, CompletedTask, SettledBoxes, Indexed, TablesOf,
        CompleteRunTx, CompletedIn;
      committed := true;
      WorldFields(state, execs, owner, nextId);
      var n := nextId;
      if taskId !in state.tasks || r !in state.runs {
        CompleteLate(state, index, execs, owner, home, n, r, uri, usage, summary, now);
        owner, nextId, execs := Grant(owner, p, n, 1), n + 1, execs - {r};
        return;
      }
      var artifact := Record(n, p, ArtifactBody(taskId, r, uri, now));
      CompleteFacts(state, index, execs, owner, home, n, r, artifact, uri, usage, summary, now);
      CompleteInStep(state, index, execs, owner, home, n, p, r, taskId, artifact, uri, usage, summary, now);
      var candidate := CompletedState(p, r, taskId, artifact, uri, usage, summary, now);
      CompletedHomed(state, index, execs, owner, home, n);
      SoundLate(state, index, execs, owner, home, n, p, 1, r);
      owner, nextId, execs := Grant(owner, p, n, 1), n + 1, execs - {r};
      if store != null {
        var problem := store.CompleteRun(candidate.tasks[taskId], candidate.runs[r], artifact,
                                         |candidate.artifactOrder[p]| - 1);
        if problem.Some? {
          return false;
        }
      }
      Restore(candidate);
      MakeSound(state, index, execs, owner, home, nextId);
    }

    // failRun, in the same way.
    method FailRun(store: Store?, r: Id, failure: string, usage: Usage, now: Time) returns (ghost committed: bool)
      requires Valid() && At(Now(), r, Failing(failure))
      modifies this, store
      ensures Valid() && (committed ==> Now() == Fail(old(Now()), r, usage, now))
      ensures !committed ==> store != null && state == old(state) && index == old(index)
      ensures store != null && old(store.tables) == TablesOf(old(state)) ==>
        committed && store.tables == TablesOf(state)
    {
      hide Sound, WorldOf, Fail, FlatOk, CrashedRun, FailedTask, SettledBoxes, Indexed, FailedIn, TablesOf, FailRunTx;
      committed := true;
      WorldFields(state, execs, owner, nextId);
      if r !in state.runs {
        FailLate(state, index, execs, owner, home, nextId, r, failure, usage, now);
        execs := execs - {r};
        return;
      }
      var candidate := state;
      FailFacts(state, index, execs, owner, home, nextId, r, failure, usage, now);
      var run := candidate.runs[r];
      var p, t := run.projectId, run.body.taskId;
      FailInStep(state, index, execs, owner, home, nextId, p, r, t, failure, usage, now);
      BoxesFit(state, index, execs, owner, home, nextId, p);
      var boxes := SettleBox(Get(candidate.sandboxes, p), run.body.sandboxId, Broken, Some(failure), now, p, owner);
      var tasks := if t in candidate.tasks && Busy(candidate.tasks[t].body.status)
        then candidate.tasks[t := FailedTask(candidate.tasks[t], now)] else candidate.tasks;
      candidate := candidate.(runs := candidate.runs[r := CrashedRun(run, failure, usage, now)], tasks := tasks,
                              sandboxes := candidate.sandboxes[p := boxes]);
      FailedStored(state, p, r, t, failure, usage, now);
      CompletedHomed(state, index, execs, owner, home, nextId);
      SoundDrops(state, index, execs, owner, home, nextId, r);
      execs := execs - {r};
      if store != null {
        var problem := store.FailRun(if t in tasks then Some(tasks[t]) else None, candidate.runs[r]);
        if problem.Some? {
          return false;
        }
      }
      Restore(candidate);
      MakeSound(state, index, execs, owner, home, nextId);
    }

    // applyPendingHumanOverrideLocked; the executor goes on to the agent, or to failRun.
    method Checkpoint(r: Id, now: Time)
      requires Valid() && At(Now(), r, Checked)
      modifies this
      ensures Valid() && Now() == Machine.Checkpoint(old(Now()), r, now)
    {
      hide Sound, WorldOf, Machine.Checkpoint, TakenIn, TakenTask, LatestPending;
      WorldFields(state, execs, owner, nextId);
      CheckpointFacts(state, index, execs, owner, home, nextId, r, now);
      if r !in state.runs {
        execs := execs[r := execs[r].(phase := Failing(NO_RUN))];
        return;
      }
      var p, t := state.runs[r].projectId, state.runs[r].body.taskId;
      var k := FindPendingOverride(p, t, now);
      if k.Some? {
        TakenStored(state, p, state.tasks[t], k.value, now);
        var list := Get(state.overrides, p);
        var taken := list[k.value].(body := list[k.value].body.(appliedAt := Some(now)));
        index := index.(overrides := index.overrides[taken.id := taken]);
        state := state.(overrides := state.overrides[p := list[k.value := taken]],
                        tasks := state.tasks[t := TakenTask(state.tasks[t], now)]);
      }
      execs := execs[r := execs[r].(phase := Armed)];
    }

    // The start loop of StartParallelRun: it stops at the first task that cannot be started.
    method StartBatch(p: Id, selected: seq<Id>, unmade: set<Id>, now: Time)
      returns (started: seq<Id>, refused: Option<Error>, ghost tried: nat)
      requires Valid() && p in state.projects && Distinct(selected)
      requires forall x | x in selected ::
                 && x in Project(p).tasks.items && Project(p).tasks.items[x].id == x
                 && Ready(Project(p).tasks.items, Project(p).tasks.items[x].body)
      modifies this
      ensures Valid() && tried <= |selected| && execs == old(execs) && home == old(home)
      ensures refused.None? ==> BatchSpec(old(Now()), Now(), p, selected, unmade, now, started)
      ensures refused.None? ==> BatchFiled(old(state), state, p, selected, started)
      ensures refused.Some? ==>
        refused == Some(Internal) && BrokenSpec(old(Now()), Now(), p, selected[..tried], unmade, now)
    {
      hide Sound, WorldOf, ProjectOf, StartSpec, StartedIn, PARALLEL_STARTED, BatchSpec, BrokenSpec, TaskOf, ProjectOk,
        Ready, BatchFiled;
      ghost var w := Now();
      WorldLive(state, execs, owner, nextId, p);
      BatchStart(w, p, unmade, now);
      NoStartsFiled(state, p);
      started := [];
      for i := 0 to |selected|
        invariant Valid() && BatchSpec(w, Now(), p, selected[..i], unmade, now, started) && execs == old(execs)
        invariant home == old(home) && BatchFiled(old(state), state, p, selected[..i], started)
      {
        BatchNext(w, Now(), p, selected, i, unmade, now, started);
        TaskStored(state, index, execs, owner, home, nextId, p, w.live[p].tasks.items[selected[i]]);
        ghost var v := Now();
        var task := state.tasks[selected[i]];
        OneMoreFiled(old(state), state, index, execs, owner, home, nextId, p, selected[..i], started, task,
                     PARALLEL_STARTED, now);
        var run;
        run, refused := StartTaskRun(p, task, selected[i] !in unmade, PARALLEL_STARTED, now);
        BatchStep(w, v, Now(), p, selected[..i], selected[i], task, unmade, now, started, run, refused);
        assert selected[..i+1] == selected[..i] + [selected[i]];
        if run.None? {
          StartedFresh(v, Now(), p, task, selected[i] !in unmade, now, run, refused);
          return started, refused, i + 1;
        }
        started := started + [run.value];
      }
      assert selected[..|selected|] == selected;
      refused, tried := None, |selected|;
    }

    // StartParallelRun without a repository.  When a sandbox cannot be made in the middle of the
    // batch it returns at once: the tasks started before keep RUNNING runs without executors.
    method StartParallelRun(p: Id, ids: seq<Option<Id>>, allowed: bool, unmade: set<Id>,
                            now: Time) returns (refused: Option<Error>)
      requires Valid()
      modifies this
      ensures Valid() && Reply(Now(), refused) == Machine.StartParallel(old(Now()), p, ids, allowed, unmade, now)
    {
      hide Sound, WorldOf, ProjectOf, StartSpec, StartedIn, PARALLEL_STARTED, BatchSpec, BrokenSpec, TaskOf,
        Machine.StartParallel, Pick, ProjectOk, Ready, Spawn, BatchFiled;
      ghost var w := Now();
      ParallelCases(state, index, execs, owner, home, nextId, p, ids, allowed, unmade, now);
      if |ids| > MAX_PARALLEL_TASKS {
        return Some(Invalid);
      }
      if p !in state.projects {
        return Some(NotFound);
      }
      var picked := PickParallel(p, ids);
      if picked.Refused? {
        return Some(picked.error);
      }
      if !allowed {
        return Some(Conflict);
      }
      var selected := picked.value.selected;
      PickedReady(Project(p), p, ids);
      var started;
      ghost var tried;
      started, refused, tried := StartBatch(p, selected, unmade, now);
      if refused.Some? {
        ParallelBroken(w, Now(), p, ids, tried, unmade, now);
        return;
      }
      ParallelDone(w, state, index, execs, owner, home, nextId, p, ids, unmade, now, started);
      execs := Spawn(execs, Project(p), p, started);
      refused := None;
    }

    // Capture, start the batch and commit it; a rejected commit puts the captured state back, and
    // its ids are free again.  A batch that stops in the middle is not committed.
    method BatchAndCommit(store: Store, p: Id, ghost ids: seq<Option<Id>>, selected: seq<Id>, unmade: set<Id>,
                          now: Time)
      returns (refused: Option<Error>, ghost committed: bool)
      requires Valid() && p in state.projects && |ids| <= MAX_PARALLEL_TASKS
      requires Pick(Project(p), ids).Ok? && selected == Pick(Project(p), ids).value.selected
      modifies this, store
      ensures Valid()
      ensures committed ==> Reply(Now(), refused) == Machine.StartParallel(old(Now()), p, ids, true, unmade, now)
      ensures !committed ==> refused.Some? && Now() == old(Now()) && index == old(index)
      ensures refused.Some? ==> store.tables == old(store.tables)
      ensures old(store.tables) == TablesOf(old(state)) ==>
        committed && (refused.None? ==> store.tables == TablesOf(state))
    {
      hide Sound, WorldOf, ProjectOf, PARALLEL_STARTED, BatchSpec, BrokenSpec, Machine.StartParallel, Pick, ProjectOk,
        Ready, Spawn, BatchFiled, TablesOf, Inv, Distinct;
      ghost var w, x, owner0 := Now(), index, owner;
      BatchWorld(state, index, execs, owner, home, nextId, p);
      PickedReady(Project(p), p, ids);
      var original, n0 := state, nextId;
      var started;
      ghost var tried;
      started, refused, tried := StartBatch(p, selected, unmade, now);
      if refused.Some? {
        ParallelBroken(w, Now(), p, ids, tried, unmade, now);
        return refused, true;
      }
      RunPlaced(state, index, execs, owner, home, nextId, p);
      var problem := CommitBatch(store, original, p, selected, started);
      if problem.Some? {
        owner, nextId := owner0, n0;
        Adopt(original, x);
        return Some(Rejection(problem.value)), false;
      }
      Recapture();
      ParallelDone(w, state, index, execs, owner, home, nextId, p, ids, unmade, now, started);
      execs := Spawn(execs, Project(p), p, started);
      refused, committed := None, true;
    }

    // The started tasks and runs, and the places of the runs, in one transaction.
    method CommitBatch(store: Store, ghost original: State, p: Id, selected: seq<Id>, started: seq<Id>)
      returns (problem: Option<Problem>)
      requires BatchFiled(original, state, p, selected, started) && Distinct(Get(state.runOrder, p))
      modifies store
      ensures problem.Some? ==> store.tables == old(store.tables)
      ensures old(store.tables) == TablesOf(original) ==> problem.None? && store.tables == TablesOf(state)
    {
      hide TablesOf, StartRunsTx, Starts;
      var items := BatchItems(state, p, selected, started, |Get(original.runOrder, p)|);
      problem := store.StartRuns(items);
    }

    // StartParallelRun with a repository.
    method StartParallelRunStored(store: Store, p: Id, ids: seq<Option<Id>>, allowed: bool, unmade: set<Id>,
                                  now: Time)
      returns (refused: Option<Error>, ghost committed: bool)
      requires Valid()
      modifies this, store
      ensures Valid()
      ensures committed ==> Reply(Now(), refused) == Machine.StartParallel(old(Now()), p, ids, allowed, unmade, now)
      ensures !committed ==> refused.Some? && Now() == old(Now()) && index == old(index)
      ensures refused.Some? ==> store.tables == old(store.tables)
      ensures old(store.tables) == TablesOf(old(state)) ==>
        committed && (refused.None? ==> store.tables == TablesOf(state))
    {
      hide Sound, WorldOf, ProjectOf, Machine.StartParallel, Pick, ProjectOk, TablesOf;
      ParallelCases(state, index, execs, owner, home, nextId, p, ids, allowed, unmade, now);
      if |ids| > MAX_PARALLEL_TASKS {
        return Some(Invalid), true;
      }
      if p !in state.projects {
        return Some(NotFound), true;
      }
      var picked := PickParallel(p, ids);
      if picked.Refused? {
        return Some(picked.error), true;
      }
      if !allowed {
        return Some(Conflict), true;
      }
      refused, committed := BatchAndCommit(store, p, ids, picked.value.selected, unmade, now);
    }

    // With a repository the changes are made on a captured state, committed and then restored.
    method GeneratePlan(store: Store?, p: Id, now: Time) returns (refused: Option<Error>, ghost committed: bool)
      requires Valid()
      modifies this, store
      ensures Valid() && (committed ==> Reply(Now(), refused) == Machine.GeneratePlan(old(Now()), p, now))
      ensures !committed ==> store != null && refused.Some? && state == old(state) && index == old(index)
      ensures store != null && old(store.tables) == TablesOf(old(state)) ==>
        committed && store.tables == TablesOf(state)
    {
      hide Sound, WorldOf, Machine.GeneratePlan, Grant, TablesOf, GeneratePlanTx, NewTask, FlatOk, Indexed;
      committed := true;
      PlanRefused(state, execs, owner, nextId, p, now);
      if p !in state.projects {
        return Some(NotFound), true;
      }
      var requirements := Get(state.requirements, p);
      if requirements == [] {
        return Some(Invalid), true;
      }
      var s, n := state, nextId;
      var latest := requirements[|requirements|-1];
      var plan := Record(n, p, PlanBody(latest.id, |Get(s.plans, p)| + 1, latest.body.title, now));
      var task := NewTask(n + 1, p, plan.id, "Implement " + latest.body.title, Sprint1, DEFAULT_AGENT, [],
                          PlanRef(plan.id), now);
      PlanFacts(s, index, execs, owner, home, n, p, plan, task, now);
      PlanInStep(s, index, execs, owner, home, n, p, plan, task, now);
      SoundClaims(s, index, execs, owner, home, n, p, 2);
      owner, nextId, refused := Grant(owner, p, n, 2), n + 2, None;
      var candidate := s.(
        plans := s.plans[p := Get(s.plans, p) + [plan]],
        tasks := s.tasks[task.id := task],
        taskOrder := s.taskOrder[p := Get(s.taskOrder, p) + [task.id]],
        projects := s.projects[p := s.projects[p].(updatedAt := now)]);
      if store == null {
        index := index.(plans := index.plans[plan.id := plan]);
        state := candidate;
        return;
      }
      var problem := store.GeneratePlan(candidate.projects[p], plan, task, |candidate.taskOrder[p]| - 1);
      if problem.Some? {
        return Some(if problem.value == ProjectMissing then NotFound else Internal), false;
      }
      ghost var x := index.(plans := index.plans[plan.id := plan]);
      SoundIndexed(candidate, x, execs, owner, home, nextId);
      Restore(candidate);
      IndexedUnique(state, index, x, owner, home);
    }

    // What a commit has taken is restored: the state is replaced and the indexes are rebuilt.
    method Adopt(candidate: State, ghost y: Index)
      requires Sound(candidate, y, execs, owner, home, nextId)
      modifies this`state, this`index
      ensures state == candidate && index == y
    {
      hide Sound, FlatOk, Indexed;
      SoundIndexed(candidate, y, execs, owner, home, nextId);
      Restore(candidate);
      IndexedUnique(state, index, y, owner, home);
    }

    // The error for a rejected commit.
    static function Rejection(problem: Problem): Error {
      if problem == ProjectMissing then NotFound else Internal
    }

    // A rejected commit leaves its id free.
    method CreateProject(store: Store?, name: string, description: string, now: Time)
      returns (refused: Option<Error>, ghost committed: bool)
      requires Valid()
      modifies this, store
      ensures Valid()
      ensures committed ==> Reply(Now(), refused) == Machine.CreateProject(old(Now()), name, description, now)
      ensures !committed ==> store != null && refused.Some? && Now() == old(Now())
      ensures store != null && old(store.tables) == TablesOf(old(state)) ==>
        committed && store.tables == TablesOf(state)
    {
      hide Sound, WorldOf, TrimSpace, Machine.CreateProject, Grant, TablesOf, CreateProjectTx;
      CreateCases(state, index, execs, owner, home, nextId, name, description, now);
      committed := true;
      var (title, text) := (TrimSpace(name), TrimSpace(description));
      if title == "" || |title| > MAX_PROJECT_NAME || |text| > MAX_PROJECT_DESCRIPTION {
        return Some(Invalid), true;
      }
      var s, project := state, Domain.Project(nextId, title, text, now, now);
      ProjectInStep(s, index, execs, owner, home, nextId, project);
      var candidate := s.(projects := s.projects[project.id := project],
                          projectBranch := s.projectBranch[project.id := "main"]);
      if store != null {
        var problem := store.CreateProject(project);
        if problem.Some? {
          return Some(Rejection(problem.value)), false;
        }
      }
      owner, nextId := Grant(owner, nextId, nextId, 1), nextId + 1;
      if store == null {
        state := candidate;
      } else {
        Adopt(candidate, index);
      }
      refused := None;
    }

    method AddRequirement(store: Store?, p: Id, title: string, content: string, now: Time)
      returns (refused: Option<Error>, ghost committed: bool)
      requires Valid()
      modifies this, store
      ensures Valid()
      ensures committed ==> Reply(Now(), refused) == Machine.AddRequirement(old(Now()), p, title, content, now)
      ensures !committed ==> store != null && refused.Some? && Now() == old(Now())
      ensures store != null && old(store.tables) == TablesOf(old(state)) ==>
        committed && store.tables == TablesOf(state)
    {
      hide Sound, WorldOf, TrimSpace, Machine.AddRequirement, Projects.AddRequirement, Put, Claim, ProjectOf, Grant,
        TablesOf, AddRequirementTx;
      RequirementCases(state, execs, owner, nextId, p, title, content, now);
      committed := true;
      var (heading, text) := (TrimSpace(title), TrimSpace(content));
      if heading == "" || text == "" || |heading| > MAX_REQUIREMENT_TITLE || |text| > MAX_REQUIREMENT_CONTENT {
        return Some(Invalid), true;
      }
      if p !in state.projects {
        return Some(NotFound), true;
      }
      var s, requirement := state, Record(nextId, p, RequirementBody(heading, text, now));
      RequirementDone(s, index, execs, owner, home, nextId, p, title, content, now);
      RequirementInStep(s, index, execs, owner, home, nextId, p, requirement, now);
      ProjectItself(s, index, execs, owner, home, nextId, p);
      var candidate := s.(requirements := s.requirements[p := Get(s.requirements, p) + [requirement]],
                          projects := s.projects[p := s.projects[p].(updatedAt := now)]);
      if store != null {
        var problem := store.AddRequirement(candidate.projects[p], requirement, |candidate.requirements[p]| - 1);
        if problem.Some? {
          return Some(Rejection(problem.value)), false;
        }
      }
      owner, nextId := Grant(owner, p, nextId, 1), nextId + 1;
      if store == null {
        state := candidate;
      } else {
        Adopt(candidate, index);
      }
      refused := None;
    }

    method GenerateContract(store: Store?, p: Id, now: Time) returns (refused: Option<Error>, ghost committed: bool)
      requires Valid()
      modifies this, store
      ensures Valid()
      ensures committed ==> Reply(Now(), refused) == Machine.GenerateContract(old(Now()), p, now)
      ensures !committed ==> store != null && refused.Some? && Now() == old(Now())
      ensures store != null && old(store.tables) == TablesOf(old(state)) ==>
        committed && store.tables == TablesOf(state)
    {
      hide Sound, WorldOf, Machine.GenerateContract, AddContract, CV.BuildContract, Put, Claim, ProjectOf, FindById,
        Grant, TablesOf, GenerateContractTx;
      ContractCases(state, execs, owner, nextId, p, now);
      committed := true;
      if p !in state.projects {
        return Some(NotFound), true;
      }
      var plans := Get(state.plans, p);
      if |plans| == 0 {
        return Some(Invalid), true;
      }
      var plan := plans[|plans|-1];
      var requirement := FindRecord(Get(state.requirements, p), plan.body.requirementId);
      if requirement.None? {
        return Some(NotFound), true;
      }
      ContractFacts(state, index, execs, owner, home, nextId, p, plan, requirement.value, now);
      var s, contract := state,
          CV.BuildContract(nextId, p, requirement.value, plan, |Get(state.contracts, p)| + 1, now);
      BuiltIds(nextId, p, requirement.value, plan, |Get(s.contracts, p)| + 1, now);
      ContractInStep(s, index, execs, owner, home, nextId, p, contract, now);
      ProjectItself(s, index, execs, owner, home, nextId, p);
      var candidate := s.(contracts := s.contracts[p := Get(s.contracts, p) + [contract]],
                          projects := s.projects[p := s.projects[p].(updatedAt := now)]);
      if store != null {
        var problem := store.GenerateContract(candidate.projects[p], contract);
        if problem.Some? {
          return Some(Rejection(problem.value)), false;
        }
      }
      owner, nextId := Grant(owner, p, nextId, 1), nextId + 1;
      if store == null {
        index := index.(contracts := index.contracts[contract.id := contract]);
        state := candidate;
      } else {
        Adopt(candidate, index.(contracts := index.contracts[contract.id := contract]));
      }
      refused := None;
    }

    // resolveContractLocked.
    method FindContract(p: Id, contractId: Option<Id>) returns (r: Outcome<Contract>)
      requires Valid() && p in state.projects
      ensures r == ResolveContract(Project(p), contractId)
    {
      hide Sound, ProjectOf, FindById;
      PlansAre(state, p);
      if contractId.Some? {
        var id: Id := contractId.value;
        ContractKnown(state, index, execs, owner, home, nextId, p, id);
        if id !in index.contracts || index.contracts[id].projectId != p {
          return Refused(NotFound);
        }
        return Ok(index.contracts[id]);
      }
      var order := Get(state.contracts, p);
      if |order| == 0 {
        return Refused(Invalid);
      }
      r := Ok(order[|order|-1]);
    }

    // resolveTaskContractLocked.
    method FindTaskContract(p: Id, task: Task) returns (r: Outcome<Contract>)
      requires Valid() && p in state.projects
      ensures r == TaskContract(Project(p), task.body)
    {
      hide Sound, ProjectOf, FindById;
      PlansAre(state, p);
      if task.body.inputRef.ContractRef? {
        var id: Id := task.body.inputRef.id;
        ContractKnown(state, index, execs, owner, home, nextId, p, id);
        if id in index.contracts && index.contracts[id].projectId == p {
          return Ok(index.contracts[id]);
        }
      }
      var order := Get(state.contracts, p);
      if |order| == 0 {
        return Refused(NotFound);
      }
      r := Ok(order[|order|-1]);
    }

    // The lookups of GenerateTaskContext and the context made of them.  The plan is always there.
    method BuildContext(p: Id, task: Task, now: Time) returns (r: Outcome<Context>)
      requires Valid() && p in state.projects && FiledTask(state, p, task)
      ensures r == ContextFor(Project(p), p, task, nextId, now)
    {
      hide Inv, Indexed, StatesHomed, FlatOk, WorldOf, ProjectOf, FindById, TaskContract;
      PlanKnown(state, index, execs, owner, home, nextId, p, task);
      PlansAre(state, p);
      HistoryOf(state, owner, home, p, task.id);
      var plan := index.plans[task.body.planId];
      var contract := FindTaskContract(p, task);
      if contract.Refused? {
        return Refused(contract.error);
      }
      var requirement := FindRecord(Get(state.requirements, p), plan.body.requirementId);
      if requirement.None? {
        return Refused(NotFound);
      }
      var version := |Get(state.contexts, task.id)| + 1;
      r := Ok(Record(nextId, p, ContextBody(task.id, version, plan.id, contract.value.id, requirement.value.id, now)));
    }

    method GenerateTaskContext(p: Id, taskId: Option<Id>, now: Time) returns (refused: Option<Error>)
      requires Valid()
      modifies this
      ensures Valid() && Reply(Now(), refused) == Machine.GenerateTaskContext(old(Now()), p, taskId, now)
    {
      hide Sound, WorldOf, Machine.GenerateTaskContext, AddContext, ContextFor, Put, Claim, ProjectOf,
        Projects.ResolveTask, Grant;
      ContextCases(state, index, execs, owner, home, nextId, p, taskId, now);
      WorldFields(state, execs, owner, nextId);
      if p !in state.projects {
        return Some(NotFound);
      }
      var task := ResolveTask(p, taskId);
      if task.Refused? {
        return Some(task.error);
      }
      var context := BuildContext(p, task.value, now);
      if context.Refused? {
        return Some(context.error);
      }
      var c := context.value;
      ContextFacts(state, index, execs, owner, home, nextId, p, taskId, c, now);
      owner, nextId, home := Grant(owner, p, nextId, 1), nextId + 1, home[c.id := c.body.taskId];
      index := index.(contexts := index.contexts[c.id := c]);
      state := state.(contexts := state.contexts[c.body.taskId := Get(state.contexts, c.body.taskId) + [c]]);
      refused := None;
    }

    // ----- Tasks ----------------------------------------------------------------------

    // Append a task to the project's order.
    method File(task: Task)
      modifies this`state
      ensures state == WithTask(old(state), task)
    {
      var p := task.projectId;
      state := state.(tasks := state.tasks[task.id := task],
                      taskOrder := state.taskOrder[p := Get(state.taskOrder, p) + [task.id]]);
    }

    // New tasks, filed one by one at the end of the project's order, and the project touched; with
    // a repository they are committed first.
    method FileTasks(store: Store?, p: Id, tasks: seq<Task>, now: Time)
      returns (refused: Option<Error>, ghost committed: bool)
      requires Valid() && p in state.projects
      requires forall i | 0 <= i < |tasks| :: tasks[i].projectId == p && tasks[i].id == nextId + i
      requires Sound(TouchIn(WithTasks(state, tasks), p, now), index, execs, Grant(owner, p, nextId, |tasks|), home,
                     nextId + |tasks|)
      modifies this, store
      ensures execs == old(execs) && home == old(home) && index == old(index)
      ensures committed ==> refused == None && nextId == old(nextId) + |tasks|
      ensures committed ==> owner == Grant(old(owner), p, old(nextId), |tasks|)
      ensures committed ==> state == TouchIn(WithTasks(old(state), tasks), p, now)
      ensures !committed ==> store != null && refused.Some? && state == old(state)
      ensures !committed ==> owner == old(owner) && nextId == old(nextId)
      ensures store != null && old(store.tables) == TablesOf(old(state)) ==>
        committed && store.tables == TablesOf(state)
    {
      hide Sound, WithTasks, TablesOf, SaveTasksTx, Grant, NextTasks, TouchIn;
      committed := true;
      var s, n := state, nextId;
      ProjectItself(s, index, execs, owner, home, n, p);
      var candidate, positions := Filing(s, p, n, tasks, now);
      TouchedProject(WithTasks(s, tasks), p, now);
      TasksInStep(s, index, execs, owner, home, n, p, tasks, positions, now);
      if store != null {
        var problem := store.SaveTasks(candidate.projects[p], tasks, positions);
        if problem.Some? {
          return Some(Rejection(problem.value)), false;
        }
      }
      owner, nextId := Grant(owner, p, n, |tasks|), n + |tasks|;
      if store == null {
        state := candidate;
      } else {
        Adopt(candidate, index);
      }
      refused := None;
    }

    // findDispatchedTasksLocked.
    method FindDispatched(p: Id, planId: Id, contractId: Id) returns (r: seq<Id>)
      ensures r == Dispatched(Get(state.taskOrder, p), state.tasks, planId, contractId)
    {
      var order := Get(state.taskOrder, p);
      r := [];
      for i := 0 to |order|
        invariant r == Dispatched(order[..i], state.tasks, planId, contractId)
      {
        assert order[..i+1][..i] == order[..i];
        var x := order[i];
        if x !in state.tasks || state.tasks[x].body.planId != planId
          || state.tasks[x].body.inputRef != ContractRef(contractId) {
          continue;
        }
        match state.tasks[x].body.kind
        case Backend | Frontend | Integration => r := r + [x];
        case _ =>
      }
      assert order[..|order|] == order;
    }

    method DispatchTasks(store: Store?, p: Id, now: Time) returns (refused: Option<Error>, ghost committed: bool)
      requires Valid()
      modifies this, store
      ensures Valid()
      ensures committed ==> Reply(Now(), refused) == Machine.DispatchTasks(old(Now()), p, now)
      ensures !committed ==> store != null && refused.Some? && Now() == old(Now())
      ensures store != null && old(store.tables) == TablesOf(old(state)) ==>
        committed && store.tables == TablesOf(state)
    {
      hide Sound, WorldOf, Machine.DispatchTasks, Dispatched, Dispatch, Put, Claim, ProjectOf, NewTask, Grant, WithTask,
        TouchIn, TablesOf;
      DispatchCases(state, index, execs, owner, home, nextId, p, now);
      committed := true;
      if p !in state.projects {
        return Some(NotFound), true;
      }
      var plans, contracts := Get(state.plans, p), Get(state.contracts, p);
      if |plans| == 0 || |contracts| == 0 {
        return Some(Invalid), true;
      }
      var plan, contract := plans[|plans|-1], contracts[|contracts|-1];
      var existing := FindDispatched(p, plan.id, contract.id);
      DispatchedSame(state, index, execs, owner, home, nextId, p, plan.id, contract.id);
      if |existing| > 0 {
        return None, true;
      }
      refused, committed := FileDispatch(store, p, plan, contract, now);
    }

    // The three tasks of a dispatch.
    method FileDispatch(store: Store?, p: Id, plan: Plan, contract: Contract, now: Time)
      returns (refused: Option<Error>, ghost committed: bool)
      requires Valid() && p in state.projects && Get(state.plans, p) != [] && Get(state.contracts, p) != []
      requires plan == Get(state.plans, p)[|Get(state.plans, p)|-1]
      requires contract == Get(state.contracts, p)[|Get(state.contracts, p)|-1]
      requires Dispatched(Get(state.taskOrder, p), state.tasks, plan.id, contract.id) == []
      modifies this, store
      ensures Valid()
      ensures committed ==> Reply(Now(), refused) == Machine.DispatchTasks(old(Now()), p, now)
      ensures !committed ==> store != null && refused.Some? && Now() == old(Now())
      ensures store != null && old(store.tables) == TablesOf(old(state)) ==>
        committed && store.tables == TablesOf(state)
    {
      hide Sound, WorldOf, Machine.DispatchTasks, Dispatched, NewTask, Grant, WithTask, TouchIn, TablesOf;
      var n, title, input := nextId, plan.body.title, ContractRef(contract.id);
      var backend := NewTask(n, p, plan.id, "Build backend implementation for " + title, Backend, "go-backend-agent",
                             [], input, now);
      var frontend := NewTask(n + 1, p, plan.id, "Build frontend implementation for " + title, Frontend,
                              "vue-frontend-agent", [], input, now);
      var review := NewTask(n + 2, p, plan.id, "Merge and verify " + title, Integration, "integration-agent",
                            [n, n + 1], input, now);
      DispatchFacts(state, index, execs, owner, home, n, p, plan, contract, backend, frontend, review, now);
      ThreeFiled(state, n, p, plan, contract, backend, frontend, review, now);
      refused, committed := FileTasks(store, p, [backend, frontend, review], now);
    }

    method ValidateContract(store: Store?, p: Id, contractId: Option<Id>, endpoints: seq<Endpoint>,
                            schemas: seq<Schema>, now: Time)
      returns (refused: Option<Error>, ghost committed: bool)
      requires Valid()
      modifies this, store
      ensures Valid()
      ensures committed ==>
        Reply(Now(), refused) == Machine.ValidateContract(old(Now()), p, contractId, endpoints, schemas, now)
      ensures !committed ==> store != null && refused.Some? && Now() == old(Now())
      ensures store != null && old(store.tables) == TablesOf(old(state)) ==>
        committed && store.tables == TablesOf(state)
    {
      hide Sound, WorldOf, Machine.ValidateContract, ResolveContract, CV.Report, Put, Claim, ProjectOf, AddTask,
        ReworkTask, NewTask, Grant, TablesOf, WithTask;
      ValidateCases(state, execs, owner, nextId, p, contractId, endpoints, schemas, now);
      committed := true;
      if p !in state.projects {
        return Some(NotFound), true;
      }
      var contract := FindContract(p, contractId);
      if contract.Refused? {
        return Some(contract.error), true;
      }
      if |endpoints| == 0 && |schemas| == 0 {
        return Some(Invalid), true;
      }
      var findings := CV.Validate(contract.value.body, endpoints, schemas);
      if |findings| == 0 {
        return None, true;
      }
      ValidateFacts(state, index, execs, owner, home, nextId, p, contractId, contract.value, endpoints, schemas, now);
      ReworkHere(state, index, execs, owner, home, nextId, p, contract.value, nextId, now);
      var task := GateTask(p, contract.value, nextId, now);
      GateTaskId(p, contract.value, nextId, now);
      OneFiled(state, task);
      refused, committed := FileTasks(store, p, [task], now);
    }

    method RetryTask(store: Store?, p: Id, taskId: Option<Id>, now: Time)
      returns (refused: Option<Error>, ghost committed: bool)
      requires Valid()
      modifies this, store
      ensures Valid()
      ensures committed ==> Reply(Now(), refused) == Machine.RetryTask(old(Now()), p, taskId, now)
      ensures !committed ==> store != null && refused.Some? && Now() == old(Now())
      ensures store != null && old(store.tables) == TablesOf(old(state)) ==>
        committed && store.tables == TablesOf(state)
    {
      hide Sound, WorldOf, Machine.RetryTask, Projects.ResolveTask, Put, Claim, ProjectOf, AddTask, Grant, TablesOf,
        WithTask, AuditOk;
      RetryCases(state, index, execs, owner, home, nextId, p, taskId, now);
      committed := true;
      if p !in state.projects {
        return Some(NotFound), true;
      }
      var task := ResolveTask(p, taskId);
      if task.Refused? {
        return Some(task.error), true;
      }
      var t := task.value;
      if t.body.status != Failed {
        return Some(Conflict), true;
      }
      RetryFacts(state, index, execs, owner, home, nextId, p, taskId, t, now);
      var retry := NewTask(nextId, t.projectId, t.body.planId, t.body.name + " (retry)", t.body.kind, t.body.assignee,
                           t.body.dependsOn, t.body.inputRef, now);
      OneFiled(state, retry);
      refused, committed := FileTasks(store, p, [retry], now);
    }

    // MarkTaskSandboxFailure.
    method MarkFault(p: Id, taskId: Option<Id>, reason: string) returns (refused: Option<Error>)
      requires Valid()
      modifies this
      ensures Valid() && Reply(Now(), refused) == Machine.MarkFault(old(Now()), p, taskId, reason)
    {
      hide Sound, WorldOf, Machine.MarkFault, Projects.ResolveTask, TrimSpace, ProjectOf;
      MarkCases(state, execs, owner, nextId, p, taskId, reason);
      if p !in state.projects {
        return Some(NotFound);
      }
      var task := ResolveTask(p, taskId);
      if task.Refused? {
        return Some(task.error);
      }
      var why := TrimSpace(reason);
      if why == "" {
        why := SIMULATED_FAULT;
      }
      FaultsSound(state, index, execs, owner, home, nextId, state.sandboxFaults[task.value.id := why]);
      state := state.(sandboxFaults := state.sandboxFaults[task.value.id := why]);
      refused := None;
    }

    // ----- Leases ---------------------------------------------------------------------

    // enqueueConflictLocked.
    method EnqueueConflict(entry: QueueEntry)
      modifies this`state, this`index
      ensures state == WithConflict(old(state), entry.projectId, entry) && state.projects == old(state).projects
      ensures index == old(index).(conflicts := old(index).conflicts[entry.id := entry])
    {
      var p := entry.projectId;
      index := index.(conflicts := index.conflicts[entry.id := entry]);
      state := state.(conflicts := state.conflicts[p := Get(state.conflicts, p) + [entry]]);
    }

    // The end of ApplyHumanOverride: the conflict is queued, or the override recorded and the task
    // handed over.
    method AdmitOverride(p: Id, t: Task, o: Override, now: Time, ghost r: Reply) returns (refused: Option<Error>)
      requires Valid() && p in state.projects && FiledTask(state, p, t) && Busy(t.body.status) && o.id == nextId
      requires o.body.taskId == t.id
      requires Inv(r.world) && r == AdmitOverrideHere(state, execs, owner, nextId, p, t, o, now)
      modifies this
      ensures Valid() && Reply(Now(), refused) == r
    {
      hide Sound, Inv, WorldOf, AdmitOverrideHere, ProjectOf, MovedOrSame, FirstClash, OverrideLeases, ScopeName,
        OverrideOwner, Grant, WithConflict, TouchIn;
      var clash := FindOverrideClash(p, t.id, o.body.lockScope, o.body.owner, now);
      if clash.Some? {
        var holder := Get(state.overrides, p)[clash.value];
        OverrideQueued(state, index, execs, owner, home, nextId, p, t, o, clash.value, now, r);
        var entry := Record(nextId, p,
                            QueueBody(ScopeName(o.body.lockScope), holder.id, o.body.owner, OverrideOwner(holder.body),
                                      true, now));
        owner, nextId := Grant(owner, p, nextId, 1), nextId + 1;
        EnqueueConflict(entry);
        Touch(p, now);
        return Some(Conflict);
      }
      OverrideRecorded(state, index, execs, owner, home, nextId, p, t, o, now, r);
      var moved := t;
      if t.body.status == InProgress {
        moved := t.(body := MovedOrSame(t.body, HumanOverride, OVERRIDE_REQUESTED + o.body.operator, now));
      }
      StaysWithHuman(t, o, now);
      owner, nextId := Grant(owner, p, nextId, 1), nextId + 1;
      index := index.(overrides := index.overrides[o.id := o]);
      state := state.(tasks := state.tasks[moved.id := moved],
                      overrides := state.overrides[p := Get(state.overrides, p) + [o]]);
      Touch(p, now);
      refused := None;
    }

    method ApplyHumanOverride(p: Id, i: OverrideInput, now: Time) returns (refused: Option<Error>)
      requires Valid()
      modifies this
      ensures Valid() && Reply(Now(), refused) == Machine.ApplyHumanOverride(old(Now()), p, i, now)
    {
      hide Sound, Inv, WorldOf, Machine.ApplyHumanOverride, Machine.AdmitOverride, Projects.ResolveTask,
        OverrideInputOk, OverrideMetaOk, OverrideOf, ProjectOf;
      OverrideCases(state, index, execs, owner, home, nextId, p, i, now);
      SoundInv(state, index, execs, owner, home, nextId);
      ApplyHumanOverrideStep(Now(), p, i, now);
      if p !in state.projects {
        return Some(NotFound);
      }
      var task := ResolveTask(p, i.taskId);
      if task.Refused? {
        return Some(task.error);
      }
      var t := task.value;
      if !OverrideInputOk(i) {
        return Some(Invalid);
      }
      if !Busy(t.body.status) {
        return Some(Conflict);
      }
      if !OverrideMetaOk(i) {
        return Some(Invalid);
      }
      var o := OverrideOf(nextId, p, t.id, i, now);
      OverrideId(nextId, p, t.id, i, now);
      refused := AdmitOverride(p, t, o, now, Machine.ApplyHumanOverride(Now(), p, i, now));
    }

    // The end of ApplyCodeLock: the conflict is queued or the lock registered.
    method AdmitLock(p: Id, lock: CodeLock, now: Time, ghost r: Reply) returns (refused: Option<Error>)
      requires Valid() && p in state.projects && lock.id == nextId
      requires Inv(r.world) && r == AdmitLockHere(state, execs, owner, nextId, p, lock, now)
      modifies this
      ensures Valid() && Reply(Now(), refused) == r
    {
      hide Sound, Inv, WorldOf, AdmitLockHere, ProjectOf, FirstClash, LockLeases, LockKey, LockOwner, Grant,
        WithConflict, TouchIn;
      var clash := FindLockClash(p, lock.body, now);
      if clash.Some? {
        var holder := Get(state.locks, p)[clash.value];
        LockQueued(state, index, execs, owner, home, nextId, p, lock, clash.value, now, r);
        var entry := Record(nextId + 1, p,
                            QueueBody(LockKey(lock.body), holder.id, LockOwner(lock.body), LockOwner(holder.body), true,
                                      now));
        owner, nextId := Grant(owner, p, nextId, 2), nextId + 2;
        EnqueueConflict(entry);
        Touch(p, now);
        return Some(Conflict);
      }
      LockRegistered(state, index, execs, owner, home, nextId, p, lock, now, r);
      owner, nextId := Grant(owner, p, nextId, 1), nextId + 1;
      index := index.(locks := index.locks[lock.id := lock]);
      state := state.(locks := state.locks[p := Get(state.locks, p) + [lock]]);
      Touch(p, now);
      refused := None;
    }

    method ApplyCodeLock(p: Id, i: LockInput, now: Time) returns (refused: Option<Error>)
      requires Valid()
      modifies this
      ensures Valid() && Reply(Now(), refused) == Machine.ApplyCodeLock(old(Now()), p, i, now)
    {
      hide Sound, Inv, WorldOf, Machine.ApplyCodeLock, Machine.AdmitLock, Projects.ResolveTask, LockInputOk, LockOf,
        ProjectOf;
      LockCases(state, execs, owner, nextId, p, i, now);
      SoundInv(state, index, execs, owner, home, nextId);
      ApplyCodeLockStep(Now(), p, i, now);
      if p !in state.projects {
        return Some(NotFound);
      }
      if !LockInputOk(i) {
        return Some(Invalid);
      }
      if i.taskId.Some? {
        var task := ResolveTask(p, i.taskId);
        if task.Refused? {
          return Some(NotFound);
        }
      }
      if i.ttl < 0 {
        return Some(Invalid);
      }
      var lock := LockOf(nextId, p, i, now);
      LockId(nextId, p, i, now);
      refused := AdmitLock(p, lock, now, Machine.ApplyCodeLock(Now(), p, i, now));
    }

    // ----- Previews -------------------------------------------------------------------

    // resolveLatestReleasedSharedSandboxLocked.
    method FindShared(p: Id) returns (r: Option<Sandbox>)
      ensures r == LatestShared(Get(state.sandboxes, p))
    {
      var boxes := Get(state.sandboxes, p);
      var i := |boxes|;
      assert boxes[..i] == boxes;
      while i > 0
        invariant 0 <= i <= |boxes|
        invariant LatestShared(boxes) == LatestShared(boxes[..i])
      {
        assert boxes[..i][..i-1] == boxes[..i-1];
        i := i - 1;
        if boxes[i].body.scope == Shared && boxes[i].body.status == Released {
          return Some(boxes[i]);
        }
      }
      r := None;
    }

    method StartPreview(p: Id, now: Time) returns (refused: Option<Error>)
      requires Valid()
      modifies this
      ensures Valid() && Reply(Now(), refused) == Machine.StartPreview(old(Now()), p, now)
    {
      hide Sound, WorldOf, Machine.StartPreview, LatestShared, Put, Claim, ProjectOf, WithRest, Grant;
      PreviewCases(state, execs, owner, nextId, p, now);
      if p !in state.projects {
        return Some(NotFound);
      }
      var box := FindShared(p);
      if box.None? {
        return Some(Conflict);
      }
      PreviewFacts(state, index, execs, owner, home, nextId, p, box.value, now);
      var preview := PreviewOf(nextId, p, box.value, now);
      owner, nextId := Grant(owner, p, nextId, 1), nextId + 1;
      index := index.(previews := index.previews[preview.id := preview]);
      state := state.(previews := state.previews[p := Get(state.previews, p) + [preview]]);
      Touch(p, now);
      refused := None;
    }

    // ----- Executors ------------------------------------------------------------------

    // snapshotForExecution.
    method Prepare(r: Id)
      requires Valid() && At(Now(), r, Spawned)
      modifies this
      ensures Valid() && Now() == Machine.Prepare(old(Now()), r)
    {
      hide Sound, WorldOf, Machine.Prepare, PreparedIn;
      WorldFields(state, execs, owner, nextId);
      PrepareFacts(state, index, execs, owner, home, nextId, r);
      execs := execs[r := PreparedIn(state, index, execs[r], r)];
    }

    // sandboxFailureForTask for the executor's task: a fault is reported once.
    method CheckFault(r: Id, taskId: Id)
      requires Valid() && At(Now(), r, Prepared) && execs[r].taskId == taskId
      modifies this
      ensures Valid() && Now() == Machine.CheckFault(old(Now()), r)
    {
      hide Sound, WorldOf, Machine.CheckFault, TrimSpace;
      WorldFields(state, execs, owner, nextId);
      CheckFaultFacts(state, index, execs, owner, home, nextId, r);
      var failure := "";
      if taskId in state.sandboxFaults {
        failure := TrimSpace(state.sandboxFaults[taskId]);
      }
      if failure == "" {
        execs := execs[r := execs[r].(phase := Checked)];
        return;
      }
      state := state.(sandboxFaults := state.sandboxFaults - {taskId});
      execs := execs[r := execs[r].(phase := Failing(failure))];
    }

    // The agent, the bundle or the workspace failed outside the mutex.
    method Break(r: Id, failure: string)
      requires Valid() && At(Now(), r, Armed)
      modifies this
      ensures Valid() && Now() == Machine.Break(old(Now()), r, failure)
    {
      hide Sound, WorldOf, Machine.Break;
      WorldFields(state, execs, owner, nextId);
      BreakFacts(state, index, execs, owner, home, nextId, r, failure);
      execs := execs[r := execs[r].(phase := Failing(failure))];
    }

    // ----- Merging --------------------------------------------------------------------

    // A shared sandbox has been opened: s, x, o and n are the state, the indexes, the owners and the
    // next id from before.
    ghost predicate Opened(s: State, x: Index, o: map<Id, Id>, n: Id, p: Id, box: Sandbox, now: Time)
      reads this
    {
      && Sound(s, x, execs, o, home, n) && p in s.projects && p in WithSandbox(s, p, box).projects
      && box.id == n && box.projectId == p && box.body.scope == Shared
      && state == TouchIn(WithSandbox(s, p, box), p, now) && index == x.(sandboxes := x.sandboxes[n := box])
      && p in state.projects && nextId == n + 1 && owner == Grant(o, p, n, 1)
    }

    // createSharedSandboxLocked, for a workspace that could be made, and the touch after it.
    method OpenShared(p: Id, box: Sandbox, now: Time)
      requires Valid() && p in state.projects && box.id == nextId && box.projectId == p && box.body.scope == Shared
      modifies this
      ensures Opened(old(state), old(index), old(owner), old(nextId), p, box, now) && execs == old(execs)
      ensures home == old(home)
    {
      hide Sound, WorldOf, ProjectOf, TouchIn, Grant;
      WorldIs(state, execs, owner, nextId);
      index := index.(sandboxes := index.sandboxes[box.id := box]);
      state := state.(sandboxes := state.sandboxes[p := Get(state.sandboxes, p) + [box]]);
      owner, nextId := Grant(owner, p, nextId, 1), nextId + 1;
      Touch(p, now);
    }

    // The new sandbox, last of its list, in its final state.
    method CloseShared(p: Id, box: Sandbox, status: SandboxStatus, failure: string, later: Time)
      requires var boxes := Get(state.sandboxes, p);
        boxes != [] && boxes[|boxes|-1] == box && forall i | 0 <= i < |boxes| - 1 :: boxes[i].id != box.id
      modifies this`state, this`index
      ensures var closed := ClosedBox(box, status, failure, later);
        && state == PutSandboxIn(old(state), p, closed) && state.projects == old(state).projects
        && index == old(index).(sandboxes := old(index).sandboxes[box.id := closed])
    {
      var boxes := Get(state.sandboxes, p);
      var closed := box.(body := box.body.(status := status, failure := failure, updatedAt := later));
      assert PutInList(boxes, closed) == boxes[|boxes|-1 := closed];
      index := index.(sandboxes := index.sandboxes[box.id := closed]);
      state := state.(sandboxes := state.sandboxes[p := boxes[|boxes|-1 := closed]]);
    }

    // The contract that MergeToSharedSandbox checks against.
    method FindMergeContract(p: Id, i: MergeInput) returns (r: Outcome<Option<Contract>>)
      requires Valid() && p in state.projects
      ensures r == MergeContract(Project(p), i)
    {
      hide Sound, ProjectOf, ResolveContract;
      PlansAre(state, p);
      if i.contractId.Some? || |i.endpoints| > 0 || |i.schemas| > 0 {
        var contract := FindContract(p, i.contractId);
        if contract.Refused? {
          return Refused(contract.error);
        }
        return Ok(Some(contract.value));
      }
      var contracts := Get(state.contracts, p);
      r := Ok(if |contracts| > 0 then Some(contracts[|contracts|-1]) else None);
    }

    method EndShared(p: Id, box: Sandbox, status: SandboxStatus, failure: string, now: Time, later: Time,
                     ghost s: State, ghost x: Index, ghost o: map<Id, Id>)
      requires Opened(s, x, o, box.id, p, box, now)
      modifies this
      ensures Valid() && p in state.projects && p in s.projects
      ensures Now() == SharedMadeHere(s, old(execs), o, box.id, p, box, status, failure, now, later)
    {
      hide Sound, WorldOf, SharedMadeHere, TouchIn, WithSandbox, PutSandboxIn, Grant;
      BoxLast(s, x, execs, o, home, box.id, p, box, now);
      CloseShared(p, box, status, failure, later);
      SharedSound(s, x, execs, o, home, box.id, p, box, status, failure, now, later);
      BoxTwice(x.sandboxes, box.id, box, ClosedBox(box, status, failure, later));
    }

    method EndBlocked(p: Id, box: Sandbox, c: Contract, now: Time, later: Time, ghost s: State, ghost x: Index,
                      ghost o: map<Id, Id>)
      requires Opened(s, x, o, box.id, p, box, now) && c in Get(s.contracts, p)
      modifies this
      ensures Valid() && p in s.projects
      ensures Now() == GateBlockedHere(s, old(execs), o, box.id, p, box, c, now, later)
    {
      hide Sound, WorldOf, ProjectOf, GateBlockedHere, TouchIn, WithSandbox, PutSandboxIn, WithTask, Grant, GateTask;
      BoxLast(s, x, execs, o, home, box.id, p, box, now);
      CloseShared(p, box, Broken, GATE_FAILURE, later);
      BlockedSound(s, x, execs, o, home, box.id, p, box, c, now, later);
      BoxTwice(x.sandboxes, box.id, box, ClosedBox(box, Broken, GATE_FAILURE, later));
      GrantNext(o, p, box.id);
      GateTaskHome(p, c, nextId, later);
      var task := GateTask(p, c, nextId, later);
      owner, nextId := Grant(owner, p, nextId, 1), nextId + 1;
      File(task);
    }

    // The integration of a merge, as the caller wants it to end.
    method Integrate(p: Id, simulateFailure: bool, box: Sandbox, now: Time, later: Time, ghost s: State, ghost x: Index,
                     ghost o: map<Id, Id>)
      requires Opened(s, x, o, box.id, p, box, now)
      modifies this
      ensures Valid() && p in s.projects
      ensures Now() == if simulateFailure
                       then MergeUndone(SharedMadeHere(s, old(execs), o, box.id, p, box, Broken, SIMULATED_FAILURE, now,
                                                       later), p, later)
                       else MergeRecorded(SharedMadeHere(s, old(execs), o, box.id, p, box, Released, "", now, later), p,
                                          later)
    {
      hide Sound, WorldOf, SharedMadeHere, MergeUndone, MergeRecorded, Opened, SIMULATED_FAILURE;
      if simulateFailure {
        EndShared(p, box, Broken, SIMULATED_FAILURE, now, later, s, x, o);
        Undo(p, later);
      } else {
        EndShared(p, box, Released, "", now, later, s, x, o);
        RecordMerge(p, later);
      }
    }

    // The body of MergeToSharedSandbox once the sandbox can be made.
    method MergeInto(p: Id, i: MergeInput, box: Sandbox, contract: Option<Contract>, now: Time, later: Time)
      requires Valid() && p in state.projects && box.id == nextId && box.projectId == p && box.body.scope == Shared
      requires contract.Some? ==> contract.value in Get(state.contracts, p)
      modifies this
      ensures p in old(Now()).live && p in old(Now()).timelines
      ensures Valid() && Now() == MergeGate(old(Now()), p, i, box, contract, now, later)
    {
      hide Sound, WorldOf, ProjectOf, MergeGate, GateBlocked, SharedMade, MergeUndone, MergeRecorded, CV.Report, Opened,
        GATE_FAILURE, MANIFEST_FAILURE, SIMULATED_FAILURE;
      ghost var s, x, o := state, index, owner;
      WorldIs(s, execs, o, nextId);
      MergeGateIs(Now(), p, i, box, contract, now, later);
      OpenShared(p, box, now);
      if contract.Some? && (|i.endpoints| > 0 || |i.schemas| > 0) {
        var findings := CV.Validate(contract.value.body, i.endpoints, i.schemas);
        if |findings| > 0 {
          EndBlocked(p, box, contract.value, now, later, s, x, o);
          return;
        }
      }
      if !i.manifest {
        EndShared(p, box, Broken, MANIFEST_FAILURE, now, later, s, x, o);
      } else {
        Integrate(p, i.simulateFailure, box, now, later, s, x, o);
      }
    }

    // A failed integration: back to the latest stable snapshot.  That this cannot be done is
    // only reported.
    method Undo(p: Id, later: Time)
      requires Valid() && p in state.projects
      modifies this
      ensures Valid() && Now() == MergeUndone(old(Now()), p, later)
    {
      hide Sound, WorldOf, ProjectOf, MergeUndone, RollbackTo;
      MergeUndoneIs(state, execs, owner, nextId, p, later);
      if p in state.stableBranch {
        var refused := RollbackToSnapshot(p, state.stableBranch[p], INTEGRATION_FAILURE, later);
      }
    }

    method RecordMerge(p: Id, later: Time)
      requires Valid() && p in state.projects
      modifies this
      ensures Valid() && Now() == MergeRecorded(old(Now()), p, later)
    {
      hide Sound, WorldOf, ProjectOf, MergeRecorded, RecordIn, Grant, MergeSnapshot;
      MergeSnapshotSound(state, index, execs, owner, home, nextId, p, later);
      RecordSnapshot(p, MergeSnapshot(state, nextId, p, later));
    }

    // MergeToSharedSandbox for the directory workspace.
    method Merge(p: Id, i: MergeInput, now: Time, later: Time) returns (refused: Option<Error>)
      requires Valid()
      modifies this
      ensures Valid() && Reply(Now(), refused) == Machine.Merge(old(Now()), p, i, now, later)
    {
      hide Sound, WorldOf, ProjectOf, Machine.Merge, PickMerge, MergeContract, MergeGate;
      MergeCases(state, execs, owner, nextId, p, i, now, later);
      if p !in state.projects {
        return Some(NotFound);
      }
      if |i.ids| == 0 {
        return Some(Invalid);
      }
      var picked := PickForMerge(p, i.ids);
      if picked.Refused? {
        return Some(picked.error);
      }
      var contract := FindMergeContract(p, i);
      if contract.Refused? {
        return Some(contract.error);
      }
      if !i.made {
        return Some(Internal);
      }
      MergeContractListed(Project(p), i);
      PlansAre(state, p);
      var tasks := picked.value.tasks;
      MergeBoxIs(state, execs, owner, nextId, p, tasks, now);
      var box := Record(nextId, p,
                        SandboxBody(Shared, None,
                                    if |tasks| == 0 then None else Some(tasks[|tasks|-1]), Active, "", now, now));
      MergeInto(p, i, box, contract.value, now, later);
      refused := None;
    }
  }
}
