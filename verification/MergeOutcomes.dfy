// What rolling back, merging and previewing bring about, said about the records before and after.
module MergeOutcomes {
  import opened Records
  import opened Domain
  import opened Text
  import opened Projects
  import opened ProjectProofs
  import opened Leases
  import opened Machine
  import opened MachineProofs
  import opened Theorems
  import opened Outcomes
  import CV = ContractValidation

  // ----- Rolling back -------------------------------------------------------------------

  // One more snapshot at the end; a stable one becomes the stable one.
  ghost predicate Snapped(before: Timeline, after: Timeline, snap: Snapshot) {
    && after.snapshots == before.snapshots + [snap] && after.branch == snap.body.branch
    && after.stable == (if snap.body.stable then Some(snap.id) else before.stable)
  }

  // The snapshot a rollback to `source` makes, on a branch named after the source's and the rollback.
  ghost predicate MadeBy(snap: Snapshot, source: Snapshot, n: Id, p: Id, number: nat, reason: string, now: Time) {
    snap == Record(n, p, SnapshotBody(source.body.branch + "-rollback-" + Decimal(number), Some(source.id), reason,
                                      source.body.stable, now))
  }

  // The faults of the project's tasks are gone, and no others.
  ghost predicate FaultsGone(before: map<Id, string>, after: map<Id, string>, tasks: map<Id, Task>) {
    && (forall t :: t in after <==> t in before && t !in tasks)
    && (forall t | t in after :: after[t] == before[t])
  }

  // The project is what the source stores without its contexts, which the new snapshot n stores in
  // turn; its overrides and faults are gone.  Nothing else has changed.
  ghost predicate BackTo(w: World, v: World, p: Id, source: Snapshot, n: Id, reason: string, now: Time) {
    && p in w.live && p in w.timelines && source.id in w.states && p in v.live && p in v.timelines
    && v.live[p] == w.states[source.id].(contexts := map[],
                                         project := w.states[source.id].project.(updatedAt := now))
    && v.timelines[p].branchSeq == w.timelines[p].branchSeq + 1 && v.timelines[p].snapshots != []
    && var snap := v.timelines[p].snapshots[|v.timelines[p].snapshots|-1];
    && MadeBy(snap, source, n, p, v.timelines[p].branchSeq, reason, now)
    && Snapped(w.timelines[p], v.timelines[p], snap) && FaultsGone(w.faults, v.faults, w.live[p].tasks.items)
    && v == w.(live := w.live[p := v.live[p]], timelines := w.timelines[p := v.timelines[p]],
               states := w.states[n := v.live[p]], overrides := w.overrides - {p}, faults := v.faults,
               owner := v.owner, nextId := n + 1)
  }

  lemma BranchOfSnapshot(tl: Timeline, p: Id, owner: map<Id, Id>, states: map<Id, ProjectState>, s: Snapshot)
    requires TimelineOk(tl, p, owner, states) && s in tl.snapshots
    ensures FindById(tl.snapshots, s.id) == Some(s) && s.id in states
    ensures s.body.branch != "" && TrimSpace(s.body.branch) == s.body.branch
  {
    hide LinkOk, LastStable, FindById;
    var i :| 0 <= i < |tl.snapshots| && tl.snapshots[i] == s;
    assert BranchOk(s.body.branch, tl.branchSeq);
    assert s.id in Ids(tl.snapshots);
    FindByIdIn(tl.snapshots, s.id);
    var t := FindById(tl.snapshots, s.id).value;
    var j :| 0 <= j < |tl.snapshots| && tl.snapshots[j] == t;
    assert i == j;
  }

  lemma FaultsAre(before: map<Id, string>, order: seq<Id>, tasks: map<Id, Task>)
    requires forall t :: t in tasks <==> t in order
    ensures FaultsGone(before, before - Elements(order), tasks)
  {
  }

  lemma OrderIsTasks(ps: ProjectState, p: Id)
    requires ProjectOk(ps, p)
    ensures forall t :: t in ps.tasks.items <==> t in ps.tasks.order
  {
    assert SliceOk(ps.tasks, p);
  }

  // A name that starts and ends with something else than white space is kept as it is.
  lemma RollbackBranchIs(tl: Timeline, s: Snapshot)
    requires s.body.branch != "" && TrimSpace(s.body.branch) == s.body.branch
    ensures RollbackBranch(tl, s.body.branch) == s.body.branch + "-rollback-" + Decimal(tl.branchSeq + 1)
    ensures TrimSpace(RollbackBranch(tl, s.body.branch)) != ""
  {
    RollbackBranchNamed(tl, s.body.branch);
    hide TrimSpace, Decimal;
  }

  lemma BackToIs(w: World, p: Id, s: Snapshot, reason: string, now: Time)
    requires p in w.live && p in w.timelines && FindById(w.timelines[p].snapshots, s.id) == Some(s)
    requires s.id in w.states && (forall t :: t in w.live[p].tasks.items <==> t in w.live[p].tasks.order)
    requires s.body.branch != "" && TrimSpace(s.body.branch) == s.body.branch && TrimSpace(reason) == reason
    ensures RollbackTo(w, p, s.id, reason, now).refused == None
    ensures BackTo(w, RollbackTo(w, p, s.id, reason, now).world, p, s, w.nextId, reason, now)
  {
    hide FindById, TrimSpace, RollbackBranch, Decimal, Claim, FaultsGone, Elements, Restored, AddSnapshot;
    var tl := w.timelines[p];
    RollbackBranchIs(tl, s);
    FaultsAre(w.faults, w.live[p].tasks.order, w.live[p].tasks.items);
    var branch := RollbackBranch(tl, s.body.branch);
    var w1 := RestoreProject(w.(timelines := w.timelines[p := tl.(branchSeq := tl.branchSeq + 1)]), p, w.states[s.id],
                             now);
    var snap := Record(w1.nextId, p, SnapshotBody(branch, Some(s.id), reason, s.body.stable, now));
    AddedIs(w1, p, snap);
    RestoredIs(w.states[s.id], now);
    assert RollbackTo(w, p, s.id, reason, now).world == AddSnapshot(w1, p, snap);
  }

  lemma AddedIs(w: World, p: Id, snap: Snapshot)
    requires p in w.live && p in w.timelines
    ensures AddSnapshot(w, p, snap)
      == w.(timelines := w.timelines[p := Recorded(w.timelines[p], snap)], states := w.states[snap.id := w.live[p]],
            owner := Claim(w, p, 1).owner, nextId := w.nextId + 1)
  {
  }

  lemma RestoredIs(state: ProjectState, now: Time)
    ensures Restored(state, now) == state.(contexts := map[], project := state.project.(updatedAt := now))
  {
  }

  // A rollback to a snapshot of the project takes the project back to it; for any other id it
  // changes nothing.
  lemma RollbackDoes(w: World, p: Id, id: Id, reason: string, now: Time)
    requires Inv(w) && p in w.live
    ensures p in w.timelines && var r := Rollback(w, p, Some(id), reason, now);
      var why := if Blank(reason) then "manual snapshot rollback" else TrimSpace(reason);
      && (forall s | s in w.timelines[p].snapshots && s.id == id ::
            r.refused == None && BackTo(w, r.world, p, s, w.nextId, why, now))
      && ((forall s | s in w.timelines[p].snapshots :: s.id != id) ==> r == Reply(w, Some(NotFound)))
  {
    hide Inv, ProjectOk, TimelineOk, RollbackTo, BackTo, TrimSpace, Blank, FindById;
    TimelineThere(w, p);
    TimelineOf(w, p);
    MachineProofs.LiveOk(w, p);
    OrderIsTasks(w.live[p], p);
    TrimSpaceBlank(reason);
    TrimSpaceIdempotent(reason);
    ManualEdges();
    var tl := w.timelines[p];
    var why := if Blank(reason) then "manual snapshot rollback" else TrimSpace(reason);
    forall s | s in tl.snapshots && s.id == id
      ensures Rollback(w, p, Some(id), reason, now).refused == None
      ensures BackTo(w, Rollback(w, p, Some(id), reason, now).world, p, s, w.nextId, why, now)
    {
      BranchOfSnapshot(tl, p, w.owner, w.states, s);
      BackToIs(w, p, s, why, now);
    }
    FindByIdIn(tl.snapshots, id);
    if FindById(tl.snapshots, id).None? {
      NotStored(w, p, id, why, now);
    }
  }

  lemma ManualEdges()
    ensures MANUAL_ROLLBACK == "manual snapshot rollback" && TrimSpace(MANUAL_ROLLBACK) == MANUAL_ROLLBACK
  {
    EdgesStay(MANUAL_ROLLBACK);
  }

  lemma NotStored(w: World, p: Id, id: Id, reason: string, now: Time)
    requires p in w.live && p in w.timelines && FindById(w.timelines[p].snapshots, id).None?
    ensures RollbackTo(w, p, id, reason, now) == Reply(w, Some(NotFound))
  {
  }

  // ----- What a merge is about ----------------------------------------------------------

  // Task x is the last that the request asks for and has not asked for before.
  ghost predicate LastAsked(ps: ProjectState, ids: seq<Option<Id>>, x: Id) {
    exists i :: 0 <= i < |ids| && Asks(ps, ids[i], x) && !Requested(ps, ids[..i], x) && NoneNew(ps, ids, i + 1)
  }

  // From entry i on the request asks for nothing new.
  ghost predicate NoneNew(ps: ProjectState, ids: seq<Option<Id>>, i: int)
    requires 0 <= i
  {
    forall j | i <= j < |ids| :: forall y | Asks(ps, ids[j], y) :: Requested(ps, ids[..j], y)
  }

  lemma LastAskedNew(ps: ProjectState, front: seq<Option<Id>>, last: Option<Id>, x: Id)
    requires Asks(ps, last, x) && !Requested(ps, front, x)
    ensures LastAsked(ps, front + [last], x)
  {
    hide Asks, Requested;
    var ids, i := front + [last], |front|;
    assert ids[..i] == front && ids[i] == last && NoneNew(ps, ids, i + 1);
  }

  lemma LastAskedStays(ps: ProjectState, front: seq<Option<Id>>, last: Option<Id>, x: Id)
    requires LastAsked(ps, front, x) && forall y | Asks(ps, last, y) :: Requested(ps, front, y)
    ensures LastAsked(ps, front + [last], x)
  {
    hide Asks, Requested;
    var ids := front + [last];
    var i :| 0 <= i < |front| && Asks(ps, front[i], x) && !Requested(ps, front[..i], x) && NoneNew(ps, front, i + 1);
    assert ids[i] == front[i] && ids[..i] == front[..i];
    forall j, y | i + 1 <= j < |ids| && Asks(ps, ids[j], y) ensures Requested(ps, ids[..j], y) {
      assert ids[..j] == front[..j];
      if j == |front| {
        assert front[..j] == front;
      } else {
        assert ids[j] == front[j];
      }
    }
  }

  lemma {:induction false} LastPicked(ps: ProjectState, p: Id, ids: seq<Option<Id>>)
    requires ProjectOk(ps, p) && ids != [] && PickMerge(ps, ids).Ok?
    ensures PickMerge(ps, ids).value.tasks != []
    ensures LastAsked(ps, ids, PickMerge(ps, ids).value.tasks[|PickMerge(ps, ids).value.tasks|-1])
  {
    hide ProjectOk, LatestArtifact, ResolveTask, Requested, Asks, Mergeable, Gathered, LastAsked;
    var front, last := ids[..|ids|-1], ids[|ids|-1];
    assert ids == front + [last];
    MergeSelection(ps, p, front);
    OneAsked(ps, last, p);
    TaskResolved(ps, last, p);
    var t := ResolveTask(ps, last).value;
    if t.id in PickMerge(ps, front).value.tasks {
      LastPicked(ps, p, front);
      LastAskedStays(ps, front, last, PickMerge(ps, front).value.tasks[|PickMerge(ps, front).value.tasks|-1]);
    } else {
      LastAskedNew(ps, front, last, t.id);
    }
  }

  // The contract a merge is checked against: the one it names, or else the newest.  A merge that
  // names none but brings endpoints or schemas needs one.
  ghost predicate Against(ps: ProjectState, i: MergeInput, c: Option<Contract>) {
    match i.contractId
    case Some(x) => c.Some? && c.value in ps.contracts && c.value.id == x
    case None =>
      if ps.contracts == [] then c == None && i.endpoints == [] && i.schemas == []
      else c == Some(ps.contracts[|ps.contracts|-1])
  }

  lemma AgainstIs(ps: ProjectState, i: MergeInput, p: Id)
    requires Filed(ps.contracts, p)
    ensures forall c :: Against(ps, i, c) <==> MergeContract(ps, i) == Ok(c)
  {
    hide FindById;
    match i.contractId {
      case None =>
      case Some(x) =>
        FindByIdIn(ps.contracts, x);
        if FindById(ps.contracts, x).Some? {
          forall c | c in ps.contracts && c.id == x ensures FindById(ps.contracts, x) == Some(c) {
            OneFiled(ps.contracts, p, c, FindById(ps.contracts, x).value);
          }
        } else {
          forall c | c in ps.contracts ensures c.id in Ids(ps.contracts) {
            var k :| 0 <= k < |ps.contracts| && ps.contracts[k] == c;
          }
        }
    }
  }

  lemma OneFiled<B>(s: seq<Record<B>>, p: Id, a: Record<B>, b: Record<B>)
    requires Filed(s, p) && a in s && b in s && a.id == b.id
    ensures a == b
  {
    var i :| 0 <= i < |s| && s[i] == a;
    var j :| 0 <= j < |s| && s[j] == b;
  }

  // The gate blocks a merge that brings endpoints or schemas in which something differs.
  ghost predicate Blocked(i: MergeInput, c: Option<Contract>) {
    && c.Some? && (i.endpoints != [] || i.schemas != [])
    && exists f :: CV.EndpointDue(c.value.body.endpoints, i.endpoints, f) || CV.SchemaDue(c.value.body.schemas,
        i.schemas, f)
  }

  lemma BlockedIs(i: MergeInput, c: Option<Contract>)
    ensures Blocked(i, c) <==> GateBlocks(i, c)
  {
    if c.Some? {
      ReportedSome(c.value.body, i.endpoints, i.schemas);
      hide CV.Report, CV.EndpointDue, CV.SchemaDue;
    }
  }

  lemma ReportedSome(c: ContractBody, endpoints: seq<Endpoint>, schemas: seq<Schema>)
    ensures CV.Report(c, endpoints, schemas) != [] <==>
      exists f :: CV.EndpointDue(c.endpoints, endpoints, f) || CV.SchemaDue(c.schemas, schemas, f)
  {
    hide CV.Report, CV.EndpointDue, CV.SchemaDue;
    forall f ensures f in CV.Report(c, endpoints, schemas) <==>
                     CV.EndpointDue(c.endpoints, endpoints, f) || CV.SchemaDue(c.schemas, schemas, f)
    {
      CV.ReportExact(c, endpoints, schemas, f);
    }
    if CV.Report(c, endpoints, schemas) != [] {
      assert CV.Report(c, endpoints, schemas)[0] in CV.Report(c, endpoints, schemas);
    }
  }

  // ----- How a merge ends ---------------------------------------------------------------

  ghost predicate SharedOf(box: Sandbox, n: Id, p: Id, x: Id, status: SandboxStatus, failure: string, now: Time,
                           later: Time) {
    box == Record(n, p, SandboxBody(Shared, None, Some(x), status, failure, now, later))
  }

  // One more sandbox, and the project touched.
  ghost predicate BoxJoins(ps: ProjectState, qs: ProjectState, box: Sandbox, now: Time) {
    qs == ps.(sandboxes := ps.sandboxes + [box], project := ps.project.(updatedAt := now), tasks := qs.tasks)
  }

  // One more task: to resolve the conflicts with the contract.
  ghost predicate ReworkJoins(ps: ProjectState, qs: ProjectState, p: Id, n: Id, c: Contract, now: Time) {
    && n in qs.tasks.items && qs.tasks.items[n].id == n && Untouched(qs.tasks.items[n], p, now)
    && qs.tasks == Slice(ps.tasks.items[n := qs.tasks.items[n]], ps.tasks.order + [n])
    && var t := qs.tasks.items[n].body;
    && t.planId == c.body.planId && t.name == "Resolve contract conflicts for v" + Decimal(c.body.version)
    && t.kind == Rework && t.assignee == DEFAULT_AGENT && t.dependsOn == [] && t.inputRef == ContractRef(c.id)
  }

  // Nothing but project p, by a sandbox in its final state.
  ghost predicate BoxOnly(w: World, v: World, p: Id, x: Id, status: SandboxStatus, failure: string, now: Time,
                          later: Time) {
    && p in w.live && p in v.live && v.live[p].sandboxes != []
    && var box := v.live[p].sandboxes[|v.live[p].sandboxes|-1];
    && SharedOf(box, w.nextId, p, x, status, failure, now, later) && BoxJoins(w.live[p], v.live[p], box, now)
    && v == w.(live := w.live[p := v.live[p]], owner := v.owner, nextId := v.nextId)
  }

  // A released shared sandbox, and a stable snapshot built from the last one that stores the project
  // as it now is.
  ghost predicate Integrated(w: World, v: World, p: Id, x: Id, now: Time, later: Time) {
    && p in w.live && p in v.live && p in w.timelines && p in v.timelines && v.live[p].sandboxes != []
    && var box := v.live[p].sandboxes[|v.live[p].sandboxes|-1]; var tl := w.timelines[p];
    && SharedOf(box, w.nextId, p, x, Released, "", now, later) && BoxJoins(w.live[p], v.live[p], box, now)
    && v.live[p].tasks == w.live[p].tasks
    && Snapped(tl, v.timelines[p],
               Record(w.nextId + 1, p,
                      SnapshotBody(tl.branch, if tl.snapshots == [] then None
                                   else Some(tl.snapshots[|tl.snapshots|-1].id),
                                   "shared sandbox merge checkpoint", true, later)))
    && v.timelines[p].branchSeq == tl.branchSeq
    && v == w.(live := w.live[p := v.live[p]], timelines := w.timelines[p := v.timelines[p]],
               states := w.states[w.nextId + 1 := v.live[p]], owner := v.owner, nextId := w.nextId + 2)
  }

  ghost predicate NoStable(s: seq<Snapshot>) {
    forall k | 0 <= k < |s| :: !s[k].body.stable
  }

  // Back at the newest stable snapshot, or, without one, just a failed sandbox.
  ghost predicate Undone(w: World, v: World, p: Id, x: Id, now: Time, later: Time) {
    && p in w.live && p in v.live && p in w.timelines
    && (NoStable(w.timelines[p].snapshots) ==>
          && BoxOnly(w, v, p, x, Broken, "simulated shared sandbox integration failure", now, later)
          && v.live[p].tasks == w.live[p].tasks)
    && (forall k | NewestStable(w.timelines[p].snapshots, k) ::
          BackTo(w, v, p, w.timelines[p].snapshots[k], w.nextId + 1, "shared sandbox integration failure", later))
  }

  ghost predicate MergeEnds(w: World, v: World, p: Id, i: MergeInput, c: Option<Contract>, x: Id, now: Time,
                            later: Time) {
    && p in w.live && p in v.live
    && if Blocked(i, c) then
         && BoxOnly(w, v, p, x, Broken, "contract validation failed in shared sandbox gate", now, later)
         && c.Some? && ReworkJoins(w.live[p], v.live[p], p, w.nextId + 1, c.value, later)
       else if !i.manifest then
         && BoxOnly(w, v, p, x, Broken, "shared sandbox manifest could not be written", now, later)
         && v.live[p].tasks == w.live[p].tasks
       else if i.simulateFailure then Undone(w, v, p, x, now, later)
       else Integrated(w, v, p, x, now, later)
  }

  // The world with one more sandbox, of a given state.
  ghost function WithBox(w: World, p: Id, x: Id, status: SandboxStatus, failure: string, now: Time, later: Time): World
    requires p in w.live
  {
    var ps := w.live[p];
    var box := Record(w.nextId, p, SandboxBody(Shared, None, Some(x), status, failure, now, later));
    w.(live := w.live[p := ps.(sandboxes := ps.sandboxes + [box], project := ps.project.(updatedAt := now))],
       owner := Claim(w, p, 1).owner, nextId := w.nextId + 1)
  }

  lemma SettledIs(ps: ProjectState, p: Id, box: Sandbox, status: SandboxStatus, failure: string, now: Time, later: Time)
    requires box.id !in Ids(ps.sandboxes)
    ensures var b := box.(body := box.body.(status := status, failure := failure, updatedAt := later));
      SettleShared(Touch(AddSandbox(ps, box), now), box, status, failure, later)
      == ps.(sandboxes := ps.sandboxes + [b], project := ps.project.(updatedAt := now))
  {
    var b := box.(body := box.body.(status := status, failure := failure, updatedAt := later));
    var s := ps.sandboxes + [box];
    forall k | 0 <= k < |s| ensures PutInList(s, b)[k] == (ps.sandboxes + [b])[k] {
      if k < |ps.sandboxes| {
        assert ps.sandboxes[k].id in Ids(ps.sandboxes);
      }
    }
    assert PutInList(s, b) == ps.sandboxes + [b];
  }

  lemma SharedMadeIs(w: World, p: Id, box: Sandbox, x: Id, status: SandboxStatus, failure: string, now: Time,
                     later: Time)
    requires p in w.live && box.id !in Ids(w.live[p].sandboxes)
    requires SharedOf(box, w.nextId, p, x, Active, "", now, now)
    ensures SharedMade(w, p, box, status, failure, now, later) == WithBox(w, p, x, status, failure, now, later)
  {
    hide SettleShared, Claim;
    SettledIs(w.live[p], p, box, status, failure, now, later);
    ClaimLeaves(w, p, 1);
  }

  lemma WithBoxIs(w: World, p: Id, x: Id, status: SandboxStatus, failure: string, now: Time, later: Time)
    requires p in w.live
    ensures var v := WithBox(w, p, x, status, failure, now, later);
      && p in v.live && v.live[p].tasks == w.live[p].tasks && BoxOnly(w, v, p, x, status, failure, now, later)
      && v == w.(live := w.live[p := v.live[p]], owner := v.owner, nextId := w.nextId + 1)
  {
    hide Claim;
  }

  lemma BlockedEnds(w: World, p: Id, box: Sandbox, x: Id, c: Contract, now: Time, later: Time)
    requires p in w.live && box.id !in Ids(w.live[p].sandboxes) && w.live[p].project.id == p
    requires SharedOf(box, w.nextId, p, x, Active, "", now, now)
    ensures var v := GateBlocked(w, p, box, c, now, later);
      && p in v.live && v.nextId == w.nextId + 2
      && BoxOnly(w, v, p, x, Broken, "contract validation failed in shared sandbox gate", now, later)
      && ReworkJoins(w.live[p], v.live[p], p, w.nextId + 1, c, later)
  {
    hide SettleShared, Claim, Decimal;
    SettledIs(w.live[p], p, box, Broken, GATE_FAILURE, now, later);
    ClaimLeaves(w, p, 2);
  }

  lemma IntegratedEnds(w: World, p: Id, x: Id, now: Time, later: Time)
    requires p in w.live && p in w.timelines
    requires CurrentBranch(w.timelines[p]) == w.timelines[p].branch && TrimSpace(w.timelines[p].branch) != ""
    ensures var m := WithBox(w, p, x, Released, "", now, later);
      Integrated(w, MergeRecorded(m, p, later), p, x, now, later)
  {
    hide CurrentBranch, TrimSpace, Claim;
    var m := WithBox(w, p, x, Released, "", now, later);
    CheckpointEdges();
    assert m.timelines == w.timelines;
    RecordedIs(m, p, MERGE_CHECKPOINT, later);
  }

  lemma CheckpointEdges()
    ensures TrimSpace(MERGE_CHECKPOINT) == MERGE_CHECKPOINT == "shared sandbox merge checkpoint"
  {
    EdgesStay(MERGE_CHECKPOINT);
  }

  lemma RecordedIs(w: World, p: Id, reason: string, now: Time)
    requires p in w.live && p in w.timelines
    requires CurrentBranch(w.timelines[p]) == w.timelines[p].branch && TrimSpace(w.timelines[p].branch) != ""
    requires reason == MERGE_CHECKPOINT && TrimSpace(reason) == reason
    ensures var tl := w.timelines[p];
      var snap := Record(w.nextId, p, SnapshotBody(tl.branch, LatestSnapshot(tl), reason, true, now));
      MergeRecorded(w, p, now)
      == w.(timelines := w.timelines[p := Recorded(tl, snap)], states := w.states[w.nextId := w.live[p]],
            owner := Claim(w, p, 1).owner, nextId := w.nextId + 1)
  {
    hide CurrentBranch, TrimSpace, LatestSnapshot, Claim, AddSnapshot;
    var tl := w.timelines[p];
    AddedIs(w, p, Record(w.nextId, p, SnapshotBody(tl.branch, LatestSnapshot(tl), reason, true, now)));
  }

  lemma UndoneEnds(w: World, p: Id, x: Id, now: Time, later: Time)
    requires Inv(w) && p in w.live && p in w.timelines
    ensures var m := WithBox(w, p, x, Broken, SIMULATED_FAILURE, now, later);
      Undone(w, MergeUndone(m, p, later), p, x, now, later)
  {
    hide Inv, ProjectOk, TimelineOk, BackTo, MergeUndone, BoxOnly, WithBox;
    var tl, m := w.timelines[p], WithBox(w, p, x, Broken, SIMULATED_FAILURE, now, later);
    WithBoxIs(w, p, x, Broken, SIMULATED_FAILURE, now, later);
    TimelineOf(w, p);
    if NoStable(tl.snapshots) {
      NoneStable(tl, p, w.owner, w.states);
      NotUndone(w, m, p, later);
    }
    forall k | NewestStable(tl.snapshots, k)
      ensures BackTo(w, MergeUndone(m, p, later), p, tl.snapshots[k], w.nextId + 1,
                     "shared sandbox integration failure", later)
    {
      UndoneTo(w, m, p, k, later);
    }
    StillThere(w, m, p, later);
  }

  lemma NoneStable(tl: Timeline, p: Id, owner: map<Id, Id>, states: map<Id, ProjectState>)
    requires TimelineOk(tl, p, owner, states) && NoStable(tl.snapshots)
    ensures tl.stable.None?
  {
    StableIsNewest(tl, p, owner, states);
    hide TimelineOk;
  }

  lemma NotUndone(w: World, m: World, p: Id, later: Time)
    requires p in w.timelines && m.timelines == w.timelines && w.timelines[p].stable.None?
    ensures MergeUndone(m, p, later) == m
  {
  }

  lemma StillThere(w: World, m: World, p: Id, later: Time)
    requires p in m.live
    ensures p in MergeUndone(m, p, later).live
  {
    hide FindById, RollbackBranch, RecordSnapshot, Restored, Elements, TrimSpace;
    if p in m.timelines && m.timelines[p].stable.Some? {
      RollbackKeepsLive(m, p, m.timelines[p].stable.value, later);
    }
  }

  lemma RollbackKeepsLive(m: World, p: Id, id: Id, later: Time)
    requires p in m.live && p in m.timelines
    ensures p in RollbackTo(m, p, id, INTEGRATION_FAILURE, later).world.live
  {
    hide FindById, RollbackBranch, Grant, Restored, Elements, TrimSpace, CurrentBranch;
  }

  // With the newest stable snapshot at k, the project goes back to it.
  lemma UndoneTo(w: World, m: World, p: Id, k: int, later: Time)
    requires Inv(w) && p in w.live && p in w.timelines && p in m.live && m.live[p].tasks == w.live[p].tasks
    requires m == w.(live := w.live[p := m.live[p]], owner := m.owner, nextId := w.nextId + 1)
    requires NewestStable(w.timelines[p].snapshots, k)
    ensures BackTo(w, MergeUndone(m, p, later), p, w.timelines[p].snapshots[k], w.nextId + 1,
                   "shared sandbox integration failure", later)
  {
    hide Inv, ProjectOk, TimelineOk, BackTo, RollbackTo;
    var tl := w.timelines[p];
    TimelineOf(w, p);
    StableId(tl, p, w.owner, w.states, k);
    BranchOfSnapshot(tl, p, w.owner, w.states, tl.snapshots[k]);
    MachineProofs.LiveOk(w, p);
    OrderIsTasks(w.live[p], p);
    IntegrationEdges();
    BackToIs(m, p, tl.snapshots[k], INTEGRATION_FAILURE, later);
    BackFrom(w, m, RollbackTo(m, p, tl.snapshots[k].id, INTEGRATION_FAILURE, later).world, p, tl.snapshots[k],
             INTEGRATION_FAILURE, later);
  }

  lemma IntegrationEdges()
    ensures TrimSpace(INTEGRATION_FAILURE) == INTEGRATION_FAILURE == "shared sandbox integration failure"
  {
    EdgesStay(INTEGRATION_FAILURE);
  }

  lemma StableId(tl: Timeline, p: Id, owner: map<Id, Id>, states: map<Id, ProjectState>, k: int)
    requires TimelineOk(tl, p, owner, states) && NewestStable(tl.snapshots, k)
    ensures tl.stable == Some(tl.snapshots[k].id) && tl.snapshots[k] in tl.snapshots
  {
    StableIsNewest(tl, p, owner, states);
    hide TimelineOk;
    var j :| NewestStable(tl.snapshots, j) && tl.snapshots[j].id == tl.stable.value;
    assert j == k;
  }

  // What happened to the project before does not show after going back.
  lemma BackFrom(w: World, m: World, v: World, p: Id, s: Snapshot, reason: string, now: Time)
    requires p in w.live && p in m.live && p in w.timelines && m.live[p].tasks == w.live[p].tasks
    requires m == w.(live := w.live[p := m.live[p]], owner := m.owner, nextId := w.nextId + 1)
    requires BackTo(m, v, p, s, w.nextId + 1, reason, now)
    ensures BackTo(w, v, p, s, w.nextId + 1, reason, now)
  {
    hide MadeBy, Snapped, FaultsGone;
  }

  lemma GateEnds(w: World, p: Id, i: MergeInput, box: Sandbox, x: Id, c: Option<Contract>, now: Time, later: Time)
    requires Inv(w) && p in w.live && p in w.timelines && box.id !in Ids(w.live[p].sandboxes)
    requires SharedOf(box, w.nextId, p, x, Active, "", now, now) && w.live[p].project.id == p
    ensures MergeEnds(w, MergeGate(w, p, i, box, c, now, later), p, i, c, x, now, later)
  {
    hide Inv, ProjectOk, TimelineOk, Blocked, GateBlocks, GateBlocked, SharedMade, WithBox, MergeUndone, MergeRecorded,
      BoxOnly, ReworkJoins, Undone, Integrated, CurrentBranch;
    BlockedIs(i, c);
    if Blocked(i, c) {
      GateHasContract(i, c);
      BlockedEnds(w, p, box, x, c.value, now, later);
    } else if !i.manifest {
      SharedMadeIs(w, p, box, x, Broken, MANIFEST_FAILURE, now, later);
      WithBoxIs(w, p, x, Broken, MANIFEST_FAILURE, now, later);
    } else if i.simulateFailure {
      SharedMadeIs(w, p, box, x, Broken, SIMULATED_FAILURE, now, later);
      UndoneEnds(w, p, x, now, later);
      UndoneThere(w, MergeUndone(WithBox(w, p, x, Broken, SIMULATED_FAILURE, now, later), p, later), p, x, now, later);
    } else {
      SharedMadeIs(w, p, box, x, Released, "", now, later);
      TimelineOf(w, p);
      TimelineBranch(w.timelines[p], p, w.owner, w.states);
      IntegratedEnds(w, p, x, now, later);
      IntegratedThere(w, MergeRecorded(WithBox(w, p, x, Released, "", now, later), p, later), p, x, now, later);
    }
  }

  lemma UndoneThere(w: World, v: World, p: Id, x: Id, now: Time, later: Time)
    requires Undone(w, v, p, x, now, later)
    ensures p in v.live
  {
  }

  lemma IntegratedThere(w: World, v: World, p: Id, x: Id, now: Time, later: Time)
    requires Integrated(w, v, p, x, now, later)
    ensures p in v.live
  {
  }

  // A merge is accepted exactly when it asks for tasks, every one of them DONE, the contract it needs
  // is there and the sandbox can be made.  It adds a shared sandbox, which is released and recorded
  // in a stable snapshot, unless the gate blocks it, its manifest cannot be written or its failure is
  // simulated; blocked, it adds a task as well, and after a simulated failure the project goes back
  // to its newest stable snapshot.
  lemma MergeDoes(w: World, p: Id, i: MergeInput, now: Time, later: Time) returns (c: Option<Contract>, x: Id)
    requires Inv(w) && p in w.live
    ensures var r := Merge(w, p, i, now, later); var ps := w.live[p];
      if i.ids != [] && (forall k | 0 <= k < |i.ids| :: Mergeable(ps, i.ids[k])) && (exists d :: Against(ps, i, d))
         && i.made
      then
        && r.refused == None && Against(ps, i, c) && LastAsked(ps, i.ids, x)
        && MergeEnds(w, r.world, p, i, c, x, now, later)
      else r.refused.Some? && r.world == w
  {
    hide Inv, ProjectOk, PickMerge, MergeContract, MergeGate, Mergeable, Against, LastAsked, MergeEnds, Gathered;
    var ps := w.live[p];
    TimelineThere(w, p);
    MachineProofs.LiveOk(w, p);
    ShapesOf(ps, p);
    MergeSelection(ps, p, i.ids);
    AgainstIs(ps, i, p);
    if i.ids != [] && PickMerge(ps, i.ids).Ok? && MergeContract(ps, i).Ok? && i.made {
      c := MergeContract(ps, i).value;
      LastPicked(ps, p, i.ids);
      var tasks := PickMerge(ps, i.ids).value.tasks;
      x := tasks[|tasks|-1];
      MachineProofs.Fresh(w, p, w.nextId);
      GateEnds(w, p, i, SharedBox(w, p, tasks, now), x, c, now, later);
    } else {
      c, x := None, 0;
    }
  }

  lemma ShapesOf(ps: ProjectState, p: Id)
    requires ProjectOk(ps, p)
    ensures ps.project.id == p && Filed(ps.contracts, p)
  {
  }

  // ----- Previews -----------------------------------------------------------------------

  ghost predicate CanShow(b: Sandbox) {
    b.body.scope == Shared && b.body.status == Released
  }

  ghost predicate NewestToShow(s: seq<Sandbox>, k: int) {
    0 <= k < |s| && CanShow(s[k]) && forall j | k < j < |s| :: !CanShow(s[j])
  }

  // Nothing but a preview of the sandbox, at its last change, and the project's time.
  ghost predicate Previewed(w: World, v: World, p: Id, box: Sandbox, now: Time) {
    && p in w.live
    && v == w.(previews := w.previews[p := Get(w.previews, p)
                                           + [Record(w.nextId, p,
                                                     PreviewBody(box.id, box.body.updatedAt, now, now))]],
               live := w.live[p := w.live[p].(project := w.live[p].project.(updatedAt := now))],
               owner := v.owner, nextId := w.nextId + 1)
  }

  lemma {:induction false} LatestSharedIs(s: seq<Sandbox>, k: int)
    requires NewestToShow(s, k)
    ensures LatestShared(s) == Some(s[k])
  {
    var n := |s| - 1;
    if k < n {
      assert !CanShow(s[n]);
      assert forall j | 0 <= j < n :: s[..n][j] == s[j];
      LatestSharedIs(s[..n], k);
    } else {
      assert CanShow(s[n]);
    }
  }

  // A preview shows the newest released shared sandbox; without one it is refused.
  lemma PreviewDoes(w: World, p: Id, now: Time)
    requires p in w.live
    ensures var r := StartPreview(w, p, now); var s := w.live[p].sandboxes;
      && (forall k | NewestToShow(s, k) :: r.refused == None && Previewed(w, r.world, p, s[k], now))
      && ((forall b | b in s :: !CanShow(b)) ==> r == Reply(w, Some(Conflict)))
  {
    hide Claim, LatestShared;
    ClaimLeaves(w, p, 1);
    forall k | NewestToShow(w.live[p].sandboxes, k)
      ensures StartPreview(w, p, now).refused == None
      ensures Previewed(w, StartPreview(w, p, now).world, p, w.live[p].sandboxes[k], now)
    {
      LatestSharedIs(w.live[p].sandboxes, k);
    }
  }

  // What has just been integrated can be previewed, whenever that is asked for first.
  lemma IntegratedPreviewed(w: World, v: World, p: Id, x: Id, now: Time, later: Time, t: Time)
    requires Integrated(w, v, p, x, now, later)
    ensures StartPreview(v, p, t).refused == None
    ensures Previewed(v, StartPreview(v, p, t).world, p, v.live[p].sandboxes[|w.live[p].sandboxes|], t)
    ensures v.live[p].sandboxes[|w.live[p].sandboxes|].id == w.nextId
  {
    hide StartPreview, Previewed, Snapped;
    assert NewestToShow(v.live[p].sandboxes, |w.live[p].sandboxes|);
    PreviewDoes(v, p, t);
  }
}
