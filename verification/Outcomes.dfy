// What each section does, said about the records before and after it.
module Outcomes {
  import opened Records
  import opened Domain
  import opened Text
  import opened Projects
  import opened ProjectProofs
  import opened Leases
  import opened Machine
  import opened MachineProofs
  import opened Theorems
  import CV = ContractValidation

  // ----- Starting -----------------------------------------------------------------------

  // The task has gone through one transition, which its trail records.
  ghost predicate Went(t: Task, u: Task, to: TaskStatus, reason: string, now: Time) {
    u == t.(body := t.body.(status := to, updatedAt := now,
                            audit := t.body.audit + [Transition(Some(t.body.status), to, reason, now)]))
  }

  // Nobody has begun the task, and everything it depends on is finished.
  ghost predicate CanStart(ps: ProjectState, x: Id) {
    && x in ps.tasks.items && ps.tasks.items[x].body.status == Created
    && forall d | d in ps.tasks.items[x].body.dependsOn ::
      d in ps.tasks.items && ps.tasks.items[d].body.status == Done
  }

  // The sandbox and the run of a task just started, under two ids in a row.
  ghost predicate NewPair(p: Id, x: Id, now: Time, box: Sandbox, run: Run) {
    && box == Record(box.id, p, SandboxBody(Private, Some(run.id), Some(x), Active, "", now, now))
    && run.projectId == p && run.body.taskId == x && run.body.sandboxId == box.id && run.body.status == Running
    && run.body.artifactIds == [] && run.body.usage == Usage(0, 0, 0) && run.body.failure == ""
    && run.body.startedAt == now && run.body.endedAt == None && run.id == box.id + 1
  }

  // Task x was started and nothing else happened to the project.
  ghost predicate Begun(ps: ProjectState, qs: ProjectState, p: Id, x: Id, n: Id, reason: string, now: Time) {
    && x in ps.tasks.items && x in qs.tasks.items
    && Went(ps.tasks.items[x], qs.tasks.items[x], InProgress, reason, now)
    && n + 1 in qs.runs.items && |qs.sandboxes| == |ps.sandboxes| + 1
    && NewPair(p, x, now, qs.sandboxes[|ps.sandboxes|], qs.runs.items[n + 1]) && qs.sandboxes[|ps.sandboxes|].id == n
    && qs == ps.(tasks := Slice(ps.tasks.items[x := qs.tasks.items[x]], ps.tasks.order),
                 runs := Slice(ps.runs.items[n + 1 := qs.runs.items[n + 1]], ps.runs.order + [n + 1]),
                 sandboxes := ps.sandboxes + [qs.sandboxes[|ps.sandboxes|]])
  }

  // Where no sandbox could be made the task has failed, and that is all.
  ghost predicate Stillborn(ps: ProjectState, qs: ProjectState, x: Id, reason: string, now: Time) {
    && x in ps.tasks.items && x in qs.tasks.items
    && qs == ps.(tasks := Slice(ps.tasks.items[x := qs.tasks.items[x]], ps.tasks.order))
    && exists t ::
      && Went(ps.tasks.items[x], t, InProgress, reason, now)
      && Went(t, qs.tasks.items[x], Failed, NO_WORKSPACE, now)
  }

  lemma TaskStarted(ps: ProjectState, p: Id, x: Id, n: Id, made: bool, reason: string, now: Time)
    requires ProjectOk(ps, p) && x in ps.tasks.items
    ensures var r := StartTaskRun(ps, ps.tasks.items[x], n, n + 1, made, reason, now);
      && (r.Ok? <==> CanStart(ps, x)) && (r.Refused? ==> r.error == Conflict)
      && (r.Ok? && made ==> Begun(ps, r.value, p, x, n, reason, now))
      && (r.Ok? && !made ==> Stillborn(ps, r.value, x, reason, now))
  {
    assert SliceOk(ps.tasks, p);
    hide ProjectOk, Protocol;
    var t := ps.tasks.items[x];
    var going := t.(body := MovedOrSame(t.body, InProgress, reason, now));
    if CanStart(ps, x) {
      assert Went(t, going, InProgress, reason, now);
      if !made {
        var over := going.(body := MovedOrSame(going.body, Failed, NO_WORKSPACE, now));
        assert Went(going, over, Failed, NO_WORKSPACE, now);
      }
    }
  }

  lemma LiveOk(w: World, p: Id)
    requires Inv(w) && p in w.live
    ensures ProjectOk(w.live[p], p)
  {
    assert StateOk(w.live[p], p, w.owner);
  }

  // The ways StartRun can end for task x.
  ghost predicate StartEnds(w: World, r: Reply, p: Id, x: Id, allowed: bool, made: bool, now: Time)
    requires p in w.live
  {
    var ps := w.live[p];
    if x !in ps.tasks.items then r == Reply(w, Some(NotFound))
    else if !allowed || !CanStart(ps, x) then r == Reply(w, Some(Conflict))
    else
      && p in r.world.live
      && if made then
           && r.refused == None && Begun(ps, r.world.live[p], p, x, w.nextId, RUN_STARTED, now)
           && r.world.execs == w.execs[w.nextId + 1 := Executor(p, x, Spawned)]
         else
           && r.refused == Some(Internal) && Stillborn(ps, r.world.live[p], x, RUN_STARTED, now)
           && r.world.execs == w.execs
  }

  // A run is started exactly for the task asked for, if it can start and the gate and the workspace
  // allow it; it gets an executor.  Without a task to ask for the request is invalid.
  lemma StartRunDoes(w: World, p: Id, taskId: Option<Id>, allowed: bool, made: bool, now: Time)
    requires Inv(w) && p in w.live
    ensures var r := StartRun(w, p, taskId, allowed, made, now);
      && (forall x | Asks(w.live[p], taskId, x) :: StartEnds(w, r, p, x, allowed, made, now))
      && ((forall x :: !Asks(w.live[p], taskId, x)) ==> r == Reply(w, Some(Invalid)))
  {
    hide Inv, ProjectOk, ResolveTask, Asks, StartEnds, StartTaskRun, Begun, Stillborn, CanStart, RUN_STARTED;
    LiveOk(w, p);
    var ps, r := w.live[p], StartRun(w, p, taskId, allowed, made, now);
    AskedFound(ps, taskId, p);
    forall x | Asks(ps, taskId, x) ensures StartEnds(w, r, p, x, allowed, made, now) {
      if x in ps.tasks.items {
        TaskStarted(ps, p, x, w.nextId, made, RUN_STARTED, now);
      }
      StartUnfolds(w, p, taskId, x, allowed, made, now);
    }
  }

  lemma StartUnfolds(w: World, p: Id, taskId: Option<Id>, x: Id, allowed: bool, made: bool, now: Time)
    requires p in w.live
    requires if x in w.live[p].tasks.items
             then ResolveTask(w.live[p], taskId) == Ok(w.live[p].tasks.items[x]) && w.live[p].tasks.items[x].id == x
             else ResolveTask(w.live[p], taskId) == Refused(NotFound)
    requires x in w.live[p].tasks.items ==>
               var r := StartTaskRun(w.live[p], w.live[p].tasks.items[x], w.nextId, w.nextId + 1, made, RUN_STARTED,
                                     now);
               && (r.Ok? <==> CanStart(w.live[p], x)) && (r.Refused? ==> r.error == Conflict)
               && (r.Ok? && made ==> Begun(w.live[p], r.value, p, x, w.nextId, RUN_STARTED, now))
               && (r.Ok? && !made ==> Stillborn(w.live[p], r.value, x, RUN_STARTED, now))
    ensures StartEnds(w, StartRun(w, p, taskId, allowed, made, now), p, x, allowed, made, now)
  {
    hide ResolveTask, Begun, Stillborn, StartTaskRun, CanStart, Claim, RUN_STARTED;
    ClaimLeaves(w, p, 2);
    if x !in w.live[p].tasks.items {
    } else if !allowed {
    } else if !CanStart(w.live[p], x) {
    } else if made {
    } else {
    }
  }

  lemma ClaimLeaves(w: World, p: Id, k: nat)
    ensures Claim(w, p, k).live == w.live && Claim(w, p, k).execs == w.execs
    ensures Claim(w, p, k).timelines == w.timelines && Claim(w, p, k).states == w.states
    ensures Claim(w, p, k).locks == w.locks && Claim(w, p, k).overrides == w.overrides
    ensures Claim(w, p, k).queue == w.queue && Claim(w, p, k).previews == w.previews
    ensures Claim(w, p, k).faults == w.faults && Claim(w, p, k).nextId == w.nextId + k
  {
  }

  // ----- Starting a batch ---------------------------------------------------------------

  // The i-th task of the batch was started.
  ghost predicate BegunAt(ps: ProjectState, qs: ProjectState, p: Id, ids: seq<Id>, n: Id, i: nat, reason: string,
                          now: Time)
    requires i < |ids|
  {
    && ids[i] in ps.tasks.items && ids[i] in qs.tasks.items
    && Went(ps.tasks.items[ids[i]], qs.tasks.items[ids[i]], InProgress, reason, now)
    && |ps.sandboxes| + i < |qs.sandboxes| && qs.sandboxes[|ps.sandboxes| + i].id == n + 2 * i
    && |ps.runs.order| + i < |qs.runs.order| && qs.runs.order[|ps.runs.order| + i] == n + 2 * i + 1
    && n + 2 * i + 1 in qs.runs.items
    && NewPair(p, ids[i], now, qs.sandboxes[|ps.sandboxes| + i], qs.runs.items[n + 2 * i + 1])
  }

  // Nothing else happened to the project.
  ghost predicate OnlyBegun(ps: ProjectState, qs: ProjectState, ids: seq<Id>, n: Id) {
    && qs == ps.(tasks := qs.tasks, runs := qs.runs, sandboxes := qs.sandboxes)
    && qs.tasks.order == ps.tasks.order && qs.tasks.items.Keys == ps.tasks.items.Keys
    && (forall x | x in ps.tasks.items && x !in ids :: qs.tasks.items[x] == ps.tasks.items[x])
    && |qs.sandboxes| == |ps.sandboxes| + |ids| && ps.sandboxes <= qs.sandboxes
    && |qs.runs.order| == |ps.runs.order| + |ids| && ps.runs.order <= qs.runs.order
    && (forall r | r in ps.runs.items && r < n :: r in qs.runs.items && qs.runs.items[r] == ps.runs.items[r])
    && (forall r | r in qs.runs.items :: r in ps.runs.items || exists i :: 0 <= i < |ids| && r == n + 2 * i + 1)
  }

  ghost predicate BatchBegun(ps: ProjectState, qs: ProjectState, p: Id, ids: seq<Id>, n: Id, reason: string,
                             now: Time) {
    OnlyBegun(ps, qs, ids, n) && forall i | 0 <= i < |ids| :: BegunAt(ps, qs, p, ids, n, i, reason, now)
  }

  lemma OneMoreBegun(ps: ProjectState, m: ProjectState, qs: ProjectState, p: Id, ids: seq<Id>, x: Id, n: Id,
                     reason: string, now: Time)
    requires BatchBegun(ps, m, p, ids, n, reason, now) && x !in ids && x in ps.tasks.items
    requires Begun(m, qs, p, x, n + 2 * |ids|, reason, now)
    ensures BatchBegun(ps, qs, p, ids + [x], n, reason, now)
  {
    var all, k := ids + [x], |ids|;
    assert OnlyBegun(ps, qs, all, n) by {
      hide BegunAt, NewPair, Went;
      OnlyOneMore(ps, m, qs, ids, x, n);
    }
    forall i | 0 <= i < |all| ensures BegunAt(ps, qs, p, all, n, i, reason, now) {
      hide NewPair, Went;
      if i < k {
        assert all[i] == ids[i] && ids[i] in ids;
        assert BegunAt(ps, m, p, ids, n, i, reason, now);
      } else {
      }
    }
  }

  lemma OnlyOneMore(ps: ProjectState, m: ProjectState, qs: ProjectState, ids: seq<Id>, x: Id, n: Id)
    requires OnlyBegun(ps, m, ids, n) && x in ps.tasks.items && x in qs.tasks.items
    requires |qs.sandboxes| == |m.sandboxes| + 1 && n + 2 * |ids| + 1 in qs.runs.items
    requires var r := n + 2 * |ids| + 1;
      qs == m.(tasks := Slice(m.tasks.items[x := qs.tasks.items[x]], m.tasks.order),
               runs := Slice(m.runs.items[r := qs.runs.items[r]], m.runs.order + [r]),
               sandboxes := m.sandboxes + [qs.sandboxes[|m.sandboxes|]])
    ensures OnlyBegun(ps, qs, ids + [x], n)
  {
    var all, k := ids + [x], |ids|;
    forall r | r in qs.runs.items && r !in ps.runs.items ensures exists i :: 0 <= i < |all| && r == n + 2 * i + 1 {
      if r == n + 2 * k + 1 {
      } else {
        var i :| 0 <= i < k && r == n + 2 * i + 1;
      }
    }
  }

  // Under new ids a batch of tasks that can start is started, whole unless a sandbox cannot be made.
  lemma {:induction false} EachBegun(ps: ProjectState, ids: seq<Id>, unmade: set<Id>, n: Id, reason: string, now: Time,
                                     p: Id)
    requires ProjectOk(ps, p) && (forall x | Uses(ps, x) :: x < n)
    requires Distinct(ids) && forall x | x in ids :: CanStart(ps, x)
    ensures var b := StartEach(ps, ids, unmade, n, reason, now);
      && (b.whole <==> forall x | x in ids :: x !in unmade)
      && (b.whole ==>
            && b.next == n + 2 * |ids| && |b.runs| == |ids| && (forall i | 0 <= i < |ids| :: b.runs[i] == n + 2 * i + 1)
            && BatchBegun(ps, b.ps, p, ids, n, reason, now))
  {
    hide ProjectOk, StartTaskRun, Begun, Stillborn, CanStart, BatchBegun, Uses;
    if ids == [] {
      NothingBegun(ps, p, n, reason, now);
    } else {
      var front, x := ids[..|ids|-1], ids[|ids|-1];
      assert ids == front + [x] && x !in front;
      EachBegun(ps, front, unmade, n, reason, now, p);
      StartEachOk(ps, front, unmade, n, reason, now, p);
      var b := StartEach(ps, front, unmade, n, reason, now);
      if b.whole {
        StillCanStart(ps, b.ps, p, front, x, n, reason, now);
        TaskStarted(b.ps, p, x, b.next, x !in unmade, reason, now);
        if x !in unmade {
          var qs := StartTaskRun(b.ps, b.ps.tasks.items[x], b.next, b.next + 1, true, reason, now).value;
          OneMoreBegun(ps, b.ps, qs, p, front, x, n, reason, now);
        }
      }
    }
  }

  lemma NothingBegun(ps: ProjectState, p: Id, n: Id, reason: string, now: Time)
    ensures BatchBegun(ps, ps, p, [], n, reason, now)
  {
  }

  lemma StillCanStart(ps: ProjectState, m: ProjectState, p: Id, ids: seq<Id>, x: Id, n: Id, reason: string, now: Time)
    requires BatchBegun(ps, m, p, ids, n, reason, now) && x !in ids && CanStart(ps, x)
    requires forall y | y in ids :: CanStart(ps, y)
    ensures x in ps.tasks.items && x in m.tasks.items && CanStart(m, x)
  {
    hide BegunAt;
    forall d | d in ps.tasks.items[x].body.dependsOn ensures d in m.tasks.items && d !in ids {
      assert d in ps.tasks.items && ps.tasks.items[d].body.status == Done;
    }
  }

  // The first task without a sandbox ends the batch: those before it are started, it has failed,
  // and those after it are as they were.
  ghost predicate BatchBroken(ps: ProjectState, qs: ProjectState, p: Id, ids: seq<Id>, unmade: set<Id>, n: Id,
                              reason: string, now: Time, k: nat, m: ProjectState) {
    && k < |ids| && ids[k] in unmade && (forall j | 0 <= j < k :: ids[j] !in unmade)
    && BatchBegun(ps, m, p, ids[..k], n, reason, now) && Stillborn(m, qs, ids[k], reason, now)
  }

  lemma {:induction false} EachBroken(ps: ProjectState, ids: seq<Id>, unmade: set<Id>, n: Id, reason: string,
                                      now: Time, p: Id) returns (k: nat, m: ProjectState)
    requires ProjectOk(ps, p) && (forall x | Uses(ps, x) :: x < n)
    requires Distinct(ids) && forall x | x in ids :: CanStart(ps, x)
    requires exists x :: x in ids && x in unmade
    ensures BatchBroken(ps, StartEach(ps, ids, unmade, n, reason, now).ps, p, ids, unmade, n, reason, now, k, m)
  {
    hide ProjectOk, StartTaskRun, Begun, Stillborn, CanStart, BatchBegun, Uses;
    var last := |ids| - 1;
    var front, x := ids[..last], ids[last];
    assert ids == front + [x] && x !in front;
    EachBegun(ps, front, unmade, n, reason, now, p);
    var b := StartEach(ps, front, unmade, n, reason, now);
    if b.whole {
      k, m := last, b.ps;
      StartEachOk(ps, front, unmade, n, reason, now, p);
      StillCanStart(ps, m, p, front, x, n, reason, now);
      TaskStarted(m, p, x, b.next, false, reason, now);
      forall j | 0 <= j < k ensures ids[j] !in unmade {
        var y: Id := front[j];
        assert y in front;
      }
    } else {
      k, m := EachBroken(ps, front, unmade, n, reason, now, p);
      assert StartEach(ps, ids, unmade, n, reason, now).ps == b.ps;
      assert ids[..k] == front[..k];
      assert forall j | 0 <= j <= k :: ids[j] == front[j];
    }
  }

  // The tasks a request is about: those it asks for, or all outside SPRINT1 when it asks for none.
  ghost predicate Wanted(ps: ProjectState, ids: seq<Option<Id>>, x: Id) {
    if ids == [] then x in ps.tasks.items && ps.tasks.items[x].body.kind != Sprint1 else Requested(ps, ids, x)
  }

  // The request asks for x, and for y only later.
  ghost predicate AskedBefore(ps: ProjectState, ids: seq<Option<Id>>, x: Id, y: Id) {
    exists k :: 0 <= k <= |ids| && Requested(ps, ids[..k], x) && !Requested(ps, ids[..k], y)
  }

  ghost predicate ListedBefore(order: seq<Id>, x: Id, y: Id) {
    exists i, j :: 0 <= i < j < |order| && order[i] == x && order[j] == y
  }

  // The tasks come in the order in which they are asked for, or else in that of the project.
  ghost predicate InTurn(ps: ProjectState, ids: seq<Option<Id>>, sel: seq<Id>) {
    forall i, j | 0 <= i < j < |sel| ::
      if ids == [] then ListedBefore(ps.tasks.order, sel[i], sel[j]) else AskedBefore(ps, ids, sel[i], sel[j])
  }

  lemma ListedMore(order: seq<Id>, x: Id, y: Id)
    requires order != [] && ListedBefore(order[..|order|-1], x, y)
    ensures ListedBefore(order, x, y)
  {
    var front := order[..|order|-1];
    var i, j :| 0 <= i < j < |front| && front[i] == x && front[j] == y;
    assert order[i] == x && order[j] == y;
  }

  lemma ListedLast(order: seq<Id>, x: Id)
    requires order != [] && x in order[..|order|-1]
    ensures ListedBefore(order, x, order[|order|-1])
  {
    var front := order[..|order|-1];
    var k :| 0 <= k < |front| && front[k] == x;
    assert order[k] == x;
  }

  ghost predicate AllListed(order: seq<Id>, sel: seq<Id>) {
    && (forall x | x in sel :: x in order)
    && (forall i, j | 0 <= i < j < |sel| :: ListedBefore(order, sel[i], sel[j]))
  }

  lemma OneMoreListed(order: seq<Id>, sel: seq<Id>)
    requires order != [] && AllListed(order[..|order|-1], sel)
    ensures AllListed(order, sel) && AllListed(order, sel + [order[|order|-1]])
  {
    var front, x := order[..|order|-1], order[|order|-1];
    var more := sel + [x];
    assert order == front + [x];
    forall i, j | 0 <= i < j < |more| ensures ListedBefore(order, more[i], more[j]) {
      if j < |sel| {
        assert ListedBefore(front, sel[i], sel[j]);
        ListedMore(order, sel[i], sel[j]);
      } else {
        var y: Id := sel[i];
        assert y in sel && more[i] == y;
        ListedLast(order, y);
      }
    }
    assert forall i | 0 <= i < |sel| :: more[i] == sel[i];
  }

  lemma {:induction false} AutoInTurn(order: seq<Id>, tasks: map<Id, Task>)
    ensures AllListed(order, PickAuto(order, tasks).selected)
  {
    hide Ready;
    if order == [] {
    } else {
      AutoInTurn(order[..|order|-1], tasks);
      OneMoreListed(order, PickAuto(order[..|order|-1], tasks).selected);
      hide AllListed;
    }
  }

  lemma AskedMore(ps: ProjectState, ids: seq<Option<Id>>, x: Id, y: Id)
    requires ids != [] && AskedBefore(ps, ids[..|ids|-1], x, y)
    ensures AskedBefore(ps, ids, x, y)
  {
    hide Requested;
    var front := ids[..|ids|-1];
    var k :| 0 <= k <= |front| && Requested(ps, front[..k], x) && !Requested(ps, front[..k], y);
    assert ids[..k] == front[..k];
  }

  lemma {:induction false} GivenInTurn(ps: ProjectState, p: Id, ids: seq<Option<Id>>)
    requires ProjectOk(ps, p) && PickGiven(ps, ids).Ok?
    ensures var sel := PickGiven(ps, ids).value.selected;
      forall i, j | 0 <= i < j < |sel| :: AskedBefore(ps, ids, sel[i], sel[j])
  {
    hide ProjectOk, Ready, ResolveTask, Requested, AllThere, Asks, AskedBefore;
    if ids == [] {
    } else {
      var n := |ids| - 1;
      var front := ids[..n];
      GivenInTurn(ps, p, front);
      GivenAre(ps, p, front);
      var before, sel := PickGiven(ps, front).value.selected, PickGiven(ps, ids).value.selected;
      forall i, j | 0 <= i < j < |sel| ensures AskedBefore(ps, ids, sel[i], sel[j]) {
        if j < |before| {
          AskedMore(ps, ids, sel[i], sel[j]);
        } else {
          var y: Id := sel[i];
          assert y in before;
          AskedAtLast(ps, ids, y, sel[j]);
        }
      }
    }
  }

  // What is selected or blocked is what is asked for.
  lemma GivenAre(ps: ProjectState, p: Id, ids: seq<Option<Id>>)
    requires ProjectOk(ps, p) && PickGiven(ps, ids).Ok?
    ensures var k := PickGiven(ps, ids).value; forall x :: x in k.selected || x in k.blocked <==> Requested(ps, ids, x)
  {
    hide ProjectOk, PickGiven, Requested, AllThere;
    GivenSelection(ps, p, ids);
  }

  lemma AskedAtLast(ps: ProjectState, ids: seq<Option<Id>>, x: Id, y: Id)
    requires ids != [] && Requested(ps, ids[..|ids|-1], x) && !Requested(ps, ids[..|ids|-1], y)
    ensures AskedBefore(ps, ids, x, y)
  {
    hide Requested;
  }

  lemma PickedInTurn(ps: ProjectState, ids: seq<Option<Id>>, p: Id)
    requires ProjectOk(ps, p) && Pick(ps, ids).Ok?
    ensures InTurn(ps, ids, Pick(ps, ids).value.selected)
  {
    assert SliceOk(ps.tasks, p);
    hide ProjectOk, PickAuto, PickGiven, ListedBefore, AskedBefore;
    if ids == [] {
      AutoInTurn(ps.tasks.order, ps.tasks.items);
    } else {
      GivenInTurn(ps, p, ids);
    }
  }

  // Each of the tasks wanted that can start, once and in turn.
  ghost predicate Startable(ps: ProjectState, ids: seq<Option<Id>>, sel: seq<Id>) {
    Distinct(sel) && InTurn(ps, ids, sel) && forall x :: x in sel <==> Wanted(ps, ids, x) && CanStart(ps, x)
  }

  lemma OneInTurn(ps: ProjectState, ids: seq<Option<Id>>)
    ensures InTurn(ps, ids, [])
  {
  }

  lemma ReadyIs(ps: ProjectState)
    ensures forall x | x in ps.tasks.items :: CanStart(ps, x) <==> Ready(ps.tasks.items, ps.tasks.items[x].body)
  {
  }

  lemma PickedAre(ps: ProjectState, ids: seq<Option<Id>>, p: Id) returns (sel: seq<Id>)
    requires ProjectOk(ps, p)
    ensures AllThere(ps, ids) ==> Startable(ps, ids, sel)
    ensures Pick(ps, ids).Ok? <==> AllThere(ps, ids) && sel != []
    ensures Pick(ps, ids).Ok? ==> Pick(ps, ids).value.selected == sel
  {
    assert SliceOk(ps.tasks, p);
    hide ProjectOk, Ready, CanStart, Requested, AllThere, PickAuto, PickGiven, InTurn;
    ReadyIs(ps);
    OneInTurn(ps, ids);
    if Pick(ps, ids).Ok? {
      PickedInTurn(ps, ids, p);
    }
    if ids == [] {
      NothingRequested(ps);
      AutoSelection(ps.tasks.order, ps.tasks.items);
      sel := PickAuto(ps.tasks.order, ps.tasks.items).selected;
      forall x ensures x in sel <==> Wanted(ps, ids, x) && CanStart(ps, x) {
        CanStartThere(ps, x);
      }
    } else {
      GivenSelection(ps, p, ids);
      sel := if PickGiven(ps, ids).Ok? then PickGiven(ps, ids).value.selected else [];
      forall x ensures PickGiven(ps, ids).Ok? ==> (x in sel <==> Wanted(ps, ids, x) && CanStart(ps, x)) {
        CanStartThere(ps, x);
      }
    }
  }

  lemma CanStartThere(ps: ProjectState, x: Id)
    ensures CanStart(ps, x) ==> x in ps.tasks.items
  {
  }

  // One executor for each new run.
  ghost predicate Manned(before: map<Id, Executor>, after: map<Id, Executor>, p: Id, sel: seq<Id>, n: Id) {
    && (forall e | e in before && e < n :: e in after && after[e] == before[e])
    && (forall e | e in after :: e in before || exists i :: 0 <= i < |sel| && e == n + 2 * i + 1)
    && (forall i | 0 <= i < |sel| :: n + 2 * i + 1 in after && after[n + 2 * i + 1] == Executor(p, sel[i], Spawned))
  }

  ghost predicate ParallelEnds(w: World, r: Reply, p: Id, ids: seq<Option<Id>>, unmade: set<Id>, now: Time,
                               sel: seq<Id>)
    requires p in w.live
  {
    && p in r.world.live
    && if forall x | x in sel :: x !in unmade then
         && r.refused == None && BatchBegun(w.live[p], r.world.live[p], p, sel, w.nextId, PARALLEL_STARTED, now)
         && Manned(w.execs, r.world.execs, p, sel, w.nextId)
       else
         && r.refused == Some(Internal) && r.world.execs == w.execs
         && exists k, m ::
           BatchBroken(w.live[p], r.world.live[p], p, sel, unmade, w.nextId, PARALLEL_STARTED, now, k, m)
  }

  // A request for a batch is refused, and changes nothing, when it is too long, asks for a task that
  // is not there, wants none that can start, or the gate does not allow it; otherwise it starts
  // exactly the tasks wanted that can start, in turn, up to the first that gets no sandbox.
  lemma StartParallelDoes(w: World, p: Id, ids: seq<Option<Id>>, allowed: bool, unmade: set<Id>,
                          now: Time) returns (sel: seq<Id>)
    requires Inv(w) && p in w.live
    ensures var r := StartParallel(w, p, ids, allowed, unmade, now);
      && (AllThere(w.live[p], ids) ==> Startable(w.live[p], ids, sel))
      && if |ids| <= MAX_PARALLEL_TASKS && AllThere(w.live[p], ids) && sel != [] && allowed
         then ParallelEnds(w, r, p, ids, unmade, now, sel)
         else r.refused.Some? && r.world == w
  {
    hide Inv, ProjectOk, Pick, StartEach, BatchBegun, BatchBroken, AllThere, Startable, PARALLEL_STARTED, CanStart,
      Wanted, Manned, StartParallel, ParallelEnds;
    LiveOk(w, p);
    UsedBelow(w, p);
    var ps := w.live[p];
    sel := PickedAre(ps, ids, p);
    if |ids| <= MAX_PARALLEL_TASKS && AllThere(ps, ids) && sel != [] && allowed {
      StartableAre(ps, ids, sel);
      EachBegun(ps, sel, unmade, w.nextId, PARALLEL_STARTED, now, p);
      var b := StartEach(ps, sel, unmade, w.nextId, PARALLEL_STARTED, now);
      if b.whole {
        SpawnedAre(w.execs, ps, b.ps, p, sel, b.runs, w.nextId, PARALLEL_STARTED, now);
        WholeEnds(w, p, ids, unmade, now, sel);
      } else {
        var k, m := EachBroken(ps, sel, unmade, w.nextId, PARALLEL_STARTED, now, p);
        BrokenEnds(w, p, ids, unmade, now, sel, k, m);
      }
    } else {
      ParallelRefused(w, p, ids, allowed, unmade, now);
    }
  }

  lemma ParallelRefused(w: World, p: Id, ids: seq<Option<Id>>, allowed: bool, unmade: set<Id>, now: Time)
    requires p in w.live && (|ids| > MAX_PARALLEL_TASKS || Pick(w.live[p], ids).Refused? || !allowed)
    ensures var r := StartParallel(w, p, ids, allowed, unmade, now); r.refused.Some? && r.world == w
  {
    hide Pick, StartEach, Claim, Spawn;
  }

  lemma WholeEnds(w: World, p: Id, ids: seq<Option<Id>>, unmade: set<Id>, now: Time, sel: seq<Id>)
    requires p in w.live && |ids| <= MAX_PARALLEL_TASKS
    requires Pick(w.live[p], ids).Ok? && Pick(w.live[p], ids).value.selected == sel
    requires forall x | x in sel :: x !in unmade
    requires var b := StartEach(w.live[p], sel, unmade, w.nextId, PARALLEL_STARTED, now);
      && b.whole && BatchBegun(w.live[p], b.ps, p, sel, w.nextId, PARALLEL_STARTED, now)
      && Manned(w.execs, Spawn(w.execs, b.ps, p, b.runs), p, sel, w.nextId)
    ensures ParallelEnds(w, StartParallel(w, p, ids, true, unmade, now), p, ids, unmade, now, sel)
  {
    hide Pick, StartEach, BatchBegun, BatchBroken, Manned, Claim, Spawn, PARALLEL_STARTED;
    var b := StartEach(w.live[p], sel, unmade, w.nextId, PARALLEL_STARTED, now);
    ClaimLeaves(w, p, b.next - w.nextId);
  }

  lemma BrokenEnds(w: World, p: Id, ids: seq<Option<Id>>, unmade: set<Id>, now: Time, sel: seq<Id>, k: nat,
                   m: ProjectState)
    requires p in w.live && |ids| <= MAX_PARALLEL_TASKS
    requires Pick(w.live[p], ids).Ok? && Pick(w.live[p], ids).value.selected == sel
    requires !forall x | x in sel :: x !in unmade
    requires var b := StartEach(w.live[p], sel, unmade, w.nextId, PARALLEL_STARTED, now);
      !b.whole && BatchBroken(w.live[p], b.ps, p, sel, unmade, w.nextId, PARALLEL_STARTED, now, k, m)
    ensures ParallelEnds(w, StartParallel(w, p, ids, true, unmade, now), p, ids, unmade, now, sel)
  {
    hide Pick, StartEach, BatchBegun, BatchBroken, Manned, Claim, Spawn, PARALLEL_STARTED;
    var b := StartEach(w.live[p], sel, unmade, w.nextId, PARALLEL_STARTED, now);
    ClaimLeaves(w, p, b.next - w.nextId);
    var r := StartParallel(w, p, ids, true, unmade, now);
    assert r.refused == Some(Internal) && r.world.execs == w.execs && p in r.world.live && r.world.live[p] == b.ps;
    assert BatchBroken(w.live[p], r.world.live[p], p, sel, unmade, w.nextId, PARALLEL_STARTED, now, k, m);
  }

  lemma StartableAre(ps: ProjectState, ids: seq<Option<Id>>, sel: seq<Id>)
    requires Startable(ps, ids, sel)
    ensures Distinct(sel) && forall x | x in sel :: CanStart(ps, x)
  {
    hide Wanted, CanStart, InTurn;
  }

  lemma UsedBelow(w: World, p: Id)
    requires Inv(w) && p in w.live
    ensures forall x | Uses(w.live[p], x) :: x < w.nextId
  {
    assert StateOk(w.live[p], p, w.owner);
    hide ProjectOk, Uses;
  }

  lemma SpawnedAre(execs: map<Id, Executor>, ps: ProjectState, qs: ProjectState, p: Id, sel: seq<Id>, runs: seq<Id>,
                   n: Id, reason: string, now: Time)
    requires BatchBegun(ps, qs, p, sel, n, reason, now)
    requires |runs| == |sel| && forall i | 0 <= i < |sel| :: runs[i] == n + 2 * i + 1
    ensures Manned(execs, Spawn(execs, qs, p, runs), p, sel, n)
  {
    hide OnlyBegun, BegunAt;
    forall i | 0 <= i < |runs| ensures RunsFor(qs, runs[i], sel[i]) {
      BegunRun(ps, qs, p, sel, n, i, reason, now);
    }
    MannedBy(execs, qs, p, sel, runs, n);
  }

  ghost predicate RunsFor(ps: ProjectState, r: Id, x: Id) {
    r in ps.runs.items && ps.runs.items[r].body.taskId == x
  }

  lemma BegunRun(ps: ProjectState, qs: ProjectState, p: Id, ids: seq<Id>, n: Id, i: nat, reason: string, now: Time)
    requires i < |ids| && BegunAt(ps, qs, p, ids, n, i, reason, now)
    ensures RunsFor(qs, n + 2 * i + 1, ids[i])
  {
  }

  lemma MannedBy(execs: map<Id, Executor>, qs: ProjectState, p: Id, sel: seq<Id>, runs: seq<Id>, n: Id)
    requires |runs| == |sel| && forall i | 0 <= i < |sel| :: runs[i] == n + 2 * i + 1
    requires forall i | 0 <= i < |runs| :: RunsFor(qs, runs[i], sel[i])
    ensures Manned(execs, Spawn(execs, qs, p, runs), p, sel, n)
  {
    var more := map r | r in runs && r in qs.runs.items :: Executor(p, qs.runs.items[r].body.taskId, Spawned);
    var after := Spawn(execs, qs, p, runs);
    assert after == execs + more;
    forall i | 0 <= i < |sel|
      ensures n + 2 * i + 1 in after && after[n + 2 * i + 1] == Executor(p, sel[i], Spawned)
    {
      var r: Id := runs[i];
      assert r in runs && RunsFor(qs, r, sel[i]);
      assert r in more;
    }
    forall e | e in more ensures exists i :: 0 <= i < |sel| && e == n + 2 * i + 1 {
      assert e in runs;
      var i :| 0 <= i < |runs| && runs[i] == e;
    }
    forall e | e in execs && e < n ensures e in after && after[e] == execs[e] {
      assert e !in more;
    }
  }

  // ----- Trying again -------------------------------------------------------------------

  // A task nobody has begun.
  ghost predicate Untouched(t: Task, p: Id, now: Time) {
    && t.projectId == p && t.body.status == Created && t.body.outputRef == "" && t.body.createdAt == now
    && t.body.updatedAt == now && |t.body.audit| == 1
  }

  // One new task at the end of the order, and the project touched.
  ghost predicate TaskJoins(ps: ProjectState, qs: ProjectState, p: Id, n: Id, now: Time) {
    && n in qs.tasks.items && qs.tasks.items[n].id == n && Untouched(qs.tasks.items[n], p, now)
    && qs == ps.(tasks := Slice(ps.tasks.items[n := qs.tasks.items[n]], ps.tasks.order + [n]),
                 project := ps.project.(updatedAt := now))
  }

  ghost predicate SameJob(t: TaskBody, u: TaskBody) {
    && u.planId == t.planId && u.name == t.name + " (retry)" && u.kind == t.kind && u.assignee == t.assignee
    && u.dependsOn == t.dependsOn && u.inputRef == t.inputRef
  }

  // The ways RetryTask can end for task x.
  ghost predicate RetryEnds(w: World, r: Reply, p: Id, x: Id, now: Time)
    requires p in w.live
  {
    var ps := w.live[p];
    if x !in ps.tasks.items then r == Reply(w, Some(NotFound))
    else if ps.tasks.items[x].body.status != Failed then r == Reply(w, Some(Conflict))
    else
      && r.refused == None && p in r.world.live
      && TaskJoins(ps, r.world.live[p], p, w.nextId, now)
      && SameJob(ps.tasks.items[x].body, r.world.live[p].tasks.items[w.nextId].body)
  }

  // Exactly a FAILED task is tried again, by a new task that does the same.
  lemma RetryDoes(w: World, p: Id, taskId: Option<Id>, now: Time)
    requires Inv(w) && p in w.live
    ensures var r := RetryTask(w, p, taskId, now);
      && (forall x | Asks(w.live[p], taskId, x) :: RetryEnds(w, r, p, x, now))
      && ((forall x :: !Asks(w.live[p], taskId, x)) ==> r == Reply(w, Some(Invalid)))
  {
    LiveOk(w, p);
    var ps := w.live[p];
    assert SliceOk(ps.tasks, p);
    hide Inv, ProjectOk, ResolveTask, Asks, RetryEnds;
    AskedFound(ps, taskId, p);
    forall x | Asks(ps, taskId, x) ensures RetryEnds(w, RetryTask(w, p, taskId, now), p, x, now) {
      RetryUnfolds(w, p, taskId, x, now);
    }
  }

  lemma RetryUnfolds(w: World, p: Id, taskId: Option<Id>, x: Id, now: Time)
    requires p in w.live && forall t | t in w.live[p].tasks.items :: w.live[p].tasks.items[t].projectId == p
    requires if x in w.live[p].tasks.items
             then ResolveTask(w.live[p], taskId) == Ok(w.live[p].tasks.items[x])
             else ResolveTask(w.live[p], taskId) == Refused(NotFound)
    ensures RetryEnds(w, RetryTask(w, p, taskId, now), p, x, now)
  {
    hide ResolveTask, Claim;
    ClaimLeaves(w, p, 1);
  }
}
