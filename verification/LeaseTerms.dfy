// What asking for a code lock or an override brings about, and for how long it holds.
module LeaseTerms {
  import opened Records
  import opened Domain
  import opened Text
  import opened Projects
  import opened ProjectProofs
  import opened Leases
  import opened Machine
  import opened MachineProofs
  import Clock
  import opened Isolation
  import opened Theorems
  import opened Outcomes

  // ----- Terms and owners ---------------------------------------------------------------

  // A lease asked for `ttl` seconds lasts so many nanoseconds; asked for none, it lasts an hour.
  function Term(ttl: nat): Time {
    if ttl == 0 then 3600 * 1_000_000_000 else ttl * 1_000_000_000
  }

  // Made at t, it is in force during the term and not from its end on.
  ghost predicate HoldsFor(expiresAt: Option<Time>, t: Time, ttl: nat) {
    forall u | t <= u :: LeaseActive(u, expiresAt) <==> u < t + Term(ttl)
  }

  // The owner is the first name given that is not blank.
  ghost predicate NamedFirst(names: seq<string>, owner: string) {
    || (owner == "human-operator" && forall i | 0 <= i < |names| :: Blank(names[i]))
    || (exists i :: 0 <= i < |names| && !Blank(names[i]) && owner == TrimSpace(names[i])
                    && forall j | 0 <= j < i :: Blank(names[j]))
  }

  lemma {:induction false} OwnerNamed(names: seq<string>)
    ensures NamedFirst(names, FirstNonBlank(names))
  {
    hide TrimSpace, Blank;
    if names == [] {
    } else {
      var rest := names[1..];
      TrimSpaceBlank(names[0]);
      OwnerNamed(rest);
      if TrimSpace(names[0]) == "" {
        assert forall i | 1 <= i < |names| :: names[i] == rest[i-1];
        if FirstNonBlank(rest) != "human-operator" || exists i :: 0 <= i < |rest| && !Blank(rest[i]) {
          var i :| 0 <= i < |rest| && !Blank(rest[i]) && FirstNonBlank(rest) == TrimSpace(rest[i])
            && forall j | 0 <= j < i :: Blank(rest[j]);
          assert names[i+1] == rest[i];
        }
      }
    }
  }

  // ----- Code locks ---------------------------------------------------------------------

  ghost predicate LockAcceptable(ps: ProjectState, i: LockInput) {
    && !Blank(i.path) && |TrimSpace(i.path)| <= 1024 && !(['/'] <= TrimSpace(i.path))
    && !Contains(TrimSpace(i.path), "..")
    && !Blank(i.content) && |i.content| <= 65536 && Contains(i.content, "LOCKED BY HUMAN")
    && Lower(TrimSpace(i.mode)) in {"", "file", "go_symbol"}
    && (Lower(TrimSpace(i.mode)) == "go_symbol" ==> i.symbolOk)
    && |TrimSpace(i.createdBy)| <= 256 && i.ttl >= 0
    && (i.taskId.Some? ==> i.taskId.value in ps.tasks.items)
  }

  // The lock asked for.
  ghost predicate LockAsked(l: CodeLock, id: Id, p: Id, i: LockInput, now: Time) {
    && l.id == id && l.projectId == p && l.body.taskId == i.taskId && l.body.path == TrimSpace(i.path)
    && l.body.content == i.content
    && l.body.mode == (if Lower(TrimSpace(i.mode)) == "go_symbol" then "go_symbol" else "file")
    && l.body.symbolKind == TrimSpace(i.symbolKind) && l.body.symbolName == TrimSpace(i.symbolName)
    && l.body.createdAt == now && i.ttl >= 0 && HoldsFor(l.body.expiresAt, now, i.ttl)
    && NamedFirst([i.owner, i.actor, TrimSpace(i.createdBy)], l.body.owner)
    && l.body.createdBy == (if Blank(i.createdBy) then l.body.owner else TrimSpace(i.createdBy))
    && LockOwner(l.body) == l.body.owner
  }

  // The lock keeps another owner off the scope.
  ghost predicate Bars(l: CodeLock, key: string, owner: string, now: Time) {
    LockKey(l.body) == key && LeaseActive(now, l.body.expiresAt) && LockOwner(l.body) != owner
  }

  // Nothing but the queue, by one entry that names both owners, and the project's time.
  ghost predicate QueuedUp(w: World, v: World, p: Id, id: Id, scope: string, resourceId: Id, requested: string,
                           current: string, now: Time) {
    && p in w.live
    && v == w.(queue := w.queue[p := Get(w.queue, p)
                                     + [Record(id, p, QueueBody(scope, resourceId, requested, current, true, now))]],
               live := w.live[p := w.live[p].(project := w.live[p].project.(updatedAt := now))],
               owner := v.owner, nextId := id + 1)
  }

  // Nothing but the locks, by this one, and the project's time.
  ghost predicate LockFiled(w: World, v: World, p: Id, l: CodeLock, now: Time) {
    && p in w.live
    && v == w.(locks := w.locks[p := Get(w.locks, p) + [l]],
               live := w.live[p := w.live[p].(project := w.live[p].project.(updatedAt := now))],
               owner := v.owner, nextId := w.nextId + 1)
  }

  ghost predicate NoneBars(s: seq<CodeLock>, key: string, owner: string, now: Time) {
    forall k | 0 <= k < |s| :: !Bars(s[k], key, owner, now)
  }

  ghost predicate FirstBars(s: seq<CodeLock>, k: int, key: string, owner: string, now: Time) {
    0 <= k < |s| && Bars(s[k], key, owner, now) && forall j | 0 <= j < k :: !Bars(s[j], key, owner, now)
  }

  // Nothing but the queue has changed, by an entry behind the first lock that bars this one.
  ghost predicate Waits(w: World, v: World, p: Id, l: CodeLock, now: Time) {
    exists k ::
      && FirstBars(Get(w.locks, p), k, LockKey(l.body), l.body.owner, now)
      && QueuedUp(w, v, p, w.nextId + 1, LockKey(l.body), Get(w.locks, p)[k].id, l.body.owner,
                  LockOwner(Get(w.locks, p)[k].body), now)
  }

  // What becomes of the lock asked for: it is filed, or queued behind the first that bars it.
  ghost predicate LockEnds(w: World, r: Reply, p: Id, l: CodeLock, now: Time) {
    if NoneBars(Get(w.locks, p), LockKey(l.body), l.body.owner, now)
    then r.refused == None && LockFiled(w, r.world, p, l, now)
    else r.refused == Some(Conflict) && Waits(w, r.world, p, l, now)
  }

  lemma LockAskedIs(id: Id, p: Id, i: LockInput, now: Time)
    requires i.ttl >= 0 && Lower(TrimSpace(i.mode)) in {"", "file", "go_symbol"}
    ensures LockAsked(LockOf(id, p, i, now), id, p, i, now)
  {
    hide FirstNonBlank, TrimSpace, Blank, NamedFirst;
    var names := [i.owner, i.actor, TrimSpace(i.createdBy)];
    OwnerNamed(names);
    TrimSpaceBlank(i.createdBy);
    OwnerSettled(names, LockOf(id, p, i, now).body.createdBy);
  }

  lemma AcceptableIs(ps: ProjectState, i: LockInput)
    ensures LockAcceptable(ps, i) <==>
      && LockInputOk(i) && i.ttl >= 0 && (i.taskId.Some? ==> ResolveTask(ps, i.taskId).Ok?)
  {
    hide TrimSpace, Contains, Blank;
    TrimSpaceBlank(i.path);
    TrimSpaceBlank(i.content);
  }

  lemma LeaseOfLock(s: seq<CodeLock>, key: string, owner: string, now: Time)
    ensures |LockLeases(s)| == |s|
    ensures forall k | 0 <= k < |s| ::
      Bars(s[k], key, owner, now) <==> Clash(LockLeases(s)[k], LockScope(key), owner, now)
  {
    hide LockKey, LockOwner, LeaseActive;
  }

  lemma AdmitEnds(w: World, p: Id, l: CodeLock, now: Time)
    requires p in w.live && l.id == w.nextId && l.projectId == p && LockOwner(l.body) == l.body.owner
    ensures LockEnds(w, AdmitLock(w, p, l, now), p, l, now)
  {
    hide LockKey, LockOwner, FirstClash, Bars, Clash, LockLeases, Claim, Enqueue, Put, QueuedUp, LockFiled;
    var s, key := Get(w.locks, p), LockKey(l.body);
    LeaseOfLock(s, key, l.body.owner, now);
    var clash := FirstClash(LockLeases(s), LockScope(key), l.body.owner, now);
    ClaimIs(w, p);
    if clash.Some? {
      var k := clash.value;
      assert FirstBars(s, k, key, l.body.owner, now);
      QueuedIs(w, Claim(w, p, 1), p, key, s[k].id, l.body.owner, LockOwner(s[k].body), now);
      assert Waits(w, AdmitLock(w, p, l, now).world, p, l, now);
    } else {
      FiledIs(w, p, l, now);
    }
  }

  lemma QueuedIs(w: World, m: World, p: Id, scope: string, resourceId: Id, requested: string, current: string,
                 now: Time)
    requires p in w.live && m == w.(owner := m.owner, nextId := m.nextId)
    ensures var v := Enqueue(m, p, scope, resourceId, requested, current, now);
      QueuedUp(w, Put(v, p, Touch(w.live[p], now)), p, m.nextId, scope, resourceId, requested, current, now)
  {
    hide Claim;
    ClaimIs(m, p);
  }

  lemma FiledIs(w: World, p: Id, l: CodeLock, now: Time)
    requires p in w.live
    ensures var w1 := Put(Claim(w, p, 1), p, Touch(w.live[p], now));
      LockFiled(w, w1.(locks := w1.locks[p := Get(w.locks, p) + [l]]), p, l, now)
  {
    hide Claim;
    ClaimIs(w, p);
  }

  lemma ClaimIs(w: World, p: Id)
    ensures Claim(w, p, 1) == w.(owner := Claim(w, p, 1).owner, nextId := w.nextId + 1)
  {
  }

  // A lock that may be asked for is filed exactly when no lock in force on its scope is another
  // owner's; otherwise the request is queued.  Any other request changes nothing.
  lemma LockDoes(w: World, p: Id, i: LockInput, now: Time) returns (l: CodeLock)
    requires p in w.live
    ensures var r := ApplyCodeLock(w, p, i, now);
      if LockAcceptable(w.live[p], i) then LockAsked(l, w.nextId, p, i, now) && LockEnds(w, r, p, l, now)
      else r.refused in {Some(Invalid), Some(NotFound)} && r.world == w
  {
    hide LockAcceptable, LockInputOk, LockAsked, LockEnds, AdmitLock, ResolveTask;
    l := LockOf(w.nextId, p, i, now);
    AcceptableIs(w.live[p], i);
    if LockAcceptable(w.live[p], i) {
      AcceptableMode(w.live[p], i);
      LockAskedIs(w.nextId, p, i, now);
      AskedBy(l, w.nextId, p, i, now);
      AdmitEnds(w, p, l, now);
    }
  }

  lemma AcceptableMode(ps: ProjectState, i: LockInput)
    requires LockAcceptable(ps, i)
    ensures Lower(TrimSpace(i.mode)) in {"", "file", "go_symbol"} && i.ttl >= 0
  {
  }

  lemma AskedBy(l: CodeLock, id: Id, p: Id, i: LockInput, now: Time)
    requires LockAsked(l, id, p, i, now)
    ensures l.id == id && l.projectId == p && LockOwner(l.body) == l.body.owner && l.body.createdAt == now
    ensures i.ttl >= 0 && HoldsFor(l.body.expiresAt, now, i.ttl)
  {
  }

  // ----- Locks stay ---------------------------------------------------------------------

  ghost predicate LocksKept(w: World, v: World) {
    forall p :: Get(w.locks, p) <= Get(v.locks, p)
  }

  lemma LockKeeps(w: World, p: Id, i: LockInput, now: Time)
    ensures LocksKept(w, ApplyCodeLock(w, p, i, now).world)
  {
    hide LockAcceptable, ApplyCodeLock, LockAsked, LockEnds, LocksKept;
    if p in w.live {
      var l := LockDoes(w, p, i, now);
      if LockAcceptable(w.live[p], i) {
        EndsKeep(w, ApplyCodeLock(w, p, i, now), p, l, now);
      } else {
        SameKept(w, ApplyCodeLock(w, p, i, now).world);
      }
    } else {
      NotThere(w, p, i, now);
      SameKept(w, w);
    }
  }

  lemma EndsKeep(w: World, r: Reply, p: Id, l: CodeLock, now: Time)
    requires LockEnds(w, r, p, l, now)
    ensures LocksKept(w, r.world)
  {
    hide NoneBars, LockKey, LockOwner, QueuedUp, Waits;
    if NoneBars(Get(w.locks, p), LockKey(l.body), l.body.owner, now) {
    } else {
      var k := TheFirst(w, r.world, p, l, now);
      var other := Get(w.locks, p)[k];
      QueuedKeeps(w, r.world, p, other.id, LockKey(l.body), l.body.owner, LockOwner(other.body), now);
    }
  }

  lemma NotThere(w: World, p: Id, i: LockInput, now: Time)
    requires p !in w.live
    ensures ApplyCodeLock(w, p, i, now).world == w
  {
  }

  lemma OverrideKeeps(w: World, p: Id, i: OverrideInput, now: Time)
    ensures ApplyHumanOverride(w, p, i, now).world.locks == w.locks
  {
    hide OverrideInputOk, OverrideMetaOk, ResolveTask, AdmitOverride, OverrideOf;
    if p in w.live && ResolveTask(w.live[p], i.taskId).Ok? {
      var t := ResolveTask(w.live[p], i.taskId).value;
      AdmitKeepsLocks(w, p, t, OverrideOf(w.nextId, p, t.id, i, now), now);
    }
  }

  lemma AdmitKeepsLocks(w: World, p: Id, t: Task, o: Override, now: Time)
    requires p in w.live
    ensures AdmitOverride(w, p, t, o, now).world.locks == w.locks
  {
    hide FirstClash, OverrideLeases, OverrideLease, OverrideOwner, Touch, Claim, MovedOrSame, PutTask, Get;
    Clock.ClaimKeeps(w, p, 1);
  }

  lemma CheckpointKeeps(w: World, r: Id, now: Time)
    ensures Checkpoint(w, r, now).locks == w.locks
  {
    hide LatestPending, TakeOverride, Takeable, Checkpoint, PutExec, Get, NO_RUN, NO_TASK;
    if At(w, r, Checked) {
      var p := w.execs[r].projectId;
      var ps := w.live[p];
      CheckpointCases(w, r, now);
      ExecsApart(w, r, w.execs[r].(phase := Failing(NO_RUN)));
      ExecsApart(w, r, w.execs[r].(phase := Failing(NO_TASK)));
      ExecsApart(w, r, w.execs[r].(phase := Armed));
      if r in ps.runs.items && ps.runs.items[r].body.taskId in ps.tasks.items {
        var task := ps.tasks.items[ps.runs.items[r].body.taskId];
        var k := LatestPending(Get(w.overrides, p), task.id, now);
        if k.Some? {
          Clock.TakenFrom(w, p, task, k.value, now);
          ExecsApart(TakeOverride(w, p, task, k.value, now), r, w.execs[r].(phase := Armed));
        }
      }
    } else {
      Clock.NoCheckpoint(w, r, now);
    }
  }

  lemma ExecsApart(w: World, r: Id, x: Executor)
    ensures PutExec(w, r, x).locks == w.locks
  {
  }

  lemma AdmitsKeep(w: World, e: Event)
    requires Clock.Admits(e)
    ensures LocksKept(w, Step(w, e))
  {
    hide CreateProject, Machine.AddRequirement, Machine.GeneratePlan, GenerateContract, GenerateTaskContext,
      DispatchTasks, ValidateContract, RetryTask, MarkFault, ApplyHumanOverride, ApplyCodeLock, StartRun, StartParallel,
      Checkpoint, Complete, Fail, Merge, Rollback, StartPreview, Prepare, CheckFault, Break, LocksKept;
    match e
    case EvApplyCodeLock(p, i, now) => LockKeeps(w, p, i, now);
    case EvApplyHumanOverride(p, i, now) =>
      OverrideKeeps(w, p, i, now);
      SameKept(w, ApplyHumanOverride(w, p, i, now).world);
    case EvCheckpoint(r, now) =>
      CheckpointKeeps(w, r, now);
      SameKept(w, Checkpoint(w, r, now));
    case _ =>
  }

  lemma StepKeepsLocks(w: World, e: Event)
    ensures LocksKept(w, Step(w, e))
  {
    hide Step, LocksKept;
    if Clock.Plans(e) {
      Clock.PlansSame(w, e);
      SameKept(w, Step(w, e));
    } else if Clock.Admits(e) {
      AdmitsKeep(w, e);
    } else {
      Clock.OthersSame(w, e);
      SameKept(w, Step(w, e));
    }
  }

  lemma SameKept(w: World, v: World)
    requires v.locks == w.locks
    ensures LocksKept(w, v)
  {
  }

  // No section drops or changes a code lock.
  lemma {:induction false} LocksStay(w: World, events: seq<Event>)
    ensures LocksKept(w, After(w, events))
  {
    hide Step, LocksKept;
    if events == [] {
      SameKept(w, w);
    } else {
      var m := After(w, events[..|events|-1]);
      LocksStay(w, events[..|events|-1]);
      StepKeepsLocks(m, events[|events|-1]);
      KeptThen(w, m, After(w, events));
    }
  }

  lemma KeptThen(w: World, v: World, u: World)
    requires LocksKept(w, v) && LocksKept(v, u)
    ensures LocksKept(w, u)
  {
    forall p ensures Get(w.locks, p) <= Get(u.locks, p) {
      assert Get(w.locks, p) <= Get(v.locks, p) <= Get(u.locks, p);
    }
  }

  // ----- A lock holds for its term ------------------------------------------------------

  // With the lock in force, the first that bars another owner from its scope is its own owner's.
  lemma BarredByOwner(s: seq<CodeLock>, n: nat, owner: string, now: Time)
    requires n < |s| && Exclusive(LockLeases(s)) && s[n].body.createdAt <= now
    requires LeaseActive(now, s[n].body.expiresAt) && LockOwner(s[n].body) != owner
    ensures Bars(s[n], LockKey(s[n].body), owner, now)
    ensures forall k | 0 <= k <= n && Bars(s[k], LockKey(s[n].body), owner, now) ::
      LockOwner(s[k].body) == LockOwner(s[n].body)
  {
    hide LockKey, LockOwner;
    var leases := LockLeases(s);
    forall k | 0 <= k < n && Bars(s[k], LockKey(s[n].body), owner, now)
      ensures LockOwner(s[k].body) == LockOwner(s[n].body)
    {
      assert Yields(leases[k], leases[n]);
    }
  }

  lemma LocksExclusive(w: World, p: Id)
    requires Inv(w)
    ensures Exclusive(LockLeases(Get(w.locks, p)))
  {
  }

  lemma FiledLast(w: World, v: World, p: Id, l: CodeLock, now: Time)
    requires LockFiled(w, v, p, l, now)
    ensures |Get(v.locks, p)| == |Get(w.locks, p)| + 1 && Get(v.locks, p)[|Get(w.locks, p)|] == l
  {
  }

  // The request is queued behind a lock of the current owner that bars it.
  ghost predicate QueuedBehind(w: World, v: World, p: Id, key: string, requested: string, current: string, now: Time) {
    exists l ::
      && l in Get(w.locks, p) && Bars(l, key, requested, now) && LockOwner(l.body) == current
      && QueuedUp(w, v, p, w.nextId + 1, key, l.id, requested, current, now)
  }

  lemma RequestQueued(u: World, r: Reply, p: Id, mine: CodeLock, other: CodeLock, n: nat, now: Time)
    requires Exclusive(LockLeases(Get(u.locks, p))) && n < |Get(u.locks, p)| && Get(u.locks, p)[n] == mine
    requires LockEnds(u, r, p, other, now)
    requires mine.body.createdAt <= now && LeaseActive(now, mine.body.expiresAt)
    requires LockKey(other.body) == LockKey(mine.body) && LockOwner(mine.body) != other.body.owner
    ensures r.refused == Some(Conflict) && r.world.locks == u.locks
    ensures QueuedBehind(u, r.world, p, LockKey(mine.body), other.body.owner, LockOwner(mine.body), now)
  {
    hide LockKey, LockOwner, Bars, Exclusive, LockLeases, QueuedUp, LockFiled, LeaseActive, QueuedBehind;
    var s := Get(u.locks, p);
    BarredByOwner(s, n, other.body.owner, now);
    var k := FirstBarring(u, r, p, other, n, now);
    QueuedKeeps(u, r.world, p, s[k].id, LockKey(other.body), other.body.owner, LockOwner(s[k].body), now);
    BehindIt(u, r.world, p, k, LockKey(other.body), other.body.owner, LockOwner(mine.body), now);
  }

  lemma FirstBarring(u: World, r: Reply, p: Id, l: CodeLock, n: nat, now: Time) returns (k: nat)
    requires LockEnds(u, r, p, l, now)
    requires n < |Get(u.locks, p)| && Bars(Get(u.locks, p)[n], LockKey(l.body), l.body.owner, now)
    ensures r.refused == Some(Conflict)
    ensures k <= n && Bars(Get(u.locks, p)[k], LockKey(l.body), l.body.owner, now)
    ensures QueuedUp(u, r.world, p, u.nextId + 1, LockKey(l.body), Get(u.locks, p)[k].id, l.body.owner,
                     LockOwner(Get(u.locks, p)[k].body), now)
  {
    hide LockKey, LockOwner, Bars, QueuedUp, LockFiled, FirstBars, NoneBars, Get;
    SomeBars(Get(u.locks, p), n, LockKey(l.body), l.body.owner, now);
    k := TheFirst(u, r.world, p, l, now);
    FirstIsFirst(Get(u.locks, p), k, n, LockKey(l.body), l.body.owner, now);
  }

  lemma TheFirst(w: World, v: World, p: Id, l: CodeLock, now: Time) returns (k: nat)
    requires Waits(w, v, p, l, now)
    ensures FirstBars(Get(w.locks, p), k, LockKey(l.body), l.body.owner, now)
    ensures k < |Get(w.locks, p)|
    ensures QueuedUp(w, v, p, w.nextId + 1, LockKey(l.body), Get(w.locks, p)[k].id, l.body.owner,
                     LockOwner(Get(w.locks, p)[k].body), now)
  {
    hide LockKey, LockOwner, Bars, QueuedUp;
    var i :| FirstBars(Get(w.locks, p), i, LockKey(l.body), l.body.owner, now)
      && QueuedUp(w, v, p, w.nextId + 1, LockKey(l.body), Get(w.locks, p)[i].id, l.body.owner,
                  LockOwner(Get(w.locks, p)[i].body), now);
    k := i;
  }

  lemma SomeBars(s: seq<CodeLock>, n: nat, key: string, owner: string, now: Time)
    requires n < |s| && Bars(s[n], key, owner, now)
    ensures !NoneBars(s, key, owner, now)
  {
  }

  lemma FirstIsFirst(s: seq<CodeLock>, k: int, n: nat, key: string, owner: string, now: Time)
    requires FirstBars(s, k, key, owner, now) && n < |s| && Bars(s[n], key, owner, now)
    ensures k <= n && Bars(s[k], key, owner, now)
  {
    hide Bars;
  }

  lemma BehindIt(w: World, v: World, p: Id, k: nat, key: string, requested: string, current: string, now: Time)
    requires k < |Get(w.locks, p)| && Bars(Get(w.locks, p)[k], key, requested, now)
    requires LockOwner(Get(w.locks, p)[k].body) == current
    requires QueuedUp(w, v, p, w.nextId + 1, key, Get(w.locks, p)[k].id, requested, current, now)
    ensures QueuedBehind(w, v, p, key, requested, current, now)
  {
    hide Bars, QueuedUp, LockOwner;
    assert Get(w.locks, p)[k] in Get(w.locks, p);
  }

  lemma QueuedKeeps(w: World, v: World, p: Id, resourceId: Id, scope: string, requested: string, current: string,
                    now: Time)
    requires QueuedUp(w, v, p, w.nextId + 1, scope, resourceId, requested, current, now)
    ensures v.locks == w.locks
  {
  }

  // A lock asked for `ttl` seconds at t and filed keeps other owners off its scope from t until its
  // term is over, whatever happens meanwhile: their requests are queued behind its owner and refused.
  // From then on it bars nobody.
  lemma LockLasts(w: World, p: Id, i: LockInput, t: Time, events: seq<Event>, j: LockInput, now: Time)
    returns (mine: CodeLock, other: CodeLock)
    requires Inv(w) && p in w.live && ApplyCodeLock(w, p, i, t).refused.None? && t <= now
    ensures var u := After(ApplyCodeLock(w, p, i, t).world, events);
      && p in u.live && LockAsked(mine, w.nextId, p, i, t) && mine in Get(u.locks, p) && i.ttl >= 0
      && (now >= t + Term(i.ttl) ==> forall owner :: !Bars(mine, LockKey(mine.body), owner, now))
      && (LockAcceptable(u.live[p], j) ==>
            && LockAsked(other, u.nextId, p, j, now)
            && (now < t + Term(i.ttl) && LockKey(other.body) == LockKey(mine.body)
                && other.body.owner != mine.body.owner ==>
                  var r := ApplyCodeLock(u, p, j, now);
                  && r.refused == Some(Conflict) && r.world.locks == u.locks
                  && QueuedBehind(u, r.world, p, LockKey(mine.body), other.body.owner, mine.body.owner, now)))
  {
    hide Inv, ApplyCodeLock, LockAcceptable, LockAsked, LockKey, LockOwner, After, LockFiled, QueuedBehind, HoldsFor;
    mine := LockDoes(w, p, i, t);
    var v := ApplyCodeLock(w, p, i, t).world;
    AskedBy(mine, w.nextId, p, i, t);
    FiledLast(w, v, p, mine, t);
    ApplyCodeLockStep(w, p, i, t);
    StillLive(w, v, p, mine, t);
    LiveAfter(v, p, events);
    var u := After(v, events);
    LocksStay(v, events);
    var n := |Get(w.locks, p)|;
    assert Get(u.locks, p)[n] == mine;
    other := LockDoes(u, p, j, now);
    TermIs(mine, t, i.ttl, now);
    if LockAcceptable(u.live[p], j) {
      AskedBy(other, u.nextId, p, j, now);
      if now < t + Term(i.ttl) && LockKey(other.body) == LockKey(mine.body) && other.body.owner != mine.body.owner {
        LocksExclusive(u, p);
        RequestQueued(u, ApplyCodeLock(u, p, j, now), p, mine, other, n, now);
      }
    }
  }

  lemma TermIs(l: CodeLock, t: Time, ttl: nat, now: Time)
    requires HoldsFor(l.body.expiresAt, t, ttl) && t <= now
    ensures LeaseActive(now, l.body.expiresAt) <==> now < t + Term(ttl)
  {
  }

  lemma StillLive(w: World, v: World, p: Id, l: CodeLock, now: Time)
    requires LockFiled(w, v, p, l, now)
    ensures p in v.live
  {
  }

  lemma LiveAfter(v: World, p: Id, events: seq<Event>)
    requires Inv(v) && p in v.live
    ensures Inv(After(v, events)) && p in After(v, events).live
  {
    hide Inv, Grown;
    RunOk(v, events);
    RunGrows(v, events);
    LiveStays(v, After(v, events), p);
  }

  // ----- Overrides ----------------------------------------------------------------------

  ghost predicate OverrideAcceptable(i: OverrideInput) {
    && !Blank(i.instruction) && |TrimSpace(i.instruction)| <= 8192
    && |TrimSpace(i.operator)| <= 256 && |TrimSpace(i.owner)| <= 256 && |TrimSpace(i.lockScope)| <= 64 && i.ttl >= 0
  }

  // The override of task x asked for.
  ghost predicate OverrideAsked(o: Override, id: Id, p: Id, x: Id, i: OverrideInput, now: Time) {
    && o.id == id && o.projectId == p && o.body.taskId == x && o.body.instruction == TrimSpace(i.instruction)
    && o.body.lockScope == (if Blank(i.lockScope) then "TASK" else TrimSpace(i.lockScope))
    && o.body.createdAt == now && o.body.appliedAt == None && i.ttl >= 0 && HoldsFor(o.body.expiresAt, now, i.ttl)
    && NamedFirst([i.owner, i.actor, TrimSpace(i.operator)], o.body.owner)
    && o.body.operator == (if Blank(i.operator) then o.body.owner else TrimSpace(i.operator))
    && OverrideOwner(o.body) == o.body.owner
  }

  // The pending override keeps another owner off this scope of its task.
  ghost predicate Withholds(o: Override, x: Id, scope: string, owner: string, now: Time) {
    && o.body.taskId == x && ScopeName(o.body.lockScope) == scope && o.body.appliedAt == None
    && LeaseActive(now, o.body.expiresAt) && OverrideOwner(o.body) != owner
  }

  ghost predicate NoneWithholds(s: seq<Override>, o: Override, now: Time) {
    forall k | 0 <= k < |s| :: !Withholds(s[k], o.body.taskId, ScopeName(o.body.lockScope), o.body.owner, now)
  }

  ghost predicate FirstWithholds(s: seq<Override>, k: int, o: Override, now: Time) {
    && 0 <= k < |s| && Withholds(s[k], o.body.taskId, ScopeName(o.body.lockScope), o.body.owner, now)
    && forall j | 0 <= j < k :: !Withholds(s[j], o.body.taskId, ScopeName(o.body.lockScope), o.body.owner, now)
  }

  // A task in progress is handed over; one already handed over stays as it is.
  ghost predicate HandedOver(t: Task, u: Task, operator: string, now: Time) {
    if t.body.status == InProgress then Went(t, u, HumanOverride, "human override requested by " + operator, now)
    else u == t
  }

  // Nothing but the overrides, by this one, its task and the project's time.
  ghost predicate OverrideFiled(w: World, v: World, p: Id, o: Override, now: Time) {
    && p in w.live && p in v.live && o.body.taskId in w.live[p].tasks.items && o.body.taskId in v.live[p].tasks.items
    && HandedOver(w.live[p].tasks.items[o.body.taskId], v.live[p].tasks.items[o.body.taskId], o.body.operator, now)
    && v.live[p] == w.live[p].(project := w.live[p].project.(updatedAt := now),
                               tasks := Slice(w.live[p].tasks.items[o.body.taskId
                                                := v.live[p].tasks.items[o.body.taskId]],
                                              w.live[p].tasks.order))
    && v == w.(overrides := w.overrides[p := Get(w.overrides, p) + [o]], live := w.live[p := v.live[p]],
               owner := v.owner, nextId := w.nextId + 1)
  }

  // Nothing but the queue has changed, by an entry behind the first override that withholds this one.
  ghost predicate OverrideWaits(w: World, v: World, p: Id, o: Override, now: Time) {
    exists k ::
      && FirstWithholds(Get(w.overrides, p), k, o, now)
      && QueuedUp(w, v, p, w.nextId, ScopeName(o.body.lockScope), Get(w.overrides, p)[k].id, o.body.owner,
                  OverrideOwner(Get(w.overrides, p)[k].body), now)
  }

  ghost predicate OverrideEnds(w: World, r: Reply, p: Id, o: Override, now: Time) {
    if NoneWithholds(Get(w.overrides, p), o, now) then r.refused == None && OverrideFiled(w, r.world, p, o, now)
    else r.refused == Some(Conflict) && OverrideWaits(w, r.world, p, o, now)
  }

  lemma OverrideAskedIs(id: Id, p: Id, x: Id, i: OverrideInput, now: Time)
    requires i.ttl >= 0
    ensures OverrideAsked(OverrideOf(id, p, x, i, now), id, p, x, i, now)
  {
    hide FirstNonBlank, TrimSpace, Blank, NamedFirst;
    var names := [i.owner, i.actor, TrimSpace(i.operator)];
    OwnerNamed(names);
    TrimSpaceBlank(i.operator);
    TrimSpaceBlank(i.lockScope);
    OwnerSettled(names, OverrideOf(id, p, x, i, now).body.operator);
  }

  lemma OverrideAcceptableIs(i: OverrideInput)
    ensures OverrideAcceptable(i) <==> OverrideInputOk(i) && OverrideMetaOk(i)
  {
    hide TrimSpace, Blank;
    TrimSpaceBlank(i.instruction);
  }

  lemma LeaseOfOverride(s: seq<Override>, x: Id, scope: string, owner: string, now: Time)
    ensures |OverrideLeases(s)| == |s|
    ensures forall k | 0 <= k < |s| ::
      Withholds(s[k], x, scope, owner, now) <==> Clash(OverrideLeases(s)[k], OverrideScope(x, scope), owner, now)
  {
    hide ScopeName, OverrideOwner, LeaseActive;
  }

  lemma OverrideAdmitEnds(w: World, p: Id, t: Task, o: Override, now: Time)
    requires p in w.live && t.id in w.live[p].tasks.items && w.live[p].tasks.items[t.id] == t && Busy(t.body.status)
    requires o.id == w.nextId && o.projectId == p && o.body.taskId == t.id && OverrideOwner(o.body) == o.body.owner
    ensures OverrideEnds(w, AdmitOverride(w, p, t, o, now), p, o, now)
  {
    hide ScopeName, OverrideOwner, FirstClash, Withholds, Clash, OverrideLeases, Claim, Enqueue, Put, QueuedUp,
      OverrideFiled, PutTask, Touch, MovedOrSame, OVERRIDE_REQUESTED;
    var s, scope := Get(w.overrides, p), ScopeName(o.body.lockScope);
    LeaseOfOverride(s, t.id, scope, o.body.owner, now);
    var clash := FirstClash(OverrideLeases(s), OverrideScope(t.id, scope), o.body.owner, now);
    if clash.Some? {
      var k := clash.value;
      assert FirstWithholds(s, k, o, now);
      QueuedIs(w, w, p, scope, s[k].id, o.body.owner, OverrideOwner(s[k].body), now);
      EnqueueLive(w, p, scope, s[k].id, o.body.owner, OverrideOwner(s[k].body), now);
      assert OverrideWaits(w, AdmitOverride(w, p, t, o, now).world, p, o, now);
    } else {
      OverrideFiledIs(w, p, t, o, now);
    }
  }

  lemma OverrideFiledIs(w: World, p: Id, t: Task, o: Override, now: Time)
    requires p in w.live && t.id in w.live[p].tasks.items && w.live[p].tasks.items[t.id] == t && Busy(t.body.status)
    requires o.body.taskId == t.id
    ensures var moved := MovedOrSame(t.body, HumanOverride, OVERRIDE_REQUESTED + o.body.operator, now);
      var w1 := Put(Claim(w, p, 1), p, Touch(PutTask(w.live[p], t.(body := moved)), now));
      OverrideFiled(w, w1.(overrides := w1.overrides[p := Get(w.overrides, p) + [o]]), p, o, now)
  {
    hide Claim, Get;
    ClaimIs(w, p);
  }

  // An override that may be asked for is filed, and its task handed over, exactly when no pending
  // override of the task in force on its scope is another owner's; otherwise the request is queued.
  // Any other request changes nothing.
  lemma OverrideDoes(w: World, p: Id, i: OverrideInput, now: Time, x: Id) returns (o: Override)
    requires Inv(w) && p in w.live && Asks(w.live[p], i.taskId, x)
    ensures var r := ApplyHumanOverride(w, p, i, now); var tasks := w.live[p].tasks.items;
      if x !in tasks then r == Reply(w, Some(NotFound))
      else if OverrideAcceptable(i) && Busy(tasks[x].body.status)
      then OverrideAsked(o, w.nextId, p, x, i, now) && OverrideEnds(w, r, p, o, now)
      else r.refused in {Some(Invalid), Some(Conflict)} && r.world == w
  {
    hide Inv, ProjectOk, OverrideAcceptable, OverrideInputOk, OverrideMetaOk, OverrideAsked, OverrideEnds,
      AdmitOverride, ResolveTask, Asks;
    o := OverrideOf(w.nextId, p, x, i, now);
    MachineProofs.LiveOk(w, p);
    AskedFound(w.live[p], i.taskId, p);
    OverrideAcceptableIs(i);
    if x in w.live[p].tasks.items && OverrideAcceptable(i) && Busy(w.live[p].tasks.items[x].body.status) {
      AcceptableTtl(i);
      OverrideAskedIs(w.nextId, p, x, i, now);
      OverrideAskedBy(o, w.nextId, p, x, i, now);
      OverrideAdmitEnds(w, p, w.live[p].tasks.items[x], o, now);
    }
  }

  lemma AcceptableTtl(i: OverrideInput)
    requires OverrideAcceptable(i)
    ensures i.ttl >= 0
  {
  }

  lemma OverrideAskedBy(o: Override, id: Id, p: Id, x: Id, i: OverrideInput, now: Time)
    requires OverrideAsked(o, id, p, x, i, now)
    ensures o.id == id && o.projectId == p && o.body.taskId == x && OverrideOwner(o.body) == o.body.owner
    ensures o.body.createdAt == now && o.body.appliedAt == None
    ensures i.ttl >= 0 && HoldsFor(o.body.expiresAt, now, i.ttl)
  {
  }

  // ----- An override holds for its term -------------------------------------------------

  // With the override in force, the first that withholds its scope from another owner is its own
  // owner's.
  lemma WithheldByOwner(s: seq<Override>, n: nat, o: Override, now: Time)
    requires n < |s| && Exclusive(OverrideLeases(s)) && s[n].body.createdAt <= now
    requires Withholds(s[n], o.body.taskId, ScopeName(o.body.lockScope), o.body.owner, now)
    ensures forall k | 0 <= k <= n && Withholds(s[k], o.body.taskId, ScopeName(o.body.lockScope), o.body.owner, now) ::
      OverrideOwner(s[k].body) == OverrideOwner(s[n].body)
  {
    hide ScopeName, OverrideOwner;
    var leases := OverrideLeases(s);
    forall k | 0 <= k < n && Withholds(s[k], o.body.taskId, ScopeName(o.body.lockScope), o.body.owner, now)
      ensures OverrideOwner(s[k].body) == OverrideOwner(s[n].body)
    {
      assert Yields(leases[k], leases[n]);
    }
  }

  // The request is queued behind an override of the current owner.
  ghost predicate OverrideBehind(w: World, v: World, p: Id, o: Override, current: string, now: Time) {
    exists k ::
      && k in Get(w.overrides, p) && OverrideOwner(k.body) == current
      && Withholds(k, o.body.taskId, ScopeName(o.body.lockScope), o.body.owner, now)
      && QueuedUp(w, v, p, w.nextId, ScopeName(o.body.lockScope), k.id, o.body.owner, current, now)
  }

  lemma OverrideQueued(u: World, r: Reply, p: Id, mine: Override, o: Override, now: Time)
    requires Exclusive(OverrideLeases(Get(u.overrides, p))) && mine in Get(u.overrides, p)
    requires OverrideEnds(u, r, p, o, now) && mine.body.createdAt <= now
    requires Withholds(mine, o.body.taskId, ScopeName(o.body.lockScope), o.body.owner, now)
    ensures r.refused == Some(Conflict)
    ensures OverrideBehind(u, r.world, p, o, OverrideOwner(mine.body), now)
  {
    hide ScopeName, OverrideOwner, Withholds, Exclusive, OverrideLeases, QueuedUp, OverrideFiled, Get;
    var s := Get(u.overrides, p);
    var n :| 0 <= n < |s| && s[n] == mine;
    WithheldByOwner(s, n, o, now);
    var k :| FirstWithholds(s, k, o, now)
      && QueuedUp(u, r.world, p, u.nextId, ScopeName(o.body.lockScope), s[k].id, o.body.owner,
                  OverrideOwner(s[k].body), now);
    assert s[k] in s && k <= n;
  }

  lemma OverridesExclusive(w: World, p: Id)
    requires Inv(w)
    ensures Exclusive(OverrideLeases(Get(w.overrides, p)))
  {
  }

  // An override asked for `ttl` seconds at t and filed keeps other owners off its scope from t until
  // its term is over, as long as no checkpoint or rollback takes it away: their requests are queued
  // behind its owner and refused.  From then on it withholds nothing.
  lemma OverrideLasts(w: World, p: Id, i: OverrideInput, t: Time, x: Id, u: World, j: OverrideInput, now: Time)
    returns (mine: Override, other: Override)
    requires Inv(w) && p in w.live && Asks(w.live[p], i.taskId, x)
    requires ApplyHumanOverride(w, p, i, t).refused.None? && t <= now
    requires Inv(u) && p in u.live && Asks(u.live[p], j.taskId, x)
    ensures OverrideAsked(mine, w.nextId, p, x, i, t) && i.ttl >= 0
    ensures mine in Get(ApplyHumanOverride(w, p, i, t).world.overrides, p)
    ensures now >= t + Term(i.ttl) ==> forall owner :: !Withholds(mine, x, ScopeName(mine.body.lockScope), owner, now)
    ensures x in u.live[p].tasks.items && OverrideAcceptable(j) && Busy(u.live[p].tasks.items[x].body.status) ==>
              && OverrideAsked(other, u.nextId, p, x, j, now)
              && (mine in Get(u.overrides, p) && now < t + Term(i.ttl) && other.body.owner != mine.body.owner
                  && ScopeName(other.body.lockScope) == ScopeName(mine.body.lockScope) ==>
                    var r := ApplyHumanOverride(u, p, j, now);
                    r.refused == Some(Conflict) && OverrideBehind(u, r.world, p, other, mine.body.owner, now))
  {
    hide Inv, ApplyHumanOverride, OverrideAcceptable, OverrideAsked, ScopeName, OverrideOwner, OverrideEnds,
      OverrideBehind, HoldsFor, Asks;
    mine := OverrideDoes(w, p, i, t, x);
    other := OverrideDoes(u, p, j, now, x);
    OverrideAskedBy(mine, w.nextId, p, x, i, t);
    FiledOverride(w, ApplyHumanOverride(w, p, i, t), p, mine, t);
    OverrideTermIs(mine, t, i.ttl, now);
    if x in u.live[p].tasks.items && OverrideAcceptable(j) && Busy(u.live[p].tasks.items[x].body.status) {
      OverrideAskedBy(other, u.nextId, p, x, j, now);
      if mine in Get(u.overrides, p) && now < t + Term(i.ttl) && other.body.owner != mine.body.owner
         && ScopeName(other.body.lockScope) == ScopeName(mine.body.lockScope) {
        OverridesExclusive(u, p);
        OverrideQueued(u, ApplyHumanOverride(u, p, j, now), p, mine, other, now);
      }
    }
  }

  lemma FiledOverride(w: World, r: Reply, p: Id, o: Override, now: Time)
    requires OverrideEnds(w, r, p, o, now) && r.refused.None?
    ensures o in Get(r.world.overrides, p)
  {
    hide Withholds, HandedOver;
    var s := Get(r.world.overrides, p);
    assert s[|s|-1] == o;
  }

  lemma OverrideTermIs(o: Override, t: Time, ttl: nat, now: Time)
    requires HoldsFor(o.body.expiresAt, t, ttl) && t <= now
    ensures LeaseActive(now, o.body.expiresAt) <==> now < t + Term(ttl)
  {
  }
}
