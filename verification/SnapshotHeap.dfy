// The objects and slices of a project that steps change in place: the live ones and the clones
// held by snapshots share neither objects nor the arrays behind their slices, so no update of a
// live one reaches a snapshot.
module SnapshotHeap {
  import opened Records
  import opened Domain

  // The project, its tasks, runs and sandboxes, and its three order slices.
  datatype Name =
    | TheProject | TaskNamed(id: Id) | RunNamed(id: Id) | BoxNamed(id: Id)
    | TaskOrder | RunOrder | ArtifactOrder

  // The fields that steps assign to.
  datatype Head =
    | ProjectHead(updatedAt: Time)
    | TaskHead(status: TaskStatus, outputRef: string, updatedAt: Time)
    | RunHead(run: RunStatus, usage: Usage, summary: string, failure: string, endedAt: Option<Time>)
    | BoxHead(box: SandboxStatus, failure: string, updatedAt: Time)
    | OrderHead

  // What steps append to slices: the audit trail of a task, the ids of an order or of a run's artifacts.
  datatype Entry = Audited(transition: Transition) | Listed(id: Id)

  datatype Value = Value(head: Head, trail: seq<Entry>)

  // What TransitionTo makes of a task.
  function Transitioned(v: Value, next: TaskStatus, reason: string, now: Time): Value
    requires v.head.TaskHead?
  {
    if !Allowed(v.head.status, next) then v
    else Value(v.head.(status := next, updatedAt := now),
               v.trail + [Audited(Transition(Some(v.head.status), next, reason, now))])
  }

  // One object with its slice: the first `length` entries of an array with room to grow.
  class Cell {
    var head: Head
    var trail: array<Entry>
    var length: nat

    ghost predicate Ok()
      reads this
    {
      length <= trail.Length
    }

    ghost function Says(): Value
      requires Ok()
      reads this, trail
    {
      Value(head, trail[..length])
    }

    constructor (head: Head, trail: array<Entry>, length: nat)
      requires length <= trail.Length
      ensures this.head == head && this.trail == trail && this.length == length
    {
      this.head, this.trail, this.length := head, trail, length;
    }

    // append: in place while there is room, otherwise the slice moves to a larger array.
    method Append(entry: Entry)
      requires Ok()
      modifies this, trail
      ensures Ok() && (trail == old(trail) || fresh(trail))
      ensures Says() == Value(old(head), old(Says()).trail + [entry])
    {
      if length == trail.Length {
        var grown := new Entry[2 * length + 1](_ => entry);
        for i := 0 to length
          invariant length == old(length) && trail == old(trail) && trail[..] == old(trail[..]) && unchanged(this)
          invariant forall k | 0 <= k < i :: grown[k] == trail[k]
        {
          grown[i] := trail[i];
        }
        trail := grown;
      }
      trail[length] := entry;
      length := length + 1;
    }

    // TransitionTo.
    method TransitionTo(next: TaskStatus, reason: string, now: Time) returns (ok: bool)
      requires Ok() && head.TaskHead?
      modifies this, trail
      ensures Ok() && (trail == old(trail) || fresh(trail))
      ensures ok == Allowed(old(head).status, next) && Says() == Transitioned(old(Says()), next, reason, now)
    {
      ok := Allowed(head.status, next);
      if !ok {
        return;
      }
      Append(Audited(Transition(Some(head.status), next, reason, now)));
      head := head.(status := next, updatedAt := now);
    }

    // Assigning fields, and appending to the slice if there is something to append.
    method Change(next: Head, entry: Option<Entry>)
      requires Ok()
      modifies this, trail
      ensures Ok() && (trail == old(trail) || fresh(trail))
      ensures Says() == Value(next, old(Says()).trail + if entry.Some? then [entry.value] else [])
    {
      if entry.Some? {
        Append(entry.value);
      }
      head := next;
    }

    // cloneTask and its likes: a new object with an array of its own.
    method Clone() returns (c: Cell)
      requires Ok()
      ensures fresh(c) && fresh(c.trail) && c.Ok() && c.Says() == Says()
    {
      var copied := new Entry[length](i requires 0 <= i < length && length <= trail.Length reads this,
                                      trail => trail[i]);
      c := new Cell(head, copied, length);
      assert copied[..length] == trail[..length];
    }
  }

  // Pairwise different objects with pairwise different arrays.
  ghost predicate Separate(m: map<Name, Cell>)
    reads m.Values
  {
    forall t, u | t in m && u in m && t != u :: m[t] != m[u] && m[t].trail != m[u].trail
  }

  // Each copy says what its original says.
  ghost predicate Alike(source: map<Name, Cell>, copies: map<Name, Cell>)
    reads source.Values, copies.Values, set c | c in source.Values :: c.trail, set c | c in copies.Values :: c.trail
  {
    forall t | t in copies :: t in source && source[t].Ok() && copies[t].Ok() && copies[t].Says() == source[t].Says()
  }

  // cloneTaskMap and its likes: new objects, new arrays, the same values.
  method CloneAll(source: map<Name, Cell>) returns (copies: map<Name, Cell>)
    requires forall t | t in source :: source[t].Ok()
    ensures copies.Keys == source.Keys && Separate(copies) && Alike(source, copies)
    ensures forall t | t in copies :: fresh(copies[t]) && fresh(copies[t].trail)
  {
    copies := map[];
    var rest := source.Keys;
    while rest != {}
      invariant rest <= source.Keys && copies.Keys == source.Keys - rest
      invariant Separate(copies) && Alike(source, copies)
      invariant forall t | t in copies :: fresh(copies[t]) && fresh(copies[t].trail)
      decreases |rest|
    {
      var t := AnyOf(rest);
      var c := source[t].Clone();
      copies := copies[t := c];
      rest := rest - {t};
    }
  }

  // Where an object is kept: in the live project, or in a snapshot.
  datatype Slot = Live(name: Name) | Stored(snapshot: Id, name: Name)

  // `cells` is what the two maps hold together.
  ghost predicate Synced(live: map<Name, Cell>, saved: map<Id, map<Name, Cell>>, cells: map<Slot, Cell>) {
    && (forall t :: Live(t) in cells <==> t in live)
    && (forall t | t in live :: cells[Live(t)] == live[t])
    && (forall s, t :: Stored(s, t) in cells <==> s in saved && t in saved[s])
    && (forall s, t | s in saved && t in saved[s] :: cells[Stored(s, t)] == saved[s][t])
  }

  // No two slots share an object or the array behind a slice.
  ghost predicate Apart(cells: map<Slot, Cell>)
    reads cells.Values
  {
    && (forall a | a in cells :: cells[a].Ok())
    && (forall a, b | a in cells && b in cells && a != b :: cells[a] != cells[b] && cells[a].trail != cells[b].trail)
  }

  // What the objects say, slot by slot.
  ghost function Said(cells: map<Slot, Cell>): map<Slot, Value>
    requires Apart(cells)
    reads cells.Values, set c | c in cells.Values :: c.trail
  {
    map a | a in cells :: cells[a].Says()
  }

  function InSnapshot(s: Id, m: map<Name, Cell>): map<Slot, Cell> {
    map a | a in (set t | t in m :: Stored(s, t)) :: m[a.name]
  }

  function AmongLive(m: map<Name, Cell>): map<Slot, Cell> {
    map a | a in (set t | t in m :: Live(t)) :: m[a.name]
  }

  ghost function StoredOnly(cells: map<Slot, Cell>): map<Slot, Cell> {
    map a | a in cells && a.Stored? :: cells[a]
  }

  lemma SyncedCapture(live: map<Name, Cell>, saved: map<Id, map<Name, Cell>>, cells: map<Slot, Cell>, s: Id,
                      copies: map<Name, Cell>)
    requires Synced(live, saved, cells) && s !in saved
    ensures Synced(live, saved[s := copies], cells + InSnapshot(s, copies))
    ensures forall t :: Stored(s, t) !in cells
  {
  }

  lemma SyncedRestore(live: map<Name, Cell>, saved: map<Id, map<Name, Cell>>, cells: map<Slot, Cell>,
                      copies: map<Name, Cell>)
    requires Synced(live, saved, cells)
    ensures Synced(copies, saved, StoredOnly(cells) + AmongLive(copies))
  {
  }

  // New objects and arrays can join old ones.
  lemma ApartJoin(a: map<Slot, Cell>, b: map<Slot, Cell>)
    requires Apart(a) && Apart(b) && a.Keys !! b.Keys
    requires forall x, y | x in a && y in b :: a[x] != b[y] && a[x].trail != b[y].trail
    ensures Apart(a + b)
  {
  }

  lemma ApartCopies(m: map<Name, Cell>, s: Id)
    requires Separate(m) && forall t | t in m :: m[t].Ok()
    ensures Apart(InSnapshot(s, m)) && Apart(AmongLive(m))
  {
  }

  // The copies share nothing with the cells.
  ghost predicate Strange(cells: map<Slot, Cell>, copies: map<Name, Cell>)
    reads cells.Values, copies.Values
  {
    && Separate(copies) && (forall t | t in copies :: copies[t].Ok())
    && (forall a, t | a in cells && t in copies :: cells[a] != copies[t] && cells[a].trail != copies[t].trail)
  }

  lemma SavedApart(cells: map<Slot, Cell>, s: Id, copies: map<Name, Cell>)
    requires Apart(cells) && Strange(cells, copies) && forall t :: Stored(s, t) !in cells
    ensures Apart(cells + InSnapshot(s, copies))
  {
    ApartCopies(copies, s);
    ApartJoin(cells, InSnapshot(s, copies));
  }

  lemma RevivedApart(cells: map<Slot, Cell>, copies: map<Name, Cell>)
    requires Apart(cells) && Strange(cells, copies)
    ensures Apart(StoredOnly(cells) + AmongLive(copies))
  {
    ApartCopies(copies, 0);
    StoredApart(cells);
    ApartJoin(StoredOnly(cells), AmongLive(copies));
  }

  class Board {
    var live: map<Name, Cell>
    var saved: map<Id, map<Name, Cell>>
    ghost var cells: map<Slot, Cell>

    ghost predicate Valid()
      reads this, cells.Values
    {
      Synced(live, saved, cells) && Apart(cells)
    }

    ghost function Values(): map<Slot, Value>
      requires Valid()
      reads this, cells.Values, set c | c in cells.Values :: c.trail
    {
      Said(cells)
    }

    constructor ()
      ensures Valid() && Values() == map[]
    {
      live, saved, cells := map[], map[], map[];
    }

    // Changing a live object changes that object and nothing else: no other one and no snapshot.
    method Change(t: Name, next: Head, entry: Option<Entry>)
      requires Valid() && t in live
      modifies live[t], live[t].trail
      ensures Valid() && Live(t) in old(Values())
      ensures live[t].trail == old(live[t].trail) || fresh(live[t].trail)
      ensures var trail := old(Values())[Live(t)].trail + if entry.Some? then [entry.value] else [];
        Values() == old(Values())[Live(t) := Value(next, trail)]
    {
      assert cells[Live(t)] == live[t];
      hide Synced;
      live[t].Change(next, entry);
      forall a | a in cells && a != Live(t) ensures cells[a].Says() == old(cells[a].Says()) {
        assert cells[a] != live[t] && old(cells[a].trail) != old(live[t].trail);
      }
    }

    // A new live object, or a new one in place of another.
    method Put(t: Name, c: Cell)
      requires Valid() && c.Ok() && forall a | a in cells :: cells[a] != c && cells[a].trail != c.trail
      modifies this`live, this`cells
      ensures Valid() && live == old(live)[t := c] && cells == old(cells)[Live(t) := c]
    {
      live, cells := live[t := c], cells[Live(t) := c];
    }

    method Save(s: Id, copies: map<Name, Cell>)
      requires Valid() && s !in saved && Strange(cells, copies)
      modifies this`saved, this`cells
      ensures Valid() && saved == old(saved)[s := copies] && cells == old(cells) + InSnapshot(s, copies)
    {
      hide Apart, Strange;
      SyncedCapture(live, saved, cells, s, copies);
      hide Synced;
      SavedApart(cells, s, copies);
      saved, cells := saved[s := copies], cells + InSnapshot(s, copies);
    }

    method Revive(copies: map<Name, Cell>)
      requires Valid() && Strange(cells, copies)
      modifies this`live, this`cells
      ensures Valid() && live == copies && cells == StoredOnly(old(cells)) + AmongLive(copies)
    {
      hide Synced, Apart, Strange;
      SyncedRestore(live, saved, cells, copies);
      RevivedApart(cells, copies);
      cells := StoredOnly(cells) + AmongLive(copies);
      live := copies;
    }

    // captureProjectSnapshotStateLocked: the snapshot gets clones of the live tasks.  No task
    // object is written.
    method Capture(s: Id)
      requires Valid() && s !in saved
      modifies this`saved, this`cells
      ensures Valid() && s in saved && saved == old(saved)[s := saved[s]]
      ensures cells == old(cells) + InSnapshot(s, saved[s])
      ensures saved[s].Keys == live.Keys && Alike(live, saved[s])
    {
      hide Synced, Says;
      LiveOk();
      var copies := CloneAll(live);
      assert Strange(cells, copies);
      hide Apart, Strange, Separate;
      Save(s, copies);
    }

    // restoreProjectFromSnapshotLocked: the live tasks become clones of the snapshot's.
    method Restore(s: Id)
      requires Valid() && s in saved
      modifies this`live, this`cells
      ensures Valid() && cells == StoredOnly(old(cells)) + AmongLive(live)
      ensures live.Keys == saved[s].Keys && Alike(saved[s], live)
    {
      hide Synced;
      SavedOk(s);
      var copies := CloneAll(saved[s]);
      assert Strange(cells, copies);
      hide Apart, Strange, Separate;
      Revive(copies);
    }

    // A live task shares nothing with any snapshot.
    lemma StoredAway(s: Id, t: Name)
      requires Valid() && s in saved && t in live
      ensures forall u | u in saved[s] ::
        saved[s][u] != live[t] && saved[s][u].trail != live[t].trail && saved[s][u].Ok()
    {
      assert Live(t) in cells;
      forall u | u in saved[s]
        ensures saved[s][u] != live[t] && saved[s][u].trail != live[t].trail && saved[s][u].Ok()
      {
        assert Stored(s, u) in cells;
      }
    }

    lemma LiveOk()
      requires Valid()
      ensures forall t | t in live :: Live(t) in cells && cells[Live(t)] == live[t] && live[t].Ok()
    {
    }

    lemma SavedOk(s: Id)
      requires Valid() && s in saved
      ensures forall t | t in saved[s] ::
        Stored(s, t) in cells && cells[Stored(s, t)] == saved[s][t] && saved[s][t].Ok()
    {
    }
  }

  lemma StoredApart(cells: map<Slot, Cell>)
    requires Apart(cells)
    ensures Apart(StoredOnly(cells))
  {
  }

  // What a group of objects says.
  ghost function Says(m: map<Name, Cell>): map<Name, Value>
    requires forall t | t in m :: m[t].Ok()
    reads m.Values, set c | c in m.Values :: c.trail
  {
    map t | t in m :: m[t].Says()
  }

  // Changing a live object leaves a group it shares nothing with as it was.
  method ChangeAside(b: Board, ghost stored: map<Name, Cell>, t: Name, next: Head, entry: Option<Entry>)
    requires b.Valid() && t in b.live
    requires forall u | u in stored :: stored[u] != b.live[t] && stored[u].trail != b.live[t].trail && stored[u].Ok()
    modifies b.live[t], b.live[t].trail
    ensures b.Valid() && (b.live[t].trail == old(b.live[t].trail) || fresh(b.live[t].trail))
    ensures (forall u | u in stored :: stored[u].Ok()) && Says(stored) == old(Says(stored))
  {
    hide Synced, Apart;
    b.Change(t, next, entry);
    assert forall u | u in stored :: stored[u].Ok() && stored[u].Says() == old(stored[u].Says());
  }

  // What steps do to the objects of a project: change one, or make a new one.
  datatype Act = Changes(name: Name, next: Head, entry: Option<Entry>) | Makes(name: Name, next: Head)

  // The live objects and the arrays behind them.
  ghost function Objects(b: Board): set<object>
    reads b, b.live.Values
  {
    b.live.Values + set c | c in b.live.Values :: c.trail
  }

  // One object changed: the others' arrays are where they were.
  method ActChange(b: Board, s: Id, t: Name, next: Head, entry: Option<Entry>)
    requires b.Valid() && s in b.saved && t in b.live && forall u | u in b.saved[s] :: b.saved[s][u].Ok()
    modifies b.live[t], b.live[t].trail
    ensures b.Valid() && b.saved == old(b.saved) && forall o | o in Objects(b) :: o in old(Objects(b)) || fresh(o)
    ensures (forall u | u in b.saved[s] :: b.saved[s][u].Ok()) && Says(b.saved[s]) == old(Says(b.saved[s]))
  {
    hide Synced, Apart, Says;
    b.StoredAway(s, t);
    ChangeAside(b, b.saved[s], t, next, entry);
    forall o | o in Objects(b) ensures o in old(Objects(b)) || fresh(o) {
      assert b.live.Values == old(b.live.Values);
    }
  }

  method NewCell(next: Head) returns (c: Cell)
    ensures fresh(c) && fresh(c.trail) && c.Ok()
  {
    var trail := new Entry[0];
    c := new Cell(next, trail, 0);
  }

  method ActMake(b: Board, s: Id, t: Name, next: Head)
    requires b.Valid() && s in b.saved && forall u | u in b.saved[s] :: b.saved[s][u].Ok()
    modifies b`live, b`cells
    ensures b.Valid() && b.saved == old(b.saved) && forall o | o in Objects(b) :: o in old(Objects(b)) || fresh(o)
    ensures (forall u | u in b.saved[s] :: b.saved[s][u].Ok()) && Says(b.saved[s]) == old(Says(b.saved[s]))
  {
    hide Synced, Says, Apart;
    var c := NewCell(next);
    b.Put(t, c);
    assert b.live.Values <= old(b.live.Values) + {c};
    forall o | o in Objects(b) ensures o in old(Objects(b)) || fresh(o) {
    }
  }

  method ActOnce(b: Board, s: Id, act: Act)
    requires b.Valid() && s in b.saved && forall u | u in b.saved[s] :: b.saved[s][u].Ok()
    modifies b`live, b`cells, Objects(b)
    ensures b.Valid() && b.saved == old(b.saved) && forall o | o in Objects(b) :: o in old(Objects(b)) || fresh(o)
    ensures (forall u | u in b.saved[s] :: b.saved[s][u].Ok()) && Says(b.saved[s]) == old(Says(b.saved[s]))
  {
    hide Synced, Apart, Says;
    match act
    case Changes(t, next, entry) =>
      if t in b.live {
        assert b.live[t] in Objects(b) && b.live[t].trail in Objects(b);
        hide Objects;
        ActChange(b, s, t, next, entry);
      }
    case Makes(t, next) =>
      hide Objects;
      ActMake(b, s, t, next);
  }

  // Whatever is done to live objects, any number of times, changes no snapshot.
  method ActMany(b: Board, s: Id, acts: seq<Act>)
    requires b.Valid() && s in b.saved && forall u | u in b.saved[s] :: b.saved[s][u].Ok()
    modifies b`live, b`cells, Objects(b)
    ensures b.Valid() && b.saved == old(b.saved) && forall o | o in Objects(b) :: o in old(Objects(b)) || fresh(o)
    ensures (forall u | u in b.saved[s] :: b.saved[s][u].Ok()) && Says(b.saved[s]) == old(Says(b.saved[s]))
  {
    hide Synced, Apart, Says, Objects;
    ghost var said := Says(b.saved[s]);
    for i := 0 to |acts|
      invariant b.Valid() && b.saved == old(b.saved) && forall o | o in Objects(b) :: o in old(Objects(b)) || fresh(o)
      invariant (forall u | u in b.saved[s] :: b.saved[s][u].Ok()) && Says(b.saved[s]) == said
    {
      ActOnce(b, s, acts[i]);
    }
  }

  // What a snapshot stored is what a rollback brings back, whatever happened to the live objects in
  // between.
  method CaptureActRestore(b: Board, s: Id, acts: seq<Act>)
    requires b.Valid() && s !in b.saved && forall u | u in b.live :: b.live[u].Ok()
    modifies b, Objects(b)
    ensures b.Valid() && (forall u | u in b.live :: b.live[u].Ok()) && Says(b.live) == old(Says(b.live))
  {
    hide Synced, Apart, Alike;
    SaveLive(b, s);
    ActMany(b, s, acts);
    ReviveSaved(b, s);
  }

  method SaveLive(b: Board, s: Id)
    requires b.Valid() && s !in b.saved && forall u | u in b.live :: b.live[u].Ok()
    modifies b
    ensures b.Valid() && b.live == old(b.live) && s in b.saved && (forall u | u in b.saved[s] :: b.saved[s][u].Ok())
    ensures Says(b.saved[s]) == old(Says(b.live))
  {
    hide Synced, Apart, Alike;
    ghost var said := Says(b.live);
    b.Capture(s);
    assert Says(b.live) == said;
    SaysAlike(b.live, b.saved[s]);
  }

  method ReviveSaved(b: Board, s: Id)
    requires b.Valid() && s in b.saved && forall u | u in b.saved[s] :: b.saved[s][u].Ok()
    modifies b
    ensures b.Valid() && (forall u | u in b.live :: b.live[u].Ok()) && Says(b.live) == old(Says(b.saved[s]))
  {
    hide Synced, Apart, Alike;
    ghost var stored := b.saved[s];
    ghost var said := Says(stored);
    b.Restore(s);
    assert Says(stored) == said;
    SaysAlike(stored, b.live);
  }

  lemma SaysAlike(a: map<Name, Cell>, b: map<Name, Cell>)
    requires a.Keys == b.Keys && Alike(a, b)
    ensures (forall t | t in a :: a[t].Ok()) && (forall t | t in b :: b[t].Ok()) && Says(a) == Says(b)
  {
    assert forall t | t in a :: a[t].Ok() && b[t].Ok() && b[t].Says() == a[t].Says();
  }
}
