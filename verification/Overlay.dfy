// Laying human code locks over a generated bundle.
module Overlay {
  import opened Records
  import opened Domain
  import opened Text
  import opened Leases
  import opened Machine
  import opened MachineProofs

  // A file of the bundle is known by the segments of its cleaned path.
  type Key = seq<string>

  function FirstSlash(s: string): (n: nat)
    ensures n <= |s| && (n < |s| ==> s[n] == '/')
  {
    if s == [] || s[0] == '/' then 0 else 1 + FirstSlash(s[1..])
  }

  // filepath.Join cleans the path: empty segments and "." go away.  Admitted paths have no "..".
  function Target(path: string): Key
    decreases |path|
  {
    if path == [] then []
    else
      var n := FirstSlash(path);
      (if path[..n] == "" || path[..n] == "." then [] else [path[..n]])
      + Target(if n == |path| then [] else path[n+1..])
  }

  // A path without slashes is its own segment, unless it is empty or "." ...
  lemma TargetOne(path: string)
    requires '/' !in path
    ensures Target(path) == if path == "" || path == "." then [] else [path]
  {
    if path != "" {
      NoSlash(path);
      assert path[..|path|] == path;
    }
  }

  // ... and the segments of a path are those before a slash and those after it.
  lemma {:induction false} TargetJoin(a: string, b: string)
    ensures Target(a + "/" + b) == Target(a) + Target(b)
    decreases |a|
  {
    hide Target;
    var path, n := a + "/" + b, FirstSlash(a);
    SlashOf(a, b);
    TargetUnfolds(path);
    assert path[..n] == a[..n];
    if n == |a| {
      assert path[n+1..] == b && a[..n] == a;
      SlashAtEnd(a);
      TargetOne(a);
    } else {
      assert path[n+1..] == a[n+1..] + "/" + b;
      TargetJoin(a[n+1..], b);
      TargetUnfolds(a);
    }
  }

  lemma {:induction false} SlashAtEnd(s: string)
    requires FirstSlash(s) == |s|
    ensures '/' !in s
  {
    if s != [] {
      assert s == [s[0]] + s[1..];
      SlashAtEnd(s[1..]);
    }
  }

  lemma TargetUnfolds(path: string)
    requires path != "" && FirstSlash(path) < |path|
    ensures var n := FirstSlash(path);
      Target(path) == (if path[..n] == "" || path[..n] == "." then [] else [path[..n]]) + Target(path[n+1..])
  {
  }

  lemma {:induction false} SlashOf(a: string, b: string)
    ensures FirstSlash(a + "/" + b) == FirstSlash(a)
  {
    if a == [] || a[0] == '/' {
    } else {
      SlashOf(a[1..], b);
      assert (a + "/" + b)[1..] == a[1..] + "/" + b;
    }
  }

  lemma {:induction false} NoSlash(s: string)
    requires '/' !in s
    ensures FirstSlash(s) == |s|
  {
    if s != [] {
      assert s == [s[0]] + s[1..];
      NoSlash(s[1..]);
    }
  }

  const LOG: Key := ["metadata", "lock-conflicts.log"]

  // ----- Which locks win ----------------------------------------------------------------

  predicate Applies(l: CodeLock, taskId: Id, now: Time) {
    LeaseActive(now, l.body.expiresAt) && (l.body.taskId.None? || l.body.taskId == Some(taskId))
  }

  function Winners(locks: seq<CodeLock>, taskId: Id, now: Time): map<string, LockBody> {
    if locks == [] then map[]
    else
      var before := Winners(locks[..|locks|-1], taskId, now);
      var l := locks[|locks|-1];
      if Applies(l, taskId, now) then before[LockKey(l.body) := l.body] else before
  }

  // The notes about locks of different owners on one scope.
  function OwnerNotes(locks: seq<CodeLock>, taskId: Id, now: Time): seq<string> {
    if locks == [] then []
    else
      var before := OwnerNotes(locks[..|locks|-1], taskId, now);
      var winners := Winners(locks[..|locks|-1], taskId, now);
      var l := locks[|locks|-1].body;
      if Applies(locks[|locks|-1], taskId, now) && LockKey(l) in winners
        && LockOwner(winners[LockKey(l)]) != LockOwner(l)
      then before + ["conflicting active code locks for " + l.path + " between " + LockOwner(winners[LockKey(l)])
                     + " and " + LockOwner(l)]
      else before
  }

  // Lock i is on the scope, in force, and of this task or of none.
  predicate On(locks: seq<CodeLock>, taskId: Id, now: Time, scope: string, i: int) {
    && 0 <= i < |locks| && LockKey(locks[i].body) == scope
    && (locks[i].body.expiresAt.Some? ==> now < locks[i].body.expiresAt.value)
    && (locks[i].body.taskId.Some? ==> locks[i].body.taskId.value == taskId)
  }

  // For each scope the last applicable lock wins, and only such scopes have a winner.
  lemma {:induction false} LastWins(locks: seq<CodeLock>, taskId: Id, now: Time, scope: string)
    ensures var w := Winners(locks, taskId, now);
      if scope in w
      then exists i ::
        && On(locks, taskId, now, scope, i) && w[scope] == locks[i].body
        && forall j | i < j < |locks| :: !On(locks, taskId, now, scope, j)
      else forall i :: !On(locks, taskId, now, scope, i)
  {
    hide LockKey;
    if locks == [] {
    } else {
      var n := |locks| - 1;
      var init := locks[..n];
      LastWins(init, taskId, now, scope);
      assert forall i | 0 <= i < n :: init[i] == locks[i];
      if On(locks, taskId, now, scope, n) {
      } else if scope in Winners(init, taskId, now) {
        var i :| On(init, taskId, now, scope, i) && Winners(init, taskId, now)[scope] == init[i].body
          && forall j | i < j < n :: !On(init, taskId, now, scope, j);
        assert On(locks, taskId, now, scope, i);
        forall j | i < j < |locks| ensures !On(locks, taskId, now, scope, j) {
          if j < n {
            assert !On(init, taskId, now, scope, j);
          }
        }
      } else {
        forall i: int ensures !On(locks, taskId, now, scope, i) {
          if i < n {
            assert !On(init, taskId, now, scope, i);
          }
        }
      }
    }
  }

  lemma OwnersMeet(locks: seq<CodeLock>, taskId: Id, now: Time, i: nat, n: nat)
    requires Exclusive(LockLeases(locks)) && forall j | 0 <= j < |locks| :: locks[j].body.createdAt <= now
    requires i < |locks| && n < |locks| && Applies(locks[i], taskId, now) && Applies(locks[n], taskId, now)
    requires LockKey(locks[i].body) == LockKey(locks[n].body)
    ensures LockOwner(locks[i].body) == LockOwner(locks[n].body)
  {
    hide LockKey, LockOwner, Exclusive;
    OneOwner(LockLeases(locks), now, i, n);
  }

  lemma PrefixExclusive(locks: seq<CodeLock>)
    requires locks != [] && Exclusive(LockLeases(locks))
    ensures Exclusive(LockLeases(locks[..|locks|-1]))
  {
    hide LockLease;
    assert LockLeases(locks[..|locks|-1]) == LockLeases(locks)[..|locks|-1];
  }

  lemma WinnerAgrees(locks: seq<CodeLock>, taskId: Id, now: Time, n: nat)
    requires Exclusive(LockLeases(locks)) && forall i | 0 <= i < |locks| :: locks[i].body.createdAt <= now
    requires n < |locks| && Applies(locks[n], taskId, now) && LockKey(locks[n].body) in Winners(locks[..n], taskId, now)
    ensures LockOwner(Winners(locks[..n], taskId, now)[LockKey(locks[n].body)]) == LockOwner(locks[n].body)
  {
    hide LockKey, LockOwner, Winners, Exclusive, LockLeases;
    var init, key := locks[..n], LockKey(locks[n].body);
    LastWins(init, taskId, now, key);
    var i :| On(init, taskId, now, key, i) && Winners(init, taskId, now)[key] == init[i].body;
    assert init[i] == locks[i];
    OwnersMeet(locks, taskId, now, i, n);
  }

  // Locks admitted by ApplyCodeLock and read with a clock no older than they are never show two
  // owners on one scope.
  lemma {:induction false} OwnersAgree(locks: seq<CodeLock>, taskId: Id, now: Time)
    requires Exclusive(LockLeases(locks)) && forall i | 0 <= i < |locks| :: locks[i].body.createdAt <= now
    ensures OwnerNotes(locks, taskId, now) == []
  {
    hide LockKey, LockOwner, Applies, Winners, Exclusive, LockLeases;
    if locks == [] {
    } else {
      var n := |locks| - 1;
      PrefixExclusive(locks);
      OwnersAgree(locks[..n], taskId, now);
      if Applies(locks[n], taskId, now) && LockKey(locks[n].body) in Winners(locks[..n], taskId, now) {
        WinnerAgrees(locks, taskId, now, n);
      }
    }
  }

  // Two locks on one scope, both applicable, of different owners.
  ghost predicate TwoOwners(locks: seq<CodeLock>, taskId: Id, now: Time, i: int, j: int) {
    && 0 <= i < j < |locks| && On(locks, taskId, now, LockKey(locks[j].body), i)
    && On(locks, taskId, now, LockKey(locks[j].body), j) && LockOwner(locks[i].body) != LockOwner(locks[j].body)
  }

  // A note about owners is written exactly when two applicable locks on one scope have different ones.
  lemma {:induction false} NotedOwners(locks: seq<CodeLock>, taskId: Id, now: Time)
    ensures OwnerNotes(locks, taskId, now) != [] <==> exists i, j :: TwoOwners(locks, taskId, now, i, j)
  {
    hide LockKey, LockOwner, Winners;
    if locks == [] {
    } else {
      var n := |locks| - 1;
      var init, key := locks[..n], LockKey(locks[n].body);
      NotedOwners(init, taskId, now);
      LastWins(init, taskId, now, key);
      assert forall i | 0 <= i < n :: init[i] == locks[i];
      assert On(locks, taskId, now, key, n) <==> Applies(locks[n], taskId, now);
      if OwnerNotes(init, taskId, now) != [] {
        var i, j :| TwoOwners(init, taskId, now, i, j);
        assert TwoOwners(locks, taskId, now, i, j);
      }
      forall i, j | TwoOwners(locks, taskId, now, i, j) ensures OwnerNotes(locks, taskId, now) != [] {
        if j < n {
          assert TwoOwners(init, taskId, now, i, j);
        } else {
          assert On(init, taskId, now, key, i);
          var k :| On(init, taskId, now, key, k) && Winners(init, taskId, now)[key] == init[k].body;
          WinnerNoted(locks, taskId, now, k);
          if LockOwner(locks[k].body) == LockOwner(locks[n].body) {
            assert TwoOwners(init, taskId, now, i, k) || TwoOwners(init, taskId, now, k, i);
          }
        }
      }
      if Applies(locks[n], taskId, now) && key in Winners(init, taskId, now)
         && LockOwner(Winners(init, taskId, now)[key]) != LockOwner(locks[n].body) {
        var k :| On(init, taskId, now, key, k) && Winners(init, taskId, now)[key] == init[k].body;
        assert TwoOwners(locks, taskId, now, k, n);
      }
    }
  }

  // Where the locks before agree, the last one differs from one of them only if it does from the winner.
  lemma WinnerNoted(locks: seq<CodeLock>, taskId: Id, now: Time, k: int)
    requires locks != [] && On(locks, taskId, now, LockKey(locks[|locks|-1].body), k) && k < |locks| - 1
    requires On(locks, taskId, now, LockKey(locks[|locks|-1].body), |locks| - 1)
    ensures LockOwner(locks[k].body) != LockOwner(locks[|locks|-1].body) ==>
      TwoOwners(locks, taskId, now, k, |locks| - 1)
    ensures forall i | TwoOwners(locks, taskId, now, i, |locks| - 1) ::
      || LockOwner(locks[k].body) != LockOwner(locks[|locks|-1].body)
      || TwoOwners(locks, taskId, now, i, k) || TwoOwners(locks, taskId, now, k, i)
  {
    hide LockKey, LockOwner;
  }

  // So the note about conflicting owners is never written for the locks of a reachable state.
  lemma OwnersAgreeEverywhere(events: seq<Event>, p: Id, taskId: Id, now: Time)
    requires forall i | 0 <= i < |Get(After(Init(), events).locks, p)| ::
      Get(After(Init(), events).locks, p)[i].body.createdAt <= now
    ensures OwnerNotes(Get(After(Init(), events).locks, p), taskId, now) == []
  {
    hide Inv;
    Reachable(events);
    LeasesOf(After(Init(), events), p);
    OwnersAgree(Get(After(Init(), events).locks, p), taskId, now);
  }

  // ----- The order of the scopes --------------------------------------------------------

  predicate Less(a: string, b: string) {
    b != [] && (a == [] || a[0] < b[0] || (a[0] == b[0] && Less(a[1..], b[1..])))
  }

  ghost predicate Ordered(s: seq<string>) {
    forall i, j | 0 <= i < j < |s| :: Less(s[i], s[j])
  }

  lemma {:induction false} LessTrans(a: string, b: string, c: string)
    requires Less(a, b) && Less(b, c)
    ensures Less(a, c)
  {
    if a == [] || !(a[0] == b[0] == c[0]) {
    } else {
      LessTrans(a[1..], b[1..], c[1..]);
    }
  }

  lemma {:induction false} LessTotal(a: string, b: string)
    ensures a != b <==> Less(a, b) || Less(b, a)
    ensures !(Less(a, b) && Less(b, a))
  {
    if a == [] || b == [] || a[0] != b[0] {
    } else {
      LessTotal(a[1..], b[1..]);
      assert a == [a[0]] + a[1..] && b == [b[0]] + b[1..];
    }
  }

  function Inserted(x: string, s: seq<string>): seq<string> {
    if s == [] || Less(x, s[0]) then [x] + s else [s[0]] + Inserted(x, s[1..])
  }

  lemma {:induction false} InsertedOrdered(x: string, s: seq<string>)
    requires Ordered(s) && x !in s
    ensures Ordered(Inserted(x, s)) && forall y :: y in Inserted(x, s) <==> y == x || y in s
  {
    if s == [] {
    } else if Less(x, s[0]) {
      forall i | 0 < i < |s| ensures Less(x, s[i]) {
        LessTrans(x, s[0], s[i]);
      }
    } else {
      var rest := Inserted(x, s[1..]);
      InsertedOrdered(x, s[1..]);
      LessTotal(x, s[0]);
      assert s == [s[0]] + s[1..];
      forall y | y in rest ensures Less(s[0], y) {
        if y != x {
          var i :| 0 <= i < |s[1..]| && s[1..][i] == y;
          assert s[i + 1] == y;
        }
      }
      OrderedFrom(s[0], rest);
    }
  }

  lemma OrderedFrom(x: string, s: seq<string>)
    requires Ordered(s) && forall y | y in s :: Less(x, y)
    ensures Ordered([x] + s)
  {
  }

  // sort.Strings over the scopes, which a map yields in no particular order.
  method SortScopes(scopes: set<string>) returns (order: seq<string>)
    ensures Ordered(order) && forall x :: x in order <==> x in scopes
  {
    order := [];
    var rest := scopes;
    while rest != {}
      invariant rest <= scopes && Ordered(order) && forall x :: x in order <==> x in scopes - rest
      decreases |rest|
    {
      var x := AnyOf(rest);
      InsertedOrdered(x, order);
      order := Inserted(x, order);
      rest := rest - {x};
    }
  }

  // ----- Applying the winners -----------------------------------------------------------

  // What the Go symbol overlay makes of a file (None: absent or unreadable); it never leaves the
  // file as it is without saying so.
  datatype SymbolResult = Changed(content: string, note: string) | Unparsable

  type SymbolOverlay = (Option<string>, LockBody) -> SymbolResult

  datatype Overlaid = Overlaid(files: map<Key, string>, notes: seq<string>, failed: bool)

  // One path runs through the other.
  predicate Clash(a: Key, b: Key) {
    a < b || b < a
  }

  // Reading or writing fails where the path is that of a directory or runs through a file.
  predicate Blocked(files: map<Key, string>, k: Key) {
    k == [] || exists f | f in files :: Clash(f, k)
  }

  function ApplyFile(o: Overlaid, l: LockBody): Overlaid {
    var k := Target(l.path);
    var note := "overwrote generated content for " + l.path + " because LOCKED BY HUMAN content from " + l.createdBy
      + " takes precedence";
    if Blocked(o.files, k) then o.(failed := true)
    else
      var notes := if k in o.files && o.files[k] != l.content then o.notes + [note] else o.notes;
      Overlaid(o.files[k := l.content], notes, false)
  }

  function ApplySymbol(o: Overlaid, l: LockBody, symbol: SymbolOverlay): Overlaid {
    var k := Target(l.path);
    if Blocked(o.files, k) then o.(failed := true)
    else
      match symbol(if k in o.files then Some(o.files[k]) else None, l)
      case Unparsable => o.(failed := true)
      case Changed(content, note) => Overlaid(o.files[k := content], o.notes + [note], false)
  }

  function ApplyOne(o: Overlaid, l: LockBody, symbol: SymbolOverlay): Overlaid {
    if o.failed then o
    else if NormalMode(l.mode) == "file" then ApplyFile(o, l)
    else if NormalMode(l.mode) == "go_symbol" then ApplySymbol(o, l, symbol)
    else o.(failed := true)
  }

  function ApplyEach(o: Overlaid, order: seq<string>, winners: map<string, LockBody>, symbol: SymbolOverlay): Overlaid
    requires forall x | x in order :: x in winners
  {
    if order == [] then o
    else ApplyOne(ApplyEach(o, order[..|order|-1], winners, symbol), winners[order[|order|-1]], symbol)
  }

  // The notes go to the log, if there are any; writing it may fail as well.
  predicate LogFails(o: Overlaid) {
    o.notes != [] && Blocked(o.files, LOG)
  }

  function Logged(o: Overlaid): map<Key, string> {
    if o.failed || o.notes == [] || LogFails(o) then o.files else o.files[LOG := Lines(o.notes)]
  }

  function Lines(notes: seq<string>): string {
    if notes == [] then "" else notes[0] + "\n" + Lines(notes[1..])
  }

  class Bundle {
    var files: map<Key, string>

    constructor (files: map<Key, string>)
      ensures this.files == files
    {
      this.files := files;
    }

    // applyProjectLocksToBundle.  When a lock cannot be applied the ones before it stay applied.
    method ApplyLocks(locks: seq<CodeLock>, taskId: Id, now: Time, symbol: SymbolOverlay)
      returns (failed: bool, ghost order: seq<string>)
      modifies this
      ensures var w := Winners(locks, taskId, now);
        && Ordered(order) && (forall x :: x in order <==> x in w)
        && var o := ApplyEach(Overlaid(old(files), OwnerNotes(locks, taskId, now), false), order, w, symbol);
           failed == (o.failed || LogFails(o)) && files == Logged(o)
    {
      hide LockKey, LockOwner, Applies, ApplyOne, Ordered;
      var notes: seq<string>, winners: map<string, LockBody> := [], map[];
      for i := 0 to |locks|
        invariant winners == Winners(locks[..i], taskId, now) && notes == OwnerNotes(locks[..i], taskId, now)
      {
        assert locks[..i+1][..i] == locks[..i];
        var l := locks[i].body;
        if Applies(locks[i], taskId, now) {
          var scope := LockKey(l);
          if scope in winners && LockOwner(winners[scope]) != LockOwner(l) {
            notes := notes
              + ["conflicting active code locks for " + l.path + " between " + LockOwner(winners[scope]) + " and "
                 + LockOwner(l)];
          }
          winners := winners[scope := l];
        }
      }
      assert locks[..|locks|] == locks;
      var scopes := SortScopes(winners.Keys);
      order := scopes;
      var o := Overlaid(files, notes, false);
      for i := 0 to |scopes|
        invariant o == ApplyEach(Overlaid(old(files), notes, false), scopes[..i], winners, symbol)
      {
        assert scopes[..i+1][..i] == scopes[..i];
        o := ApplyOne(o, winners[scopes[i]], symbol);
      }
      assert scopes[..|scopes|] == scopes;
      failed := o.failed || LogFails(o);
      files := Logged(o);
    }
  }

  // ----- What the overlay guarantees ----------------------------------------------------

  // The order is that of the scopes with a winner.
  ghost predicate OrderOf(order: seq<string>, winners: map<string, LockBody>) {
    Ordered(order) && forall x :: x in order <==> x in winners
  }

  // The bundle after all winners have been applied.
  ghost function Result(files: map<Key, string>, locks: seq<CodeLock>, taskId: Id, now: Time, order: seq<string>,
                        symbol: SymbolOverlay): Overlaid
    requires OrderOf(order, Winners(locks, taskId, now))
  {
    ApplyEach(Overlaid(files, OwnerNotes(locks, taskId, now), false), order, Winners(locks, taskId, now), symbol)
  }

  lemma ElsewhereStays(o: Overlaid, l: LockBody, symbol: SymbolOverlay, k: Key)
    requires Target(l.path) != k
    ensures var n := ApplyOne(o, l, symbol).files; (k in n <==> k in o.files) && (k in n ==> n[k] == o.files[k])
  {
    hide Target, NormalMode;
  }

  lemma {:induction false} EachElsewhere(o: Overlaid, order: seq<string>, winners: map<string, LockBody>,
                                         symbol: SymbolOverlay, k: Key)
    requires forall x | x in order :: x in winners && Target(winners[x].path) != k
    ensures var n := ApplyEach(o, order, winners, symbol).files;
      (k in n <==> k in o.files) && (k in n ==> n[k] == o.files[k])
  {
    hide Target, ApplyOne;
    if order == [] {
    } else {
      var last := |order| - 1;
      EachElsewhere(o, order[..last], winners, symbol, k);
      ElsewhereStays(ApplyEach(o, order[..last], winners, symbol), winners[order[last]], symbol, k);
    }
  }

  lemma FileWritten(o: Overlaid, l: LockBody, symbol: SymbolOverlay)
    requires NormalMode(l.mode) == "file" && !ApplyOne(o, l, symbol).failed
    ensures var n := ApplyOne(o, l, symbol).files; Target(l.path) in n && n[Target(l.path)] == l.content
  {
    hide Target, NormalMode;
  }

  // A file lock that is the last to touch its file leaves exactly its content there.
  lemma {:induction false} LastFileStays(o: Overlaid, order: seq<string>, winners: map<string, LockBody>,
                                         symbol: SymbolOverlay, i: nat)
    requires (forall x | x in order :: x in winners) && i < |order| && NormalMode(winners[order[i]].mode) == "file"
    requires forall j | i < j < |order| :: Target(winners[order[j]].path) != Target(winners[order[i]].path)
    requires !ApplyEach(o, order, winners, symbol).failed
    ensures var n := ApplyEach(o, order, winners, symbol).files; var k := Target(winners[order[i]].path);
      k in n && n[k] == winners[order[i]].content
  {
    hide ApplyOne, Target, NormalMode;
    var last := |order| - 1;
    var before, l := ApplyEach(o, order[..last], winners, symbol), winners[order[last]];
    if i == last {
      FileWritten(before, l, symbol);
    } else {
      FailureStays(before, l, symbol);
      ElsewhereStays(before, l, symbol, Target(winners[order[i]].path));
      LastFileStays(o, order[..last], winners, symbol, i);
    }
  }

  lemma FailureStays(o: Overlaid, l: LockBody, symbol: SymbolOverlay)
    ensures o.failed ==> ApplyOne(o, l, symbol).failed
  {
  }

  // Among file locks on one file the one with the greatest scope prevails, whatever was generated
  // and whichever lock is newer.
  lemma GreatestScopePrevails(files: map<Key, string>, locks: seq<CodeLock>, taskId: Id, now: Time, order: seq<string>,
                              symbol: SymbolOverlay, g: string)
    requires var w := Winners(locks, taskId, now);
      && OrderOf(order, w) && g in w && NormalMode(w[g].mode) == "file"
      && forall x | x in w && x != g && Target(w[x].path) == Target(w[g].path) :: Less(x, g)
    requires var r := Result(files, locks, taskId, now, order, symbol);
      !r.failed && (Target(Winners(locks, taskId, now)[g].path) != LOG || r.notes == [] || LogFails(r))
    ensures var n := Logged(Result(files, locks, taskId, now, order, symbol)); var l := Winners(locks, taskId, now)[g];
      Target(l.path) in n && n[Target(l.path)] == l.content
  {
    var w := Winners(locks, taskId, now);
    hide Target, NormalMode, LockKey, ApplyEach, Winners, OwnerNotes, Lines;
    var i :| 0 <= i < |order| && order[i] == g;
    forall j | i < j < |order| ensures Target(w[order[j]].path) != Target(w[g].path) {
      LessTotal(order[i], order[j]);
    }
    LastFileStays(Overlaid(files, OwnerNotes(locks, taskId, now), false), order, w, symbol, i);
  }

  // A winning file lock whose file no other winning lock touches leaves exactly the human content.
  lemma FileLockHolds(files: map<Key, string>, locks: seq<CodeLock>, taskId: Id, now: Time, order: seq<string>,
                      symbol: SymbolOverlay, g: string)
    requires var w := Winners(locks, taskId, now);
      && OrderOf(order, w) && g in w && NormalMode(w[g].mode) == "file"
      && forall x | x in w && x != g :: Target(w[x].path) != Target(w[g].path)
    requires var r := Result(files, locks, taskId, now, order, symbol);
      !r.failed && (Target(Winners(locks, taskId, now)[g].path) != LOG || r.notes == [] || LogFails(r))
    ensures var n := Logged(Result(files, locks, taskId, now, order, symbol)); var l := Winners(locks, taskId, now)[g];
      Target(l.path) in n && n[Target(l.path)] == l.content
  {
    hide Target, NormalMode, LockKey, ApplyEach, Winners, OwnerNotes, Lines, OrderOf, Logged;
    GreatestScopePrevails(files, locks, taskId, now, order, symbol, g);
  }

  // The winner on the file with the greatest scope.
  ghost predicate Greatest(w: map<string, LockBody>, k: Key, g: string) {
    g in w && Target(w[g].path) == k && forall x | x in w && x != g && Target(w[x].path) == k :: Less(x, g)
  }

  lemma {:induction false} SomeGreatest(order: seq<string>, w: map<string, LockBody>, k: Key,
                                        n: nat) returns (g: string)
    requires OrderOf(order, w) && n <= |order| && exists i :: 0 <= i < n && Target(w[order[i]].path) == k
    requires forall i | n <= i < |order| :: Target(w[order[i]].path) != k
    ensures Greatest(w, k, g)
    decreases n
  {
    hide Target, Less;
    if Target(w[order[n-1]].path) == k {
      g := order[n-1];
      forall x | x in w && x != g && Target(w[x].path) == k ensures Less(x, g) {
        var i :| 0 <= i < |order| && order[i] == x;
      }
    } else {
      g := SomeGreatest(order, w, k, n - 1);
    }
  }

  // Where only file locks win on a file, the content of one of them is what the file ends with
  // exactly when it is that of the greatest scope, or of the conflict log if that is the file.
  lemma FileLockHoldsExactly(files: map<Key, string>, locks: seq<CodeLock>, taskId: Id, now: Time,
                             order: seq<string>, symbol: SymbolOverlay, s: string) returns (g: string)
    requires var w := Winners(locks, taskId, now);
      && OrderOf(order, w) && s in w
      && forall x | x in w && Target(w[x].path) == Target(w[s].path) :: NormalMode(w[x].mode) == "file"
    requires !Result(files, locks, taskId, now, order, symbol).failed
    ensures var w := Winners(locks, taskId, now); var r := Result(files, locks, taskId, now, order, symbol);
      var k := Target(w[s].path);
      && Greatest(w, k, g) && k in Logged(r)
      && (Logged(r)[k] == w[s].content <==>
          (if k == LOG && r.notes != [] && !LogFails(r) then Lines(r.notes) else w[g].content) == w[s].content)
  {
    var w, r := Winners(locks, taskId, now), Result(files, locks, taskId, now, order, symbol);
    hide Target, NormalMode, LockKey, ApplyEach, Winners, OwnerNotes, Lines, Less;
    var i :| 0 <= i < |order| && order[i] == s;
    g := SomeGreatest(order, w, Target(w[s].path), |order|);
    if Target(w[s].path) != LOG || r.notes == [] || LogFails(r) {
      GreatestScopePrevails(files, locks, taskId, now, order, symbol, g);
    }
  }

  // A path without empty and "." segments.
  predicate Clean(path: string)
    decreases |path|
  {
    var n := FirstSlash(path);
    path[..n] != "" && path[..n] != "." && (n == |path| || Clean(path[n+1..]))
  }

  lemma CleanParts(path: string)
    requires Clean(path)
    ensures var n := FirstSlash(path); path[..n] != "" && path[..n] != "." && (n < |path| ==> Clean(path[n+1..]))
  {
    hide FirstSlash, Target;
  }

  lemma CleanTarget(path: string, n: nat)
    requires Clean(path) && n == FirstSlash(path)
    ensures Target(path) == [path[..n]] + (if n == |path| then [] else Target(path[n+1..]))
  {
    CleanParts(path);
    hide FirstSlash, Clean;
  }

  lemma CleanSplit(a: string, n: nat)
    requires Clean(a) && n == FirstSlash(a)
    ensures |Target(a)| > 0 && Target(a)[0] == a[..n] && (n < |a| <==> |Target(a)| > 1)
    ensures n < |a| ==> Clean(a[n+1..]) && Target(a)[1..] == Target(a[n+1..]) && a == a[..n] + "/" + a[n+1..]
  {
    hide Target, Clean, FirstSlash;
    CleanParts(a);
    CleanTarget(a, n);
    if n < |a| {
      CleanTarget(a[n+1..], FirstSlash(a[n+1..]));
      assert a == a[..n] + "/" + a[n+1..];
    }
  }

  // Such paths name different files.
  lemma {:induction false} CleanPathsDiffer(a: string, b: string)
    requires Clean(a) && Clean(b) && Target(a) == Target(b)
    ensures a == b
    decreases |a|
  {
    hide Target, Clean, FirstSlash;
    var n, m := FirstSlash(a), FirstSlash(b);
    CleanSplit(a, n);
    CleanSplit(b, m);
    if n >= |a| {
    } else {
      CleanPathsDiffer(a[n+1..], b[m+1..]);
    }
  }

  // So if every path is clean when its lock is admitted, file locks on one file are on one scope,
  // and as such have one owner.
  lemma CleanPathsOneScope(a: LockBody, b: LockBody)
    requires Clean(a.path) && Clean(b.path) && NormalMode(a.mode) == "file" && NormalMode(b.mode) == "file"
    ensures Target(a.path) == Target(b.path) ==> LockKey(a) == LockKey(b)
  {
    if Target(a.path) == Target(b.path) {
      CleanPathsDiffer(a.path, b.path);
    }
    hide Target, Clean, NormalMode;
  }

  lemma {:induction false} WinnersKeyed(locks: seq<CodeLock>, taskId: Id, now: Time)
    ensures forall x | x in Winners(locks, taskId, now) :: LockKey(Winners(locks, taskId, now)[x]) == x
  {
    hide LockKey, Applies;
    if locks == [] {
    } else {
      WinnersKeyed(locks[..|locks|-1], taskId, now);
    }
  }

  // With clean paths a winning file lock on a file without symbol locks always holds.
  lemma CleanFileLockHolds(files: map<Key, string>, locks: seq<CodeLock>, taskId: Id, now: Time,
                           order: seq<string>, symbol: SymbolOverlay, g: string)
    requires var w := Winners(locks, taskId, now);
      && OrderOf(order, w) && g in w
      && (forall x | x in w :: Clean(w[x].path))
      && (forall x | x in w && Target(w[x].path) == Target(w[g].path) :: NormalMode(w[x].mode) == "file")
    requires var r := Result(files, locks, taskId, now, order, symbol);
      !r.failed && (Target(Winners(locks, taskId, now)[g].path) != LOG || r.notes == [] || LogFails(r))
    ensures var n := Logged(Result(files, locks, taskId, now, order, symbol)); var l := Winners(locks, taskId, now)[g];
      Target(l.path) in n && n[Target(l.path)] == l.content
  {
    var w := Winners(locks, taskId, now);
    WinnersKeyed(locks, taskId, now);
    hide Target, NormalMode, LockKey, ApplyEach, Winners, OwnerNotes, Lines, OrderOf, Logged, Clean;
    forall x | x in w && x != g ensures Target(w[x].path) != Target(w[g].path) {
      if Target(w[x].path) == Target(w[g].path) {
        CleanPathsOneScope(w[x], w[g]);
      }
    }
    FileLockHolds(files, locks, taskId, now, order, symbol, g);
  }

  // ----- When it fails ------------------------------------------------------------------

  // The i-th of these locks finds its path blocked, by the bundle or by a lock before it.
  ghost predicate Stops(files: map<Key, string>, order: seq<string>, w: map<string, LockBody>, i: nat)
    requires (forall x | x in order :: x in w) && i < |order|
  {
    Blocked(files, Target(w[order[i]].path))
    || exists j :: 0 <= j < i && Clash(Target(w[order[j]].path), Target(w[order[i]].path))
  }

  lemma FileStops(o: Overlaid, l: LockBody, symbol: SymbolOverlay)
    requires NormalMode(l.mode) == "file" && !o.failed
    ensures var n := ApplyOne(o, l, symbol);
      && (n.failed <==> Blocked(o.files, Target(l.path)))
      && (!n.failed ==> n.files.Keys == o.files.Keys + {Target(l.path)})
  {
    hide Target, NormalMode, Blocked;
  }

  lemma {:induction false} EachStops(o: Overlaid, order: seq<string>, w: map<string, LockBody>, symbol: SymbolOverlay)
    requires !o.failed && forall x | x in order :: x in w && NormalMode(w[x].mode) == "file"
    ensures var n := ApplyEach(o, order, w, symbol);
      && (n.failed <==> exists i :: 0 <= i < |order| && Stops(o.files, order, w, i))
      && (!n.failed ==>
            forall k :: k in n.files <==> k in o.files || exists i :: 0 <= i < |order| && Target(w[order[i]].path) == k)
  {
    hide Target, NormalMode, ApplyOne, Clash;
    if order == [] {
    } else {
      var last := |order| - 1;
      var front := order[..last];
      var before, l := ApplyEach(o, front, w, symbol), w[order[last]];
      EachStops(o, front, w, symbol);
      assert forall i | 0 <= i < last :: front[i] == order[i];
      FailureStays(before, l, symbol);
      if before.failed {
        var i :| 0 <= i < last && Stops(o.files, front, w, i);
        StopsIn(o.files, front, order, w, i);
      } else {
        FileStops(before, l, symbol);
        LastStops(o, before, order, w);
        forall i | 0 <= i < last ensures !Stops(o.files, order, w, i) {
          StopsIn(o.files, front, order, w, i);
        }
      }
    }
  }

  lemma StopsIn(files: map<Key, string>, front: seq<string>, order: seq<string>, w: map<string, LockBody>, i: nat)
    requires (forall x | x in order :: x in w) && front <= order && i < |front|
    ensures (forall x | x in front :: x in w) && (Stops(files, front, w, i) <==> Stops(files, order, w, i))
  {
    hide Target, Blocked, Clash;
    assert forall j | 0 <= j < |front| :: front[j] == order[j];
  }

  // What blocks the last lock.
  lemma LastStops(o: Overlaid, before: Overlaid, order: seq<string>, w: map<string, LockBody>)
    requires order != [] && forall x | x in order :: x in w
    requires forall k :: k in before.files <==>
      k in o.files || exists i :: 0 <= i < |order| - 1 && Target(w[order[i]].path) == k
    ensures Blocked(before.files, Target(w[order[|order|-1]].path)) <==> Stops(o.files, order, w, |order| - 1)
  {
    hide Target, Clash;
    var k := Target(w[order[|order|-1]].path);
    forall j | 0 <= j < |order| - 1 ensures Target(w[order[j]].path) in before.files {}
  }

  // A winning lock's path is empty, or one of it and the path of a file in the bundle or of another
  // winner runs through the other.
  ghost predicate Collides(files: map<Key, string>, w: map<string, LockBody>, x: string)
    requires x in w
  {
    var k := Target(w[x].path);
    k == [] || (exists f | f in files :: f < k || k < f)
    || exists y | y in w :: Target(w[y].path) < k || k < Target(w[y].path)
  }

  lemma CollidesIs(files: map<Key, string>, w: map<string, LockBody>, x: string)
    requires x in w
    ensures Collides(files, w, x) <==>
      Blocked(files, Target(w[x].path)) || exists y | y in w :: Clash(Target(w[y].path), Target(w[x].path))
  {
    hide Target;
  }

  // With file locks only, the overlay stops exactly when the path of one collides with the bundle
  // or with that of another.
  lemma FailsExactly(files: map<Key, string>, locks: seq<CodeLock>, taskId: Id, now: Time, order: seq<string>,
                     symbol: SymbolOverlay)
    requires var w := Winners(locks, taskId, now);
      OrderOf(order, w) && forall x | x in w :: NormalMode(w[x].mode) == "file"
    ensures Result(files, locks, taskId, now, order, symbol).failed <==>
      exists x | x in Winners(locks, taskId, now) :: Collides(files, Winners(locks, taskId, now), x)
  {
    hide Target, NormalMode, LockKey, ApplyEach, Winners, OwnerNotes, Blocked, Less, Collides;
    var w := Winners(locks, taskId, now);
    forall x | x in w
      ensures Collides(files, w, x) <==>
              Blocked(files, Target(w[x].path)) || exists y | y in w :: Clash(Target(w[y].path), Target(w[x].path))
    {
      CollidesIs(files, w, x);
    }
    EachStops(Overlaid(files, OwnerNotes(locks, taskId, now), false), order, w, symbol);
    if i :| 0 <= i < |order| && Stops(files, order, w, i) {
      assert Collides(files, w, order[i]);
    } else {
      forall x | x in w ensures !Collides(files, w, x) {
        var i :| 0 <= i < |order| && order[i] == x;
        assert !Stops(files, order, w, i);
        forall y | y in w ensures !Clash(Target(w[y].path), Target(w[x].path)) {
          var j :| 0 <= j < |order| && order[j] == y;
          assert !Stops(files, order, w, j);
        }
      }
    }
  }

  // A file that no winning lock touches, other than the conflict log, stays as it was.
  lemma OthersUntouched(files: map<Key, string>, locks: seq<CodeLock>, taskId: Id, now: Time, order: seq<string>,
                        symbol: SymbolOverlay, k: Key)
    requires OrderOf(order, Winners(locks, taskId, now)) && k != LOG
    requires forall x | x in Winners(locks, taskId, now) :: Target(Winners(locks, taskId, now)[x].path) != k
    ensures var n := Logged(Result(files, locks, taskId, now, order, symbol));
      (k in n <==> k in files) && (k in n ==> n[k] == files[k])
  {
    hide Target, LockKey, Winners, OwnerNotes, Lines;
    EachElsewhere(Overlaid(files, OwnerNotes(locks, taskId, now), false), order, Winners(locks, taskId, now), symbol,
                  k);
    hide ApplyEach;
  }

  // ----- What is noted ------------------------------------------------------------------

  lemma NotesStay(o: Overlaid, l: LockBody, symbol: SymbolOverlay)
    ensures o.notes <= ApplyOne(o, l, symbol).notes
  {
    hide Target, NormalMode, Blocked;
  }

  // What was at a path.
  function Before(files: map<Key, string>, k: Key): Option<string> {
    if k in files then Some(files[k]) else None
  }

  ghost predicate AloneAt(order: seq<string>, w: map<string, LockBody>, i: nat)
    requires (forall x | x in order :: x in w) && i < |order|
  {
    forall j | 0 <= j < |order| && j != i :: Target(w[order[j]].path) != Target(w[order[i]].path)
  }

  // The file at the path of a lock that is alone there is the bundle's when its turn comes.
  lemma TurnComes(o: Overlaid, order: seq<string>, w: map<string, LockBody>, symbol: SymbolOverlay)
    requires order != [] && (forall x | x in order :: x in w) && AloneAt(order, w, |order| - 1)
    ensures Before(ApplyEach(o, order[..|order|-1], w, symbol).files, Target(w[order[|order|-1]].path))
      == Before(o.files, Target(w[order[|order|-1]].path))
  {
    hide Target, ApplyOne;
    EachElsewhere(o, order[..|order|-1], w, symbol, Target(w[order[|order|-1]].path));
  }

  lemma FrontAlone(order: seq<string>, w: map<string, LockBody>, i: nat)
    requires (forall x | x in order :: x in w) && i < |order| - 1 && AloneAt(order, w, i)
    ensures AloneAt(order[..|order|-1], w, i)
    ensures Target(w[order[|order|-1]].path) != Target(w[order[i]].path)
  {
    hide Target;
  }

  lemma SymbolTurn(o: Overlaid, l: LockBody, symbol: SymbolOverlay)
    requires NormalMode(l.mode) == "go_symbol" && !ApplyOne(o, l, symbol).failed
    ensures var n := ApplyOne(o, l, symbol); var k := Target(l.path); var r := symbol(Before(o.files, k), l);
      r.Changed? && k in n.files && n.files[k] == r.content && r.note in n.notes
  {
    hide Target, NormalMode, Blocked;
    var r := symbol(Before(o.files, Target(l.path)), l);
    if r.Changed? {
      assert (o.notes + [r.note])[|o.notes|] == r.note;
    }
  }

  lemma {:induction false} SymbolStays(o: Overlaid, order: seq<string>, w: map<string, LockBody>, symbol: SymbolOverlay,
                                       i: nat)
    requires (forall x | x in order :: x in w) && i < |order| && NormalMode(w[order[i]].mode) == "go_symbol"
    requires AloneAt(order, w, i) && !ApplyEach(o, order, w, symbol).failed
    ensures var n := ApplyEach(o, order, w, symbol); var k := Target(w[order[i]].path);
      var r := symbol(Before(o.files, k), w[order[i]]);
      r.Changed? && k in n.files && n.files[k] == r.content && r.note in n.notes
  {
    hide Target, NormalMode, ApplyOne, AloneAt;
    var last := |order| - 1;
    var before, l := ApplyEach(o, order[..last], w, symbol), w[order[last]];
    if i == last {
      TurnComes(o, order, w, symbol);
      SymbolTurn(before, l, symbol);
    } else {
      FrontAlone(order, w, i);
      FailureStays(before, l, symbol);
      NotesStay(before, l, symbol);
      ElsewhereStays(before, l, symbol, Target(w[order[i]].path));
      SymbolStays(o, order[..last], w, symbol, i);
    }
  }

  // A winning symbol lock whose file no other winning lock touches leaves there what the symbol
  // overlay makes of the generated file, and notes it.
  lemma SymbolLockHolds(files: map<Key, string>, locks: seq<CodeLock>, taskId: Id, now: Time, order: seq<string>,
                        symbol: SymbolOverlay, g: string)
    requires var w := Winners(locks, taskId, now);
      && OrderOf(order, w) && g in w && NormalMode(w[g].mode) == "go_symbol"
      && forall x | x in w && x != g :: Target(w[x].path) != Target(w[g].path)
    requires !Result(files, locks, taskId, now, order, symbol).failed
    ensures var r := Result(files, locks, taskId, now, order, symbol); var l := Winners(locks, taskId, now)[g];
      var k := Target(l.path); var s := symbol(Before(files, k), l);
      s.Changed? && k in r.files && r.files[k] == s.content && s.note in r.notes
  {
    hide Target, NormalMode, LockKey, ApplyEach, Winners, OwnerNotes, Less;
    var w := Winners(locks, taskId, now);
    var i :| 0 <= i < |order| && order[i] == g;
    forall j | 0 <= j < |order| && j != i ensures order[j] != g {
      LessTotal(order[i], order[j]);
    }
    SymbolStays(Overlaid(files, OwnerNotes(locks, taskId, now), false), order, w, symbol, i);
  }

  // A file lock replaces other content that was generated for its path.
  ghost predicate Replaces(files: map<Key, string>, l: LockBody) {
    Target(l.path) in files && files[Target(l.path)] != l.content
  }

  lemma FileTurn(o: Overlaid, l: LockBody, symbol: SymbolOverlay)
    requires NormalMode(l.mode) == "file" && !ApplyOne(o, l, symbol).failed
    ensures var n := ApplyOne(o, l, symbol).notes;
      if Replaces(o.files, l)
      then n == o.notes + ["overwrote generated content for " + l.path + " because LOCKED BY HUMAN content from "
                           + l.createdBy + " takes precedence"]
      else n == o.notes
  {
    hide Target, NormalMode, Blocked;
  }

  // The notes about the locks in turn.
  ghost function Replacements(files: map<Key, string>, order: seq<string>, w: map<string, LockBody>): seq<string>
    requires forall x | x in order :: x in w
  {
    if order == [] then []
    else
      var before, l := Replacements(files, order[..|order|-1], w), w[order[|order|-1]];
      if Replaces(files, l)
      then before + ["overwrote generated content for " + l.path + " because LOCKED BY HUMAN content from "
                     + l.createdBy + " takes precedence"]
      else before
  }

  ghost predicate Apart(order: seq<string>, w: map<string, LockBody>)
    requires forall x | x in order :: x in w
  {
    forall i | 0 <= i < |order| :: AloneAt(order, w, i)
  }

  lemma {:induction false} EachNoted(o: Overlaid, order: seq<string>, w: map<string, LockBody>, symbol: SymbolOverlay)
    requires forall x | x in order :: x in w && NormalMode(w[x].mode) == "file"
    requires Apart(order, w) && !ApplyEach(o, order, w, symbol).failed
    ensures ApplyEach(o, order, w, symbol).notes == o.notes + Replacements(o.files, order, w)
  {
    hide Target, NormalMode, ApplyOne, AloneAt;
    if order == [] {
    } else {
      var last := |order| - 1;
      var before, l := ApplyEach(o, order[..last], w, symbol), w[order[last]];
      FailureStays(before, l, symbol);
      FrontApart(order, w);
      EachNoted(o, order[..last], w, symbol);
      TurnComes(o, order, w, symbol);
      FileTurn(before, l, symbol);
    }
  }

  lemma FrontApart(order: seq<string>, w: map<string, LockBody>)
    requires order != [] && (forall x | x in order :: x in w) && Apart(order, w)
    ensures Apart(order[..|order|-1], w)
  {
    hide AloneAt;
    var front := order[..|order|-1];
    forall i | 0 <= i < |front| ensures AloneAt(front, w, i) {
      FrontAlone(order, w, i);
    }
  }

  // With file locks on different files, there is one note for each that replaces other content, after
  // those about owners; they are what the log ends with, one to a line.
  lemma NotesExactly(files: map<Key, string>, locks: seq<CodeLock>, taskId: Id, now: Time, order: seq<string>,
                     symbol: SymbolOverlay)
    requires var w := Winners(locks, taskId, now);
      && OrderOf(order, w) && (forall x | x in w :: NormalMode(w[x].mode) == "file")
      && (forall x, y | x in w && y in w && x != y :: Target(w[x].path) != Target(w[y].path))
    requires !Result(files, locks, taskId, now, order, symbol).failed
    ensures var r := Result(files, locks, taskId, now, order, symbol); var w := Winners(locks, taskId, now);
      && r.notes == OwnerNotes(locks, taskId, now) + Replacements(files, order, w)
      && (r.notes != [] && !(exists f | f in r.files :: f < LOG || LOG < f) ==>
            LOG in Logged(r) && Logged(r)[LOG] == Lines(r.notes))
  {
    hide Target, NormalMode, LockKey, ApplyEach, Winners, OwnerNotes, Less, Lines, Replacements;
    var w := Winners(locks, taskId, now);
    forall i, j | 0 <= i < |order| && 0 <= j < |order| && j != i ensures order[j] != order[i] {
      if i < j {
        LessTotal(order[i], order[j]);
      } else {
        LessTotal(order[j], order[i]);
      }
    }
    assert Apart(order, w);
    EachNoted(Overlaid(files, OwnerNotes(locks, taskId, now), false), order, w, symbol);
  }

  lemma {:induction false} LinesJoin(a: seq<string>, b: seq<string>)
    ensures Lines(a + b) == Lines(a) + Lines(b)
  {
    if a == [] {
      assert a + b == b;
    } else {
      LinesJoin(a[1..], b);
      assert (a + b)[0] == a[0] && (a + b)[1..] == a[1..] + b;
    }
  }

  lemma LineOf(note: string)
    ensures Lines([note]) == note + "\n"
  {
    assert [note][1..] == [];
  }

  // File locks go before symbol locks, which therefore work on the human content.
  lemma FilesFirst(order: seq<string>, i: nat, j: nat, f: LockBody, s: LockBody)
    requires Ordered(order) && i < |order| && j < |order| && order[i] == LockKey(f) && order[j] == LockKey(s)
    requires NormalMode(f.mode) == "file" && NormalMode(s.mode) == "go_symbol"
    ensures i < j
  {
    hide NormalMode;
    assert LockKey(f)[0] == 'f' && LockKey(s)[0] == 'g';
    assert Less(LockKey(f), LockKey(s));
    LessTotal(LockKey(f), LockKey(s));
  }

  // ----- Where it does not hold ---------------------------------------------------------

  function HumanLock(id: Id, path: string, content: string, owner: string, at: Time): CodeLock {
    Record(id, 0, LockBody(None, path, content, "file", "", "", owner, owner, None, at))
  }

  lemma FileKey(l: LockBody)
    requires l.mode == "file" && l.path != "" && !IsSpace(l.path[0]) && !IsSpace(l.path[|l.path|-1])
    ensures NormalMode(l.mode) == "file" && LockKey(l) == "file:" + l.path
  {
    EdgesStay("file");
    assert Lower("file") == "file";
    EdgesStay(l.path);
    hide TrimSpace, Lower;
  }

  lemma OwnerKept(l: LockBody)
    requires l.owner != "" && !IsSpace(l.owner[0]) && !IsSpace(l.owner[|l.owner|-1])
    ensures LockOwner(l) == l.owner
  {
    EdgesStay(l.owner);
    hide TrimSpace;
    assert [l.owner, l.createdBy][0] == l.owner;
  }

  lemma AliasTargets()
    ensures Target("a/b") == ["a", "b"] == Target("a//b")
  {
    assert "b"[..1] == "b" && FirstSlash("b") == 1;
    assert Target("b") == ["b"] + Target([]);
    assert "a/b"[2..] == "b" && "a//b"[2..] == "/b" && "/b"[1..] == "b";
    assert FirstSlash("a/b") == 1 == FirstSlash("a//b") && FirstSlash("/b") == 0;
    assert "a/b"[..1] == "a" == "a//b"[..1] && "/b"[..0] == "";
    assert Target("/b") == ["b"];
  }

  const ANN: CodeLock := HumanLock(1, "a/b", "ann's", "ann", 1)
  const BOB: CodeLock := HumanLock(2, "a//b", "bob's", "bob", 2)

  lemma AliasScopes()
    ensures LockKey(ANN.body) == "file:a/b" && LockKey(BOB.body) == "file:a//b" && "file:a/b" != "file:a//b"
    ensures NormalMode(ANN.body.mode) == "file" && LockOwner(ANN.body) == "ann" && LockOwner(BOB.body) == "bob"
    ensures "ann" != "bob"
  {
    hide LockKey, LockOwner, NormalMode;
    FileKey(ANN.body);
    FileKey(BOB.body);
    OwnerKept(ANN.body);
    OwnerKept(BOB.body);
    assert |"file:a/b"| != |"file:a//b"| && "ann"[0] != "bob"[0];
    assert "file:" + "a/b" == "file:a/b" && "file:" + "a//b" == "file:a//b";
  }

  lemma AliasWinners()
    ensures Winners([ANN, BOB], 0, 10) == map["file:a/b" := ANN.body, "file:a//b" := BOB.body]
    ensures Exclusive(LockLeases([ANN, BOB]))
  {
    AliasScopes();
    hide LockKey, LockOwner, NormalMode;
    var locks := [ANN, BOB];
    assert locks[..1] == [ANN] && [ANN][..0] == [];
    assert Winners([ANN], 0, 10) == map["file:a/b" := ANN.body];
  }

  // Two spellings of one path are two scopes: both owners get their lock, and the older one's
  // content is what the bundle ends with.
  lemma AliasExample(files: map<Key, string>, symbol: SymbolOverlay) returns (order: seq<string>)
    requires !Blocked(files, ["a", "b"])
    ensures var locks, w := [ANN, BOB], Winners([ANN, BOB], 0, 10);
      && Exclusive(LockLeases(locks)) && LockOwner(ANN.body) != LockOwner(BOB.body)
      && ANN.body.createdAt < BOB.body.createdAt
      && Target(ANN.body.path) == Target(BOB.body.path) && ANN.body.content != BOB.body.content
      && OrderOf(order, w) && w.Values == {ANN.body, BOB.body}
      && var n := Logged(Result(files, locks, 0, 10, order, symbol));
         Target(BOB.body.path) in n && n[Target(BOB.body.path)] == ANN.body.content
  {
    AliasScopes();
    AliasTargets();
    AliasWinners();
    var x, y := "file:a//b", "file:a/b";
    assert Less("/b", "b");
    assert x == "file:a/" + "/b" && y == "file:a/" + "b";
    LessAfter("file:a/", "/b", "b");
    order := [x, y];
    AliasEnds(files, symbol, order);
  }

  lemma AliasEnds(files: map<Key, string>, symbol: SymbolOverlay, order: seq<string>)
    requires order == ["file:a//b", "file:a/b"] && Less("file:a//b", "file:a/b") && !Blocked(files, ["a", "b"])
    ensures var w := Winners([ANN, BOB], 0, 10);
      && OrderOf(order, w) && w.Values == {ANN.body, BOB.body}
      && var n := Logged(Result(files, [ANN, BOB], 0, 10, order, symbol));
         Target(BOB.body.path) in n && n[Target(BOB.body.path)] == ANN.body.content
  {
    AliasScopes();
    AliasTargets();
    AliasWinners();
    hide LockKey, LockOwner, Target, OwnerNotes, Winners, Less, Lines;
    var x, y := "file:a//b", "file:a/b";
    var w := Winners([ANN, BOB], 0, 10);
    assert w[x] == BOB.body && w[y] == ANN.body;
    assert forall s :: s in w <==> s == x || s == y;
    assert NormalMode(w[x].mode) == "file" && NormalMode(w[y].mode) == "file";
    AliasApplied(files, symbol, order);
    assert LOG[0] == "metadata" && ["a", "b"][0] == "a" && |"a"| != |"metadata"|;
    GreatestScopePrevails(files, [ANN, BOB], 0, 10, order, symbol, y);
  }

  lemma AliasApplied(files: map<Key, string>, symbol: SymbolOverlay, order: seq<string>)
    requires order == ["file:a//b", "file:a/b"] && OrderOf(order, Winners([ANN, BOB], 0, 10))
    requires !Blocked(files, ["a", "b"])
    ensures !Result(files, [ANN, BOB], 0, 10, order, symbol).failed
  {
    AliasScopes();
    AliasWinners();
    hide LockKey, LockOwner, Target, OwnerNotes, Winners, OrderOf, NormalMode;
    var w := Winners([ANN, BOB], 0, 10);
    var o := Overlaid(files, OwnerNotes([ANN, BOB], 0, 10), false);
    assert order[..1][..0] == [] && order[..1][0] == order[0];
    assert w[order[0]] == BOB.body && w[order[1]] == ANN.body && NormalMode(BOB.body.mode) == "file";
    AliasTargets();
    FileStops(o, BOB.body, symbol);
    var m := ApplyOne(o, BOB.body, symbol);
    assert ApplyEach(o, order[..1], w, symbol) == m && !m.failed;
    FileStops(m, ANN.body, symbol);
    assert !Blocked(m.files, ["a", "b"]);
  }

  lemma {:induction false} LessAfter(p: string, a: string, b: string)
    requires Less(a, b)
    ensures Less(p + a, p + b)
  {
    if p == [] {
      assert p + a == a && p + b == b;
    } else {
      LessAfter(p[1..], a, b);
      assert (p + a)[1..] == p[1..] + a && (p + b)[1..] == p[1..] + b;
    }
  }
}
