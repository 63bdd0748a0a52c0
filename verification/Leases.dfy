// Human leases: overrides of a task and code locks.  At any time every scope has one owner.
module Leases {
  import opened Records
  import opened Domain
  import opened Text

  const SECOND: Time := 1_000_000_000
  const DEFAULT_TTL := 3600

  datatype Scope = OverrideScope(taskId: Id, name: string) | LockScope(key: string)

  datatype Lease = Lease(scope: Scope, owner: string, createdAt: Time, expiresAt: Option<Time>, pending: bool)

  // hitlLeaseActive: no expiry means forever.
  predicate LeaseActive(now: Time, expiresAt: Option<Time>) {
    expiresAt.None? || now < expiresAt.value
  }

  function ExpiresAt(now: Time, ttl: int): Outcome<Time> {
    if ttl < 0 then Refused(Invalid) else Ok(now + (if ttl == 0 then DEFAULT_TTL else ttl) * SECOND)
  }

  function FirstNonBlank(items: seq<string>): string {
    if items == [] then "human-operator"
    else if TrimSpace(items[0]) != "" then TrimSpace(items[0]) else FirstNonBlank(items[1..])
  }

  // An owner chosen once stays the owner when it is read back.
  lemma {:induction false} OwnerSettled(items: seq<string>, other: string)
    ensures FirstNonBlank([FirstNonBlank(items), other]) == FirstNonBlank(items) != ""
  {
    if items == [] {
      EdgesStay("human-operator");
    } else if TrimSpace(items[0]) != "" {
      TrimSpaceIdempotent(items[0]);
    } else {
      OwnerSettled(items[1..], other);
    }
  }

  function NormalMode(mode: string): string {
    var m := Lower(TrimSpace(mode));
    if m == "" then "file" else if m == "file" || m == "go_symbol" then m else ""
  }

  function ScopeName(lockScope: string): string {
    var s := TrimSpace(lockScope);
    Lower(if s == "" then "TASK" else s)
  }

  // codeLockScope.
  function LockKey(l: LockBody): string {
    if NormalMode(l.mode) == "go_symbol"
    then "go_symbol:" + l.path + ":" + Lower(TrimSpace(l.symbolKind)) + ":" + TrimSpace(l.symbolName)
    else "file:" + TrimSpace(l.path)
  }

  // A lock of a whole file shares its scope with the locks of that file and no others.
  lemma FileScope(a: LockBody, b: LockBody)
    requires NormalMode(a.mode) != "go_symbol"
    ensures LockKey(a) == LockKey(b) <==> NormalMode(b.mode) != "go_symbol" && TrimSpace(a.path) == TrimSpace(b.path)
  {
    hide NormalMode, TrimSpace;
    assert LockKey(a)[0] == 'f' && LockKey(a)[5..] == TrimSpace(a.path);
    if NormalMode(b.mode) == "go_symbol" {
      assert LockKey(b)[0] == 'g';
    } else {
      assert LockKey(b)[5..] == TrimSpace(b.path);
    }
  }

  // A lock of a symbol shares its scope with the locks of that symbol: same path, kind and name.
  lemma SymbolScope(a: LockBody, b: LockBody)
    requires NormalMode(a.mode) == NormalMode(b.mode) == "go_symbol"
    requires ':' !in a.path && ':' !in b.path
    requires ':' !in Lower(TrimSpace(a.symbolKind)) && ':' !in Lower(TrimSpace(b.symbolKind))
    ensures LockKey(a) == LockKey(b) <==>
      && a.path == b.path && Lower(TrimSpace(a.symbolKind)) == Lower(TrimSpace(b.symbolKind))
      && TrimSpace(a.symbolName) == TrimSpace(b.symbolName)
  {
    hide NormalMode, TrimSpace, Lower;
    var k, l := Lower(TrimSpace(a.symbolKind)), Lower(TrimSpace(b.symbolKind));
    var x, y := k + ":" + TrimSpace(a.symbolName), l + ":" + TrimSpace(b.symbolName);
    assert LockKey(a) == "go_symbol:" + (a.path + ":" + x) && LockKey(b) == "go_symbol:" + (b.path + ":" + y);
    if LockKey(a) == LockKey(b) {
      assert a.path + ":" + x == LockKey(a)[10..] == LockKey(b)[10..] == b.path + ":" + y;
      FirstColon(a.path, x, b.path, y);
      FirstColon(k, TrimSpace(a.symbolName), l, TrimSpace(b.symbolName));
    }
  }

  lemma FirstColon(a: string, x: string, b: string, y: string)
    requires ':' !in a && ':' !in b && a + ":" + x == b + ":" + y
    ensures a == b && x == y
  {
    var s := a + ":" + x;
    assert s[|a|] == ':' && s[|b|] == ':';
    assert forall i | 0 <= i < |a| :: s[i] == a[i] && s[i] != ':';
    assert forall i | 0 <= i < |b| :: s[i] == b[i] && s[i] != ':';
    assert |a| == |b|;
    assert a == s[..|a|] == b && x == s[|a| + 1..] == y;
  }

  function LockOwner(l: LockBody): string {
    FirstNonBlank([l.owner, l.createdBy])
  }

  function OverrideOwner(o: OverrideBody): string {
    FirstNonBlank([o.owner, o.operator])
  }

  function LockLease(l: LockBody): Lease {
    Lease(LockScope(LockKey(l)), LockOwner(l), l.createdAt, l.expiresAt, true)
  }

  function OverrideLease(o: OverrideBody): Lease {
    Lease(OverrideScope(o.taskId, ScopeName(o.lockScope)), OverrideOwner(o), o.createdAt, o.expiresAt,
          o.appliedAt.None?)
  }

  function LockLeases(s: seq<CodeLock>): seq<Lease> {
    seq(|s|, i requires 0 <= i < |s| => LockLease(s[i].body))
  }

  function OverrideLeases(s: seq<Override>): seq<Lease> {
    seq(|s|, i requires 0 <= i < |s| => OverrideLease(s[i].body))
  }

  // ----- Conflicts ----------------------------------------------------------------------

  predicate Holds(l: Lease, now: Time) {
    l.pending && LeaseActive(now, l.expiresAt)
  }

  predicate Clash(l: Lease, scope: Scope, owner: string, now: Time) {
    Holds(l, now) && l.scope == scope && l.owner != owner
  }

  // The first lease on the scope that another owner holds.
  function FirstClash(s: seq<Lease>, scope: Scope, owner: string, now: Time): (r: Option<nat>)
    ensures r.Some? ==>
      && r.value < |s| && Clash(s[r.value], scope, owner, now)
      && forall i | 0 <= i < r.value :: !Clash(s[i], scope, owner, now)
    ensures r.None? ==> forall i | 0 <= i < |s| :: !Clash(s[i], scope, owner, now)
  {
    if s == [] then None
    else
      var r := FirstClash(s[..|s|-1], scope, owner, now);
      if r.Some? then r else if Clash(s[|s|-1], scope, owner, now) then Some(|s| - 1) else None
  }

  // ----- Exclusion ----------------------------------------------------------------------

  // An earlier lease of another owner on the same scope was over when the later one was made.
  // This says nothing about the order of the clock readings, which are taken before the lock
  // is acquired.
  predicate Yields(a: Lease, b: Lease) {
    a.scope == b.scope && a.owner != b.owner ==> !Holds(a, b.createdAt)
  }

  predicate Exclusive(s: seq<Lease>) {
    forall i, j | 0 <= i < j < |s| :: Yields(s[i], s[j])
  }

  // Admitting a lease when no clash was found keeps exclusion.
  lemma AdmitKeeps(s: seq<Lease>, l: Lease)
    requires Exclusive(s) && FirstClash(s, l.scope, l.owner, l.createdAt).None?
    ensures Exclusive(s + [l])
  {
    forall i, j | 0 <= i < j < |s + [l]| ensures Yields((s + [l])[i], (s + [l])[j]) {
      if j == |s| {
        assert !Clash(s[i], l.scope, l.owner, l.createdAt);
      }
    }
  }

  // Marking a lease as no longer pending keeps exclusion.
  lemma RetireKeeps(s: seq<Lease>, k: nat)
    requires Exclusive(s) && k < |s|
    ensures Exclusive(s[k := s[k].(pending := false)])
  {
  }

  // At any time no earlier than the leases were made, those in force on one scope have one owner.
  lemma OneOwner(s: seq<Lease>, now: Time, i: nat, j: nat)
    requires Exclusive(s) && i < |s| && j < |s| && s[i].scope == s[j].scope
    requires Holds(s[i], now) && Holds(s[j], now) && s[i].createdAt <= now && s[j].createdAt <= now
    ensures s[i].owner == s[j].owner
  {
    if i < j {
      assert Yields(s[i], s[j]);
    } else if j < i {
      assert Yields(s[j], s[i]);
    }
  }

  // What makes two owners visible on one scope at a reading of the clock: the reading is older
  // than the later lease.
  lemma TwoOwnersMeanStaleClock(s: seq<Lease>, now: Time, i: nat, j: nat)
    requires Exclusive(s) && i < j < |s| && s[i].scope == s[j].scope && s[i].owner != s[j].owner
    requires Holds(s[i], now) && Holds(s[j], now)
    ensures now < s[j].createdAt
  {
    assert Yields(s[i], s[j]);
  }

  // Such a reading exists: a lease until 11 replaced at 12 clashes when read with a clock of 10.
  lemma StaleClockExample() returns (s: seq<Lease>)
    ensures Exclusive(s) && |s| == 2 && Holds(s[0], 10) && Holds(s[1], 10)
    ensures s[0].scope == s[1].scope && s[0].owner != s[1].owner && s[0].createdAt <= 10
  {
    s := [Lease(LockScope("file:a.go"), "ann", 1, Some(11), true),
          Lease(LockScope("file:a.go"), "bob", 12, Some(20), true)];
  }

  // ----- The override taken at a checkpoint ---------------------------------------------

  predicate Takeable(o: OverrideBody, taskId: Id, now: Time) {
    o.taskId == taskId && o.appliedAt.None? && LeaseActive(now, o.expiresAt)
  }

  // The newest override of the task that is still pending.
  function LatestPending(s: seq<Override>, taskId: Id, now: Time): (r: Option<nat>)
    ensures r.Some? ==>
      && r.value < |s| && Takeable(s[r.value].body, taskId, now)
      && forall i | r.value < i < |s| :: !Takeable(s[i].body, taskId, now)
    ensures r.None? ==> forall i | 0 <= i < |s| :: !Takeable(s[i].body, taskId, now)
  {
    if s == [] then None
    else if Takeable(s[|s|-1].body, taskId, now) then Some(|s| - 1)
    else LatestPending(s[..|s|-1], taskId, now)
  }

  function Applied(s: seq<Override>, k: nat, now: Time): seq<Override>
    requires k < |s|
  {
    s[k := s[k].(body := s[k].body.(appliedAt := Some(now)))]
  }

  lemma AppliedExclusive(s: seq<Override>, k: nat, now: Time)
    requires k < |s| && Exclusive(OverrideLeases(s))
    ensures Exclusive(OverrideLeases(Applied(s, k, now)))
  {
    RetireKeeps(OverrideLeases(s), k);
    assert OverrideLeases(Applied(s, k, now)) == OverrideLeases(s)[k := OverrideLeases(s)[k].(pending := false)];
  }

  lemma LocksAppend(s: seq<CodeLock>, l: CodeLock)
    ensures LockLeases(s + [l]) == LockLeases(s) + [LockLease(l.body)]
  {
  }

  lemma OverridesAppend(s: seq<Override>, o: Override)
    ensures OverrideLeases(s + [o]) == OverrideLeases(s) + [OverrideLease(o.body)]
  {
  }
}
