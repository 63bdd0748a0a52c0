// Runs of one project over a git workspace: private worktrees, merges, rebases, cleanups and
// rollbacks in any order, with commits by others in between.
module GitRuns {
  import opened Records
  import opened Domain
  import opened Text
  import opened Git
  import opened Workspaces

  // A snapshot: the stored sandboxes, and the branch and commit of the workspace it recorded.
  datatype Snap = Snap(boxes: seq<Box>, branch: string, check: Option<Commit>)

  // `base` is the commit of the configured base ref; `buried` the heads of deleted branches.
  datatype Hub = Hub(project: string, repo: Repo, boxes: seq<Box>, snaps: seq<Snap>, base: Commit, buried: set<Commit>)

  // A part of a branch name as gitBranchName leaves it: without slashes.  What else it replaces
  // does not matter here.
  function Dashed(part: string): (d: string)
    ensures |d| == |part| && '/' !in d
  {
    seq(|part|, i requires 0 <= i < |part| => if part[i] == '/' then '-' else part[i])
  }

  function TaskBranchName(project: string, task: string, id: string): string {
    "multiagent/" + Dashed(project) + "/task/" + Dashed(task) + "/" + Dashed(id)
  }

  function SharedBranchName(project: string, id: string): string {
    "multiagent/" + Dashed(project) + "/shared/" + Dashed(id)
  }

  // The n-th rollback branch of the project, opened from the branch `base`.
  function ActiveBranch(base: string, n: nat): string {
    base + "-rollback-" + Decimal(n)
  }

  function RollbackBranchName(project: string, active: string, id: string): string {
    RollbackName(Dashed(project), Dashed(active), Dashed(id))
  }

  // resolveWorkspaceSnapshotRefLocked restores only what is recorded on a managed shared branch.
  predicate Restorable(branch: string) {
    "multiagent/" <= branch && Contains(branch, "/shared/")
  }

  predicate PrivateName(project: string, b: string) {
    "multiagent/" + Dashed(project) + "/task/" <= b
  }

  predicate SharedName(project: string, b: string) {
    "multiagent/" + Dashed(project) + "/shared/" <= b || "multiagent/" + Dashed(project) + "/rollback/" <= b
  }

  lemma NamesApart(project: string, b: string)
    requires PrivateName(project, b)
    ensures !SharedName(project, b)
  {
    var n := |"multiagent/" + Dashed(project) + "/"|;
    assert ("multiagent/" + Dashed(project) + "/task/")[n] == 't';
    assert ("multiagent/" + Dashed(project) + "/shared/")[n] == 's';
    assert ("multiagent/" + Dashed(project) + "/rollback/")[n] == 'r';
  }

  // Every shared branch can be restored from; a rollback branch only in a project called "shared",
  // because the numeral that ends the branch in its name keeps that part from being "shared".
  lemma RestorableNames(project: string, base: string, n: nat, id: string)
    ensures Restorable(SharedBranchName(project, id))
    ensures Restorable(RollbackBranchName(project, ActiveBranch(base, n), id)) <==> Dashed(project) == "shared"
  {
    var p, a := Dashed(project), Dashed(ActiveBranch(base, n));
    ContainsMid("multiagent/" + p, "/shared/", Dashed(id));
    ActiveNotShared(base, n);
    RollbackSegments(p, a, Dashed(id));
  }

  lemma {:induction false} ContainsMid(a: string, t: string, b: string)
    ensures Contains(a + t + b, t)
  {
    var s := a + t + b;
    if a == "" {
      assert s[..|t|] == t;
    } else {
      ContainsMid(a[1..], t, b);
      assert s[1..] == a[1..] + t + b;
    }
  }

  lemma {:induction false} ContainsAt(s: string, t: string) returns (i: nat)
    requires Contains(s, t)
    ensures i + |t| <= |s| && s[i..i + |t|] == t
  {
    if s[..|t|] == t {
      i := 0;
    } else {
      var k := ContainsAt(s[1..], t);
      i := k + 1;
      assert s[i..i + |t|] == s[1..][k..k + |t|];
    }
  }

  lemma ActiveNotShared(base: string, n: nat)
    ensures Dashed(ActiveBranch(base, n)) != "shared"
  {
    var a, d := ActiveBranch(base, n), Decimal(n);
    assert a[|a|-1] == d[|d|-1] && IsDigit(d[|d|-1]);
    assert Dashed(a)[|a|-1] == a[|a|-1];
    assert "shared"[5] == 'd';
  }

  function RollbackName(p: string, a: string, id: string): string {
    "multiagent/" + p + "/rollback/" + a + "/" + id
  }

  // "shared" between two slashes is a whole part of the name.
  lemma RollbackSegments(p: string, a: string, id: string)
    requires '/' !in p && '/' !in a && '/' !in id && a != "shared"
    ensures Contains(RollbackName(p, a, id), "/shared/") <==> p == "shared"
  {
    var s := RollbackName(p, a, id);
    hide Contains;
    if p == "shared" {
      assert s == "multiagent" + "/shared/" + ("rollback/" + a + "/" + id);
      ContainsMid("multiagent", "/shared/", "rollback/" + a + "/" + id);
    }
    hide RollbackName;
    if Contains(s, "/shared/") {
      var i := ContainsAt(s, "/shared/");
      var t := s[i..i + 8];
      assert t[0] == s[i] == '/' && t[7] == s[i + 7] == '/';
      SlashPlaces(p, a, id, i);
      SlashPlaces(p, a, id, i + 7);
      PartBetween(s, i, p, a, id);
    }
  }

  lemma SlashPlaces(p: string, a: string, id: string, i: nat)
    requires '/' !in p && '/' !in a && '/' !in id && i < |RollbackName(p, a, id)|
    ensures RollbackName(p, a, id)[i] == '/' ==> i in {10, 11 + |p|, 20 + |p|, 21 + |p| + |a|}
  {
    var s := RollbackName(p, a, id);
    if i < 11 {
      assert s[i] == "multiagent/"[i];
    } else if i < 11 + |p| {
      assert s[i] == p[i - 11];
    } else if i < 21 + |p| {
      assert s[i] == "/rollback/"[i - 11 - |p|];
    } else if i < 21 + |p| + |a| {
      assert s[i] == a[i - 21 - |p|];
    } else if i > 21 + |p| + |a| {
      assert s[i] == id[i - 22 - |p| - |a|];
    }
  }

  lemma PartBetween(s: string, i: nat, p: string, a: string, id: string)
    requires s == RollbackName(p, a, id) && i + 8 <= |s| && s[i..i + 8] == "/shared/"
    requires i in {10, 11 + |p|, 20 + |p|, 21 + |p| + |a|} && i + 7 in {10, 11 + |p|, 20 + |p|, 21 + |p| + |a|}
    requires '/' !in p && '/' !in a && '/' !in id
    ensures p == "shared" || a == "shared"
  {
    var t := s[i..i + 8];
    assert t[1..7] == "shared";
    forall k | i < k < i + 7 ensures s[k] == "shared"[k - i - 1] && s[k] != '/' {
      assert s[k] == t[k - i] == t[1..7][k - i - 1];
    }
    assert s[i + 1..i + 7] == "shared";
    if i == 10 {
      assert s[11 + |p|] == '/';
      assert p == s[11..11 + |p|];
    } else if i == 20 + |p| {
      assert s[21 + |p| + |a|] == '/';
      assert a == s[21 + |p|..21 + |p| + |a|];
    }
  }

  // ----- Retained heads -----------------------------------------------------------------

  function SharedHeads(boxes: seq<Box>): seq<HeadRef> {
    if boxes == [] then []
    else
      var b := boxes[|boxes|-1];
      SharedHeads(boxes[..|boxes|-1]) + if b.scope
        == Shared && b.status == Released && b.head.Some? then [At(b.head.value)] else []
  }

  function Checks(snaps: seq<Snap>): seq<HeadRef> {
    if snaps == [] then []
    else
      var s := snaps[|snaps|-1];
      Checks(snaps[..|snaps|-1]) + if s.check.Some? then [At(s.check.value)] else []
  }

  // retainedWorkspaceHeadsLocked.
  function Retained(h: Hub): seq<HeadRef> {
    SharedHeads(h.boxes) + Checks(h.snaps) + [At(h.base)]
  }

  ghost predicate Offers(b: Box, c: Commit) {
    b.scope == Shared && b.status == Released && b.head == Some(c)
  }

  lemma {:induction false} SharedHeadsAre(boxes: seq<Box>, x: HeadRef)
    ensures x in SharedHeads(boxes) <==> x.At? && exists i :: 0 <= i < |boxes| && Offers(boxes[i], x.commit)
  {
    if boxes == [] {
    } else {
      var n := |boxes| - 1;
      SharedHeadsAre(boxes[..n], x);
      assert forall i | 0 <= i < n :: boxes[..n][i] == boxes[i];
    }
  }

  lemma {:induction false} ChecksAre(snaps: seq<Snap>, x: HeadRef)
    ensures x in Checks(snaps) <==> x.At? && exists j :: 0 <= j < |snaps| && snaps[j].check == Some(x.commit)
  {
    if snaps == [] {
    } else {
      var n := |snaps| - 1;
      ChecksAre(snaps[..n], x);
      assert forall j | 0 <= j < n :: snaps[..n][j] == snaps[j];
    }
  }

  // latestWorkspaceHeadRefLocked, or else the base.
  function MergeBase(snaps: seq<Snap>, base: Commit): Commit {
    if snaps == [] then base
    else if snaps[|snaps|-1].check.Some? then snaps[|snaps|-1].check.value
    else MergeBase(snaps[..|snaps|-1], base)
  }

  // ----- Steps --------------------------------------------------------------------------

  // git worktree add -b.
  function WorktreeAdded(r: Repo, path: string, branch: string, at: Commit): Repo {
    r.(branches := r.branches[branch := at], trees := r.trees[path := On(branch)])
  }

  // The command may be cut off after it has made the branch, or after it has made both.
  datatype Adding = Added | NotAdded | BranchOnly | AddedUnseen

  function LeftByAdd(r: Repo, path: string, branch: string, at: Commit, add: Adding): Repo {
    if !Free(r, path, branch) then r
    else
      match add
      case NotAdded => r
      case BranchOnly => r.(branches := r.branches[branch := at])
      case _ => WorktreeAdded(r, path, branch, at)
  }

  predicate Free(r: Repo, path: string, branch: string) {
    path !in r.trees && branch !in r.branches
  }

  function PrivateMade(h: Hub, task: string, id: string, path: string, add: Adding): Hub {
    var branch := TaskBranchName(h.project, task, id);
    var n := LeftByAdd(h.repo, path, branch, h.base, add);
    if !add.Added? || !Free(h.repo, path, branch) then h.(repo := n)
    else h.(repo := n, boxes := h.boxes + [Box(true, Private, Active, path, branch, Some(h.base), None)])
  }

  // FinalizePrivateRun: what the run left in its worktree is committed and the head recorded.
  function Finished(h: Hub, i: nat, dirty: bool): Hub
    requires RepoOk(h.repo)
  {
    if i >= |h.boxes| || h.boxes[i].scope != Private || h.boxes[i].path !in h.repo.trees
      || h.repo.trees[h.boxes[i].path] != On(h.boxes[i].branch) then h
    else
      var path := h.boxes[i].path;
      var n := if dirty then Committed(h.repo, path, {Head(h.repo, path)}) else h.repo;
      CommittedOk(h.repo, path, {Head(h.repo, path)});
      h.(repo := n, boxes := h.boxes[i := h.boxes[i].(status := Released, head := Some(Head(n, path)))])
  }

  // A commit on a task branch that no record follows: by the agent itself, by a run that failed
  // after its commit, or by one whose sandbox a rollback has taken away.
  function Strayed(h: Hub, path: string): Hub {
    if path in h.repo.trees && h.repo.trees[path].On? && h.repo.trees[path].branch in h.repo.branches
      && PrivateName(h.project, h.repo.trees[path].branch)
    then h.(repo := Committed(h.repo, path, {h.repo.branches[h.repo.trees[path].branch]}))
    else h
  }

  function Crashed(h: Hub, i: nat): Hub {
    if i < |h.boxes| && h.boxes[i].scope == Private then h.(boxes := h.boxes[i := h.boxes[i].(status := Broken)]) else h
  }

  function Heads(boxes: seq<Box>, sources: seq<nat>): (s: seq<Option<Commit>>)
    ensures |s| == |sources|
    ensures forall i | 0 <= i < |sources| :: s[i] == if sources[i] < |boxes| then boxes[sources[i]].head else None
  {
    seq(|sources|, i requires 0 <= i < |sources| => if sources[i] < |boxes| then boxes[sources[i]].head else None)
  }

  // `sealed`: the manifest was committed and the new head read; the commit may have been made all
  // the same, or have been unnecessary.
  datatype MergeWorld = MergeWorld(add: Adding, fails: map<nat, bool>, committed: bool, sealed: bool, published: bool)

  // The merge, the commit of the manifest, and the recorded head; a failure on the way leaves the
  // shared sandbox FAILED, otherwise it is released and recorded in a snapshot.
  function MergedHub(h: Hub, id: string, path: string, sources: seq<nat>, env: MergeWorld): (n: Hub)
    requires RepoOk(h.repo) && MergeBase(h.snaps, h.base) < |h.repo.parents|
  {
    var branch, at := SharedBranchName(h.project, id), MergeBase(h.snaps, h.base);
    if !env.add.Added? || !Free(h.repo, path, branch)
    then h.(repo := LeftByAdd(h.repo, path, branch, at, env.add))
    else
      var r := WorktreeAdded(h.repo, path, branch, at);
      var e := MergeEach(r, path, Heads(h.boxes, sources), env.fails);
      var box := Box(true, Shared, Broken, path, branch, Some(at), None);
      var n := if e.ok then WithManifest(e.repo, path, env.committed) else e.repo;
      if !e.ok || !env.sealed then h.(repo := n, boxes := h.boxes + [box])
      else
        var boxes := h.boxes
          + [box.(status := if env.published then Released else Broken, head := Some(Head(n, path)))];
        h.(repo := n, boxes := boxes,
           snaps := if env.published then h.snaps + [Snap(boxes, branch, Some(Head(n, path)))] else h.snaps)
  }

  function WithManifest(r: Repo, path: string, dirty: bool): (n: Repo)
    requires RepoOk(r) && path in r.trees
    ensures Advanced(r, n, path)
  {
    AdvancedSelf(r, path);
    CommittedOk(r, path, {Head(r, path)});
    if dirty then Committed(r, path, {Head(r, path)}) else r
  }

  // The retained heads are asked for one by one; the command for one of them may hang.
  function Asked(refs: seq<HeadRef>, hangs: nat): seq<HeadRef> {
    if hangs < |refs| then refs[..hangs] + [Hangs] else refs
  }

  function Cleaned(h: Hub, i: nat, dryRun: bool, deleteBranch: bool, hangs: nat, env: CleanupWorld): Hub
    requires RepoOk(h.repo)
  {
    if i >= |h.boxes| then h
    else
      var e := CleanedUp(h.repo, h.boxes[i], CleanupPolicy(dryRun, deleteBranch, Asked(Retained(h), hangs)), env);
      var gone := if e.repo.branches == h.repo.branches || h.boxes[i].head.None? then {} else {h.boxes[i].head.value};
      h.(repo := e.repo, buried := h.buried + gone)
  }

  function RebasedHub(h: Hub, i: nat, opts: RebaseOptions, env: RebaseWorld): Hub
    requires RepoOk(h.repo)
  {
    if i >= |h.boxes| then h
    else
      var e := RebaseOn(h.repo, h.boxes[i], opts, env);
      h.(repo := e.repo, boxes := h.boxes[i := RebaseApplied(h.boxes[i], e.result, opts.dryRun)])
  }

  // A rollback to a snapshot with a commit puts that commit into a new worktree, if the branch the
  // snapshot recorded is one to restore from.  When the worktree cannot be made the sandboxes have
  // been replaced already.
  function RolledBack(h: Hub, k: nat, base: string, n: nat, id: string, path: string, add: Adding): Hub {
    if k >= |h.snaps| then h
    else
      var s := h.snaps[k];
      var branch := RollbackBranchName(h.project, ActiveBranch(base, n), id);
      if s.check.None? then h.(boxes := s.boxes, snaps := h.snaps + [Snap(s.boxes, "", None)])
      else if !Restorable(s.branch) then h
      else
        var m := LeftByAdd(h.repo, path, branch, s.check.value, add);
        if !add.Added? || !Free(h.repo, path, branch) then h.(repo := m, boxes := s.boxes)
        else
          var boxes := s.boxes + [Box(true, Shared, Released, path, branch, s.check, s.check)];
          h.(repo := m, boxes := boxes, snaps := h.snaps + [Snap(boxes, branch, s.check)])
  }

  // Others commit, and may move the base ref forward.
  function Outside(h: Hub, ps: set<Commit>, forward: bool): Hub {
    if exists q | q in ps :: q >= |h.repo.parents| then h
    else
      h.(repo := h.repo.(parents := h.repo.parents + [ps]),
         base := if forward && h.base in ps then |h.repo.parents| else h.base)
  }

  datatype GitEvent =
    | EvPrivate(task: string, id: string, path: string, add: Adding)
    | EvFinished(i: nat, dirty: bool)
    | EvStrayed(path: string)
    | EvCrashed(i: nat)
    | EvMerged(id: string, path: string, sources: seq<nat>, merge: MergeWorld)
    | EvCleaned(i: nat, dryRun: bool, deleteBranch: bool, hangs: nat, cleanup: CleanupWorld)
    | EvRebased(i: nat, opts: RebaseOptions, rebase: RebaseWorld)
    | EvRolledBack(k: nat, base: string, n: nat, id: string, path: string, add: Adding)
    | EvOutside(ps: set<Commit>, forward: bool)

  ghost function Step(h: Hub, e: GitEvent): Hub
    requires HubOk(h)
  {
    match e
    case EvPrivate(task, id, path, add) => PrivateMade(h, task, id, path, add)
    case EvFinished(i, dirty) => Finished(h, i, dirty)
    case EvStrayed(path) => Strayed(h, path)
    case EvCrashed(i) => Crashed(h, i)
    case EvMerged(id, path, sources, env) =>
      MergeBaseKnown(h);
      MergedHub(h, id, path, sources, env)
    case EvCleaned(i, dryRun, deleteBranch, hangs, env) => Cleaned(h, i, dryRun, deleteBranch, hangs, env)
    case EvRebased(i, opts, env) => RebasedHub(h, i, opts, env)
    case EvRolledBack(k, base, n, id, path, add) => RolledBack(h, k, base, n, id, path, add)
    case EvOutside(ps, forward) => Outside(h, ps, forward)
  }

  // ----- The invariant ------------------------------------------------------------------

  // Private sandboxes have task branches; the head of a released shared one is recorded by a
  // snapshot.
  predicate BoxOk(project: string, snaps: seq<Snap>, b: Box) {
    && (b.scope == Private ==> PrivateName(project, b.branch))
    && (b.scope == Shared && b.status == Released ==>
          b.head.Some? && exists j | 0 <= j < |snaps| :: snaps[j].check == b.head)
  }

  predicate BoxesOk(project: string, snaps: seq<Snap>, boxes: seq<Box>) {
    forall i | 0 <= i < |boxes| :: BoxOk(project, snaps, boxes[i])
  }

  // A branch that no cleanup deletes still reaches the commit.
  predicate Anchored(project: string, r: Repo, c: Commit)
    requires RepoOk(r)
  {
    c < |r.parents| && exists b | b in r.branches :: SharedName(project, b) && Ancestor(r.parents, c, r.branches[b])
  }

  // What a snapshot with a commit recorded is a shared branch or a rollback branch of the project.
  ghost predicate Recorded(project: string, s: Snap) {
    s.check.Some? ==>
      || (exists id :: s.branch == SharedBranchName(project, id))
      || (exists base, n, id :: s.branch == RollbackBranchName(project, ActiveBranch(base, n), id))
  }

  ghost predicate SnapOk(project: string, snaps: seq<Snap>, r: Repo, s: Snap)
    requires RepoOk(r)
  {
    && BoxesOk(project, snaps, s.boxes) && Recorded(project, s)
    && (s.check.Some? ==> Anchored(project, r, s.check.value))
  }

  ghost predicate SnapsOk(h: Hub)
    requires RepoOk(h.repo)
  {
    forall j | 0 <= j < |h.snaps| :: SnapOk(h.project, h.snaps, h.repo, h.snaps[j])
  }

  // The commit is contained in the commit of a snapshot, or in the base.
  predicate Kept(h: Hub, x: Commit)
    requires RepoOk(h.repo)
  {
    || Ancestor(h.repo.parents, x, h.base)
    || exists j | 0 <= j < |h.snaps| :: h.snaps[j].check.Some? && Ancestor(h.repo.parents, x, h.snaps[j].check.value)
  }

  ghost predicate HubOk(h: Hub) {
    && RepoOk(h.repo) && h.base < |h.repo.parents|
    && BoxesOk(h.project, h.snaps, h.boxes) && SnapsOk(h)
    && forall x | x in h.buried :: Kept(h, x)
  }

  lemma {:induction false} MergeBaseIs(snaps: seq<Snap>, base: Commit)
    ensures MergeBase(snaps, base) == base || exists j ::
      0 <= j < |snaps| && snaps[j].check == Some(MergeBase(snaps, base))
  {
    if snaps == [] || snaps[|snaps|-1].check.Some? {
    } else {
      MergeBaseIs(snaps[..|snaps|-1], base);
      assert forall j | 0 <= j < |snaps| - 1 :: snaps[..|snaps|-1][j] == snaps[j];
    }
  }

  lemma MergeBaseKnown(h: Hub)
    requires HubOk(h)
    ensures MergeBase(h.snaps, h.base) < |h.repo.parents|
  {
    MergeBaseIs(h.snaps, h.base);
  }

  // ----- What every step keeps ----------------------------------------------------------

  // Commits, snapshots and shared branches stay; the base and the shared branches only advance.
  predicate Carries(h: Hub, n: Hub)
    requires RepoOk(h.repo)
  {
    && n.project == h.project && RepoOk(n.repo) && h.repo.parents <= n.repo.parents && h.snaps <= n.snaps
    && n.base < |n.repo.parents| && Ancestor(n.repo.parents, h.base, n.base)
    && (forall b | b in h.repo.branches && SharedName(h.project, b) ::
          b in n.repo.branches && Ancestor(n.repo.parents, h.repo.branches[b], n.repo.branches[b]))
  }

  lemma AnchoredCarries(h: Hub, n: Hub, c: Commit)
    requires RepoOk(h.repo) && Carries(h, n) && Anchored(h.project, h.repo, c)
    ensures Anchored(n.project, n.repo, c)
  {
    hide SharedName;
    var b :| b in h.repo.branches && SharedName(h.project, b) && Ancestor(h.repo.parents, c, h.repo.branches[b]);
    AncestorGrows(h.repo.parents, n.repo.parents, c, h.repo.branches[b]);
    AncestorTrans(n.repo.parents, c, h.repo.branches[b], n.repo.branches[b]);
  }

  lemma KeptCarries(h: Hub, n: Hub, x: Commit)
    requires RepoOk(h.repo) && Carries(h, n) && h.base < |h.repo.parents| && Kept(h, x)
    requires forall j | 0 <= j < |h.snaps| && h.snaps[j].check.Some? :: h.snaps[j].check.value < |h.repo.parents|
    ensures Kept(n, x)
  {
    hide SharedName;
    if Ancestor(h.repo.parents, x, h.base) {
      AncestorGrows(h.repo.parents, n.repo.parents, x, h.base);
      AncestorTrans(n.repo.parents, x, h.base, n.base);
    } else {
      var j :| 0 <= j < |h.snaps| && h.snaps[j].check.Some? && Ancestor(h.repo.parents, x, h.snaps[j].check.value);
      AncestorGrows(h.repo.parents, n.repo.parents, x, h.snaps[j].check.value);
      assert n.snaps[j] == h.snaps[j];
    }
  }

  lemma BoxCarries(project: string, snaps: seq<Snap>, more: seq<Snap>, b: Box)
    requires BoxOk(project, snaps, b) && snaps <= more
    ensures BoxOk(project, more, b)
  {
    if b.scope == Shared && b.status == Released {
      var j :| 0 <= j < |snaps| && snaps[j].check == b.head;
      assert more[j] == snaps[j];
    }
  }

  lemma BoxesCarry(project: string, snaps: seq<Snap>, more: seq<Snap>, boxes: seq<Box>)
    requires BoxesOk(project, snaps, boxes) && snaps <= more
    ensures BoxesOk(project, more, boxes)
  {
    hide BoxOk;
    forall i | 0 <= i < |boxes| ensures BoxOk(project, more, boxes[i]) {
      BoxCarries(project, snaps, more, boxes[i]);
    }
  }

  // What remains to be shown of a step: the sandboxes, the new snapshots and the new graves.
  lemma StillOk(h: Hub, n: Hub)
    requires HubOk(h) && Carries(h, n) && BoxesOk(n.project, n.snaps, n.boxes)
    requires forall j | |h.snaps| <= j < |n.snaps| :: SnapOk(n.project, n.snaps, n.repo, n.snaps[j])
    requires forall x | x in n.buried && x !in h.buried :: Kept(n, x)
    ensures HubOk(n)
  {
    forall j | 0 <= j < |h.snaps| && h.snaps[j].check.Some? ensures h.snaps[j].check.value < |h.repo.parents| {
      assert SnapOk(h.project, h.snaps, h.repo, h.snaps[j]);
    }
    hide BoxesOk, Anchored, Kept, Carries, SnapOk;
    forall j | 0 <= j < |h.snaps| ensures SnapOk(n.project, n.snaps, n.repo, n.snaps[j]) {
      SnapCarries(h, n, j);
    }
    CarriesBase(h, n);
    forall x | x in n.buried ensures Kept(n, x) {
      if x in h.buried {
        KeptCarries(h, n, x);
      }
    }
  }

  lemma CarriesBase(h: Hub, n: Hub)
    requires RepoOk(h.repo) && Carries(h, n)
    ensures RepoOk(n.repo) && n.base < |n.repo.parents|
  {
  }

  lemma SnapCarries(h: Hub, n: Hub, j: nat)
    requires HubOk(h) && Carries(h, n) && j < |h.snaps|
    ensures j < |n.snaps| && n.snaps[j] == h.snaps[j] && SnapOk(n.project, n.snaps, n.repo, n.snaps[j])
  {
    hide BoxOk, Anchored, Kept, Recorded;
    assert SnapOk(h.project, h.snaps, h.repo, h.snaps[j]);
    BoxesCarry(h.project, h.snaps, n.snaps, h.snaps[j].boxes);
    if h.snaps[j].check.Some? {
      AnchoredCarries(h, n, h.snaps[j].check.value);
    }
  }

  // ----- Step by step -------------------------------------------------------------------

  // A step that leaves the shared branches alone and only adds commits.
  lemma QuietCarries(h: Hub, n: Hub)
    requires HubOk(h) && n.project == h.project && RepoOk(n.repo) && h.repo.parents <= n.repo.parents
    requires n.snaps == h.snaps && n.base == h.base
    requires forall b | b in h.repo.branches && SharedName(h.project, b) ::
      b in n.repo.branches && n.repo.branches[b] == h.repo.branches[b]
    ensures Carries(h, n)
  {
    hide SharedName, BoxesOk, SnapsOk, Kept;
  }

  lemma AddedOk(r: Repo, path: string, branch: string, at: Commit)
    requires RepoOk(r) && at < |r.parents| && Free(r, path, branch)
    ensures var n := WorktreeAdded(r, path, branch, at);
      && RepoOk(n) && Head(n, path) == at
      && forall b | b in r.branches :: b in n.branches && n.branches[b] == r.branches[b]
  {
  }

  // However it ends, adding a worktree leaves the other branches alone.
  lemma LeftByAddOk(r: Repo, path: string, branch: string, at: Commit, add: Adding)
    requires RepoOk(r) && at < |r.parents|
    ensures var n := LeftByAdd(r, path, branch, at, add);
      && RepoOk(n) && n.parents == r.parents
      && forall b | b in r.branches :: b in n.branches && n.branches[b] == r.branches[b]
  {
  }

  lemma PrivateStep(h: Hub, task: string, id: string, path: string, add: Adding)
    requires HubOk(h)
    ensures HubOk(PrivateMade(h, task, id, path, add))
  {
    var n := PrivateMade(h, task, id, path, add);
    var branch := TaskBranchName(h.project, task, id);
    LeftByAddOk(h.repo, path, branch, h.base, add);
    assert PrivateName(h.project, branch);
    hide PrivateName, SharedName, Kept, SnapsOk, LeftByAdd, TaskBranchName;
    QuietCarries(h, n);
    hide Carries;
    StillOk(h, n);
  }

  // Moving the head of a task branch leaves the shared branches alone.
  lemma PrivateMoves(h: Hub, n: Repo, path: string, branch: string)
    requires RepoOk(h.repo) && path in h.repo.trees && Elsewhere(h.repo, n, path) && PrivateName(h.project, branch)
    requires h.repo.trees[path].On? ==> h.repo.trees[path].branch == branch
    ensures forall b | b in h.repo.branches && SharedName(h.project, b) ::
      b in n.branches && n.branches[b] == h.repo.branches[b]
  {
    NamesApart(h.project, branch);
    hide SharedName, PrivateName;
  }

  lemma FinishedStep(h: Hub, i: nat, dirty: bool)
    requires HubOk(h)
    ensures HubOk(Finished(h, i, dirty))
  {
    var n := Finished(h, i, dirty);
    if i < |h.boxes| && h.boxes[i].scope == Private && h.boxes[i].path in h.repo.trees
      && h.repo.trees[h.boxes[i].path] == On(h.boxes[i].branch) {
      var path := h.boxes[i].path;
      assert BoxOk(h.project, h.snaps, h.boxes[i]);
      CommittedOk(h.repo, path, {Head(h.repo, path)});
      hide PrivateName, SharedName, Kept, SnapsOk, Committed;
      PrivateMoves(h, n.repo, path, h.boxes[i].branch);
      QuietCarries(h, n);
      hide Carries;
      StillOk(h, n);
    }
  }

  lemma StrayedStep(h: Hub, path: string)
    requires HubOk(h)
    ensures HubOk(Strayed(h, path))
  {
    var n := Strayed(h, path);
    if n != h {
      CommittedOk(h.repo, path, {Head(h.repo, path)});
      hide PrivateName, SharedName, Kept, SnapsOk, Committed;
      PrivateMoves(h, n.repo, path, h.repo.trees[path].branch);
      QuietCarries(h, n);
      hide Carries;
      StillOk(h, n);
    }
  }

  lemma CrashedStep(h: Hub, i: nat)
    requires HubOk(h)
    ensures HubOk(Crashed(h, i))
  {
    var n := Crashed(h, i);
    hide PrivateName, SharedName, Kept, SnapsOk;
    QuietCarries(h, n);
    hide Carries;
    if i < |h.boxes| {
      assert BoxOk(h.project, h.snaps, h.boxes[i]);
    }
    StillOk(h, n);
  }

  lemma RebasedStep(h: Hub, i: nat, opts: RebaseOptions, env: RebaseWorld)
    requires HubOk(h)
    ensures HubOk(RebasedHub(h, i, opts, env))
  {
    if i < |h.boxes| {
      var n, box := RebasedHub(h, i, opts, env), h.boxes[i];
      var e := RebaseOn(h.repo, box, opts, env);
      assert BoxOk(h.project, h.snaps, box);
      RebaseElsewhere(h.repo, box, opts, env);
      RebaseScope(h.repo, box, opts, env);
      hide PrivateName, SharedName, Kept, SnapsOk, ManagedTask, RebaseOn;
      if e.repo != h.repo {
        PrivateMoves(h, e.repo, box.path, box.branch);
      }
      QuietCarries(h, n);
      hide Carries;
      StillOk(h, n);
    }
  }

  // Only private sandboxes are rebased.
  lemma RebaseScope(r: Repo, box: Box, opts: RebaseOptions, env: RebaseWorld)
    requires RepoOk(r)
    ensures var e := RebaseOn(r, box, opts, env);
      box.scope != Private ==> e.repo == r && RebaseApplied(box, e.result, opts.dryRun) == box
  {
  }

  lemma OutsideStep(h: Hub, ps: set<Commit>, forward: bool)
    requires HubOk(h)
    ensures HubOk(Outside(h, ps, forward))
  {
    var n := Outside(h, ps, forward);
    if forall q | q in ps :: q < |h.repo.parents| {
      assert forall c | 0 <= c < |h.repo.parents| :: n.repo.parents[c] == h.repo.parents[c];
      assert RepoOk(n.repo);
      hide SharedName, Kept, SnapsOk, BoxesOk;
      if forward && h.base in ps {
        assert h.base in n.repo.parents[n.base] && Ancestor(n.repo.parents, h.base, h.base);
      }
      hide DagOk;
      assert Carries(h, n);
      hide Carries;
      StillOk(h, n);
    }
  }

  lemma CleanedStep(h: Hub, i: nat, dryRun: bool, deleteBranch: bool, hangs: nat, env: CleanupWorld)
    requires HubOk(h)
    ensures HubOk(Cleaned(h, i, dryRun, deleteBranch, hangs, env))
  {
    if i < |h.boxes| {
      var n, box := Cleaned(h, i, dryRun, deleteBranch, hangs, env), h.boxes[i];
      var policy := CleanupPolicy(dryRun, deleteBranch, Asked(Retained(h), hangs));
      var e := CleanedUp(h.repo, box, policy, env);
      assert BoxOk(h.project, h.snaps, box);
      CleanupSafe(h.repo, box, policy, env);
      hide CleanedUp, Kept, SnapsOk, ManagedTask, Retained;
      if e.repo.branches != h.repo.branches {
        NamesApart(h.project, box.branch);
        RetainedKept(h, box.head.value, e.result.keeper.value);
        KeptBy(h, n, box.head.value);
      }
      hide SharedName, PrivateName;
      QuietCarries(h, n);
      hide Carries;
      StillOk(h, n);
    }
  }

  lemma KeptBy(h: Hub, n: Hub, x: Commit)
    requires RepoOk(h.repo) && RepoOk(n.repo) && n.repo.parents == h.repo.parents && n.snaps == h.snaps
    requires n.base == h.base && Kept(h, x)
    ensures Kept(n, x)
  {
  }

  // A retained ref is the base or the commit of a snapshot.
  lemma RetainedKept(h: Hub, x: Commit, c: Commit)
    requires HubOk(h) && At(c) in Retained(h) && Ancestor(h.repo.parents, x, c)
    ensures Kept(h, x)
  {
    hide SnapsOk;
    SharedHeadsAre(h.boxes, At(c));
    ChecksAre(h.snaps, At(c));
    if At(c) in SharedHeads(h.boxes) {
      var i :| 0 <= i < |h.boxes| && h.boxes[i].scope == Shared && h.boxes[i].status == Released
        && h.boxes[i].head == Some(c);
      assert BoxOk(h.project, h.snaps, h.boxes[i]);
    }
  }

  // A new shared worktree, advanced: the other shared branches are as they were, and the new one
  // anchors what it contains.
  lemma SharedAdded(h: Hub, path: string, branch: string, at: Commit, n: Repo)
    requires HubOk(h) && at < |h.repo.parents| && Free(h.repo, path, branch) && SharedName(h.project, branch)
    requires Advanced(WorktreeAdded(h.repo, path, branch, at), n, path)
    ensures RepoOk(n) && h.repo.parents <= n.parents && path in n.trees
    ensures Anchored(h.project, n, Head(n, path))
    ensures forall b | b in h.repo.branches :: b in n.branches && n.branches[b] == h.repo.branches[b]
  {
    hide SharedName, SnapsOk, BoxesOk, Kept;
    AddedOk(h.repo, path, branch, at);
    assert n.trees[path] == On(branch);
    assert Ancestor(n.parents, Head(n, path), n.branches[branch]);
  }

  lemma MergedStep(h: Hub, id: string, path: string, sources: seq<nat>, env: MergeWorld)
    requires HubOk(h) && MergeBase(h.snaps, h.base) < |h.repo.parents|
    ensures HubOk(MergedHub(h, id, path, sources, env))
  {
    var branch, at := SharedBranchName(h.project, id), MergeBase(h.snaps, h.base);
    if !env.add.Added? || !Free(h.repo, path, branch) {
      MergeNotBegun(h, MergedHub(h, id, path, sources, env), path, branch, at, env.add);
    } else {
      AddedOk(h.repo, path, branch, at);
      assert SharedName(h.project, branch);
      var r := WorktreeAdded(h.repo, path, branch, at);
      var n := MergedHub(h, id, path, sources, env);
      var e := MergeEach(r, path, Heads(h.boxes, sources), env.fails);
      hide Advanced, SharedName, PrivateName, Free, WorktreeAdded, MergeEach, HubOk, SharedBranchName;
      if !e.ok {
        MergeRefused(h, n, path, branch, at, e.repo);
      } else {
        MergeAdvanced(r, e.repo, path, env.committed);
        var m := WithManifest(e.repo, path, env.committed);
        if env.sealed {
          MergedKeeps(h, n, path, branch, at, m, env.published);
        } else {
          MergeRefused(h, n, path, branch, at, m);
        }
      }
    }
  }

  lemma MergeNotBegun(h: Hub, n: Hub, path: string, branch: string, at: Commit, add: Adding)
    requires HubOk(h) && at < |h.repo.parents| && n == h.(repo := LeftByAdd(h.repo, path, branch, at, add))
    ensures HubOk(n)
  {
    LeftByAddOk(h.repo, path, branch, at, add);
    hide SharedName, SnapsOk, Kept, LeftByAdd;
    QuietCarries(h, n);
    hide Carries;
    StillOk(h, n);
  }

  lemma MergeAdvanced(r: Repo, m: Repo, path: string, dirty: bool)
    requires Advanced(r, m, path)
    ensures RepoOk(m) && path in m.trees && Advanced(r, WithManifest(m, path, dirty), path)
  {
    AdvancedThen(r, m, WithManifest(m, path, dirty), path);
  }

  lemma MergeRefused(h: Hub, n: Hub, path: string, branch: string, at: Commit, m: Repo)
    requires HubOk(h) && at < |h.repo.parents| && Free(h.repo, path, branch) && SharedName(h.project, branch)
    requires Advanced(WorktreeAdded(h.repo, path, branch, at), m, path)
    requires n == h.(repo := m, boxes := h.boxes + [Box(true, Shared, Broken, path, branch, Some(at), None)])
    ensures HubOk(n)
  {
    SharedAdded(h, path, branch, at, m);
    hide SharedName, SnapsOk, Kept, Advanced, Free;
    QuietCarries(h, n);
    hide Carries;
    StillOk(h, n);
  }

  lemma MergedKeeps(h: Hub, n: Hub, path: string, branch: string, at: Commit, m: Repo, published: bool)
    requires HubOk(h) && at < |h.repo.parents| && Free(h.repo, path, branch) && SharedName(h.project, branch)
    requires Advanced(WorktreeAdded(h.repo, path, branch, at), m, path) && RepoOk(m) && path in m.trees
    requires exists id :: branch == SharedBranchName(h.project, id)
    requires var boxes := h.boxes
      + [Box(true, Shared, if published then Released else Broken, path, branch, Some(at), Some(Head(m, path)))];
      n
        == h.(repo := m, boxes := boxes,
              snaps := if published then h.snaps + [Snap(boxes, branch, Some(Head(m, path)))] else h.snaps)
    ensures HubOk(n)
  {
    SharedAdded(h, path, branch, at, m);
    if published {
      assert Recorded(h.project, n.snaps[|h.snaps|]);
    }
    hide SharedName, SnapsOk, Kept, Advanced, Free, PrivateName, Recorded, SharedBranchName;
    QuietCarries(h, n.(snaps := h.snaps));
    assert Carries(h, n);
    hide Carries, Anchored;
    BoxesCarry(h.project, h.snaps, n.snaps, h.boxes);
    if published {
      assert n.snaps[|h.snaps|].check == Some(Head(m, path));
    }
    StillOk(h, n);
  }

  lemma RolledBackStep(h: Hub, k: nat, base: string, m: nat, id: string, path: string, add: Adding)
    requires HubOk(h)
    ensures HubOk(RolledBack(h, k, base, m, id, path, add))
  {
    if k < |h.snaps| {
      var n, s := RolledBack(h, k, base, m, id, path, add), h.snaps[k];
      var branch := RollbackBranchName(h.project, ActiveBranch(base, m), id);
      assert SnapOk(h.project, h.snaps, h.repo, s);
      if s.check.None? || !Restorable(s.branch) || !add.Added? || !Free(h.repo, path, branch) {
        if s.check.Some? {
          LeftByAddOk(h.repo, path, branch, s.check.value, add);
        }
        hide SharedName, SnapsOk, Kept, PrivateName, BoxOk, Restorable, LeftByAdd, RollbackBranchName, ActiveBranch;
        QuietCarries(h, n.(snaps := h.snaps));
        assert Carries(h, n);
        BoxesCarry(h.project, h.snaps, n.snaps, s.boxes);
        hide Carries;
        StillOk(h, n);
      } else {
        assert SharedName(h.project, branch);
        assert Recorded(h.project, Snap(s.boxes, branch, s.check));
        hide SharedName, PrivateName, Kept, SnapsOk, BoxOk, Free, Recorded, RollbackBranchName, ActiveBranch,
          Restorable;
        Restored(h, n, k, path, branch);
      }
    }
  }

  lemma Restored(h: Hub, n: Hub, k: nat, path: string, branch: string)
    requires HubOk(h) && k < |h.snaps| && h.snaps[k].check.Some? && Free(h.repo, path, branch)
    requires SharedName(h.project, branch)
    requires Recorded(h.project, Snap(h.snaps[k].boxes, branch, h.snaps[k].check))
    requires h.snaps[k].check.value < |h.repo.parents|
    requires var c := h.snaps[k].check;
      var boxes := h.snaps[k].boxes + [Box(true, Shared, Released, path, branch, c, c)];
      n
        == h.(repo := WorktreeAdded(h.repo, path, branch, c.value), boxes := boxes,
              snaps := h.snaps + [Snap(boxes, branch, c)])
    ensures HubOk(n)
  {
    var c := h.snaps[k].check.value;
    assert SnapOk(h.project, h.snaps, h.repo, h.snaps[k]);
    RecordedAs(h.project, Snap(h.snaps[k].boxes, branch, Some(c)), n.snaps[|h.snaps|]);
    hide SharedName, SnapsOk, Kept, Free, PrivateName, Recorded;
    AddedOk(h.repo, path, branch, c);
    QuietCarries(h, n.(snaps := h.snaps));
    assert Carries(h, n);
    AnchoredCarries(h, n, c);
    hide Carries, Anchored;
    BoxesCarry(h.project, h.snaps, n.snaps, h.snaps[k].boxes);
    assert n.snaps[|h.snaps|].check == Some(c);
    StillOk(h, n);
  }

  // Only the branch and the commit matter.
  lemma RecordedAs(project: string, a: Snap, b: Snap)
    requires Recorded(project, a) && b.branch == a.branch && b.check == a.check
    ensures Recorded(project, b)
  {
    hide SharedBranchName, RollbackBranchName, ActiveBranch;
  }

  lemma StepOk(h: Hub, e: GitEvent)
    requires HubOk(h)
    ensures HubOk(Step(h, e))
  {
    match e
    case EvPrivate(task, id, path, add) => PrivateStep(h, task, id, path, add);
    case EvFinished(i, dirty) => FinishedStep(h, i, dirty);
    case EvStrayed(path) => StrayedStep(h, path);
    case EvCrashed(i) => CrashedStep(h, i);
    case EvMerged(id, path, sources, env) =>
      MergeBaseKnown(h);
      MergedStep(h, id, path, sources, env);
    case EvCleaned(i, dryRun, deleteBranch, hangs, env) => CleanedStep(h, i, dryRun, deleteBranch, hangs, env);
    case EvRebased(i, opts, env) => RebasedStep(h, i, opts, env);
    case EvRolledBack(k, base, n, id, path, add) => RolledBackStep(h, k, base, n, id, path, add);
    case EvOutside(ps, forward) => OutsideStep(h, ps, forward);
  }

  // ----- Whole runs ---------------------------------------------------------------------

  ghost function After(h: Hub, events: seq<GitEvent>): (n: Hub)
    requires HubOk(h)
    ensures HubOk(n)
  {
    if events == [] then h
    else
      var m := After(h, events[..|events|-1]);
      StepOk(m, events[|events|-1]);
      Step(m, events[|events|-1])
  }

  // A project without sandboxes and snapshots over any repository.
  predicate Starts(h: Hub) {
    RepoOk(h.repo) && h.base < |h.repo.parents| && h.boxes == [] && h.snaps == [] && h.buried == {}
  }

  lemma StartOk(h: Hub)
    requires Starts(h)
    ensures HubOk(h)
  {
  }

  ghost function Run(h: Hub, events: seq<GitEvent>): (n: Hub)
    requires Starts(h)
    ensures HubOk(n)
  {
    StartOk(h);
    After(h, events)
  }

  // Over all runs a deleted task branch loses no history: every commit it reached is contained in
  // the base or in a branch that is still there.
  lemma HistoryNeverLost(h: Hub, events: seq<GitEvent>, x: Commit, a: Commit)
    requires Starts(h)
    requires var n := Run(h, events); x in n.buried && Ancestor(n.repo.parents, a, x)
    ensures var n := Run(h, events);
      Ancestor(n.repo.parents, a, n.base) || exists b ::
        b in n.repo.branches && Ancestor(n.repo.parents, a, n.repo.branches[b])
  {
    var n := Run(h, events);
    hide Run, BoxesOk, SharedName;
    if Ancestor(n.repo.parents, x, n.base) {
      AncestorTrans(n.repo.parents, a, x, n.base);
    } else {
      var j :| 0 <= j < |n.snaps| && n.snaps[j].check.Some? && Ancestor(n.repo.parents, x, n.snaps[j].check.value);
      var c := n.snaps[j].check.value;
      assert Anchored(n.project, n.repo, c);
      var b :| b in n.repo.branches && SharedName(n.project, b) && Ancestor(n.repo.parents, c, n.repo.branches[b]);
      AncestorTrans(n.repo.parents, a, x, c);
      AncestorTrans(n.repo.parents, a, c, n.repo.branches[b]);
    }
  }

  // A head deleted in a run was contained in a retained head at that moment, and the one-step
  // loss of a branch is always recorded.
  lemma OnlyCleanupDeletes(h: Hub, e: GitEvent, b: string)
    requires HubOk(h) && b in h.repo.branches && b !in Step(h, e).repo.branches
    ensures e.EvCleaned? && h.repo.branches[b] in Step(h, e).buried
  {
    StepKeepsBranches(h, e, b);
    hide *;
  }

  lemma StepKeepsBranches(h: Hub, e: GitEvent, b: string)
    requires HubOk(h) && b in h.repo.branches
    ensures b in Step(h, e).repo.branches || (e.EvCleaned? && h.repo.branches[b] in Step(h, e).buried)
  {
    hide Kept, SnapsOk, BoxOk, Anchored, SharedName, PrivateName;
    match e
    case EvCleaned(i, dryRun, deleteBranch, hangs, env) =>
      if i < |h.boxes| {
        CleanupSafe(h.repo, h.boxes[i], CleanupPolicy(dryRun, deleteBranch, Asked(Retained(h), hangs)), env);
        hide CleanedUp, Retained;
      }
    case EvRebased(i, opts, env) =>
      if i < |h.boxes| {
        RebaseElsewhere(h.repo, h.boxes[i], opts, env);
        hide RebaseOn;
      }
    case EvMerged(id, path, sources, env) =>
      MergeBaseKnown(h);
      MergeKeepsBranches(h, id, path, sources, env, b);
    case EvFinished(i, dirty) =>
      if i < |h.boxes| && h.boxes[i].path in h.repo.trees {
        CommittedOk(h.repo, h.boxes[i].path, {Head(h.repo, h.boxes[i].path)});
        hide Committed;
      }
    case _ =>
  }

  lemma MergeKeepsBranches(h: Hub, id: string, path: string, sources: seq<nat>, env: MergeWorld, b: string)
    requires HubOk(h) && MergeBase(h.snaps, h.base) < |h.repo.parents| && b in h.repo.branches
    ensures b in MergedHub(h, id, path, sources, env).repo.branches
  {
    var branch, at := SharedBranchName(h.project, id), MergeBase(h.snaps, h.base);
    LeftByAddOk(h.repo, path, branch, at, env.add);
    if env.add.Added? && Free(h.repo, path, branch) {
      AddedOk(h.repo, path, branch, at);
      var r := WorktreeAdded(h.repo, path, branch, at);
      var e := MergeEach(r, path, Heads(h.boxes, sources), env.fails);
      MergeAdvanced(r, e.repo, path, env.committed);
      hide MergeEach, Ancestor, HubOk;
    }
  }

  // ----- Records and worktrees ----------------------------------------------------------

  // The record of the i-th sandbox and its worktree agree.
  predicate Agreeing(h: Hub, i: nat) {
    RepoOk(h.repo) && i < |h.boxes| && Agrees(h.repo, h.boxes[i])
  }

  // A private sandbox whose record and worktree agree, and which shares neither its path nor, as
  // git sees to, its branch.
  ghost predicate InStep(h: Hub, i: nat) {
    && Agreeing(h, i) && h.boxes[i].scope == Private
    && h.repo.trees[h.boxes[i].path] == On(h.boxes[i].branch)
    && (forall j | 0 <= j < |h.boxes| && j != i :: h.boxes[j].path != h.boxes[i].path)
    && (forall p | p in h.repo.trees && p != h.boxes[i].path :: h.repo.trees[p] != On(h.boxes[i].branch))
  }

  // What takes a worktree away from its record: a stray commit, a lost head, a cleanup.
  ghost predicate Disturbs(h: Hub, e: GitEvent, i: nat)
    requires RepoOk(h.repo) && i < |h.boxes|
  {
    match e
    case EvStrayed(path) => path == h.boxes[i].path
    case EvRebased(j, opts, env) => j == i && HeadLost(h.repo, h.boxes[i], opts, env)
    case EvCleaned(j, dryRun, deleteBranch, hangs, env) => j == i && !dryRun && WorktreeGoes(h.boxes[i], env)
    case _ => false
  }

  lemma ElsewhereAgrees(r: Repo, n: Repo, path: string, box: Box)
    requires RepoOk(r) && RepoOk(n) && path in r.trees && Elsewhere(r, n, path)
    requires Agrees(r, box) && r.trees[box.path] == On(box.branch) && path != box.path
    requires r.trees[path] != On(box.branch)
    ensures Agrees(n, box)
  {
  }

  lemma AddedAgrees(r: Repo, path: string, branch: string, at: Commit, add: Adding, box: Box)
    requires RepoOk(r) && at < |r.parents| && Agrees(r, box)
    ensures RepoOk(LeftByAdd(r, path, branch, at, add)) && Agrees(LeftByAdd(r, path, branch, at, add), box)
  {
  }

  // Rollbacks aside, a step keeps the record of a private sandbox and its worktree in agreement
  // exactly unless it is one of those.
  lemma AgreementKept(h: Hub, e: GitEvent, i: nat)
    requires HubOk(h) && InStep(h, i) && !e.EvRolledBack?
    ensures Agreeing(Step(h, e), i) <==> !Disturbs(h, e, i)
  {
    hide BoxesOk, SnapsOk, Kept, Ancestor, SharedName, PrivateName;
    match e
    case EvPrivate(task, id, path, add) =>
      AddedAgrees(h.repo, path, TaskBranchName(h.project, task, id), h.base, add, h.boxes[i]);
      hide LeftByAdd;
    case EvFinished(j, dirty) => FinishedAgrees(h, i, j, dirty);
    case EvStrayed(path) => StrayedAgrees(h, i, path);
    case EvCrashed(j) =>
    case EvMerged(id, path, sources, env) =>
      MergeBaseKnown(h);
      MergedAgrees(h, i, id, path, sources, env);
      hide MergedHub;
    case EvCleaned(j, dryRun, deleteBranch, hangs, env) => CleanedAgrees(h, i, j, dryRun, deleteBranch, hangs, env);
    case EvRebased(j, opts, env) => RebasedAgrees(h, i, j, opts, env);
    case EvRolledBack(k, base, n, id, path, add) => assert false;
    case EvOutside(ps, forward) =>
  }

  lemma FinishedAgrees(h: Hub, i: nat, j: nat, dirty: bool)
    requires HubOk(h) && InStep(h, i)
    ensures Agreeing(Finished(h, j, dirty), i)
  {
    hide BoxesOk, SnapsOk, Kept, Ancestor;
    if j < |h.boxes| && h.boxes[j].path in h.repo.trees {
      CommittedOk(h.repo, h.boxes[j].path, {Head(h.repo, h.boxes[j].path)});
      hide Committed;
      if j != i {
        ElsewhereAgrees(h.repo, Finished(h, j, dirty).repo, h.boxes[j].path, h.boxes[i]);
      }
    }
  }

  lemma StrayedAgrees(h: Hub, i: nat, path: string)
    requires HubOk(h) && InStep(h, i)
    ensures var n := Strayed(h, path); RepoOk(n.repo) && (Agrees(n.repo, h.boxes[i]) <==> path != h.boxes[i].path)
  {
    assert BoxOk(h.project, h.snaps, h.boxes[i]);
    if path in h.repo.trees {
      CommittedOk(h.repo, path, {Head(h.repo, path)});
      hide Committed, PrivateName;
      if path != h.boxes[i].path && Strayed(h, path) != h {
        ElsewhereAgrees(h.repo, Strayed(h, path).repo, path, h.boxes[i]);
      }
    }
  }

  lemma MergedAgrees(h: Hub, i: nat, id: string, path: string, sources: seq<nat>, env: MergeWorld)
    requires HubOk(h) && MergeBase(h.snaps, h.base) < |h.repo.parents| && InStep(h, i)
    ensures var n := MergedHub(h, id, path, sources, env);
      i < |n.boxes| && n.boxes[i] == h.boxes[i] && RepoOk(n.repo) && Agrees(n.repo, h.boxes[i])
  {
    var branch, at := SharedBranchName(h.project, id), MergeBase(h.snaps, h.base);
    AddedAgrees(h.repo, path, branch, at, env.add, h.boxes[i]);
    if env.add.Added? && Free(h.repo, path, branch) {
      var r := WorktreeAdded(h.repo, path, branch, at);
      var e := MergeEach(r, path, Heads(h.boxes, sources), env.fails);
      MergeAdvanced(r, e.repo, path, env.committed);
      hide MergeEach, Ancestor, HubOk, WithManifest, SharedBranchName;
      ElsewhereAgrees(r, MergedHub(h, id, path, sources, env).repo, path, h.boxes[i]);
    }
  }

  lemma CleanedAgrees(h: Hub, i: nat, j: nat, dryRun: bool, deleteBranch: bool, hangs: nat, env: CleanupWorld)
    requires HubOk(h) && InStep(h, i)
    ensures var n := Cleaned(h, j, dryRun, deleteBranch, hangs, env);
      && n.boxes == h.boxes && RepoOk(n.repo)
      && (Agrees(n.repo, h.boxes[i]) <==> !(j == i && !dryRun && WorktreeGoes(h.boxes[i], env)))
  {
    if j < |h.boxes| {
      var policy := CleanupPolicy(dryRun, deleteBranch, Asked(Retained(h), hangs));
      CleanupSafe(h.repo, h.boxes[j], policy, env);
      CleanupTrees(h.repo, h.boxes[j], policy, env);
      hide CleanedUp, Retained, Ancestor, WorktreeGoes, HubOk;
    }
  }

  lemma RebasedAgrees(h: Hub, i: nat, j: nat, opts: RebaseOptions, env: RebaseWorld)
    requires HubOk(h) && InStep(h, i)
    ensures var n := RebasedHub(h, j, opts, env);
      && i < |n.boxes| && RepoOk(n.repo)
      && (Agrees(n.repo, n.boxes[i]) <==> !(j == i && HeadLost(h.repo, h.boxes[i], opts, env)))
  {
    if j < |h.boxes| {
      if j == i {
        RebaseAgrees(h.repo, h.boxes[i], opts, env);
      } else {
        RebaseElsewhere(h.repo, h.boxes[j], opts, env);
        var n := RebaseOn(h.repo, h.boxes[j], opts, env).repo;
        hide RebaseOn, ManagedTask, HubOk;
        if n != h.repo {
          ElsewhereAgrees(h.repo, n, h.boxes[j].path, h.boxes[i]);
        }
      }
    }
  }

  // The commit of the newest snapshot contains every merged source.
  ghost predicate HoldsSource(n: Hub, x: Option<Commit>) {
    && RepoOk(n.repo) && x.Some? && n.snaps != [] && n.snaps[|n.snaps|-1].check.Some?
    && Ancestor(n.repo.parents, x.value, n.snaps[|n.snaps|-1].check.value)
  }

  lemma MergedContains(h: Hub, id: string, path: string, sources: seq<nat>, env: MergeWorld, i: nat)
    requires HubOk(h) && MergeBase(h.snaps, h.base) < |h.repo.parents|
    requires var n := MergedHub(h, id, path, sources, env); |n.snaps| > |h.snaps| && i < |sources|
    ensures HoldsSource(MergedHub(h, id, path, sources, env), Heads(h.boxes, sources)[i])
  {
    var branch, at := SharedBranchName(h.project, id), MergeBase(h.snaps, h.base);
    AddedOk(h.repo, path, branch, at);
    var r := WorktreeAdded(h.repo, path, branch, at);
    var heads := Heads(h.boxes, sources);
    SourcesMerged(r, path, heads, env.fails);
    var e := MergeEach(r, path, heads, env.fails);
    assert WithManifest(e.repo, path, env.committed) == MergedHub(h, id, path, sources, env).repo;
    hide HubOk, MergeEach, SharedBranchName, Ancestor, WithManifest, WorktreeAdded, Heads;
    ManifestContains(e.repo, path, env.committed, heads[i].value);
  }

  lemma ManifestContains(r: Repo, path: string, committed: bool, x: Commit)
    requires RepoOk(r) && path in r.trees && Ancestor(r.parents, x, Head(r, path))
    ensures var n := WithManifest(r, path, committed); Ancestor(n.parents, x, Head(n, path))
  {
    hide Ancestor;
    var n := WithManifest(r, path, committed);
    AncestorGrows(r.parents, n.parents, x, Head(r, path));
    AncestorTrans(n.parents, x, Head(r, path), Head(n, path));
  }

  // After a merge has been recorded the retention check of a cleanup succeeds for every merged
  // source; for any head it succeeds exactly when the base or a retained head contains it.
  lemma MergedSourcesRetained(h: Hub, id: string, path: string, sources: seq<nat>, env: MergeWorld, i: nat)
    requires HubOk(h) && MergeBase(h.snaps, h.base) < |h.repo.parents|
    requires var n := MergedHub(h, id, path, sources, env); |n.snaps| > |h.snaps| && i < |sources|
    ensures var n := MergedHub(h, id, path, sources, env);
      && RepoOk(n.repo) && sources[i] < |h.boxes| && h.boxes[sources[i]].head.Some?
      && RetainedBy(n.repo, h.boxes[sources[i]].head.value, Retained(n)).Kept?
  {
    assert RepoOk(h.repo);
    hide HubOk, MergedHub, Retained, Ancestor;
    var n := MergedHub(h, id, path, sources, env);
    MergedContains(h, id, path, sources, env, i);
    NewestRetained(n);
    RetentionExact(n, h.boxes[sources[i]].head.value);
  }

  lemma NewestRetained(n: Hub)
    requires n.snaps != [] && n.snaps[|n.snaps|-1].check.Some?
    ensures At(n.snaps[|n.snaps|-1].check.value) in Retained(n)
  {
    ChecksAre(n.snaps, At(n.snaps[|n.snaps|-1].check.value));
  }

  lemma RetentionExact(n: Hub, x: Commit)
    requires RepoOk(n.repo)
    ensures RetainedBy(n.repo, x, Retained(n)).Kept? <==>
      exists c :: At(c) in Retained(n) && Ancestor(n.repo.parents, x, c)
  {
    var refs := Retained(n);
    RetentionMeans(n.repo, x, refs);
    SharedHeadsAre(n.boxes, Hangs);
    ChecksAre(n.snaps, Hangs);
    match RetainedBy(n.repo, x, refs) {
      case Kept(c) => assert At(c) in refs && Ancestor(n.repo.parents, x, c);
      case _ =>
    }
  }

  // In git mode a rollback to a snapshot with a commit goes through exactly when a merge recorded
  // it, or the project is called "shared", and the worktree can be made.  Refused for its branch,
  // it changes nothing.
  lemma RollbackAccepted(h: Hub, k: nat, base: string, n: nat, id: string, path: string, add: Adding)
    requires HubOk(h) && k < |h.snaps| && h.snaps[k].check.Some?
    ensures var v := RolledBack(h, k, base, n, id, path, add);
      var merged := exists i :: h.snaps[k].branch == SharedBranchName(h.project, i);
      && (v.snaps != h.snaps <==>
            && (Dashed(h.project) == "shared" || merged)
            && add.Added? && Free(h.repo, path, RollbackBranchName(h.project, ActiveBranch(base, n), id)))
      && (Dashed(h.project) != "shared" && !merged ==> v == h)
  {
    var s := h.snaps[k];
    assert SnapOk(h.project, h.snaps, h.repo, s);
    RestorableSnap(h.project, s);
    hide HubOk, Restorable, SharedBranchName, RollbackBranchName, ActiveBranch, LeftByAdd, Dashed;
  }

  lemma RestorableSnap(project: string, s: Snap)
    requires Recorded(project, s) && s.check.Some?
    ensures Restorable(s.branch) <==>
      Dashed(project) == "shared" || exists i :: s.branch == SharedBranchName(project, i)
  {
    hide Restorable, SharedBranchName, RollbackBranchName, ActiveBranch, Dashed;
    if i :| s.branch == SharedBranchName(project, i) {
      RestorableNames(project, "", 0, i);
    } else {
      var b, m, i :| s.branch == RollbackBranchName(project, ActiveBranch(b, m), i);
      RestorableNames(project, b, m, i);
    }
  }

  // So the snapshot a rollback makes cannot be rolled back to.
  lemma RollbackOfRollbackRefused(h: Hub, k: nat, base: string, n: nat, id: string, path: string, add: Adding)
    requires HubOk(h) && k < |h.snaps| && h.snaps[k].check.Some? && Dashed(h.project) != "shared"
    requires RolledBack(h, k, base, n, id, path, add).snaps != h.snaps
    ensures var v := RolledBack(h, k, base, n, id, path, add);
      && |v.snaps| == |h.snaps| + 1
      && forall base', n', id', path', add' :: RolledBack(v, |h.snaps|, base', n', id', path', add') == v
  {
    RestorableNames(h.project, base, n, id);
    hide RollbackBranchName, Restorable, ActiveBranch, Dashed, LeftByAdd;
  }

  // ----- What gets done -----------------------------------------------------------------

  // A sandbox that can be made is active on a new branch of its own, in a new worktree at the base.
  lemma PrivateMakes(h: Hub, task: string, id: string, path: string)
    requires HubOk(h)
    ensures var n := PrivateMade(h, task, id, path, Added);
      var branch := "multiagent/" + Dashed(h.project) + "/task/" + Dashed(task) + "/" + Dashed(id);
      if path in h.repo.trees || branch in h.repo.branches then n == h
      else
        && n.boxes == h.boxes + [Box(true, Private, Active, path, branch, Some(h.base), None)] && n.snaps == h.snaps
        && RepoOk(n.repo) && n.repo.parents == h.repo.parents && n.repo.trees == h.repo.trees[path := On(branch)]
        && n.repo.branches == h.repo.branches[branch := h.base] && Head(n.repo, path) == h.base
  {
    hide BoxesOk, SnapsOk, Kept, Dashed;
  }

  // A rebase of a sandbox comes to what a rebase comes to, on record as well.
  lemma RebasedHubDone(h: Hub, i: nat, opts: RebaseOptions, env: RebaseWorld)
    requires HubOk(h) && i < |h.boxes|
    ensures var n := RebasedHub(h, i, opts, env); var box := h.boxes[i];
      && |n.boxes| == |h.boxes| && n == h.(repo := n.repo, boxes := h.boxes[i := n.boxes[i]])
      && if MayRebase(h.repo, box, opts, env) && Known(h.repo, env.target) && env.counted && env.compared
         then exists result :: RebaseComesTo(h.repo, box, opts, env, RebaseEnd(n.repo, result), n.boxes[i])
         else n == h
  {
    hide HubOk, MayRebase, RebaseComesTo, RebaseOn, RebaseApplied;
    HubRepoOk(h);
    RebaseDone(h.repo, h.boxes[i], opts, env);
    var e := RebaseOn(h.repo, h.boxes[i], opts, env);
    assert e == RebaseEnd(e.repo, e.result);
    assert h.boxes[i := h.boxes[i]] == h.boxes;
  }

  lemma HubRepoOk(h: Hub)
    requires HubOk(h)
    ensures RepoOk(h.repo)
  {
  }

  // A finished run's sandbox is released at the head of its worktree, where whatever the run left
  // uncommitted has become one commit on top of the old head.
  lemma FinishedRecords(h: Hub, i: nat, dirty: bool)
    requires HubOk(h) && i < |h.boxes| && h.boxes[i].scope == Private && h.boxes[i].path in h.repo.trees
    requires h.repo.trees[h.boxes[i].path] == On(h.boxes[i].branch)
    ensures var n := Finished(h, i, dirty); var path := h.boxes[i].path;
      && RepoOk(n.repo) && path in n.repo.trees && n.repo.trees == h.repo.trees && n.snaps == h.snaps
      && n.boxes == h.boxes[i := h.boxes[i].(status := Released, head := Some(Head(n.repo, path)))]
      && (!dirty ==> n.repo == h.repo)
      && (dirty ==> n.repo.parents == h.repo.parents + [{Head(h.repo, path)}])
      && (dirty ==> Head(n.repo, path) == |h.repo.parents|)
  {
    CommittedOk(h.repo, h.boxes[i].path, {Head(h.repo, h.boxes[i].path)});
    hide HubOk, Ancestor, Elsewhere;
  }

  // Git does all that a merge asks of it, and every source has a head it knows.
  ghost predicate MergeRuns(h: Hub, id: string, path: string, sources: seq<nat>, env: MergeWorld) {
    && env.add.Added? && Free(h.repo, path, SharedBranchName(h.project, id)) && env.sealed && env.published
    && forall i | 0 <= i < |sources| ::
      sources[i] < |h.boxes| && Known(h.repo, h.boxes[sources[i]].head) && i !in env.fails
  }

  // The merge made a released shared sandbox at the head c of a new worktree, recorded in one more
  // snapshot; other worktrees and branches are as they were.
  ghost predicate MergeLanded(h: Hub, n: Hub, path: string, branch: string, at: Commit, c: Commit) {
    && RepoOk(n.repo) && h.repo.parents <= n.repo.parents
    && n.repo.trees == h.repo.trees[path := On(branch)] && branch in n.repo.branches && n.repo.branches[branch] == c
    && (forall b | b in h.repo.branches :: b in n.repo.branches && n.repo.branches[b] == h.repo.branches[b])
    && n.boxes == h.boxes + [Box(true, Shared, Released, path, branch, Some(at), Some(c))]
    && n.snaps == h.snaps + [Snap(n.boxes, branch, Some(c))]
  }

  lemma MergeLands(h: Hub, id: string, path: string, sources: seq<nat>, env: MergeWorld) returns (c: Commit)
    requires HubOk(h) && MergeBase(h.snaps, h.base) < |h.repo.parents| && MergeRuns(h, id, path, sources, env)
    ensures MergeLanded(h, MergedHub(h, id, path, sources, env), path, SharedBranchName(h.project, id),
                        MergeBase(h.snaps, h.base), c)
    ensures forall i | 0 <= i < |sources| ::
      HoldsSource(MergedHub(h, id, path, sources, env), h.boxes[sources[i]].head)
  {
    var branch, at := SharedBranchName(h.project, id), MergeBase(h.snaps, h.base);
    assert RepoOk(h.repo);
    hide HubOk, SharedBranchName, MergeEach, Ancestor, MergedHub, WithManifest;
    AddedOk(h.repo, path, branch, at);
    var r, heads := WorktreeAdded(h.repo, path, branch, at), Heads(h.boxes, sources);
    MergeGoesThrough(r, path, heads, env.fails);
    var e := MergeEach(r, path, heads, env.fails);
    var m := WithManifest(e.repo, path, env.committed);
    MergeAdvanced(r, e.repo, path, env.committed);
    c := Head(m, path);
    MergedHubIs(h, id, path, sources, env);
    AdvancedOn(r, m, path, branch);
    forall i | 0 <= i < |sources| ensures HoldsSource(MergedHub(h, id, path, sources, env), h.boxes[sources[i]].head) {
      MergedContains(h, id, path, sources, env, i);
    }
  }

  lemma MergedHubIs(h: Hub, id: string, path: string, sources: seq<nat>, env: MergeWorld)
    requires RepoOk(h.repo) && MergeBase(h.snaps, h.base) < |h.repo.parents| && env.add.Added?
    requires Free(h.repo, path, SharedBranchName(h.project, id)) && env.sealed && env.published
    requires RepoOk(WorktreeAdded(h.repo, path, SharedBranchName(h.project, id), MergeBase(h.snaps, h.base)))
    requires MergeEach(WorktreeAdded(h.repo, path, SharedBranchName(h.project, id), MergeBase(h.snaps, h.base)), path,
                       Heads(h.boxes, sources), env.fails).ok
    ensures var branch, at := SharedBranchName(h.project, id), MergeBase(h.snaps, h.base);
      var r := WorktreeAdded(h.repo, path, branch, at);
      var e := MergeEach(r, path, Heads(h.boxes, sources), env.fails);
      && RepoOk(e.repo) && path in e.repo.trees
      && var m := WithManifest(e.repo, path, env.committed);
      && RepoOk(m) && path in m.trees
      && var boxes := h.boxes + [Box(true, Shared, Released, path, branch, Some(at), Some(Head(m, path)))];
      MergedHub(h, id, path, sources, env)
      == h.(repo := m, boxes := boxes, snaps := h.snaps + [Snap(boxes, branch, Some(Head(m, path)))])
  {
    hide SharedBranchName, MergeEach, Ancestor, WithManifest, WorktreeAdded, Heads, Free, Elsewhere;
  }

  lemma AdvancedOn(r: Repo, n: Repo, path: string, branch: string)
    requires Advanced(r, n, path) && r.trees[path] == On(branch)
    ensures n.trees == r.trees && branch in n.branches && n.branches[branch] == Head(n, path)
    ensures forall b | b in r.branches && b != branch :: b in n.branches && n.branches[b] == r.branches[b]
  {
    hide Ancestor;
  }

  lemma PrivateManaged(project: string, b: string)
    requires PrivateName(project, b)
    ensures b != "" && "multiagent/" <= b && Contains(b, "/task/")
  {
    var start := "multiagent/" + Dashed(project);
    assert start + "/task/" <= b;
    assert b == start + "/task/" + b[|start| + 6..];
    ContainsMid(start, "/task/", b[|start| + 6..]);
  }

  // A released sandbox on its own branch, which no other worktree has checked out.
  ghost predicate Settled(r: Repo, b: Box)
    requires RepoOk(r)
  {
    && b.git && b.scope == Private && b.status == Released && b.path != ""
    && b.path in r.trees && r.trees[b.path] == On(b.branch) && b.head == Some(Head(r, b.path))
    && forall p | p in r.trees && p != b.path :: r.trees[p] != On(b.branch)
  }

  lemma SettledStays(h: Hub, n: Hub, path: string, branch: string, at: Commit, c: Commit, b: Box)
    requires HubOk(h) && MergeLanded(h, n, path, branch, at, c) && Free(h.repo, path, branch) && Settled(h.repo, b)
    ensures Settled(n.repo, b)
  {
    hide SnapsOk, BoxesOk, Kept;
    assert b.branch in h.repo.branches;
  }

  // A merged sandbox can be cleaned up at once: its worktree and its branch go, and the newest
  // snapshot still contains its work.
  lemma MergedThenCleaned(h: Hub, id: string, path: string, sources: seq<nat>, env: MergeWorld, i: nat,
                          cleanup: CleanupWorld)
    requires HubOk(h) && MergeBase(h.snaps, h.base) < |h.repo.parents| && MergeRuns(h, id, path, sources, env)
    requires i < |sources| && Settled(h.repo, h.boxes[sources[i]])
    requires cleanup.listed && cleanup.dirt == Clean && cleanup.removed.Works?
    requires cleanup.branchProbe == Answers && cleanup.deleted.Works?
    ensures var n := MergedHub(h, id, path, sources, env); var b := h.boxes[sources[i]];
      && RepoOk(n.repo)
      && var m := Cleaned(n, sources[i], false, true, |Retained(n)|, cleanup);
      && b.path !in m.repo.trees && b.branch !in m.repo.branches && HoldsSource(m, b.head)
  {
    var b := h.boxes[sources[i]];
    assert BoxOk(h.project, h.snaps, b);
    PrivateManaged(h.project, b.branch);
    assert RepoOk(h.repo);
    hide HubOk, MergedHub, Retained, Ancestor, MergeLanded, CleanedUp, Keeps, RetainedBy, Contains;
    var c := MergeLands(h, id, path, sources, env);
    var n, branch := MergedHub(h, id, path, sources, env), SharedBranchName(h.project, id);
    LandedOk(h, n, path, branch, MergeBase(h.snaps, h.base), c);
    SettledStays(h, n, path, branch, MergeBase(h.snaps, h.base), c, b);
    var policy := CleanupPolicy(false, true, Asked(Retained(n), |Retained(n)|));
    assert policy.retained == Retained(n);
    MergedSourcesRetained(h, id, path, sources, env, i);
    KeptExactly(n.repo, b.head.value, Retained(n));
    CleanupDone(n.repo, b, policy, cleanup);
    CleanupSafe(n.repo, b, policy, cleanup);
  }

  lemma LandedOk(h: Hub, n: Hub, path: string, branch: string, at: Commit, c: Commit)
    requires MergeLanded(h, n, path, branch, at, c)
    ensures RepoOk(n.repo) && |n.snaps| > |h.snaps| && h.boxes <= n.boxes
  {
  }

  // A rollback that goes through puts the recorded commit on a new branch in a new worktree, takes
  // back the stored sandboxes with one for that worktree, and records both.
  lemma RollbackLands(h: Hub, k: nat, base: string, n: nat, id: string, path: string, add: Adding)
    requires HubOk(h) && k < |h.snaps| && h.snaps[k].check.Some?
    requires RolledBack(h, k, base, n, id, path, add).snaps != h.snaps
    ensures var v := RolledBack(h, k, base, n, id, path, add); var c := h.snaps[k].check;
      var branch := RollbackBranchName(h.project, ActiveBranch(base, n), id);
      && RepoOk(v.repo) && v.repo.parents == h.repo.parents
      && path !in h.repo.trees && v.repo.trees == h.repo.trees[path := On(branch)]
      && branch !in h.repo.branches && v.repo.branches == h.repo.branches[branch := c.value]
      && v.boxes == h.snaps[k].boxes + [Box(true, Shared, Released, path, branch, c, c)]
      && v.snaps == h.snaps + [Snap(v.boxes, branch, c)]
  {
    assert SnapOk(h.project, h.snaps, h.repo, h.snaps[k]);
    hide SnapsOk, BoxesOk, Kept, Ancestor, SharedName, RollbackBranchName, ActiveBranch, Restorable, Recorded;
  }
}
