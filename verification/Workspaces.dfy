// The git workspace provider: merging into a shared worktree, rebasing and cleaning private
// ones, and what the service records of it.  What git answers where the graph does not decide
// (conflicts, dirty files, failing commands) comes from the environment.
module Workspaces {
  import opened Records
  import opened Domain
  import opened Text
  import opened Git

  // A sandbox as far as its workspace is concerned; a blank ref is None.
  datatype Box = Box(
    git: bool, scope: Scope, status: SandboxStatus, path: string, branch: string, base: Option<Commit>,
    head: Option<Commit>)

  // A command may do its work, refuse, or do it and be cut off before it says so.
  datatype Outcome = Works | Refuses | WorksUnseen

  // ----- Merging ------------------------------------------------------------------------

  datatype MergeEnd = MergeEnd(repo: Repo, ok: bool)

  predicate Known(r: Repo, c: Option<Commit>) {
    c.Some? && c.value < |r.parents|
  }

  // The sources are merged one by one; the first that has no usable head or fails ends the loop.
  // `fails` tells which merges fail, and whether they have been committed by then.
  function MergeEach(r: Repo, path: string, heads: seq<Option<Commit>>, fails: map<nat, bool>): (e: MergeEnd)
    requires RepoOk(r) && path in r.trees
    ensures Advanced(r, e.repo, path)
  {
    if heads == [] then
      AdvancedSelf(r, path);
      MergeEnd(r, true)
    else
      var n := |heads| - 1;
      var before := MergeEach(r, path, heads[..n], fails);
      if !before.ok || !Known(before.repo, heads[n]) then MergeEnd(before.repo, false)
      else if n in fails && !fails[n] then MergeEnd(before.repo, false)
      else
        MergedOk(before.repo, path, heads[n].value);
        AdvancedThen(r, before.repo, Merged(before.repo, path, heads[n].value), path);
        MergeEnd(Merged(before.repo, path, heads[n].value), n !in fails)
  }

  // After a successful merge every source head is an ancestor of the shared head.
  lemma {:induction false} SourcesMerged(r: Repo, path: string, heads: seq<Option<Commit>>, fails: map<nat, bool>)
    requires RepoOk(r) && path in r.trees && MergeEach(r, path, heads, fails).ok
    ensures var n := MergeEach(r, path, heads, fails).repo;
      forall i | 0 <= i < |heads| :: heads[i].Some? && Ancestor(n.parents, heads[i].value, Head(n, path))
  {
    if heads == [] {
    } else {
      var k := |heads| - 1;
      var m := MergeEach(r, path, heads[..k], fails).repo;
      var n := MergeEach(r, path, heads, fails).repo;
      SourcesMerged(r, path, heads[..k], fails);
      MergedOk(m, path, heads[k].value);
      forall i | 0 <= i < k ensures heads[i].Some? && Ancestor(n.parents, heads[i].value, Head(n, path)) {
        assert heads[..k][i] == heads[i];
        AncestorKnown(m.parents, heads[i].value, Head(m, path));
        AncestorGrows(m.parents, n.parents, heads[i].value, Head(m, path));
        AncestorTrans(n.parents, heads[i].value, Head(m, path), Head(n, path));
      }
    }
  }

  // A merge fails only over a source without a usable head or when git does.
  lemma {:induction false} MergeGoesThrough(r: Repo, path: string, heads: seq<Option<Commit>>, fails: map<nat, bool>)
    requires RepoOk(r) && path in r.trees
    requires forall i | 0 <= i < |heads| :: Known(r, heads[i]) && i !in fails
    ensures MergeEach(r, path, heads, fails).ok
  {
    if heads == [] {
    } else {
      MergeGoesThrough(r, path, heads[..|heads|-1], fails);
    }
  }

  // ----- Retained heads -----------------------------------------------------------------

  // git merge-base --is-ancestor answers with an exit status, or the command is cut off.
  datatype HeadRef = NoRef | At(commit: Commit) | Unknown | Hangs

  datatype Retention = Kept(keeper: Commit) | NotKept | Undecided

  // gitHeadRetainedBy.  An unknown commit makes git exit with status 128, which is taken for
  // "not an ancestor" as well.
  function RetainedBy(r: Repo, head: Commit, refs: seq<HeadRef>): Retention
    requires RepoOk(r)
  {
    if refs == [] then NotKept
    else if refs[0].Hangs? then Undecided
    else if refs[0].At? && Ancestor(r.parents, head, refs[0].commit) then Kept(refs[0].commit)
    else RetainedBy(r, head, refs[1..])
  }

  // The first retained ref that contains the head is found, unless the command hangs before.
  lemma {:induction false} RetentionMeans(r: Repo, head: Commit, refs: seq<HeadRef>)
    requires RepoOk(r)
    ensures match RetainedBy(r, head, refs)
      case Kept(c) => At(c) in refs && Ancestor(r.parents, head, c)
      case NotKept => Hangs !in refs && forall c | At(c) in refs :: !Ancestor(r.parents, head, c)
      case Undecided => Hangs in refs
  {
    if refs == [] {
    } else {
      RetentionMeans(r, head, refs[1..]);
      assert refs == [refs[0]] + refs[1..];
    }
  }

  // The test for exit status 1 looks for a text, and so accepts every status that starts with 1.
  lemma StatusText(n: nat)
    ensures Contains("exit status " + Decimal(n), "exit status 1") <==> Decimal(n)[0] == '1'
  {
    var s := "exit status " + Decimal(n);
    assert s[..13] == "exit status " + [Decimal(n)[0]];
    assert s[12] == Decimal(n)[0];
    if Decimal(n)[0] == '1' {
      assert s[..13] == "exit status 1";
    } else {
      NoSuchStatus(s, 0);
    }
  }

  // Past its start the text has an 'e' at most where the rest is too short or wrong.
  lemma {:induction false} NoSuchStatus(s: string, i: nat)
    requires i <= |s| && |s| >= 13 && s[..12] == "exit status " && s[12] != '1'
    requires forall j | 12 <= j < |s| :: IsDigit(s[j])
    ensures !Contains(s[i..], "exit status 1")
    decreases |s| - i
  {
    if i >= |s| {
    } else {
      NoSuchStatus(s, i + 1);
      assert s[i..][1..] == s[i+1..];
      if |s[i..]| >= 13 && s[i..][..13] == "exit status 1" {
        assert s[i..][..13][0] == s[i] && s[i..][..13][12] == s[i+12];
        assert s[..12][0] == 'e' && forall j | 0 < j < 12 :: s[..12][j] != 'e';
      }
    }
  }

  // ----- Rebasing -----------------------------------------------------------------------

  // What `git status` shows: nothing, only the workspace manifest, or changes; or it fails.
  datatype Dirt = Clean | ManifestOnly | Changes | NoStatus

  datatype RebaseOptions = RebaseOptions(dryRun: bool, fetch: bool, publish: bool)

  // Answers of the environment, in the order in which they are asked for.
  datatype RebaseWorld = RebaseWorld(
    ready: bool, remote: bool, fetched: bool, listed: bool, headRead: bool, dirt: Dirt, manifestRemoved: bool,
    target: Option<Commit>, counted: bool, compared: bool, replay: Replay, newHeadRead: bool, published: bool)

  datatype RebaseStatus = RebaseFailed | RebaseSkipped | UpToDate | DryRun | Rebased | PublishFailed

  datatype RebaseResult = RebaseResult(status: RebaseStatus, target: Option<Commit>, newHead: Option<Commit>,
                                       aborted: bool, published: bool)

  datatype RebaseEnd = RebaseEnd(repo: Repo, result: RebaseResult)

  function Stopped(r: Repo, status: RebaseStatus): RebaseEnd {
    RebaseEnd(r, RebaseResult(status, None, None, false, false))
  }

  predicate ManagedTask(branch: string) {
    "multiagent/" <= branch && Contains(branch, "/task/")
  }

  // The checks before git is asked for the target; None when the rebase may go on.
  function RebaseGate(r: Repo, box: Box, opts: RebaseOptions, env: RebaseWorld): Option<RebaseStatus>
    requires RepoOk(r)
  {
    if !env.ready then Some(RebaseFailed)
    else if opts.fetch && !env.remote then Some(RebaseSkipped)
    else if opts.fetch && !env.fetched then Some(RebaseFailed)
    else if !box.git || box.scope != Private || box.status != Released then Some(RebaseSkipped)
    else if box.path == "" || box.branch == "" || box.head.None? then Some(RebaseSkipped)
    else if !ManagedTask(box.branch) then Some(RebaseSkipped)
    else if !env.listed then Some(RebaseFailed)
    else if box.path !in r.trees then Some(RebaseSkipped)
    else if r.trees[box.path].On? && r.trees[box.path].branch != box.branch then Some(RebaseSkipped)
    else if !env.headRead then Some(RebaseFailed)
    else if Head(r, box.path) != box.head.value then Some(RebaseSkipped)
    else if env.dirt == NoStatus then Some(RebaseFailed)
    else if env.dirt == Changes then Some(RebaseSkipped)
    else if env.dirt == ManifestOnly && !opts.dryRun && !env.manifestRemoved then Some(RebaseFailed)
    else None
  }

  // gitWorkspaceProvider.Rebase.
  function RebaseOn(r: Repo, box: Box, opts: RebaseOptions, env: RebaseWorld): RebaseEnd
    requires RepoOk(r)
  {
    var gate := RebaseGate(r, box, opts, env);
    if gate.Some? then Stopped(r, gate.value)
    else if !Known(r, env.target) then Stopped(r, RebaseFailed)
    else
      var head, target := Head(r, box.path), env.target.value;
      if !env.counted || !env.compared then RebaseEnd(r, RebaseResult(RebaseFailed, Some(target), None, false, false))
      else if Ancestor(r.parents, target, head)
        then RebaseEnd(r, RebaseResult(UpToDate, Some(target), Some(head), false, false))
      else if opts.dryRun then RebaseEnd(r, RebaseResult(DryRun, Some(target), Some(head), false, false))
      else
        var n := LeftBy(r, box.path, target, env.replay);
        if !env.replay.Through? then
          var seen := if env.newHeadRead then Some(Head(n, box.path)) else None;
          RebaseEnd(n, RebaseResult(RebaseFailed, Some(target), seen, true, false))
        else if !env.newHeadRead then RebaseEnd(n, RebaseResult(RebaseFailed, Some(target), None, false, false))
        else if opts.publish && !env.published
          then RebaseEnd(n, RebaseResult(PublishFailed, Some(target), Some(Head(n, box.path)), false, false))
        else RebaseEnd(n, RebaseResult(Rebased, Some(target), Some(Head(n, box.path)), false, opts.publish))
  }

  // applyWorkspaceRebaseResultLocked.
  function RebaseApplied(box: Box, result: RebaseResult, dryRun: bool): Box {
    if dryRun || result.status !in {Rebased, PublishFailed, UpToDate} then box
    else
      box.(head := if result.newHead.Some? then result.newHead else box.head,
           base := if result.target.Some? then result.target else box.base)
  }

  // The recorded head is the head of the worktree.
  predicate Agrees(r: Repo, box: Box)
    requires RepoOk(r)
  {
    box.path in r.trees && box.head == Some(Head(r, box.path))
  }

  // The rebase has gone through and its new head could not be read, or it has failed and could
  // not be taken back.
  predicate HeadLost(r: Repo, box: Box, opts: RebaseOptions, env: RebaseWorld)
    requires RepoOk(r)
  {
    && RebaseGate(r, box, opts, env).None? && Known(r, env.target) && env.counted && env.compared && !opts.dryRun
    && box.path in r.trees && !Ancestor(r.parents, env.target.value, Head(r, box.path))
    && if env.replay.Through? then !env.newHeadRead else !env.replay.PutBack?
  }

  // A replay that was not taken back has moved the head of the worktree.
  lemma ReplayMoves(r: Repo, path: string, target: Commit, replay: Replay)
    requires RepoOk(r) && path in r.trees && target < |r.parents| && !Ancestor(r.parents, target, Head(r, path))
    requires !replay.PutBack?
    ensures Head(LeftBy(r, path, target, replay), path) != Head(r, path)
  {
    hide Ancestor;
    var n := LeftBy(r, path, target, replay);
    LeftByOk(r, path, target, replay);
    AncestorGrows(r.parents, n.parents, target, Head(r, path));
  }

  lemma PutBackIs(r: Repo, path: string, env: RebaseWorld)
    requires RepoOk(r)
    ensures env.replay.PutBack? && path in r.trees && Known(r, env.target) ==>
      LeftBy(r, path, env.target.value, env.replay) == r
  {
  }

  // A rebase keeps the recorded head and git in agreement exactly unless the head is lost.
  lemma RebaseAgrees(r: Repo, box: Box, opts: RebaseOptions, env: RebaseWorld)
    requires RepoOk(r) && Agrees(r, box)
    ensures var e := RebaseOn(r, box, opts, env); var b := RebaseApplied(box, e.result, opts.dryRun);
      RepoOk(e.repo) && (Agrees(e.repo, b) <==> !HeadLost(r, box, opts, env))
  {
    hide ManagedTask, Ancestor, LeftBy;
    if RebaseGate(r, box, opts, env).None? && Known(r, env.target) && !env.replay.PutBack? {
      if !Ancestor(r.parents, env.target.value, Head(r, box.path)) {
        ReplayMoves(r, box.path, env.target.value, env.replay);
      }
    }
    PutBackIs(r, box.path, env);
  }

  // A head can be lost: the rebase onto commit 1 goes through, the new head cannot be read, and
  // the sandbox still records commit 2 while its worktree is at commit 3.
  lemma HeadLostExample() returns (r: Repo, box: Box, opts: RebaseOptions, env: RebaseWorld)
    ensures RepoOk(r) && Agrees(r, box) && HeadLost(r, box, opts, env)
    ensures var e := RebaseOn(r, box, opts, env); var b := RebaseApplied(box, e.result, opts.dryRun);
      && RepoOk(e.repo) && box.path in e.repo.trees && Head(e.repo, box.path) == 3
      && b.head == Some(2) && e.result.status == RebaseFailed
  {
    r, box, opts, env := RebaseCase(Through(1), false);
    hide Ancestor, ManagedTask;
    assert Replayed(r, "w", 1, 0).parents == r.parents;
    ReplayedOk(r, "w", 1, 1);
  }

  // Or the rebase stops at once, taking it back fails, and the result says "aborted" nevertheless:
  // the branch and the record are at commit 2, the worktree is off the branch at commit 1.
  lemma AbortFailedExample() returns (r: Repo, box: Box, opts: RebaseOptions, env: RebaseWorld)
    ensures RepoOk(r) && Agrees(r, box) && HeadLost(r, box, opts, env)
    ensures var e := RebaseOn(r, box, opts, env); var b := RebaseApplied(box, e.result, opts.dryRun);
      && RepoOk(e.repo) && box.path in e.repo.trees && e.repo.trees[box.path] == Detached(1)
      && box.branch in e.repo.branches && e.repo.branches[box.branch] == 2 && b.head == Some(2) && e.result.aborted
  {
    r, box, opts, env := RebaseCase(OnTop(0), true);
    hide Ancestor, ManagedTask;
  }

  lemma RebaseCase(replay: Replay, newHeadRead: bool)
    returns (r: Repo, box: Box, opts: RebaseOptions, env: RebaseWorld)
    ensures r == Repo([{}, {0}, {0}], map[box.branch := 2], map["w" := On(box.branch)]) && RepoOk(r)
    ensures Agrees(r, box) && box.path == "w" && box.head == Some(2) && RebaseGate(r, box, opts, env).None?
    ensures !opts.dryRun && !Ancestor(r.parents, 1, 2)
    ensures env.target == Some(1) && env.counted && env.compared
    ensures env.replay == replay && env.newHeadRead == newHeadRead
  {
    var branch := "multiagent/p/task/t/b";
    TaskBranch("multiagent/p", "t/b");
    assert branch == "multiagent/p" + "/task/" + "t/b" && "multiagent/" <= branch;
    r := Repo([{}, {0}, {0}], map[branch := 2], map["w" := On(branch)]);
    box := Box(true, Private, Released, "w", branch, Some(0), Some(2));
    opts := RebaseOptions(false, false, false);
    env := RebaseWorld(true, false, false, true, true, Clean, true, Some(1), true, true, replay, newHeadRead, false);
    assert !Ancestor(r.parents, 1, 0);
    assert !Ancestor(r.parents, 1, 2);
  }

  // Rebased or up to date: the recorded base is an ancestor of the head.  Otherwise, and in every
  // dry run, the record stays, and git as well exactly unless the head is lost.
  lemma RebaseMeans(r: Repo, box: Box, opts: RebaseOptions, env: RebaseWorld)
    requires RepoOk(r) && Agrees(r, box)
    ensures var e := RebaseOn(r, box, opts, env); var b := RebaseApplied(box, e.result, opts.dryRun);
      && (e.result.status in {Rebased, PublishFailed, UpToDate} && !opts.dryRun ==>
            && RepoOk(e.repo) && b.path in e.repo.trees && b.base.Some?
            && Ancestor(e.repo.parents, b.base.value, Head(e.repo, b.path)))
      && (e.result.status !in {Rebased, PublishFailed, UpToDate} || opts.dryRun ==>
            b == box && (e.repo == r <==> !HeadLost(r, box, opts, env)))
  {
    hide ManagedTask, Ancestor, LeftBy;
    if RebaseGate(r, box, opts, env).None? && Known(r, env.target) && !env.replay.PutBack? {
      LeftByOk(r, box.path, env.target.value, env.replay);
      if !Ancestor(r.parents, env.target.value, Head(r, box.path)) {
        ReplayMoves(r, box.path, env.target.value, env.replay);
      }
    }
    PutBackIs(r, box.path, env);
  }

  // What a rebase asks for before it asks git for the target: a released private sandbox on its own
  // task branch, at the head recorded, without changes.
  ghost predicate MayRebase(r: Repo, box: Box, opts: RebaseOptions, env: RebaseWorld)
    requires RepoOk(r)
  {
    && env.ready && (opts.fetch ==> env.remote && env.fetched)
    && box.git && box.scope == Private && box.status == Released && box.path != "" && box.branch != ""
    && "multiagent/" <= box.branch && Contains(box.branch, "/task/")
    && env.listed && box.path in r.trees && (r.trees[box.path].On? ==> r.trees[box.path] == On(box.branch))
    && env.headRead && box.head == Some(Head(r, box.path))
    && (env.dirt == Clean || (env.dirt == ManifestOnly && (opts.dryRun || env.manifestRemoved)))
  }

  // The worktree is on top of the target, as the sandbox records.
  ghost predicate OnTopOf(r: Repo, n: Repo, box: Box, b: Box, target: Commit, picked: nat)
    requires RepoOk(r) && box.path in r.trees
  {
    && RepoOk(n) && box.path in n.trees && Ancestor(n.parents, target, Head(n, box.path))
    && InLine(r, n, box.path, target, picked) && Elsewhere(r, n, box.path)
    && b == box.(head := Some(Head(n, box.path)), base := Some(target))
  }

  // What a rebase comes to once the target is known and the heads are compared.
  ghost predicate RebaseComesTo(r: Repo, box: Box, opts: RebaseOptions, env: RebaseWorld, e: RebaseEnd, b: Box)
    requires RepoOk(r) && box.path in r.trees && Known(r, env.target)
  {
    var head, target := Head(r, box.path), env.target.value;
    if Ancestor(r.parents, target, head) then
      && e == RebaseEnd(r, RebaseResult(UpToDate, Some(target), Some(head), false, false))
      && (!opts.dryRun ==> b == box.(head := Some(head), base := Some(target)))
    else if opts.dryRun then
      e == RebaseEnd(r, RebaseResult(DryRun, Some(target), Some(head), false, false)) && b == box
    else if !env.replay.Through? then e.result.status == RebaseFailed && e.result.aborted && b == box
    else if !env.newHeadRead then e.result.status == RebaseFailed && !e.result.aborted && b == box
    else
      && OnTopOf(r, e.repo, box, b, target, env.replay.picked)
      && e.result
         == RebaseResult(if opts.publish && !env.published then PublishFailed else Rebased, Some(target), b.head, false,
                         opts.publish && env.published)
  }

  // A rebase that may go on, with a target that git knows, is carried out and recorded: the sandbox
  // is up to date already, or its commits are put on top of the target, and its record says so; it
  // is published exactly when that is asked for and done.  Any other changes nothing.
  lemma RebaseDone(r: Repo, box: Box, opts: RebaseOptions, env: RebaseWorld)
    requires RepoOk(r)
    ensures var e := RebaseOn(r, box, opts, env); var b := RebaseApplied(box, e.result, opts.dryRun);
      if MayRebase(r, box, opts, env) && Known(r, env.target) && env.counted && env.compared
      then RebaseComesTo(r, box, opts, env, e, b)
      else e.repo == r && e.result.status in {RebaseFailed, RebaseSkipped} && b == box
  {
    hide Ancestor, Contains, LeftBy, InLine, Elsewhere, Replayed, Head;
    if MayRebase(r, box, opts, env) && Known(r, env.target) && env.replay.Through? {
      ReplayedOk(r, box.path, env.target.value, env.replay.picked);
      ReplayedInLine(r, box.path, env.target.value, env.replay.picked);
      ThroughIs(r, box.path, env.target.value, env.replay);
    }
  }

  lemma ThroughIs(r: Repo, path: string, target: Commit, replay: Replay)
    requires RepoOk(r) && path in r.trees && target < |r.parents| && replay.Through?
    ensures LeftBy(r, path, target, replay) == Replayed(r, path, target, replay.picked)
  {
  }

  // A rebase that says "aborted" has left everything as it was exactly when it was taken back.
  lemma AbortReported(r: Repo, box: Box, opts: RebaseOptions, env: RebaseWorld)
    requires RepoOk(r) && RebaseOn(r, box, opts, env).result.aborted
    ensures RebaseOn(r, box, opts, env).repo == r <==> env.replay.PutBack?
  {
    hide ManagedTask, Ancestor, LeftBy;
    if !env.replay.PutBack? {
      ReplayMoves(r, box.path, env.target.value, env.replay);
    }
    PutBackIs(r, box.path, env);
  }

  // Whatever happens, no other branch or worktree moves and no commit goes away.
  lemma RebaseElsewhere(r: Repo, box: Box, opts: RebaseOptions, env: RebaseWorld)
    requires RepoOk(r)
    ensures var n := RebaseOn(r, box, opts, env).repo;
      RepoOk(n) && r.parents <= n.parents && (n == r || (box.path in r.trees && Elsewhere(r, n, box.path)))
      && (n != r ==> ManagedTask(box.branch) && (r.trees[box.path].On? ==> r.trees[box.path].branch == box.branch))
  {
    hide ManagedTask, Ancestor, LeftBy;
    if RebaseGate(r, box, opts, env).None? && Known(r, env.target) {
      LeftByOk(r, box.path, env.target.value, env.replay);
    }
  }

  // ----- Cleaning up --------------------------------------------------------------------

  datatype CleanupPolicy = CleanupPolicy(dryRun: bool, deleteBranch: bool, retained: seq<HeadRef>)

  // How a command that answers yes or no by its exit status may end.
  datatype Probe = Answers | ReadsAsNo | Fails

  datatype CleanupWorld = CleanupWorld(
    listed: bool, pathGone: bool, dirt: Dirt, manifestRemoved: bool, removed: Outcome,
    branchProbe: Probe, deleted: Outcome)

  datatype CleanupResult = CleanupResult(skipped: bool, error: bool, worktreeRemoved: bool, branchDeleted: bool,
                                         keeper: Option<Commit>)

  datatype CleanupEnd = CleanupEnd(repo: Repo, result: CleanupResult)

  const NOTHING := CleanupResult(false, false, false, false, None)

  // The worktree part of a cleanup; the second component tells whether it is over.
  function WorktreeCleaned(r: Repo, box: Box, policy: CleanupPolicy, env: CleanupWorld): (CleanupEnd, bool) {
    if !box.git || box.scope != Private || box.status != Released then (CleanupEnd(r, NOTHING.(skipped := true)), true)
    else if box.path == "" || box.branch == "" || box.head.None? then (CleanupEnd(r, NOTHING.(skipped := true)), true)
    else if !("multiagent/" <= box.branch) then (CleanupEnd(r, NOTHING.(skipped := true)), true)
    else if !env.listed then (CleanupEnd(r, NOTHING.(error := true)), true)
    else if box.path !in r.trees then
      if env.pathGone
      then (CleanupEnd(r, NOTHING.(worktreeRemoved := true)), false)
      else (CleanupEnd(r, NOTHING.(skipped := true)), true)
    else if r.trees[box.path].On? && r.trees[box.path].branch != box.branch
      then (CleanupEnd(r, NOTHING.(skipped := true)), true)
    else if env.dirt == NoStatus then (CleanupEnd(r, NOTHING.(error := true)), true)
    else if env.dirt == Changes then (CleanupEnd(r, NOTHING.(skipped := true)), true)
    else if env.dirt
      == ManifestOnly && !policy.dryRun && !env.manifestRemoved then (CleanupEnd(r, NOTHING.(error := true)), true)
    else if policy.dryRun then (CleanupEnd(r, NOTHING.(worktreeRemoved := true)), false)
    else if env.removed.Refuses? then (CleanupEnd(r, NOTHING.(error := true)), true)
    else
      var n := r.(trees := r.trees - {box.path});
      if env.removed.Works? then (CleanupEnd(n, NOTHING.(worktreeRemoved := true)), false)
      else (CleanupEnd(n, NOTHING.(error := true)), true)
  }

  // A real cleanup takes the sandbox's worktree away.
  predicate WorktreeGoes(box: Box, env: CleanupWorld) {
    && box.git && box.scope == Private && box.status == Released && box.path != "" && box.branch != ""
    && box.head.Some? && "multiagent/" <= box.branch && env.listed
    && (env.dirt == Clean || (env.dirt == ManifestOnly && env.manifestRemoved)) && !env.removed.Refuses?
  }

  // git branch -d, which never deletes a branch that a worktree has checked out.
  predicate Deletable(r: Repo, branch: string, env: CleanupWorld) {
    !env.deleted.Refuses? && forall p | p in r.trees :: r.trees[p] != On(branch)
  }

  function BranchCleaned(r: Repo, box: Box, policy: CleanupPolicy, env: CleanupWorld): CleanupEnd
    requires RepoOk(r) && box.head.Some?
  {
    var done := NOTHING.(worktreeRemoved := true);
    if !Contains(box.branch, "/task/") then CleanupEnd(r, done.(skipped := true))
    else if env.branchProbe == Fails then CleanupEnd(r, done.(error := true))
    else if env.branchProbe == ReadsAsNo || box.branch !in r.branches then CleanupEnd(r, done.(branchDeleted := true))
    else if r.branches[box.branch] != box.head.value then CleanupEnd(r, done.(skipped := true))
    else
      match RetainedBy(r, box.head.value, policy.retained)
      case Undecided => CleanupEnd(r, done.(error := true))
      case NotKept => CleanupEnd(r, done.(skipped := true))
      case Kept(c) =>
        if policy.dryRun then CleanupEnd(r, done.(keeper := Some(c), branchDeleted := true))
        else if !Deletable(r, box.branch, env) then CleanupEnd(r, done.(keeper := Some(c), skipped := true))
        else
          var n := r.(branches := r.branches - {box.branch});
          if env.deleted.Works? then CleanupEnd(n, done.(keeper := Some(c), branchDeleted := true))
          else CleanupEnd(n, done.(keeper := Some(c), skipped := true))
  }

  // gitWorkspaceProvider.Cleanup.
  function CleanedUp(r: Repo, box: Box, policy: CleanupPolicy, env: CleanupWorld): CleanupEnd
    requires RepoOk(r)
  {
    var (first, over) := WorktreeCleaned(r, box, policy, env);
    if over || !policy.deleteBranch then first else BranchCleaned(first.repo, box, policy, env)
  }

  // A cleanup keeps all commits and all branches but, at most, the sandbox's own task branch;
  // that one goes only when its recorded head is contained in a retained one, which is reported.
  lemma CleanupSafe(r: Repo, box: Box, policy: CleanupPolicy, env: CleanupWorld)
    requires RepoOk(r)
    ensures var e := CleanedUp(r, box, policy, env);
      && RepoOk(e.repo) && e.repo.parents == r.parents
      && (e.repo.branches == r.branches || e.repo.branches == r.branches - {box.branch})
      && (e.repo.branches != r.branches ==>
            && !policy.dryRun && policy.deleteBranch && box.scope == Private && ManagedTask(box.branch)
            && box.branch in r.branches && box.head == Some(r.branches[box.branch])
            && (e.result.branchDeleted <==> env.deleted.Works?)
            && e.result.keeper.Some? && At(e.result.keeper.value) in policy.retained
            && Ancestor(r.parents, r.branches[box.branch], e.result.keeper.value))
      && (policy.dryRun ==> e.repo == r)
  {
    var (first, over) := WorktreeCleaned(r, box, policy, env);
    if !over {
      RetentionMeans(first.repo, box.head.value, policy.retained);
    }
    hide Ancestor, RetainedBy;
  }

  // A cleanup leaves worktrees other than the sandbox's alone, and deletes no branch that is
  // checked out in one.
  lemma CleanupTrees(r: Repo, box: Box, policy: CleanupPolicy, env: CleanupWorld)
    requires RepoOk(r)
    ensures var n := CleanedUp(r, box, policy, env).repo;
      && (n.trees == r.trees || n.trees == r.trees - {box.path})
      && (box.path in r.trees && r.trees[box.path] == On(box.branch) ==>
            (n.trees != r.trees <==> !policy.dryRun && WorktreeGoes(box, env)))
      && (forall p | p in n.trees && n.trees[p].On? :: n.trees[p].branch in n.branches)
      && (n.branches != r.branches ==> forall p | p in n.trees :: n.trees[p] != On(box.branch))
  {
    var (first, over) := WorktreeCleaned(r, box, policy, env);
    hide Ancestor, RetainedBy;
  }

  // Some retained ref contains the head, and no command hangs before it is reached.
  ghost predicate Keeps(r: Repo, head: Commit, refs: seq<HeadRef>)
    requires RepoOk(r)
  {
    exists k :: 0 <= k < |refs| && refs[k].At? && Ancestor(r.parents, head, refs[k].commit) && Hangs !in refs[..k]
  }

  lemma {:induction false} KeptExactly(r: Repo, head: Commit, refs: seq<HeadRef>)
    requires RepoOk(r)
    ensures RetainedBy(r, head, refs).Kept? <==> Keeps(r, head, refs)
  {
    if refs == [] {
    } else {
      var rest := refs[1..];
      KeptExactly(r, head, rest);
      if refs[0].At? && Ancestor(r.parents, head, refs[0].commit) {
        assert refs[..0] == [];
      } else {
        if Keeps(r, head, rest) && refs[0] != Hangs {
          var k :| 0 <= k < |rest| && rest[k].At? && Ancestor(r.parents, head, rest[k].commit) && Hangs !in rest[..k];
          assert refs[k+1] == rest[k] && refs[..k+1] == [refs[0]] + rest[..k];
        }
        if Keeps(r, head, refs) {
          var k :| 0 <= k < |refs| && refs[k].At? && Ancestor(r.parents, head, refs[k].commit) && Hangs !in refs[..k];
          assert refs[..k] == [refs[0]] + rest[..k-1] && rest[k-1] == refs[k];
        }
      }
    }
  }

  // The worktree part of a cleanup gets done: the sandbox is a released private one with a managed
  // branch, and its worktree is gone or can be removed without losing changes.
  ghost predicate TreeDone(r: Repo, box: Box, policy: CleanupPolicy, env: CleanupWorld) {
    && box.git && box.scope == Private && box.status == Released && box.path != "" && box.branch != ""
    && box.head.Some? && "multiagent/" <= box.branch && env.listed
    && if box.path !in r.trees then env.pathGone
       else
         && (r.trees[box.path].On? ==> r.trees[box.path] == On(box.branch))
         && (env.dirt == Clean || (env.dirt == ManifestOnly && (policy.dryRun || env.manifestRemoved)))
         && (policy.dryRun || env.removed.Works?)
  }

  // The branch can go: git sees it, at the recorded head, which a retained head contains, and no
  // other worktree has it checked out.
  ghost predicate BranchFree(r: Repo, box: Box, policy: CleanupPolicy, env: CleanupWorld)
    requires RepoOk(r)
  {
    && Contains(box.branch, "/task/") && env.branchProbe == Answers && box.branch in r.branches
    && box.head == Some(r.branches[box.branch]) && Keeps(r, r.branches[box.branch], policy.retained)
    && !env.deleted.Refuses? && forall p | p in r.trees && p != box.path :: r.trees[p] != On(box.branch)
  }

  // A cleanup reports the worktree as removed exactly when that part gets done, and takes the branch
  // away exactly when it is told to, has done so, and the branch can go.
  lemma CleanupDone(r: Repo, box: Box, policy: CleanupPolicy, env: CleanupWorld)
    requires RepoOk(r)
    ensures var e := CleanedUp(r, box, policy, env);
      && (e.result.worktreeRemoved <==> TreeDone(r, box, policy, env))
      && (TreeDone(r, box, policy, env) && !policy.dryRun ==> box.path !in e.repo.trees)
      && (e.repo.branches != r.branches <==>
            TreeDone(r, box, policy, env) && policy.deleteBranch && !policy.dryRun && BranchFree(r, box, policy, env))
  {
    hide Ancestor, RetainedBy, Contains, Keeps, BranchFree, BranchCleaned;
    var (first, over) := WorktreeCleaned(r, box, policy, env);
    if !over && policy.deleteBranch {
      BranchDone(r, first.repo, box, policy, env);
    }
  }

  lemma BranchDone(r: Repo, m: Repo, box: Box, policy: CleanupPolicy, env: CleanupWorld)
    requires RepoOk(r) && RepoOk(m) && box.head.Some?
    requires m == if policy.dryRun then r else r.(trees := r.trees - {box.path})
    ensures var e := BranchCleaned(m, box, policy, env);
      && e.result.worktreeRemoved && e.repo.trees == m.trees
      && (e.repo.branches != r.branches <==> !policy.dryRun && BranchFree(r, box, policy, env))
  {
    hide Ancestor, RetainedBy, Contains, Keeps;
    KeptExactly(m, box.head.value, policy.retained);
    SameKeepers(r, m, box.head.value, policy.retained);
    if !policy.dryRun {
      var trees := r.trees - {box.path};
      assert m.trees == trees;
      forall p ensures p in m.trees <==> p in r.trees && p != box.path {
        assert p in trees <==> p in r.trees && p != box.path;
      }
      assert forall p | p in m.trees :: m.trees[p] == r.trees[p];
    }
    if box.branch in r.branches {
      assert box.branch !in r.branches - {box.branch};
    }
  }

  lemma SameKeepers(r: Repo, n: Repo, head: Commit, refs: seq<HeadRef>)
    requires RepoOk(r) && RepoOk(n) && n.parents == r.parents
    ensures Keeps(n, head, refs) <==> Keeps(r, head, refs)
  {
    hide Ancestor;
  }

  // A dry run says what the real run would do, as far as git's own refusals go.
  lemma DryRunTells(r: Repo, box: Box, policy: CleanupPolicy, env: CleanupWorld)
    requires RepoOk(r) && env.manifestRemoved && env.removed.Works? && env.deleted.Works?
    requires Deletable(r.(trees := r.trees - {box.path}), box.branch, env)
    ensures CleanedUp(r, box, policy.(dryRun := true), env).result
      == CleanedUp(r, box, policy.(dryRun := false), env).result
  {
    var (first, over) := WorktreeCleaned(r, box, policy.(dryRun := false), env);
    if box.path !in r.trees {
      assert r.trees - {box.path} == r.trees;
    }
    if !over && box.head.Some? {
      SameRetention(r, first.repo, box.head.value, policy.retained);
    }
    hide Ancestor, RetainedBy;
  }

  lemma {:induction false} SameRetention(r: Repo, n: Repo, head: Commit, refs: seq<HeadRef>)
    requires RepoOk(r) && RepoOk(n) && n.parents == r.parents
    ensures RetainedBy(n, head, refs) == RetainedBy(r, head, refs)
  {
    if refs == [] {
    } else {
      SameRetention(r, n, head, refs[1..]);
    }
  }

  // A branch that a real run reports as deleted is still there exactly when the command that
  // looked for it died in a way that reads as "no such branch".
  lemma DeletionReported(r: Repo, box: Box, policy: CleanupPolicy, env: CleanupWorld)
    requires RepoOk(r) && !policy.dryRun && CleanedUp(r, box, policy, env).result.branchDeleted
    ensures box.branch in CleanedUp(r, box, policy, env).repo.branches <==>
      env.branchProbe == ReadsAsNo && box.branch in r.branches
  {
    hide Ancestor, RetainedBy;
  }

  // A branch that a real run does not report as deleted is gone exactly when git was cut off after
  // deleting it; by then it had a keeper and no worktree.
  lemma DeletionUnseen(r: Repo, box: Box, policy: CleanupPolicy, env: CleanupWorld)
    requires RepoOk(r) && !policy.dryRun && !CleanedUp(r, box, policy, env).result.branchDeleted
    requires box.branch in r.branches
    ensures var e := CleanedUp(r, box, policy, env);
      box.branch !in e.repo.branches <==>
        && env.deleted.WorksUnseen? && e.result.keeper.Some?
        && forall p | p in e.repo.trees :: e.repo.trees[p] != On(box.branch)
  {
    hide Ancestor, RetainedBy;
  }

  // A broken repository makes show-ref exit with status 128: the branch is reported as deleted
  // and is still there.
  lemma DeletionMisreported() returns (r: Repo, box: Box, policy: CleanupPolicy, env: CleanupWorld)
    ensures RepoOk(r) && box.branch in r.branches
    ensures CleanedUp(r, box, policy, env).result.branchDeleted && CleanedUp(r, box, policy, env).repo == r
    ensures !policy.dryRun
  {
    r := Repo([{}], map["multiagent/p/task/t/b" := 0], map[]);
    box := Box(true, Private, Released, "w", "multiagent/p/task/t/b", None, Some(0));
    policy := CleanupPolicy(false, true, []);
    env := CleanupWorld(true, true, Clean, true, Works, ReadsAsNo, Works);
    TaskBranch("multiagent/p", "t/b");
    assert box.branch == "multiagent/p" + "/task/" + "t/b";
  }

  lemma {:induction false} TaskBranch(a: string, b: string)
    ensures Contains(a + "/task/" + b, "/task/")
  {
    var s := a + "/task/" + b;
    if a == "" {
      assert s[..6] == "/task/";
    } else {
      TaskBranch(a[1..], b);
      assert s[1..] == a[1..] + "/task/" + b;
    }
  }
}
