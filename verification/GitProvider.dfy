// The provider as an object over the repository it works on.
module GitProvider {
  import opened Records
  import opened Domain
  import opened Text
  import opened Git
  import opened Workspaces

  class Provider {
    var repo: Repo

    constructor (r: Repo)
      ensures repo == r
    {
      repo := r;
    }

    method HeadRetainedBy(head: Commit, refs: seq<HeadRef>) returns (k: Retention)
      requires RepoOk(repo)
      ensures k == RetainedBy(repo, head, refs)
    {
      for i := 0 to |refs|
        invariant RetainedBy(repo, head, refs) == RetainedBy(repo, head, refs[i..])
      {
        assert refs[i..][1..] == refs[i+1..];
        if refs[i].Hangs? {
          return Undecided;
        }
        if refs[i].At? && Ancestor(repo.parents, head, refs[i].commit) {
          return Kept(refs[i].commit);
        }
      }
      k := NotKept;
    }

    // The heads merged before a failure stay merged.
    method MergeShared(path: string, heads: seq<Option<Commit>>, fails: map<nat, bool>) returns (ok: bool)
      requires RepoOk(repo) && path in repo.trees
      modifies this
      ensures MergeEnd(repo, ok) == MergeEach(old(repo), path, heads, fails)
    {
      hide Ancestor, Advanced;
      for i := 0 to |heads|
        invariant MergeEach(old(repo), path, heads[..i], fails) == MergeEnd(repo, true)
      {
        assert heads[..i+1][..i] == heads[..i];
        assert Advanced(old(repo), repo, path);
        MergeStops(old(repo), path, heads, i + 1, fails);
        AdvancedIn(old(repo), repo, path);
        if heads[i].None? || heads[i].value >= |repo.parents| {
          return false;
        }
        if i in fails && !fails[i] {
          return false;
        }
        repo := Merged(repo, path, heads[i].value);
        if i in fails {
          return false;
        }
      }
      assert heads[..|heads|] == heads;
      ok := true;
    }

    method Rebase(box: Box, opts: RebaseOptions, env: RebaseWorld) returns (result: RebaseResult)
      requires RepoOk(repo)
      modifies this
      ensures RebaseEnd(repo, result) == RebaseOn(old(repo), box, opts, env)
    {
      hide Ancestor, Advanced, ManagedTask, LeftBy;
      result := RebaseResult(RebaseFailed, None, None, false, false);
      var gate := RebaseGate(repo, box, opts, env);
      if gate.Some? {
        result := result.(status := gate.value);
        return;
      }
      if !Known(repo, env.target) {
        return;
      }
      var target := env.target.value;
      result := result.(target := env.target);
      if !env.counted || !env.compared {
        return;
      }
      var head := Head(repo, box.path);
      if Ancestor(repo.parents, target, head) {
        result := result.(status := UpToDate, newHead := Some(head));
        return;
      }
      if opts.dryRun {
        result := result.(status := DryRun, newHead := Some(head));
        return;
      }
      repo := LeftBy(repo, box.path, target, env.replay);
      if !env.replay.Through? {
        result := result.(aborted := true, newHead := if env.newHeadRead then Some(Head(repo, box.path)) else None);
        return;
      }
      if !env.newHeadRead {
        return;
      }
      result := result.(status := Rebased, newHead := Some(Head(repo, box.path)));
      if opts.publish {
        if !env.published {
          result := result.(status := PublishFailed);
          return;
        }
        result := result.(published := true);
      }
    }

    method Cleanup(box: Box, policy: CleanupPolicy, env: CleanupWorld) returns (result: CleanupResult)
      requires RepoOk(repo)
      modifies this
      ensures CleanupEnd(repo, result) == CleanedUp(old(repo), box, policy, env)
    {
      hide Ancestor;
      var (first, over) := WorktreeCleaned(repo, box, policy, env);
      result := first.result;
      repo := first.repo;
      if over || !policy.deleteBranch {
        return;
      }
      if !Contains(box.branch, "/task/") {
        result := result.(skipped := true);
        return;
      }
      if env.branchProbe == Fails {
        result := result.(error := true);
        return;
      }
      if env.branchProbe == ReadsAsNo || box.branch !in repo.branches {
        result := result.(branchDeleted := true);
        return;
      }
      if repo.branches[box.branch] != box.head.value {
        result := result.(skipped := true);
        return;
      }
      var retention := HeadRetainedBy(box.head.value, policy.retained);
      if retention.Undecided? {
        result := result.(error := true);
        return;
      }
      if retention.NotKept? {
        result := result.(skipped := true);
        return;
      }
      result := result.(keeper := Some(retention.keeper));
      if policy.dryRun {
        result := result.(branchDeleted := true);
        return;
      }
      if !Deletable(repo, box.branch, env) {
        result := result.(skipped := true);
        return;
      }
      repo := repo.(branches := repo.branches - {box.branch});
      if env.deleted.Works? {
        result := result.(branchDeleted := true);
      } else {
        result := result.(skipped := true);
      }
    }
  }

  lemma AdvancedIn(r: Repo, n: Repo, path: string)
    requires Advanced(r, n, path)
    ensures RepoOk(n) && path in n.trees
  {
  }

  lemma {:induction false} MergeStops(r: Repo, path: string, heads: seq<Option<Commit>>, n: nat, fails: map<nat, bool>)
    requires RepoOk(r) && path in r.trees && n <= |heads|
    ensures !MergeEach(r, path, heads[..n], fails).ok ==>
      MergeEach(r, path, heads, fails) == MergeEach(r, path, heads[..n], fails)
    decreases |heads|
  {
    hide Ancestor, Advanced;
    if n == |heads| {
      assert heads[..n] == heads;
    } else {
      MergeStops(r, path, heads[..|heads|-1], n, fails);
      assert heads[..|heads|-1][..n] == heads[..n];
    }
  }
}
