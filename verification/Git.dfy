// Git as the workspace provider uses it: a growing graph of commits, branches, and worktrees.
module Git {
  import opened Records

  type Commit = nat

  // What a worktree has checked out.
  datatype Tree = On(branch: string) | Detached(head: Commit)

  // parents[c] are the parents of commit c.
  datatype Repo = Repo(parents: seq<set<Commit>>, branches: map<string, Commit>, trees: map<string, Tree>)

  predicate DagOk(ps: seq<set<Commit>>) {
    forall c | 0 <= c < |ps| :: forall q | q in ps[c] :: q < c
  }

  predicate Ancestor(ps: seq<set<Commit>>, a: Commit, b: Commit)
    requires DagOk(ps)
    decreases b
  {
    b < |ps| && (a == b || exists q | q in ps[b] :: Ancestor(ps, a, q))
  }

  lemma {:induction false} AncestorTrans(ps: seq<set<Commit>>, a: Commit, b: Commit, c: Commit)
    requires DagOk(ps) && Ancestor(ps, a, b) && Ancestor(ps, b, c)
    ensures Ancestor(ps, a, c)
    decreases c
  {
    if b == c {
    } else {
      var q :| q in ps[c] && Ancestor(ps, b, q);
      AncestorTrans(ps, a, b, q);
    }
  }

  lemma {:induction false} AncestorKnown(ps: seq<set<Commit>>, a: Commit, b: Commit)
    requires DagOk(ps) && Ancestor(ps, a, b)
    ensures a <= b < |ps|
    decreases b
  {
    if a == b {
    } else {
      var q :| q in ps[b] && Ancestor(ps, a, q);
      AncestorKnown(ps, a, q);
    }
  }

  // New commits change nothing among the old ones.
  lemma {:induction false} AncestorGrows(ps: seq<set<Commit>>, qs: seq<set<Commit>>, a: Commit, b: Commit)
    requires DagOk(ps) && DagOk(qs) && ps <= qs && b < |ps|
    ensures Ancestor(ps, a, b) <==> Ancestor(qs, a, b)
    decreases b
  {
    forall q | q in ps[b] ensures Ancestor(ps, a, q) <==> Ancestor(qs, a, q) {
      AncestorGrows(ps, qs, a, q);
    }
  }

  predicate RepoOk(r: Repo) {
    && DagOk(r.parents)
    && (forall b | b in r.branches :: r.branches[b] < |r.parents|)
    && (forall p | p in r.trees :: match r.trees[p] case On(b) => b in r.branches case Detached(h) => h < |r.parents|)
  }

  function Head(r: Repo, path: string): Commit
    requires RepoOk(r) && path in r.trees
    ensures Head(r, path) < |r.parents|
  {
    match r.trees[path] case On(b) => r.branches[b] case Detached(h) => h
  }

  function MoveHead(r: Repo, path: string, c: Commit): Repo
    requires path in r.trees
  {
    match r.trees[path]
    case On(b) => r.(branches := r.branches[b := c])
    case Detached(_) => r.(trees := r.trees[path := Detached(c)])
  }

  // A new commit in a worktree.
  function Committed(r: Repo, path: string, ps: set<Commit>): Repo
    requires path in r.trees
  {
    MoveHead(r.(parents := r.parents + [ps]), path, |r.parents|)
  }

  // Only the worktree's own head has moved, and only to a descendant.
  ghost predicate Advanced(r: Repo, n: Repo, path: string) {
    && RepoOk(r) && RepoOk(n) && path in r.trees && path in n.trees
    && r.parents <= n.parents && Ancestor(n.parents, Head(r, path), Head(n, path))
    && Elsewhere(r, n, path) && (r.trees[path].On? ==> n.trees[path] == r.trees[path])
  }

  // No other branch and no other worktree has moved; this one may have left its branch.
  ghost predicate Elsewhere(r: Repo, n: Repo, path: string)
    requires path in r.trees
  {
    && n.branches.Keys == r.branches.Keys && n.trees.Keys == r.trees.Keys
    && (forall b | b in r.branches && r.trees[path] != On(b) :: n.branches[b] == r.branches[b])
    && (forall p | p in r.trees && p != path :: n.trees[p] == r.trees[p])
    && (n.trees[path] == r.trees[path] || n.trees[path].Detached?)
  }

  lemma MovedOk(r: Repo, path: string, c: Commit)
    requires RepoOk(r) && path in r.trees && c < |r.parents|
    ensures RepoOk(MoveHead(r, path, c)) && Head(MoveHead(r, path, c), path) == c
    ensures Elsewhere(r, MoveHead(r, path, c), path)
    ensures r.trees[path].On? ==> MoveHead(r, path, c).trees[path] == r.trees[path]
  {
  }

  lemma CommittedOk(r: Repo, path: string, ps: set<Commit>)
    requires RepoOk(r) && path in r.trees && forall q | q in ps :: q < |r.parents|
    ensures var n := Committed(r, path, ps);
      && RepoOk(n) && r.parents <= n.parents && Head(n, path) == |r.parents| && Elsewhere(r, n, path)
      && (r.trees[path].On? ==> n.trees[path] == r.trees[path])
      && forall q | q in ps :: Ancestor(n.parents, q, Head(n, path))
  {
    var m := r.(parents := r.parents + [ps]);
    assert forall c | 0 <= c < |r.parents| :: m.parents[c] == r.parents[c];
    MovedOk(m, path, |r.parents|);
    forall q | q in ps ensures Ancestor(m.parents, q, |r.parents|) {
      assert q in m.parents[|r.parents|] && Ancestor(m.parents, q, q);
    }
  }

  lemma AdvancedSelf(r: Repo, path: string)
    requires RepoOk(r) && path in r.trees
    ensures Advanced(r, r, path)
  {
  }

  lemma AdvancedThen(r: Repo, m: Repo, n: Repo, path: string)
    requires Advanced(r, m, path) && Advanced(m, n, path)
    ensures Advanced(r, n, path)
  {
    AncestorGrows(m.parents, n.parents, Head(r, path), Head(m, path));
    AncestorTrans(n.parents, Head(r, path), Head(m, path), Head(n, path));
  }

  // git merge --no-ff: nothing to do when the other head is contained already.
  function Merged(r: Repo, path: string, other: Commit): Repo
    requires RepoOk(r) && path in r.trees
  {
    if Ancestor(r.parents, other, Head(r, path)) then r else Committed(r, path, {Head(r, path), other})
  }

  lemma MergedOk(r: Repo, path: string, other: Commit)
    requires RepoOk(r) && path in r.trees && other < |r.parents|
    ensures Advanced(r, Merged(r, path, other), path)
    ensures Ancestor(Merged(r, path, other).parents, other, Head(Merged(r, path, other), path))
  {
    AdvancedSelf(r, path);
    CommittedOk(r, path, {Head(r, path), other});
  }

  // git rebase: k commits on top of the target.
  function Replayed(r: Repo, path: string, target: Commit, k: nat): (n: Repo)
    requires RepoOk(r) && path in r.trees && target < |r.parents|
    ensures RepoOk(n) && path in n.trees
    decreases k
  {
    if k == 0 then
      MovedOk(r, path, target);
      MoveHead(r, path, target)
    else
      var m := Replayed(r, path, target, k - 1);
      CommittedOk(m, path, {Head(m, path)});
      Committed(m, path, {Head(m, path)})
  }

  lemma OneMore(r: Repo, m: Repo, path: string, target: Commit)
    requires RepoOk(r) && RepoOk(m) && path in r.trees && path in m.trees && r.parents <= m.parents
    requires Elsewhere(r, m, path)
    requires target < |m.parents| && Ancestor(m.parents, target, Head(m, path))
    ensures var n := Committed(m, path, {Head(m, path)});
      && RepoOk(n) && path in n.trees && r.parents <= n.parents && Ancestor(n.parents, target, Head(n, path))
      && Elsewhere(r, n, path)
  {
    hide Ancestor;
    var n := Committed(m, path, {Head(m, path)});
    CommittedOk(m, path, {Head(m, path)});
    AncestorGrows(m.parents, n.parents, target, Head(m, path));
    AncestorTrans(n.parents, target, Head(m, path), Head(n, path));
  }

  lemma {:induction false} ReplayedOk(r: Repo, path: string, target: Commit, k: nat)
    requires RepoOk(r) && path in r.trees && target < |r.parents|
    ensures var n := Replayed(r, path, target, k);
      r.parents <= n.parents && Ancestor(n.parents, target, Head(n, path)) && Elsewhere(r, n, path)
  {
    if k == 0 {
      MovedOk(r, path, target);
    } else {
      var m := Replayed(r, path, target, k - 1);
      var n := Committed(m, path, {Head(m, path)});
      ReplayedOk(r, path, target, k - 1);
      OneMore(r, m, path, target);
    }
  }

  // The picked commits are new, in a line on top of the target, and what was checked out follows.
  ghost predicate InLine(r: Repo, n: Repo, path: string, target: Commit, k: nat)
    requires RepoOk(n) && path in r.trees && path in n.trees
  {
    && |n.parents| == |r.parents| + k && r.parents <= n.parents
    && (forall c | |r.parents| <= c < |n.parents| :: n.parents[c] == {if c == |r.parents| then target else c - 1})
    && Head(n, path) == (if k == 0 then target else |r.parents| + k - 1)
    && (r.trees[path].On? ==> n.trees == r.trees)
  }

  lemma {:induction false} ReplayedInLine(r: Repo, path: string, target: Commit, k: nat)
    requires RepoOk(r) && path in r.trees && target < |r.parents|
    ensures InLine(r, Replayed(r, path, target, k), path, target, k)
  {
    hide Ancestor, Elsewhere;
    if k == 0 {
      MovedOk(r, path, target);
    } else {
      ReplayedInLine(r, path, target, k - 1);
      OneMoreInLine(r, Replayed(r, path, target, k - 1), path, target, k - 1);
    }
  }

  lemma OneMoreInLine(r: Repo, m: Repo, path: string, target: Commit, k: nat)
    requires RepoOk(m) && path in r.trees && path in m.trees && InLine(r, m, path, target, k)
    ensures var n := Committed(m, path, {Head(m, path)}); RepoOk(n) && InLine(r, n, path, target, k + 1)
  {
    hide Ancestor, Elsewhere, DagOk;
    var h := Head(m, path);
    var n := Committed(m, path, {h});
    CommittedOk(m, path, {h});
    assert n.parents == m.parents + [{h}];
    forall c | |r.parents| <= c < |n.parents| ensures n.parents[c] == {if c == |r.parents| then target else c - 1} {
      if c == |m.parents| {
        assert n.parents[c] == {h};
      } else {
        assert n.parents[c] == m.parents[c];
      }
    }
  }

  // git checkout --detach.
  function Freed(r: Repo, path: string): (n: Repo)
    requires RepoOk(r) && path in r.trees
    ensures RepoOk(n) && path in n.trees && Head(n, path) == Head(r, path)
  {
    r.(trees := r.trees[path := Detached(Head(r, path))])
  }

  // How a rebase may end: through, or with an error.  With an error it has been taken back; or that
  // has failed too, and the worktree is off its branch on top of the target, the branch being
  // where it was or moved along; or the branch had been moved and checked out already.
  datatype Replay =
    | Through(picked: nat) | PutBack | OnTop(picked: nat) | Unattached(picked: nat) | Moved(picked: nat)

  function LeftBy(r: Repo, path: string, target: Commit, replay: Replay): (n: Repo)
    requires RepoOk(r) && path in r.trees && target < |r.parents|
    ensures RepoOk(n) && path in n.trees
  {
    match replay
    case PutBack => r
    case OnTop(k) => Replayed(Freed(r, path), path, target, k)
    case Unattached(k) => Freed(Replayed(r, path, target, k), path)
    case Through(k) => Replayed(r, path, target, k)
    case Moved(k) => Replayed(r, path, target, k)
  }

  lemma FreedOk(r: Repo, m: Repo, path: string, target: Commit)
    requires RepoOk(m) && path in r.trees && path in m.trees && Elsewhere(r, m, path)
    requires Ancestor(m.parents, target, Head(m, path))
    ensures var n := Freed(m, path); Elsewhere(r, n, path) && Ancestor(n.parents, target, Head(n, path))
  {
    hide Ancestor;
  }

  lemma ReplayedFreed(r: Repo, path: string, target: Commit, k: nat)
    requires RepoOk(r) && path in r.trees && target < |r.parents|
    ensures var n := Replayed(Freed(r, path), path, target, k);
      r.parents <= n.parents && Ancestor(n.parents, target, Head(n, path)) && Elsewhere(r, n, path)
  {
    ReplayedOk(Freed(r, path), path, target, k);
    hide Ancestor, Replayed;
  }

  lemma LeftByOk(r: Repo, path: string, target: Commit, replay: Replay)
    requires RepoOk(r) && path in r.trees && target < |r.parents|
    ensures var n := LeftBy(r, path, target, replay);
      && r.parents <= n.parents && Elsewhere(r, n, path)
      && (!replay.PutBack? ==> Ancestor(n.parents, target, Head(n, path)))
  {
    if !replay.PutBack? {
      ReplayedOk(r, path, target, replay.picked);
      FreedOk(r, Replayed(r, path, target, replay.picked), path, target);
      ReplayedFreed(r, path, target, replay.picked);
    }
    hide Ancestor, Replayed, Freed, Elsewhere;
  }
}
