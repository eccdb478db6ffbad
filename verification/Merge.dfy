/** `close_merge` (sigiledd/src/merge.rs) on a commit graph, for any best common ancestor git may answer. */
module Merge {
  import opened Wrappers
  import opened CommitGraph

  datatype MergeAnswer = Clean(tree: Tree) | Conflicted

  /** What the git commands answered; `base` is None when merge-base fails. */
  datatype Answers = Answers(
    base: Option<nat>, updateOk: bool, checkoutOk: bool, merge: MergeAnswer, revParseOk: bool, debtReadsOk: bool,
    abortOk: bool)
  {
    predicate Smooth() { base.Some? && updateOk && checkoutOk && revParseOk && debtReadsOk && abortOk }
  }

  /** What git would answer during one close, for any graph and heads. */
  type Git = (Graph, nat, nat) -> Answers

  /** `ours` and `theirs` of a debt are the two heads that could not be fused. */
  datatype Outcome = Ff(sha: nat) | Merged(sha: nat) | Debt(ours: nat, theirs: nat) | GitFailed

  function At(tree: Tree, path: string): Option<string> { if path in tree then Some(tree[path]) else None }

  /** What only one side changed is in the result as that side has it; so is what both have alike. */
  predicate FusedAt(base: Tree, ours: Tree, theirs: Tree, result: Tree, path: string) {
    && (At(ours, path) == At(base, path) ==> At(result, path) == At(theirs, path))
    && (At(theirs, path) == At(base, path) ==> At(result, path) == At(ours, path))
    && (At(ours, path) == At(theirs, path) ==> At(result, path) == At(ours, path))
  }

  ghost predicate Fused(base: Tree, ours: Tree, theirs: Tree, result: Tree) {
    forall path :: FusedAt(base, ours, theirs, result, path)
  }

  /** Git fused path by path. It need not: a rename is followed to another path. */
  ghost predicate CleanFits(answers: Answers, g: Graph, ours: nat, theirs: nat) {
    && answers.merge.Clean? && answers.base.Some? && answers.base.value < |g| && ours < |g| && theirs < |g|
    && Fused(g[answers.base.value].tree, g[ours].tree, g[theirs].tree, answers.merge.tree)
  }

  /** A command that this close needs failed; `contained`: the session's head is in master, `ahead`: it extends it. */
  predicate GoesWrong(answers: Answers, contained: bool, ahead: bool) {
    || answers.base.None?
    || (!contained && ahead && !(answers.updateOk && answers.checkoutOk))
    || (!contained && !ahead && !(answers.checkoutOk && if answers.merge.Clean? then answers.revParseOk
                                                        else answers.debtReadsOk && answers.abortOk))
  }

  class Repository {
    var graph: Graph
    var master: nat
    var heads: map<string, nat>

    predicate Valid()
      reads this
    {
      Ok(graph) && master < |graph| && forall b :: b in heads ==> heads[b] < |graph|
    }

    constructor (tree: Tree)
      ensures Valid() && graph == [Commit([], tree)] && master == 0 && heads == map[]
    {
      graph := [Commit([], tree)];
      master := 0;
      heads := map[];
    }

    /** Fast-forward when one side contains the other, a merge commit when git can fuse them, a debt
        when it cannot. Master only ever moves to a descendant; a conflict leaves it where it was. */
    method CloseMerge(branch: string, answers: Answers) returns (r: Outcome)
      requires Valid()
      requires branch in heads && answers.base.Some? ==> BestBase(graph, answers.base.value, master, heads[branch])
      modifies this`graph, this`master
      ensures Valid() && old(graph) <= graph && Anc(graph, old(master), master)
      ensures r.Ff? || r.Merged? ==> branch in heads && r.sha == master && Anc(graph, heads[branch], master)
      ensures r.Ff? ==> graph == old(graph) && (master == old(master) || master == heads[branch])
      ensures r.Merged? ==>
                && answers.merge.Clean? && master == |old(graph)|
                && graph == old(graph) + [Commit([old(master), heads[branch]], answers.merge.tree)]
      ensures r.Debt? ==>
                branch in heads && graph == old(graph) && master == old(master) && r == Debt(master, heads[branch])
      ensures branch in heads && old(Anc(graph, heads[branch], master)) && r != GitFailed ==>
                r == Ff(old(master)) && master == old(master)
      ensures branch in heads && old(Anc(graph, master, heads[branch])) && r != GitFailed ==> r == Ff(heads[branch])
      ensures r == GitFailed <==>
                branch !in heads || GoesWrong(answers, old(Anc(graph, heads[branch], master)),
                                              old(Anc(graph, master, heads[branch])))
      ensures r == GitFailed && master != old(master) ==>
                || (answers.updateOk && !answers.checkoutOk && branch in heads && master == heads[branch])
                || (answers.checkoutOk && answers.merge.Clean? && !answers.revParseOk)
      ensures r != GitFailed ==> branch in heads && answers.base.Some? && answers.base.value < |old(graph)|
      ensures branch in heads && !old(Anc(graph, heads[branch], master)) && !old(Anc(graph, master, heads[branch])) ==>
                !r.Ff? && (r.Merged? ==> answers.merge.Clean?) && (r.Debt? ==> answers.merge.Conflicted?)
      ensures r.Ff? || (r.Merged? && CleanFits(answers, old(graph), old(master), heads[branch])) ==>
                Fused(graph[answers.base.value].tree, graph[old(master)].tree, graph[heads[branch]].tree,
                      graph[master].tree)
    {
      if branch !in heads { return GitFailed; }
      var ours := master;
      var head := heads[branch];
      if answers.base.None? { return GitFailed; }
      var base := answers.base.value;
      Bases(graph, base, ours, head);
      if head == base {
        return Ff(ours);
      }
      if ours == base {
        if !answers.updateOk { return GitFailed; }
        master := head;
        if !answers.checkoutOk { return GitFailed; }
        return Ff(head);
      }
      if !answers.checkoutOk { return GitFailed; }
      match answers.merge {
        case Clean(tree) =>
          graph := Added(graph, [ours, head], tree);
          master := |graph| - 1;
          MergeCommit(old(graph), graph, ours, head);
          if !answers.revParseOk { return GitFailed; }
          return Merged(master);
        case Conflicted =>
          if !answers.debtReadsOk || !answers.abortOk { return GitFailed; }
          return Debt(ours, head);
      }
    }

    /** Closing again after a merge that succeeded is a fast-forward to the same commit, whatever git answers then.
        After a close that git failed, it is a close like any other. */
    method CloseAgain(branch: string, git1: Git, git2: Git) returns (r1: Outcome, r2: Outcome)
      requires Valid() && branch in heads && Truthful(git1) && Truthful(git2)
      modifies this`graph, this`master
      ensures (r1.Ff? || r1.Merged?) && r2 != GitFailed ==> r2 == Ff(r1.sha)
      ensures Valid() && old(graph) <= graph && Anc(graph, old(master), master)
      ensures r2.Ff? || r2.Merged? ==> r2.sha == master && Anc(graph, heads[branch], master)
    {
      r1 := CloseMerge(branch, git1(graph, master, heads[branch]));
      ghost var g1, m1 := graph, master;
      r2 := CloseMerge(branch, git2(graph, master, heads[branch]));
      AncGrows(g1, graph, old(master), m1);
      AncTrans(graph, old(master), m1, master);
    }
  }

  /** Whatever git answers as the base is a best common ancestor in the graph it was asked about. */
  ghost predicate Truthful(git: Git) {
    forall g, m: nat, h: nat :: Ok(g) && m < |g| && h < |g| && git(g, m, h).base.Some? ==>
      BestBase(g, git(g, m, h).base.value, m, h)
  }

  lemma Bases(g: Graph, b: nat, x: nat, y: nat)
    requires Ok(g) && x < |g| && y < |g| && BestBase(g, b, x, y)
    ensures (b == x <==> Anc(g, x, y)) && (b == y <==> Anc(g, y, x)) && b < |g|
  {
    AncOrder(g, b, x);
    if Anc(g, x, y) { BaseOfContained(g, b, x, y); }
    if Anc(g, y, x) { OnlyBase(g, b, x, y); }
  }

  lemma OnlyBase(g: Graph, b: nat, x: nat, y: nat)
    requires Ok(g) && x < |g| && y < |g| && BestBase(g, b, x, y) && Anc(g, y, x)
    ensures b == y
  {
    assert BestBase(g, b, y, x);
    BaseOfContained(g, b, y, x);
  }

  /** A head that master contains is a best common ancestor of the two. */
  lemma ContainedBase(g: Graph, x: nat, y: nat)
    requires Ok(g) && x < |g| && y < |g| && Anc(g, x, y)
    ensures BestBase(g, x, y, x)
  {
    forall c: nat | c < |g| && Anc(g, c, y) && Anc(g, c, x) && Anc(g, x, c) ensures c == x {
      AncOrder(g, c, x);
      AncOrder(g, x, c);
    }
  }

  lemma MergeCommit(g: Graph, g': Graph, x: nat, y: nat)
    requires Ok(g) && Ok(g') && x < |g| && y < |g| && |g'| == |g| + 1 && g <= g' && g'[|g|].parents == [x, y]
    ensures Anc(g', x, |g|) && Anc(g', y, |g|)
  {
    assert g'[|g|].parents[0] == x && g'[|g|].parents[1] == y;
    assert Anc(g', x, x) && Anc(g', y, y);
  }
}
