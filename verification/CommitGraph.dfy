/** Commits and ancestry. A graph is an append-only object store: a commit is its index, its parents come before it. */
module CommitGraph {
  type Tree = map<string, string>

  datatype Commit = Commit(parents: seq<nat>, tree: Tree)

  type Graph = seq<Commit>

  predicate Ok(g: Graph) {
    forall c, k :: 0 <= c < |g| && 0 <= k < |g[c].parents| ==> g[c].parents[k] < c
  }

  /** `a` is `c` or an ancestor of `c`. */
  predicate Anc(g: Graph, a: nat, c: nat)
    requires Ok(g) && c < |g|
    decreases c
  {
    a == c || exists k :: 0 <= k < |g[c].parents| && Anc(g, a, g[c].parents[k])
  }

  /** A best common ancestor, as `git merge-base` answers one: no other common ancestor descends from it. */
  ghost predicate BestBase(g: Graph, b: nat, x: nat, y: nat)
    requires Ok(g) && x < |g| && y < |g|
  {
    Anc(g, b, x) && Anc(g, b, y) && forall c: nat :: c < |g| && Anc(g, c, x) && Anc(g, c, y) && Anc(g, b, c) ==> c == b
  }

  lemma {:induction false} AncOrder(g: Graph, a: nat, c: nat)
    requires Ok(g) && c < |g| && Anc(g, a, c)
    ensures a <= c
    decreases c
  {
    if a != c {
      var k :| 0 <= k < |g[c].parents| && Anc(g, a, g[c].parents[k]);
      AncOrder(g, a, g[c].parents[k]);
    }
  }

  lemma {:induction false} AncTrans(g: Graph, a: nat, b: nat, c: nat)
    requires Ok(g) && b < |g| && c < |g| && Anc(g, a, b) && Anc(g, b, c)
    ensures Anc(g, a, c)
    decreases c
  {
    if b != c {
      var k :| 0 <= k < |g[c].parents| && Anc(g, b, g[c].parents[k]);
      AncTrans(g, a, b, g[c].parents[k]);
    }
  }

  /** New objects change nothing about old ones. */
  lemma {:induction false} AncGrows(g: Graph, g': Graph, a: nat, c: nat)
    requires Ok(g) && Ok(g') && g <= g' && c < |g|
    ensures Anc(g, a, c) <==> Anc(g', a, c)
    decreases c
  {
    assert g'[c] == g[c];
    forall k | 0 <= k < |g[c].parents| ensures Anc(g, a, g[c].parents[k]) <==> Anc(g', a, g[c].parents[k]) {
      AncGrows(g, g', a, g[c].parents[k]);
    }
  }

  /** When one side contains the other, the contained side is the only best common ancestor. */
  lemma BaseOfContained(g: Graph, b: nat, x: nat, y: nat)
    requires Ok(g) && x < |g| && y < |g| && Anc(g, x, y) && BestBase(g, b, x, y)
    ensures b == x
  {
    AncOrder(g, b, x);
    assert Anc(g, x, x);
  }

  function Added(g: Graph, parents: seq<nat>, tree: Tree): (r: Graph)
    requires Ok(g) && forall p :: p in parents ==> p < |g|
    ensures Ok(r)
  {
    var r := g + [Commit(parents, tree)];
    assert forall c :: 0 <= c < |g| ==> r[c] == g[c];
    assert forall k :: 0 <= k < |parents| ==> parents[k] in parents;
    r
  }
}
