/** Checkpoints of a session workspace (ide-agent/src/durable.rs): stage, commit, compare-and-set, push by value, and
    for a clean finish one more look at the workspace between two validations. */
module Checkpoint {
  import opened Outcomes
  import opened Wrappers
  import opened CommitGraph
  import opened Trace
  import opened Workspace

  /** `git add -A`: every regular file that is tracked or not ignored. */
  function Staged(s: Site): Tree {
    map p | p in s.files && s.files[p].Regular? && (p in s.index.tree || p !in s.ignored) :: s.files[p].content
  }

  /** The tree holds exactly the regular files that are tracked or not ignored, with their bytes. */
  ghost predicate AllOf(tree: Tree, s: Site) {
    forall p :: if p in s.files && s.files[p].Regular? && (p in s.index.tree || p !in s.ignored)
                then p in tree && tree[p] == s.files[p].content else p !in tree
  }

  lemma StagedAll(s: Site)
    ensures AllOf(Staged(s), s)
  {
  }

  /** Everything there is was staged: the index was replaced by what `add -A` makes of the workspace at that instant. */
  ghost predicate StageAt(trace: seq<Site>, k: nat) {
    && k + 1 < |trace| && AllOf(trace[k + 1].index.tree, trace[k])
    && trace[k + 1] == trace[k].(index := trace[k + 1].index)
  }

  ghost predicate StagedIn(before: seq<Site>, trace: seq<Site>) {
    exists k: nat :: |before| <= k && StageAt(trace, k)
  }

  lemma StagedGrows(before: seq<Site>, later: seq<Site>, trace: seq<Site>, more: seq<Site>)
    requires |before| <= |later| && trace <= more && StagedIn(later, trace)
    ensures StagedIn(before, more)
  {
    hide AllOf;
    var k: nat :| |later| <= k && StageAt(trace, k);
    assert more[k] == trace[k] && more[k + 1] == trace[k + 1];
    assert StageAt(more, k);
  }

  /** Nothing special is in the way of a clean status: links and the like are ignored. */
  predicate Plain(s: Site) { forall p :: p in s.files ==> s.files[p].Regular? || p in s.ignored }

  /** The remote has nothing that HEAD does not have. */
  ghost predicate Behind(s: Site)
    requires SiteOk(s)
  {
    Head(s).Some? && s.upstream.Some? ==>
      Head(s).value < |s.graph| && Anc(s.graph, s.upstream.value, Head(s).value)
  }

  /** The workspace once everything is committed on `before`. */
  function Committed(s: Site, before: nat): Site
    requires Ok(s.graph) && before < |s.graph|
  {
    s.(index := Index(Staged(s), s.index.stamp + 1), graph := Added(s.graph, [before], Staged(s)))
  }

  /** ... and the branch moved there. */
  function Saved(s: Site, before: nat, branch: string): Site
    requires Ok(s.graph) && before < |s.graph|
  {
    Committed(s, before).(branches := s.branches[branch := |s.graph|])
  }

  /** After that nothing is dirty, and the remote is behind as before. */
  lemma SavedClean(s: Site, before: nat, branch: string)
    requires SiteOk(s) && before < |s.graph| && s.head == Some(branch) && Head(s) == Some(before)
    ensures var t := Saved(s, before, branch);
            && SiteOk(t) && Head(t) == Some(|s.graph|) && t.graph[|s.graph|].tree == Staged(s)
            && (Plain(s) ==> Status(t) == {}) && (Behind(s) <==> Behind(t))
  {
    var t := Saved(s, before, branch);
    forall p ensures Plain(s) ==> !DirtyAt(t, p) {}
    if s.upstream.Some? {
      AncGrows(s.graph, t.graph, s.upstream.value, before);
      OneParent(t.graph, s.upstream.value, |s.graph|, before);
    }
  }

  lemma OneParent(g: Graph, a: nat, c: nat, before: nat)
    requires Ok(g) && c < |g| && before < |g| && g[c].parents == [before] && a != c
    ensures Anc(g, a, c) <==> Anc(g, a, before)
  {
    assert g[c].parents[0] == before;
    if Anc(g, a, c) { var k :| 0 <= k < |g[c].parents| && Anc(g, a, g[c].parents[k]); }
  }

  lemma BoundHead(s: Site, branch: string, remote: string)
    requires SiteOk(s) && Bound(s, branch, remote)
    ensures s.head == Some(branch) && branch in s.branches && Head(s).Some? && Head(s).value < |s.graph|
    ensures Bound(Saved(s, Head(s).value, branch), branch, remote)
  {
    hide SessionBranch;
  }

  /** The workspace holds the commit, as HEAD or below it. */
  ghost predicate Holds(s: Site, c: nat)
    requires SiteOk(s)
  {
    c < |s.graph| && Head(s).Some? && Head(s).value < |s.graph| && Anc(s.graph, c, Head(s).value)
  }

  ghost predicate Kept(s: Site, move: Option<Move>)
    requires SiteOk(s)
  {
    move.Some? ==>
      Holds(s, move.value.to) && move.value.from < |s.graph| && s.graph[move.value.to].parents == [move.value.from]
  }

  lemma KeptDrift(a: Site, b: Site, m: Mode, move: Option<Move>)
    requires SiteOk(a) && Drift(a, b, m) && m.forward && Kept(a, move)
    ensures Kept(b, move)
  {
    if move.Some? {
      AncGrows(a.graph, b.graph, move.value.to, Head(a).value);
      AncTrans(b.graph, move.value.to, Head(a).value, Head(b).value);
    }
  }

  /** Clean means: every file of the commit is there with its content, and everything else is ignored. */
  lemma CleanMeans(s: Site, h: nat)
    requires SiteOk(s) && h < |s.graph| && Head(s) == Some(h) && Status(s) == {}
    ensures forall p :: p in s.graph[h].tree ==> p in s.files && s.files[p] == Regular(s.graph[h].tree[p])
    ensures forall p :: p in s.files && p !in s.graph[h].tree ==> p in s.ignored
  {
    forall p | p in s.graph[h].tree || p in s.files ensures !DirtyAt(s, p) {
      assert p !in Status(s);
    }
  }

  /** If HEAD was `h` before and after, and only moved forward in between, it was `h` in between. */
  lemma Pinned(a: Site, b: Site, c: Site, h: nat)
    requires SiteOk(a) && SiteOk(b) && SiteOk(c) && b.graph <= c.graph
    requires Forward(a, b) && Forward(b, c) && Head(a) == Some(h) && Head(c) == Some(h)
    ensures Head(b) == Some(h)
  {
    AncOrder(b.graph, h, Head(b).value);
    AncOrder(c.graph, Head(b).value, h);
  }

  /** Since `start`: if others only move forward, HEAD descends from what it was, and it holds the call's own move. */
  ghost predicate Since(start: Site, s: Site, m: Mode, move: Option<Move>)
    requires SiteOk(start) && SiteOk(s)
  {
    start.graph <= s.graph && (m.forward ==> Forward(start, s) && Kept(s, move))
  }

  lemma SinceDrift(start: Site, a: Site, b: Site, m: Mode, move: Option<Move>)
    requires SiteOk(start) && SiteOk(a) && Since(start, a, m, move) && Drift(a, b, m)
    ensures SiteOk(b) && Since(start, b, m, move)
  {
    if m.forward {
      KeptDrift(a, b, m, move);
      ForwardTrans(start, a, b);
    }
  }

  lemma ForwardTrans(a: Site, b: Site, c: Site)
    requires SiteOk(a) && SiteOk(b) && SiteOk(c) && Forward(a, b) && Forward(b, c) && b.graph <= c.graph
    ensures Forward(a, c)
  {
    if Head(a).Some? {
      AncGrows(b.graph, c.graph, Head(a).value, Head(b).value);
      AncTrans(c.graph, Head(a).value, Head(b).value, Head(c).value);
    }
  }

  /** An effect of the helper that leaves HEAD and the branches alone. */
  lemma SinceQuiet(start: Site, a: Site, b: Site, m: Mode, move: Option<Move>)
    requires SiteOk(start) && SiteOk(a) && Since(start, a, m, move) && SiteOk(b) && a.graph <= b.graph
    requires b.head == a.head && b.detached == a.detached && b.branches == a.branches
    ensures Since(start, b, m, move)
  {
    if m.forward {
      if Head(a).Some? { assert Anc(b.graph, Head(a).value, Head(a).value); }
      ForwardTrans(start, a, b);
      if move.Some? { AncGrows(a.graph, b.graph, move.value.to, Head(a).value); }
    }
  }

  lemma SinceNow(s: Site, m: Mode)
    requires SiteOk(s)
    ensures Since(s, s, m, None)
  {
  }

  method Tick(w: Checkout, m: Mode, code: string, ghost start: Site, ghost move: Option<Move>) returns (o: Outcome<()>)
    requires SiteOk(w.site) && SiteOk(start) && Since(start, w.site, m, move)
    modifies w`site, w`trace, w`failures
    ensures o.Fine? ==> w.failures == old(w.failures)
    ensures SiteOk(w.site) && old(w.site.graph) <= w.site.graph && Since(start, w.site, m, move)
    ensures Drift(old(w.site), w.site, m) && (!m.outside ==> w.site == old(w.site)) && (!m.faults ==> o.Fine?)
    ensures w.trace == old(w.trace) + [old(w.site), w.site]
  {
    hide Drift, Since;
    ghost var s := w.site;
    o := w.Step(m, code);
    SinceDrift(start, s, w.site, m, move);
  }

  method Look(w: Checkout, m: Mode, ghost start: Site, ghost move: Option<Move>) returns (o: Outcome<nat>)
    requires SiteOk(w.site) && SiteOk(start) && Since(start, w.site, m, move)
    modifies w`site, w`trace, w`failures
    ensures o.Fine? ==> w.failures == old(w.failures)
    ensures SiteOk(w.site) && old(w.site.graph) <= w.site.graph && Since(start, w.site, m, move)
    ensures Drift(old(w.site), w.site, m)
    ensures o.Fine? ==> Head(w.site) == Some(o.value) && o.value < |w.site.graph|
    ensures o.Fine? && m.forward ==> w.site.head == Some(w.branch)
    ensures !m.outside ==> w.site == old(w.site)
    ensures !m.outside && o.Fine? ==> Bound(w.site, w.branch, w.remote)
    ensures !m.outside && !m.faults && Bound(w.site, w.branch, w.remote) ==> o.Fine?
    ensures old(w.trace) <= w.trace
    ensures o.Fine? ==> |old(w.trace)| < |w.trace| && w.trace[|old(w.trace)|] == old(w.site)
  {
    hide Drift, Since;
    ghost var s := w.site;
    o := w.Validate(m);
    SinceDrift(start, s, w.site, m, move);
  }

  /** `git add -A`, with HEAD unchanged afterwards. */
  method Stage(w: Checkout, before: nat, m: Mode, ghost start: Site) returns (o: Outcome<()>)
    requires SiteOk(w.site) && SiteOk(start) && Since(start, w.site, m, None) && before < |w.site.graph|
    modifies w`site, w`trace, w`failures
    ensures o.Fine? ==> w.failures == old(w.failures)
    ensures SiteOk(w.site) && old(w.site.graph) <= w.site.graph && Since(start, w.site, m, None)
    ensures old(w.trace) <= w.trace
    ensures o.Fine? ==> Head(w.site) == Some(before) && StagedIn(old(w.trace), w.trace)
    ensures !m.outside && o.Fine? ==>
              w.site == old(w.site).(index := Index(Staged(old(w.site)), old(w.site).index.stamp + 1))
    ensures !m.outside && !m.faults && old(Bound(w.site, w.branch, w.remote) && Head(w.site) == Some(before)) ==>
              o.Fine?
  {
    hide Drift, Since, Staged, Status, AllOf;
    var _ :- Tick(w, m, "git", start, None);
    ghost var s, t := w.site, w.trace;
    w.site := w.site.(index := Index(Staged(w.site), w.site.index.stamp + 1));
    SinceQuiet(start, s, w.site, m, None);
    StagedAll(s);
    ghost var s' := w.site;
    var again :- Look(w, m, start, None);
    if again != before { return Error("changed"); }
    assert w.trace[|t| - 1] == s && w.trace[|t|] == s' && StageAt(w.trace, |t| - 1);
    return Fine(());
  }

  /** Stage everything, and write a commit of the index on the validated head. */
  method Commit(w: Checkout, before: nat, m: Mode, ghost start: Site) returns (o: Outcome<nat>)
    requires SiteOk(w.site) && SiteOk(start) && Since(start, w.site, m, None) && before < |w.site.graph|
    modifies w`site, w`trace, w`failures
    ensures o.Fine? ==> w.failures == old(w.failures)
    ensures SiteOk(w.site) && old(w.site.graph) <= w.site.graph && Since(start, w.site, m, None)
    ensures old(w.trace) <= w.trace
    ensures o.Fine? ==> o.value < |w.site.graph| && w.site.graph[o.value].parents == [before]
                        && Written(old(w.trace), w.trace, w.site.graph[o.value].tree) && Head(w.site) == Some(before)
    ensures o.Fine? && m.forward ==> w.site.head == Some(w.branch)
    ensures !m.outside && o.Fine? ==> w.site == Committed(old(w.site), before) && o.value == |old(w.site).graph|
    ensures !m.outside && !m.faults && old(Bound(w.site, w.branch, w.remote) && Head(w.site) == Some(before)) ==>
              o.Fine?
  {
    hide Drift, Since, Anc, Staged, Status, StagedIn, Saw, SessionBranch, Written, Shows;
    var _ :- Stage(w, before, m, start);
    ghost var t1 := w.trace;
    var tree :- WriteTree(w, m, start);
    ghost var t2 := w.trace;
    var c :- CommitTree(w, before, tree, m, start);
    WrittenHere(old(w.trace), t1, t2, w.trace, tree);
    return Fine(c);
  }

  /** `git write-tree`. */
  method WriteTree(w: Checkout, m: Mode, ghost start: Site) returns (o: Outcome<Tree>)
    requires SiteOk(w.site) && SiteOk(start) && Since(start, w.site, m, None)
    modifies w`site, w`trace, w`failures
    ensures o.Fine? ==> w.failures == old(w.failures)
    ensures SiteOk(w.site) && old(w.site.graph) <= w.site.graph && Since(start, w.site, m, None)
    ensures old(w.trace) <= w.trace && (o.Fine? ==> Saw(old(w.trace), w.trace, IndexTree(o.value)))
    ensures !m.outside ==> w.site == old(w.site) && (o.Fine? ==> o.value == w.site.index.tree)
    ensures !m.faults ==> o.Fine?
  {
    hide Drift, Since, Saw;
    var _ :- Tick(w, m, "git", start, None);
    SeesTree(old(w.trace), w.trace, w.site.index.tree);
    return Fine(w.site.index.tree);
  }

  /** `git commit-tree` on the validated head, with HEAD unchanged afterwards. */
  method CommitTree(w: Checkout, before: nat, tree: Tree, m: Mode, ghost start: Site) returns (o: Outcome<nat>)
    requires SiteOk(w.site) && SiteOk(start) && Since(start, w.site, m, None) && before < |w.site.graph|
    modifies w`site, w`trace, w`failures
    ensures o.Fine? ==> w.failures == old(w.failures)
    ensures SiteOk(w.site) && old(w.site.graph) <= w.site.graph && Since(start, w.site, m, None)
    ensures old(w.trace) <= w.trace
    ensures o.Fine? ==> o.value < |w.site.graph| && w.site.graph[o.value] == CommitGraph.Commit([before], tree)
                        && Head(w.site) == Some(before)
    ensures o.Fine? && m.forward ==> w.site.head == Some(w.branch)
    ensures !m.outside && o.Fine? ==>
              && w.site == old(w.site).(graph := Added(old(w.site.graph), [before], tree))
              && o.value == |old(w.site).graph|
    ensures !m.outside && !m.faults && old(Bound(w.site, w.branch, w.remote) && Head(w.site) == Some(before)) ==>
              o.Fine?
  {
    hide Drift, Since, Anc, SessionBranch;
    var _ :- Tick(w, m, "git", start, None);
    var c := |w.site.graph|;
    ghost var s := w.site;
    w.site := w.site.(graph := Added(w.site.graph, [before], tree));
    SinceQuiet(start, s, w.site, m, None);
    var again :- Look(w, m, start, None);
    if again != before { return Error("changed"); }
    return Fine(c);
  }

  /** Everything was staged, and later the tree was what the index held. */
  ghost predicate Written(before: seq<Site>, trace: seq<Site>, tree: Tree) {
    StagedIn(before, trace) && Saw(before, trace, IndexTree(tree))
  }

  lemma WrittenHere(before: seq<Site>, t1: seq<Site>, t2: seq<Site>, trace: seq<Site>, tree: Tree)
    requires before <= t1 <= t2 <= trace && StagedIn(before, t1) && Saw(t1, t2, IndexTree(tree))
    ensures Written(before, trace, tree)
  {
    hide Saw, StagedIn;
    StagedGrows(before, before, t1, trace);
    SawGrows(before, t1, t2, trace, IndexTree(tree));
  }

  lemma WrittenGrows(before: seq<Site>, later: seq<Site>, trace: seq<Site>, more: seq<Site>, tree: Tree)
    requires |before| <= |later| && trace <= more && Written(later, trace, tree)
    ensures Written(before, more, tree)
  {
    hide Saw, StagedIn;
    StagedGrows(before, later, trace, more);
    SawGrows(before, later, trace, more, IndexTree(tree));
  }

  /** `update-ref branch commit before`: the move is the branch's own, from whatever it was. */
  method Save(w: Checkout, before: nat, m: Mode, ghost start: Site) returns (o: Outcome<()>, ghost move: Option<Move>)
    requires SiteOk(w.site) && SiteOk(start) && Since(start, w.site, m, None) && before < |w.site.graph|
    modifies w`site, w`trace, w`failures
    ensures o.Fine? ==> w.failures == old(w.failures)
    ensures SiteOk(w.site) && old(w.site.graph) <= w.site.graph && Since(start, w.site, m, move)
    ensures old(w.trace) <= w.trace
    ensures move.Some? ==> move.value.from == before && move.value.to < |w.site.graph|
                           && w.site.graph[move.value.to].parents == [before]
                           && Swapped(old(w.trace), w.trace, w.branch, move.value)
                           && Written(old(w.trace), w.trace, w.site.graph[move.value.to].tree)
    ensures o.Fine? ==> move.Some?
    ensures !m.outside && move.Some? ==>
              w.site == Saved(old(w.site), before, w.branch) && move == Some(Move(before, |old(w.site).graph|))
    ensures !m.outside && !m.faults && old(Bound(w.site, w.branch, w.remote) && Head(w.site) == Some(before)) ==>
              o.Fine?
  {
    hide Drift, Anc, Since, Written, Staged;
    move := None;
    var committed := Commit(w, before, m, start);
    if !committed.Fine? { o := committed.PropagateFailure(); return; }
    var c := committed.value;
    ghost var s0, t0 := w.site, w.trace;
    ghost var tree := w.site.graph[c].tree;
    o := Tick(w, m, "git", start, None);
    if !o.Fine? { return; }
    if w.branch !in w.site.branches || w.site.branches[w.branch] != before { o := Error("git"); return; }
    ghost var s1 := w.site;
    move := Some(Move(w.site.branches[w.branch], c));
    w.site := w.site.(branches := w.site.branches[w.branch := c]);
    Advanced(start, s0, s1, w.site, w.branch, before, c, m);
    ghost var s2 := w.site;
    o := Tick(w, m, "git", start, move);
    assert w.trace == t0 + [s0, s1, s2, w.site];
    assert SwapAt(w.trace, |t0| + 1, w.branch, move.value);
    assert w.site.graph[c].tree == tree;
    WrittenGrows(old(w.trace), old(w.trace), t0, w.trace, tree);
  }

  lemma Advanced(start: Site, s0: Site, s1: Site, s2: Site, branch: string, before: nat, c: nat, m: Mode)
    requires SiteOk(start) && SiteOk(s0) && SiteOk(s1) && Drift(s0, s1, m) && (m.forward ==> s0.head == Some(branch))
    requires Since(start, s1, m, None)
    requires branch in s1.branches && s1.branches[branch] == before && c < |s1.graph| && s1.graph[c].parents == [before]
    requires s2 == s1.(branches := s1.branches[branch := c])
    ensures SiteOk(s2) && Since(start, s2, m, Some(Move(before, c)))
  {
    if m.forward {
      assert s1.graph[c].parents[0] == before && Anc(s1.graph, before, before) && Anc(s1.graph, before, c);
      ForwardTrans(start, s1, s2);
    }
  }

  lemma JustNow(before: seq<Site>, earlier: seq<Site>, a: Site, b: Site)
    requires before <= earlier
    ensures During(before, earlier + [a, b], a) && During(before, earlier + [a, b], b)
  {
    var t := (earlier + [a, b])[|before|..];
    assert t[|t| - 1] == b && t[|t| - 2] == a;
  }

  /** `checkpoint_mode`. The branch move and the push show in the trace of this call; `lookedAt` is the workspace that
      the last status saw. */
  method CheckpointMode(w: Checkout, commit: bool, clean: bool, m: Mode)
    returns (o: Outcome<nat>, ghost move: Option<Move>, ghost pushed: Option<nat>, ghost lookedAt: Option<Site>)
    requires SiteOk(w.site)
    modifies w`site, w`trace, w`failures
    ensures o.Fine? ==> w.failures == old(w.failures)
    ensures SiteOk(w.site) && old(w.site.graph) <= w.site.graph
    ensures m.forward ==> Forward(old(w.site), w.site)
    ensures move.Some? ==>
              commit && Extends(w.site.graph, move.value) && Swapped(old(w.trace), w.trace, w.branch, move.value)
    ensures m.forward && move.Some? ==> Holds(w.site, move.value.to)
    ensures pushed.Some? ==> PushedIn(old(w.trace), w.trace, pushed.value)
    ensures o.Fine? ==> pushed == Some(o.value)
    ensures o.Fine? && clean ==> lookedAt.Some? && During(old(w.trace), w.trace, lookedAt.value)
                                 && Status(lookedAt.value) == {}
    ensures o.Fine? && clean && m.forward ==> SiteOk(lookedAt.value) && Head(lookedAt.value) == Some(o.value)
    ensures o.Fine? && m.forward && move.Some? ==> o.value < |w.site.graph| && Anc(w.site.graph, move.value.to, o.value)
    // the commit is what was staged within the call
    ensures move.Some? ==> Written(old(w.trace), w.trace, w.site.graph[move.value.to].tree)
    // undisturbed
    ensures !m.outside && o.Fine? ==> Checkpointed(old(w.site), w.site, commit, w.branch, move, o.value)
    ensures !m.outside && !m.faults ==>
              (!clean || old(Status(w.site) == {} || (commit && Plain(w.site))) ==>
                (o.Fine? <==> old(Bound(w.site, w.branch, w.remote) && Behind(w.site))))
  {
    hide Drift, Forward, Anc, Status, During, Since, Swapped, PushedIn, Written, Saved, Plain, Behind;
    move, pushed, lookedAt := None, None, None;
    o := *;
    ghost var start := w.site;
    SinceNow(start, m);
    var before: nat;
    o, before, move := Secure(w, commit, m, start);
    ghost var t1, s1 := w.trace, w.site;
    if !m.outside && o.Fine? { SecuredMeans(start, s1, commit, w.branch, w.remote, move); }
    if o.Fine? {
      o, pushed, lookedAt := Publish(w, clean, m, start, move);
      if pushed.Some? { PushedGrows(old(w.trace), t1, w.trace, w.trace, pushed.value); }
      if o.Fine? && clean { DuringGrows(old(w.trace), t1, w.trace, w.trace, lookedAt.value); }
    }
    if move.Some? {
      SwappedGrows(old(w.trace), old(w.trace), t1, w.trace, w.branch, move.value);
      WrittenGrows(old(w.trace), old(w.trace), t1, w.trace, s1.graph[move.value.to].tree);
    }
    SinceMeans(start, w.site, m, move);
  }

  /** What an undisturbed call leaves: the commit of everything, if anything was dirty, as branch, index and remote; the
      files are as they were. */
  ghost predicate Checkpointed(a: Site, b: Site, commit: bool, branch: string, move: Option<Move>, sha: nat) {
    && SiteOk(a) && Head(b) == Some(sha) && b.upstream == Some(sha) && sha < |b.graph| && b.files == a.files
    && (if commit && Status(a) != {} then
          && move.Some? && Head(a) == Some(move.value.from) && sha == move.value.to
          && b.branches == a.branches[branch := sha]
          && b.graph == a.graph + [CommitGraph.Commit([move.value.from], b.index.tree)] && AllOf(b.graph[sha].tree, a)
        else move.None? && b == a.(upstream := Some(sha)))
  }

  lemma SecuredMeans(a: Site, b: Site, commit: bool, branch: string, remote: string, move: Option<Move>)
    requires SiteOk(a) && Bound(a, branch, remote) && Secured(a, b, commit, branch, move)
    ensures SiteOk(b) && Bound(b, branch, remote) && (Behind(a) <==> Behind(b))
    ensures commit && Plain(a) ==> Status(b) == {}
    ensures Head(b).Some? && Head(b).value < |b.graph| ==>
              Checkpointed(a, b.(upstream := Head(b)), commit, branch, move, Head(b).value)
  {
    hide Status, Plain, Behind, Bound, SessionBranch;
    if commit && Status(a) != {} {
      BoundHead(a, branch, remote);
      SavedClean(a, Head(a).value, branch);
      StagedAll(a);
    }
  }

  /** The commit has one parent, the old value of the branch. */
  predicate Extends(g: Graph, move: Move) { move.to < |g| && g[move.to].parents == [move.from] }

  lemma SinceMeans(start: Site, s: Site, m: Mode, move: Option<Move>)
    requires SiteOk(start) && SiteOk(s) && Since(start, s, m, move)
    ensures m.forward ==> Forward(start, s) && (move.Some? ==> Holds(s, move.value.to))
  {
  }

  /** Up to the branch move: nothing, or a commit of everything on the validated head. */
  method Secure(w: Checkout, commit: bool, m: Mode, ghost start: Site)
    returns (o: Outcome<nat>, before: nat, ghost move: Option<Move>)
    requires SiteOk(w.site) && SiteOk(start) && Since(start, w.site, m, None)
    modifies w`site, w`trace, w`failures
    ensures o.Fine? ==> w.failures == old(w.failures)
    ensures SiteOk(w.site) && old(w.site.graph) <= w.site.graph && Since(start, w.site, m, move)
            && old(w.trace) <= w.trace
    ensures move.Some? ==>
              commit && Extends(w.site.graph, move.value) && Swapped(old(w.trace), w.trace, w.branch, move.value)
              && Written(old(w.trace), w.trace, w.site.graph[move.value.to].tree)
    ensures !m.outside && (o.Fine? || move.Some?) ==> Secured(old(w.site), w.site, commit, w.branch, move)
    ensures !m.outside && !m.faults && old(Bound(w.site, w.branch, w.remote)) ==> o.Fine?
    ensures !m.outside && o.Fine? ==> old(Bound(w.site, w.branch, w.remote))
  {
    hide Drift, Status, Since, Swapped, Written, Saved;
    move, before := None, 0;
    o := *;
    var locked := Tick(w, m, "busy", start, None);
    if !locked.Fine? { o := locked.PropagateFailure(); return; }
    o := Look(w, m, start, None);
    if !o.Fine? { return; }
    before := o.value;
    if commit {
      var step := Tick(w, m, "git", start, None);
      if !step.Fine? { o := step.PropagateFailure(); return; }
      if Status(w.site) != {} {
        ghost var t0 := w.trace;
        step, move := Save(w, before, m, start);
        if move.Some? {
          SwappedGrows(old(w.trace), t0, w.trace, w.trace, w.branch, move.value);
          WrittenGrows(old(w.trace), t0, w.trace, w.trace, w.site.graph[move.value.to].tree);
        }
        if !step.Fine? { o := step.PropagateFailure(); return; }
      }
    }
  }

  /** What the first half of an undisturbed call makes of the workspace: nothing if nothing is dirty, otherwise the
      commit of everything. */
  ghost predicate Secured(a: Site, b: Site, commit: bool, branch: string, move: Option<Move>)
    requires SiteOk(a)
  {
    if commit && Status(a) != {} then
      && Head(a).Some? && Head(a).value < |a.graph| && move == Some(Move(Head(a).value, |a.graph|))
      && b == Saved(a, Head(a).value, branch)
    else move == None && b == a
  }

  /** The push of the validated head, and the looks after it. */
  method Publish(w: Checkout, clean: bool, m: Mode, ghost start: Site, ghost move: Option<Move>)
    returns (o: Outcome<nat>, ghost pushed: Option<nat>, ghost lookedAt: Option<Site>)
    requires SiteOk(w.site) && SiteOk(start) && Since(start, w.site, m, move)
    modifies w`site, w`trace, w`failures
    ensures o.Fine? ==> w.failures == old(w.failures)
    ensures SiteOk(w.site) && old(w.site.graph) <= w.site.graph && Since(start, w.site, m, move)
            && old(w.trace) <= w.trace
    ensures pushed.Some? ==> PushedIn(old(w.trace), w.trace, pushed.value)
    ensures o.Fine? ==> pushed == Some(o.value)
    ensures o.Fine? && clean ==> lookedAt.Some? && During(old(w.trace), w.trace, lookedAt.value)
                                 && Status(lookedAt.value) == {}
    ensures o.Fine? && clean && m.forward ==> SiteOk(lookedAt.value) && Head(lookedAt.value) == Some(o.value)
    ensures o.Fine? ==> Head(w.site) == Some(o.value) && o.value < |w.site.graph|
    ensures o.Fine? && m.forward && move.Some? ==> Anc(w.site.graph, move.value.to, o.value)
    ensures !m.outside && o.Fine? ==> w.site == old(w.site).(upstream := Some(o.value)) && old(Behind(w.site))
    ensures !m.outside && !m.faults && old(Bound(w.site, w.branch, w.remote) && Behind(w.site))
            && (clean ==> old(Status(w.site)) == {}) ==>
              o.Fine?
  {
    hide Drift, Forward, Anc, Status, Since, During, PushedIn;
    pushed, lookedAt := None, None;
    o := Look(w, m, start, move);
    if !o.Fine? { return; }
    var head := o.value;
    ghost var t0 := w.trace;
    var step;
    step, pushed := PushHead(w, head, m, start, move);
    ghost var t1 := w.trace;
    if pushed.Some? { PushedGrows(old(w.trace), t0, t1, w.trace, head); }
    if !step.Fine? { o := step.PropagateFailure(); return; }
    o, lookedAt := Recheck(w, head, clean, m, start, move);
    PushedGrows(old(w.trace), old(w.trace), t1, w.trace, head);
    if o.Fine? && clean { DuringGrows(old(w.trace), t1, w.trace, w.trace, lookedAt.value); }
    if o.Fine? { SinceMeans(start, w.site, m, move); }
  }

  /** `git push remote head:branch`, a fast-forward or nothing. */
  method PushHead(w: Checkout, head: nat, m: Mode, ghost start: Site, ghost move: Option<Move>)
    returns (o: Outcome<()>, ghost pushed: Option<nat>)
    requires SiteOk(w.site) && SiteOk(start) && Since(start, w.site, m, move) && head < |w.site.graph|
    modifies w`site, w`trace, w`failures
    ensures o.Fine? ==> w.failures == old(w.failures)
    ensures SiteOk(w.site) && old(w.site.graph) <= w.site.graph && Since(start, w.site, m, move)
            && old(w.trace) <= w.trace
    ensures pushed.Some? ==> pushed.value == head && PushedIn(old(w.trace), w.trace, head)
    ensures o.Fine? ==> pushed == Some(head)
    ensures !m.outside && o.Fine? ==>
              w.site == old(w.site).(upstream := Some(head)) && old(Extendable(w.site, head))
    ensures !m.outside && !m.faults && old(Extendable(w.site, head)) ==> o.Fine?
  {
    hide Drift, Anc, Since, PushedIn;
    pushed := None;
    ghost var t0, s0 := w.trace, w.site;
    o := Tick(w, m, "git", start, move);
    if !o.Fine? { return; }
    if w.site.upstream.Some? && !Anc(w.site.graph, w.site.upstream.value, head) { o := Error("git"); return; }
    ghost var s1 := w.site;
    w.site := w.site.(upstream := Some(head));
    SinceQuiet(start, s1, w.site, m, move);
    pushed := Some(head);
    ghost var s2 := w.site;
    o := Tick(w, m, "git", start, move);
    PushesHere(old(w.trace), t0, s0, s1, s2, w.site, head, w.trace);
  }

  ghost predicate Extendable(s: Site, head: nat)
    requires SiteOk(s) && head < |s.graph|
  {
    s.upstream.Some? ==> Anc(s.graph, s.upstream.value, head)
  }

  lemma PushesHere(before: seq<Site>, t0: seq<Site>, s0: Site, s1: Site, s2: Site, s3: Site, head: nat,
                   trace: seq<Site>)
    requires before <= t0 && trace == t0 + [s0, s1, s2, s3] && SiteOk(s1) && head < |s1.graph|
    requires s2 == s1.(upstream := Some(head)) && (s1.upstream.Some? ==> Anc(s1.graph, s1.upstream.value, head))
    ensures PushedIn(before, trace, head)
  {
    assert trace[|t0| + 1] == s1 && trace[|t0| + 2] == s2;
    assert PushAt(trace, |t0| + 1, head);
  }

  /** The looks after the push. */
  method Recheck(w: Checkout, head: nat, clean: bool, m: Mode, ghost start: Site, ghost move: Option<Move>)
    returns (o: Outcome<nat>, ghost lookedAt: Option<Site>)
    requires SiteOk(w.site) && SiteOk(start) && Since(start, w.site, m, move)
    modifies w`site, w`trace, w`failures
    ensures o.Fine? ==> w.failures == old(w.failures)
    ensures SiteOk(w.site) && old(w.site.graph) <= w.site.graph && Since(start, w.site, m, move)
            && old(w.trace) <= w.trace
    ensures o.Fine? ==> o.value == head && Head(w.site) == Some(head) && head < |w.site.graph|
    ensures o.Fine? && clean ==> lookedAt.Some? && During(old(w.trace), w.trace, lookedAt.value)
                                 && Status(lookedAt.value) == {}
    ensures o.Fine? && clean && m.forward ==> SiteOk(lookedAt.value) && Head(lookedAt.value) == Some(head)
    ensures !m.outside ==> w.site == old(w.site)
    ensures !m.outside && !m.faults && old(Bound(w.site, w.branch, w.remote) && Head(w.site) == Some(head))
            && (clean ==> old(Status(w.site)) == {}) ==>
              o.Fine?
  {
    hide Drift, Forward, Anc, Status, Since, During;
    lookedAt := None;
    o := Look(w, m, start, move);
    if !o.Fine? { return; }
    if o.value != head { o := Error("changed"); return; }
    if clean {
      ghost var a, t0 := w.site, w.trace;
      var step := Tick(w, m, "git", start, move);
      JustNow(old(w.trace), t0, a, w.site);
      if !step.Fine? { o := step.PropagateFailure(); return; }
      if Status(w.site) != {} { o := Error("dirty"); return; }
      ghost var b := w.site;
      lookedAt := Some(b);
      ghost var t1 := w.trace;
      o := Look(w, m, start, move);
      DuringGrows(old(w.trace), old(w.trace), t1, w.trace, b);
      if !o.Fine? { return; }
      if o.value != head { o := Error("changed"); return; }
      if m.forward { PinnedDrift(a, b, w.site, m, head); }
    }
  }

  lemma PinnedDrift(a: Site, b: Site, c: Site, m: Mode, h: nat)
    requires SiteOk(a) && SiteOk(b) && Drift(a, b, m) && Drift(b, c, m) && m.forward
    requires Head(a) == Some(h) && Head(c) == Some(h)
    ensures Head(b) == Some(h)
  {
    Pinned(a, b, c, h);
  }

  /** `checkpoint_clean`: with other writers only moving the branch forward, a returned commit was on the remote, and
      at one instant it was HEAD while every file that is not ignored equalled its tree. */
  method CheckpointClean(w: Checkout, m: Mode)
    returns (o: Outcome<nat>, ghost move: Option<Move>, ghost pushed: Option<nat>, ghost lookedAt: Option<Site>)
    requires SiteOk(w.site)
    modifies w`site, w`trace, w`failures
    ensures o.Fine? ==> w.failures == old(w.failures)
    ensures SiteOk(w.site) && old(w.site.graph) <= w.site.graph
    ensures m.forward ==> Forward(old(w.site), w.site)
    ensures move.Some? ==> Extends(w.site.graph, move.value) && Swapped(old(w.trace), w.trace, w.branch, move.value)
    ensures m.forward && move.Some? ==> Holds(w.site, move.value.to)
    ensures pushed.Some? ==> PushedIn(old(w.trace), w.trace, pushed.value)
    ensures o.Fine? ==> pushed == Some(o.value)
    ensures o.Fine? && m.forward ==> lookedAt.Some? && During(old(w.trace), w.trace, lookedAt.value)
                                     && ShowsExactly(lookedAt.value, o.value)
    ensures !m.outside && o.Fine? ==> Checkpointed(old(w.site), w.site, true, w.branch, move, o.value)
    ensures !m.outside && !m.faults && old(Plain(w.site)) ==>
              (o.Fine? <==> old(Bound(w.site, w.branch, w.remote) && Behind(w.site)))
  {
    hide Status, Anc, Forward, During, Swapped, PushedIn, Written, Checkpointed, Plain, Behind, SessionBranch;
    o, move, pushed, lookedAt := CheckpointMode(w, true, true, m);
    if o.Fine? && m.forward { Shown(lookedAt.value, o.value); }
  }

  /** HEAD is `h`, its files are all there unchanged, and whatever else is there is ignored. */
  ghost predicate ShowsExactly(s: Site, h: nat) {
    && SiteOk(s) && Head(s) == Some(h) && h < |s.graph|
    && (forall p :: p in s.graph[h].tree ==> p in s.files && s.files[p] == Regular(s.graph[h].tree[p]))
    && (forall p :: p in s.files && p !in s.graph[h].tree ==> p in s.ignored)
  }

  lemma Shown(s: Site, h: nat)
    requires SiteOk(s) && Head(s) == Some(h) && Status(s) == {}
    ensures ShowsExactly(s, h)
  {
    HeadInGraph(s);
    CleanMeans(s, h);
  }

  lemma HeadInGraph(s: Site)
    requires SiteOk(s) && Head(s).Some?
    ensures Head(s).value < |s.graph|
  {
  }
}
