/** From which states of the workspace a handoff can be finished when nobody else writes. */
module HandoffRecovery {
  import opened Wrappers
  import opened CommitGraph
  import opened Workspace
  import opened HandoffRequest
  import opened HandoffBooks

  predicate InBundle(r: Request, p: string) { exists k :: 0 <= k < |r.files| && r.files[k].path == p }

  ghost predicate Placed(s: Site, branch: string, remote: string) {
    && SessionBranch(branch) && remote != "" && !s.otherLocks && s.head == Some(branch) && branch in s.branches
    && s.fetchUrl == remote && s.pushUrl == remote
  }

  /** Apart from the bundle, the workspace shows exactly `tree`. */
  ghost predicate Tidy(files: map<string, Node>, ignored: set<string>, tree: Tree, r: Request) {
    && (forall p :: p in tree && !InBundle(r, p) ==> p in files && files[p] == Regular(tree[p]))
    && (forall p :: p in files && !InBundle(r, p) && p !in tree ==> p in ignored)
    && (forall p :: p in tree ==> !InBundle(r, p))
  }

  ghost predicate Absent(files: map<string, Node>, r: Request) { forall p :: p in files ==> !InBundle(r, p) }

  /** A write of a bundle file may have been cut short. */
  ghost predicate Partial(files: map<string, Node>, r: Request) {
    forall k :: 0 <= k < |r.files| && r.files[k].path in files ==>
                  files[r.files[k].path].Regular? && files[r.files[k].path].content <= r.files[k].content
  }

  ghost predicate WholeAt(files: map<string, Node>, f: File) { f.path in files && files[f.path] == Regular(f.content) }

  ghost predicate Whole(files: map<string, Node>, r: Request) {
    forall k :: 0 <= k < |r.files| ==> WholeAt(files, r.files[k])
  }

  ghost predicate AbsentOrWhole(files: map<string, Node>, r: Request) {
    forall k :: 0 <= k < |r.files| && r.files[k].path in files ==> WholeAt(files, r.files[k])
  }

  /** The remote session branch can be fast-forwarded from `base`. */
  ghost predicate Behind(g: Graph, upstream: Option<nat>, base: nat)
    requires Ok(g) && base < |g|
  {
    upstream.None? || Anc(g, upstream.value, base)
  }

  ghost predicate Fresh(s: Site, r: Request, branch: string)
    requires SiteOk(s) && branch in s.branches
  {
    var b := s.branches[branch];
    && s.index.tree == s.graph[b].tree && Tidy(s.files, s.ignored, s.graph[b].tree, r) && Absent(s.files, r)
    && Behind(s.graph, s.upstream, b)
  }

  /** Somewhere between the first journal record and the last step. */
  ghost predicate Midway(s: Site, j: Journal, r: Request, branch: string)
    requires SiteOk(s) && branch in s.branches
  {
    && j.request == r && j.base < |s.graph| && Tidy(s.files, s.ignored, s.graph[j.base].tree, r)
    && match j.commit
       case None =>
         && s.branches[branch] == j.base && s.index.tree == s.graph[j.base].tree && Partial(s.files, r)
         && Behind(s.graph, s.upstream, j.base) && !j.pushed
       case Some(c) =>
         && CommitOf(s.graph, j.base, c, r) && Whole(s.files, r)
         && (s.branches[branch] == j.base || s.branches[branch] == c)
         && (s.index.tree == s.graph[j.base].tree || s.index.tree == s.graph[c].tree)
         && (Behind(s.graph, s.upstream, j.base) || s.upstream == Some(c)) && (j.pushed ==> s.upstream == Some(c))
  }

  ghost predicate Resumable(s: Site, journals: map<string, Journal>, r: Request, branch: string, remote: string) {
    && SiteOk(s) && Placed(s, branch, remote)
    && if r.operation in journals then Midway(s, journals[r.operation], r, branch) else Fresh(s, r, branch)
  }

  /** No lock is left behind, and no bundle file is torn. */
  ghost predicate Unharmed(s: Site, r: Request) { s.lock.None? && AbsentOrWhole(s.files, r) }

  /** The end: branch, remote and index are all at the commit, and the workspace shows it. */
  ghost predicate Landed(s: Site, branch: string, sha: nat) {
    && s.head == Some(branch) && branch in s.branches && s.branches[branch] == sha && s.upstream == Some(sha)
    && sha < |s.graph| && s.index.tree == s.graph[sha].tree && Status(s) == {}
  }

  // ---- how the conditions move ----

  lemma BehindGrows(g: Graph, g': Graph, upstream: Option<nat>, base: nat)
    requires Ok(g) && Ok(g') && g <= g' && base < |g| && Behind(g, upstream, base)
    ensures Behind(g', upstream, base)
  {
    if upstream.Some? { AncGrows(g, g', upstream.value, base); }
  }

  lemma BehindCommit(g: Graph, upstream: Option<nat>, base: nat, c: nat, r: Request)
    requires Ok(g) && CommitOf(g, base, c, r) && Behind(g, upstream, base)
    ensures Behind(g, upstream, c)
  {
    if upstream.Some? { assert Anc(g, upstream.value, g[c].parents[0]); }
  }

  /** With HEAD and index at the base, only bundle paths can be dirty. */
  lemma OnlyBundleDirty(s: Site, base: nat, r: Request)
    requires SiteOk(s) && Head(s) == Some(base) && base < |s.graph| && s.index.tree == s.graph[base].tree
    requires Tidy(s.files, s.ignored, s.graph[base].tree, r)
    ensures forall p :: p in Status(s) ==> InBundle(r, p)
    ensures Absent(s.files, r) ==> Status(s) == {}
  {
  }

  /** With HEAD and index at the commit and both files complete, nothing is dirty. */
  lemma CommitClean(s: Site, base: nat, c: nat, r: Request)
    requires SiteOk(s) && Refusal(r) == None && Head(s) == Some(c) && CommitOf(s.graph, base, c, r)
    requires s.index.tree == s.graph[c].tree && Tidy(s.files, s.ignored, s.graph[base].tree, r) && Whole(s.files, r)
    ensures Status(s) == {}
  {
    hide Refusal;
    ExactlyTwo(s.graph[base].tree, r);
    var tree := s.graph[c].tree;
    TwoFiles(r);
    assert WholeAt(s.files, r.files[0]) && WholeAt(s.files, r.files[1]);
    forall p ensures !DirtyAt(s, p) {
      if InBundle(r, p) {
        assert p == r.files[0].path || p == r.files[1].path;
        assert s.files[p] == Regular(tree[p]);
      } else if p in tree {
        assert p in s.graph[base].tree;
      }
    }
  }

  lemma TwoFiles(r: Request)
    requires Refusal(r) == None
    ensures |r.files| == 2 && r.files[0].path != r.files[1].path
    ensures InBundle(r, r.files[0].path) && InBundle(r, r.files[1].path)
  {
    hide HandoffId, FileFits, Canonical;
    assert r.files[0].path == r.files[0].path;
  }

  /** Putting a bundle file in place, complete or cut short. */
  lemma Writing(files: map<string, Node>, ignored: set<string>, r: Request, k: nat, content: string)
    requires Refusal(r) == None && k < 2 && r.files[k].path !in files && content <= r.files[k].content
    ensures var after := files[r.files[k].path := Regular(content)];
            && (forall tree :: Tidy(files, ignored, tree, r) ==> Tidy(after, ignored, tree, r))
            && (Partial(files, r) ==> Partial(after, r))
            && (AbsentOrWhole(files, r) && content == r.files[k].content ==> AbsentOrWhole(after, r))
  {
    hide Refusal;
    TwoFiles(r);
  }

  /** Objects added, the lock taken, written or dropped: none of it matters for resuming. */
  lemma MidwayGrows(a: Site, b: Site, j: Journal, r: Request, branch: string)
    requires SiteOk(a) && SiteOk(b) && branch in a.branches && Midway(a, j, r, branch)
    requires a.graph <= b.graph && b == a.(graph := b.graph, lock := b.lock)
    ensures Midway(b, j, r, branch)
  {
    hide Tidy, Partial, Whole, Anc, Ok;
    hide Behind;
    if Behind(a.graph, a.upstream, j.base) { BehindGrows(a.graph, b.graph, a.upstream, j.base); }
  }

  lemma MidwayCommitted(s: Site, j: Journal, c: nat, r: Request, branch: string)
    requires SiteOk(s) && branch in s.branches && Midway(s, j, r, branch) && j.commit.None?
    requires CommitOf(s.graph, j.base, c, r) && Whole(s.files, r)
    ensures Midway(s, j.(commit := Some(c)), r, branch)
  {
    hide Tidy, Whole, Partial, Behind, CommitOf;
  }

  lemma MidwayMoved(a: Site, b: Site, j: Journal, r: Request, branch: string)
    requires SiteOk(a) && SiteOk(b) && branch in a.branches && Midway(a, j, r, branch) && j.commit.Some?
    requires b == a.(branches := a.branches[branch := j.commit.value])
    ensures Midway(b, j, r, branch)
  {
    hide Tidy, Whole, Partial, Behind, CommitOf;
  }

  lemma MidwayPublished(a: Site, b: Site, j: Journal, r: Request, branch: string)
    requires SiteOk(a) && SiteOk(b) && branch in a.branches && Midway(a, j, r, branch) && j.commit.Some?
    requires b == a.(index := b.index, lock := b.lock) && b.index.tree == a.graph[j.commit.value].tree
    ensures Midway(b, j, r, branch)
  {
    hide Tidy, Whole, Partial, Behind;
  }

  lemma MidwayPushed(a: Site, b: Site, j: Journal, r: Request, branch: string)
    requires SiteOk(a) && SiteOk(b) && branch in a.branches && Midway(a, j, r, branch) && j.commit.Some?
    requires b == a.(upstream := j.commit)
    ensures Midway(b, j, r, branch) && Midway(b, j.(pushed := true), r, branch)
  {
    hide Tidy, Whole, Partial, Behind, CommitOf;
  }

  // ---- the same, for the whole condition ----

  /** What a bundle writer keeps of a quiet workspace. */
  ghost predicate KeptTidy(a: Site, b: Site, r: Request) {
    && b == a.(files := b.files)
    && (forall tree :: Tidy(a.files, a.ignored, tree, r) ==> Tidy(b.files, b.ignored, tree, r))
    && (Partial(a.files, r) ==> Partial(b.files, r))
  }

  lemma ResumeBundle(a: Site, b: Site, journals: map<string, Journal>, r: Request, branch: string, remote: string)
    requires Resumable(a, journals, r, branch, remote) && SiteOk(b) && KeptTidy(a, b, r)
    requires r.operation in journals && journals[r.operation].commit.None?
    ensures Resumable(b, journals, r, branch, remote)
  {
    hide Tidy, Whole, Partial, Behind;
  }

  lemma ResumeGrows(a: Site, b: Site, journals: map<string, Journal>, r: Request, branch: string, remote: string)
    requires Resumable(a, journals, r, branch, remote) && SiteOk(b) && r.operation in journals
    requires a.graph <= b.graph && b == a.(graph := b.graph, lock := b.lock)
    ensures Resumable(b, journals, r, branch, remote)
  {
    hide Midway;
    MidwayGrows(a, b, journals[r.operation], r, branch);
  }

  lemma ResumeCommitted(s: Site, journals: map<string, Journal>, c: nat, r: Request, branch: string, remote: string)
    requires Resumable(s, journals, r, branch, remote) && r.operation in journals && journals[r.operation].commit.None?
    requires CommitOf(s.graph, journals[r.operation].base, c, r) && Whole(s.files, r)
    ensures Resumable(s, journals[r.operation := journals[r.operation].(commit := Some(c))], r, branch, remote)
  {
    hide Midway;
    MidwayCommitted(s, journals[r.operation], c, r, branch);
  }

  lemma ResumeMoved(a: Site, b: Site, journals: map<string, Journal>, r: Request, branch: string, remote: string)
    requires Resumable(a, journals, r, branch, remote) && SiteOk(b)
    requires r.operation in journals && journals[r.operation].commit.Some?
    requires b == a.(branches := a.branches[branch := journals[r.operation].commit.value])
    ensures Resumable(b, journals, r, branch, remote)
  {
    hide Midway;
    MidwayMoved(a, b, journals[r.operation], r, branch);
  }

  lemma ResumePublished(a: Site, b: Site, journals: map<string, Journal>, r: Request, branch: string, remote: string)
    requires Resumable(a, journals, r, branch, remote) && SiteOk(b)
    requires r.operation in journals && journals[r.operation].commit.Some?
    requires b == a.(index := b.index, lock := b.lock)
    requires journals[r.operation].commit.value < |a.graph|
             && b.index.tree == a.graph[journals[r.operation].commit.value].tree
    ensures Resumable(b, journals, r, branch, remote)
  {
    hide Midway;
    MidwayPublished(a, b, journals[r.operation], r, branch);
  }

  lemma ResumePushed(a: Site, b: Site, journals: map<string, Journal>, r: Request, branch: string, remote: string)
    requires Resumable(a, journals, r, branch, remote) && SiteOk(b)
    requires r.operation in journals && journals[r.operation].commit.Some?
             && b == a.(upstream := journals[r.operation].commit)
    ensures Resumable(b, journals, r, branch, remote)
    ensures Resumable(b, journals[r.operation := journals[r.operation].(pushed := true)], r, branch, remote)
  {
    hide Midway;
    MidwayPushed(a, b, journals[r.operation], r, branch);
  }

  /** What a resumable state without a lock answers to the checks of a call. */
  lemma ResumeBound(s: Site, journals: map<string, Journal>, r: Request, branch: string, remote: string)
    requires Resumable(s, journals, r, branch, remote)
    ensures s.lock.None? ==> Bound(s, branch, remote)
    ensures s.head == Some(branch) && branch in s.branches && Head(s) == Some(s.branches[branch])
    ensures r.operation in journals && journals[r.operation].commit.None? ==>
              Head(s) == Some(journals[r.operation].base) && forall p :: p in Status(s) ==> InBundle(r, p)
    ensures r.operation in journals ==>
              Head(s) == Some(journals[r.operation].base) || Head(s) == journals[r.operation].commit
  {
    hide Tidy, Whole, Partial, Behind, CommitOf, Status, SessionBranch;
    if r.operation in journals && journals[r.operation].commit.None? {
      OnlyBundleDirty(s, journals[r.operation].base, r);
    }
  }

  lemma ResumeWhole(s: Site, journals: map<string, Journal>, r: Request, branch: string, remote: string)
    requires Resumable(s, journals, r, branch, remote) && r.operation in journals && journals[r.operation].commit.Some?
    ensures Whole(s.files, r)
  {
    hide Tidy, Whole, Partial, Behind, CommitOf, SessionBranch;
  }

  /** The push is a fast-forward, or the remote is there already. */
  lemma ResumePush(s: Site, journals: map<string, Journal>, r: Request, branch: string, remote: string)
    requires Resumable(s, journals, r, branch, remote) && r.operation in journals && journals[r.operation].commit.Some?
    ensures var c := journals[r.operation].commit.value; c < |s.graph| && Behind(s.graph, s.upstream, c)
    ensures journals[r.operation].pushed ==> s.upstream == journals[r.operation].commit
  {
    hide Tidy, Whole, Partial, SessionBranch;
    var j := journals[r.operation];
    var c := j.commit.value;
    if Behind(s.graph, s.upstream, j.base) { BehindCommit(s.graph, s.upstream, j.base, c, r); }
    assert Anc(s.graph, c, c);
  }

  lemma ResumeLanded(s: Site, journals: map<string, Journal>, r: Request, branch: string, remote: string)
    requires Resumable(s, journals, r, branch, remote) && Refusal(r) == None
    requires r.operation in journals && journals[r.operation].commit.Some?
    requires var c := journals[r.operation].commit.value;
             s.branches[branch] == c && c < |s.graph| && s.index.tree == s.graph[c].tree && s.upstream == Some(c)
    ensures Landed(s, branch, journals[r.operation].commit.value)
  {
    hide Tidy, Whole, Partial, Behind, CommitOf, SessionBranch, Refusal, Status;
    CommitClean(s, journals[r.operation].base, journals[r.operation].commit.value, r);
  }
}
