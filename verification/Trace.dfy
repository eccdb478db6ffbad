/** What the trace of a workspace says: which state was seen during a call, and which neighbours a step of the helper
    turned into each other. */
module Trace {
  import opened Wrappers
  import opened CommitGraph
  import opened Workspace

  /** One look at the workspace. */
  datatype Sight =
    | NothingDirty
    | DirtyOnly(paths: set<string>)
    | FileFree(path: string)
    | FileWhole(file: File)
    | HeadAt(sha: nat)
    | OnBranch(branch: string)
    | IndexTree(tree: Tree)
    | IndexIs(index: Index)

  predicate Shows(s: Site, x: Sight) {
    match x
    case NothingDirty => Status(s) == {}
    case DirtyOnly(paths) => Status(s) <= paths
    case FileFree(path) => path !in s.files
    case FileWhole(f) => f.path in s.files && s.files[f.path] == Regular(f.content)
    case HeadAt(sha) => Head(s) == Some(sha)
    case OnBranch(branch) => s.head == Some(branch)
    case IndexTree(tree) => s.index.tree == tree
    case IndexIs(index) => s.index == index
  }

  /** The workspace showed it at some step since `before`. */
  ghost predicate Saw(before: seq<Site>, trace: seq<Site>, x: Sight) {
    exists k: nat :: |before| <= k < |trace| && Shows(trace[k], x)
  }

  /** ... and at some step it did not. */
  ghost predicate SawNot(before: seq<Site>, trace: seq<Site>, x: Sight) {
    exists k: nat :: |before| <= k < |trace| && !Shows(trace[k], x)
  }

  lemma SeesLast(before: seq<Site>, trace: seq<Site>, x: Sight)
    requires |before| < |trace|
    ensures if Shows(trace[|trace| - 1], x) then Saw(before, trace, x) else SawNot(before, trace, x)
  {
    hide Shows;
  }

  lemma SeesClean(before: seq<Site>, trace: seq<Site>, dirty: bool)
    requires |before| < |trace| && dirty == (Status(trace[|trace| - 1]) != {})
    ensures if dirty then SawNot(before, trace, NothingDirty) else Saw(before, trace, NothingDirty)
  {
    SeesLast(before, trace, NothingDirty);
  }

  lemma SeesDirtyOnly(before: seq<Site>, trace: seq<Site>, paths: set<string>)
    requires |before| < |trace| && Status(trace[|trace| - 1]) <= paths
    ensures Saw(before, trace, DirtyOnly(paths))
  {
    SeesLast(before, trace, DirtyOnly(paths));
  }

  lemma SeesFree(before: seq<Site>, trace: seq<Site>, path: string)
    requires |before| < |trace| && path !in trace[|trace| - 1].files
    ensures Saw(before, trace, FileFree(path))
  {
    SeesLast(before, trace, FileFree(path));
  }

  lemma SeesFile(before: seq<Site>, trace: seq<Site>, f: File)
    requires |before| < |trace|
    ensures var files := trace[|trace| - 1].files;
            if f.path in files && files[f.path] == Regular(f.content) then Saw(before, trace, FileWhole(f))
            else SawNot(before, trace, FileWhole(f))
  {
    SeesLast(before, trace, FileWhole(f));
  }

  lemma SeesHead(before: seq<Site>, trace: seq<Site>, sha: nat)
    requires |before| < |trace|
    ensures if Head(trace[|trace| - 1]) == Some(sha) then Saw(before, trace, HeadAt(sha))
            else SawNot(before, trace, HeadAt(sha))
  {
    SeesLast(before, trace, HeadAt(sha));
  }

  lemma SeesBranch(before: seq<Site>, trace: seq<Site>, branch: string)
    requires |before| < |trace| && trace[|trace| - 1].head == Some(branch)
    ensures Saw(before, trace, OnBranch(branch))
  {
    SeesLast(before, trace, OnBranch(branch));
  }

  lemma SeesTree(before: seq<Site>, trace: seq<Site>, tree: Tree)
    requires |before| < |trace| && trace[|trace| - 1].index.tree == tree
    ensures Saw(before, trace, IndexTree(tree))
  {
    SeesLast(before, trace, IndexTree(tree));
  }

  lemma SeesIndex(before: seq<Site>, trace: seq<Site>, index: Index)
    requires |before| < |trace| && trace[|trace| - 1].index == index
    ensures Saw(before, trace, IndexIs(index))
  {
    SeesLast(before, trace, IndexIs(index));
  }

  lemma SawGrows(before: seq<Site>, later: seq<Site>, trace: seq<Site>, more: seq<Site>, x: Sight)
    requires |before| <= |later| && trace <= more
    ensures Saw(later, trace, x) ==> Saw(before, more, x)
    ensures SawNot(later, trace, x) ==> SawNot(before, more, x)
  {
    hide Shows;
    if Saw(later, trace, x) {
      var k: nat :| |later| <= k < |trace| && Shows(trace[k], x);
      assert more[k] == trace[k];
    }
    if SawNot(later, trace, x) {
      var k: nat :| |later| <= k < |trace| && !Shows(trace[k], x);
      assert more[k] == trace[k];
    }
  }

  /** The workspace was like this at some step since `before`. */
  predicate During(before: seq<Site>, trace: seq<Site>, s: Site) { before <= trace && s in trace[|before|..] }

  lemma DuringGrows(before: seq<Site>, later: seq<Site>, trace: seq<Site>, more: seq<Site>, s: Site)
    requires before <= later && During(later, trace, s) && trace <= more
    ensures During(before, more, s)
  {
    var k :| 0 <= k < |trace[|later|..]| && trace[|later|..][k] == s;
    assert more[|before|..][|later| - |before| + k] == trace[|later| + k] == s;
  }

  // ---- steps of the helper: two neighbours in the trace, with nobody else in between ----

  /** A branch move: a compare-and-set from `from`. */
  datatype Move = Move(from: nat, to: nat)

  /** The branch was at `from` and then at `to`. */
  predicate SwapAt(trace: seq<Site>, k: nat, branch: string, move: Move) {
    && k + 1 < |trace| && branch in trace[k].branches && trace[k].branches[branch] == move.from
    && trace[k + 1] == trace[k].(branches := trace[k].branches[branch := move.to])
  }

  ghost predicate Swapped(before: seq<Site>, trace: seq<Site>, branch: string, move: Move) {
    exists k: nat :: |before| <= k && SwapAt(trace, k, branch, move)
  }

  lemma SwappedGrows(before: seq<Site>, later: seq<Site>, trace: seq<Site>, more: seq<Site>, branch: string, move: Move)
    requires |before| <= |later| && trace <= more && Swapped(later, trace, branch, move)
    ensures Swapped(before, more, branch, move)
  {
    var k: nat :| |later| <= k && SwapAt(trace, k, branch, move);
    assert more[k] == trace[k] && more[k + 1] == trace[k + 1];
    assert SwapAt(more, k, branch, move);
  }

  /** The remote branch was put at `sha`, and that was a fast-forward of what it was. */
  predicate PushAt(trace: seq<Site>, k: nat, sha: nat) {
    && k + 1 < |trace| && SiteOk(trace[k]) && sha < |trace[k].graph| && trace[k + 1] == trace[k].(upstream := Some(sha))
    && (trace[k].upstream.Some? ==> Anc(trace[k].graph, trace[k].upstream.value, sha))
  }

  ghost predicate PushedIn(before: seq<Site>, trace: seq<Site>, sha: nat) {
    exists k: nat :: |before| <= k && PushAt(trace, k, sha)
  }

  lemma PushedGrows(before: seq<Site>, later: seq<Site>, trace: seq<Site>, more: seq<Site>, sha: nat)
    requires |before| <= |later| && trace <= more && PushedIn(later, trace, sha)
    ensures PushedIn(before, more, sha)
  {
    var k: nat :| |later| <= k && PushAt(trace, k, sha);
    assert more[k] == trace[k] && more[k + 1] == trace[k + 1];
    assert PushAt(more, k, sha);
  }

  /** Nobody held the index lock, and then the helper did. */
  predicate LockAt(trace: seq<Site>, k: nat) {
    && k + 1 < |trace| && trace[k].lock.None? && trace[k + 1].lock.Some? && trace[k + 1].lock.value.ours
    && trace[k + 1] == trace[k].(lock := trace[k + 1].lock)
  }

  ghost predicate LockedIn(before: seq<Site>, trace: seq<Site>) { exists k: nat :: |before| <= k && LockAt(trace, k) }

  lemma LockedGrows(before: seq<Site>, trace: seq<Site>, more: seq<Site>)
    requires trace <= more && LockedIn(before, trace)
    ensures LockedIn(before, more)
  {
    var k: nat :| |before| <= k && LockAt(trace, k);
    assert more[k] == trace[k] && more[k + 1] == trace[k + 1];
    assert LockAt(more, k);
  }

  /** The lock file, holding `tree`, took the place of the index `original`. */
  predicate Renames(a: Site, b: Site, original: Index, tree: Tree) {
    && a.index == original && a.lock.Some? && a.lock.value.ours && a.lock.value.content.tree == tree
    && b == a.(index := a.lock.value.content, lock := None)
  }

  /** ... just now. */
  predicate RenamesLast(trace: seq<Site>, s: Site, original: Index, tree: Tree) {
    trace != [] && Renames(trace[|trace| - 1], s, original, tree)
  }

  predicate RenameAt(trace: seq<Site>, k: nat, original: Index, tree: Tree) {
    k + 1 < |trace| && Renames(trace[k], trace[k + 1], original, tree)
  }

  ghost predicate Renamed(before: seq<Site>, trace: seq<Site>, original: Index, tree: Tree) {
    exists k: nat :: |before| <= k && RenameAt(trace, k, original, tree)
  }

  lemma RenamedGrows(before: seq<Site>, later: seq<Site>, trace: seq<Site>, more: seq<Site>, original: Index,
                     tree: Tree)
    requires |before| <= |later| && trace <= more && Renamed(later, trace, original, tree)
    ensures Renamed(before, more, original, tree)
  {
    var k: nat :| |later| <= k && RenameAt(trace, k, original, tree);
    assert more[k] == trace[k] && more[k + 1] == trace[k + 1];
    assert RenameAt(more, k, original, tree);
  }
}
