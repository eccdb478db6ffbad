/** One handoff call (ide-agent/src/handoff.rs, apply). Between any two effects other writers may act, the call may
    fail, or the process may die; a later call starts from whatever is left. */
module Handoff {
  import opened Outcomes
  import opened Wrappers
  import opened CommitGraph
  import opened Workspace
  import opened HandoffRequest
  import opened HandoffBooks
  import opened HandoffRecovery
  import opened Trace

  ghost predicate Sound(w: Checkout)
    reads w`site, w`journals, w`acts
  {
    SiteOk(w.site) && Books(w.site.graph, w.journals, w.acts, w.branch)
  }

  /** The acts since `before` all belong to `op`. */
  ghost predicate OnlyBy(before: seq<Act>, after: seq<Act>, op: string) {
    before <= after && forall i :: |before| <= i < |after| ==> Operation(after[i]) == op
  }

  method Go(w: Checkout, m: Mode, code: string) returns (o: Outcome<()>)
    requires Sound(w)
    modifies w`site, w`trace, w`failures
    ensures o.Fine? ==> w.failures == old(w.failures)
    ensures Sound(w) && old(w.site.graph) <= w.site.graph && (!m.outside ==> w.site == old(w.site))
    ensures !m.faults ==> o.Fine?
    ensures old(w.trace) <= w.trace && |w.trace| == |old(w.trace)| + 2
    ensures w.trace[|w.trace| - 2] == old(w.site) && w.trace[|w.trace| - 1] == w.site && Spared(old(w.site), w.site, m)
  {
    hide Books, Drift;
    ghost var g := w.site.graph;
    o := w.Step(m, code);
    BooksDrift(g, w.site.graph, w.journals, w.acts, w.branch);
  }

  /** `save`: write, sync, rename, sync the directory. An error may come after the new journal is in place. */
  method Save(w: Checkout, op: string, j: Journal, m: Mode) returns (o: Outcome<()>)
    requires Sound(w) && JournalOk(op, j, w.site.graph) && (op in w.journals ==> Grown(w.journals[op], j))
    requires Backs(op, j, w.acts)
    modifies w`site, w`trace, w`failures, w`journals
    ensures o.Fine? ==> w.failures == old(w.failures)
    ensures Sound(w) && old(w.site.graph) <= w.site.graph && (!m.outside ==> w.site == old(w.site))
    ensures w.journals == old(w.journals) || w.journals == old(w.journals)[op := j]
    ensures o.Fine? ==> w.journals == old(w.journals)[op := j]
    ensures Later(old(w.journals), w.journals, op)
    ensures !m.faults ==> o.Fine?
    ensures old(w.trace) <= w.trace
  {
    hide Books, JournalOk, Backs;
    ghost var g := w.site.graph;
    var _ :- Go(w, m, "handoff_journal_failed");
    JournalDrift(op, j, g, w.site.graph);
    BooksSave(w.site.graph, w.journals, op, j, w.acts, w.branch);
    w.journals := w.journals[op := j];
    var _ :- Go(w, m, "handoff_journal_failed");
    return Fine(());
  }

  /** Each bundle file was seen whole since `before`. */
  ghost predicate SawFiles(before: seq<Site>, trace: seq<Site>, r: Request) {
    forall k :: 0 <= k < |r.files| ==> Saw(before, trace, FileWhole(r.files[k]))
  }

  /** Some bundle file was seen to be missing or different. */
  ghost predicate SawChange(before: seq<Site>, trace: seq<Site>, r: Request) {
    exists k :: 0 <= k < |r.files| && SawNot(before, trace, FileWhole(r.files[k]))
  }

  lemma SawFilesGrows(before: seq<Site>, later: seq<Site>, trace: seq<Site>, more: seq<Site>, r: Request)
    requires |before| <= |later| && trace <= more
    ensures SawFiles(later, trace, r) ==> SawFiles(before, more, r)
    ensures SawChange(later, trace, r) ==> SawChange(before, more, r)
  {
    hide Saw, SawNot;
    forall k | 0 <= k < |r.files|
      ensures Saw(later, trace, FileWhole(r.files[k])) ==> Saw(before, more, FileWhole(r.files[k]))
      ensures SawNot(later, trace, FileWhole(r.files[k])) ==> SawNot(before, more, FileWhole(r.files[k]))
    {
      SawGrows(before, later, trace, more, FileWhole(r.files[k]));
    }
  }

  /** `verify_files`: both bundle files are regular and hold the requested bytes. */
  method VerifyFiles(w: Checkout, r: Request, m: Mode) returns (o: Outcome<()>)
    requires Sound(w)
    modifies w`site, w`trace, w`failures
    ensures o.Fine? ==> w.failures == old(w.failures)
    ensures Sound(w) && old(w.site.graph) <= w.site.graph && (!m.outside ==> w.site == old(w.site))
    ensures old(w.trace) <= w.trace && Spared(old(w.site), w.site, m)
    ensures o.Fine? ==> SawFiles(old(w.trace), w.trace, r)
    ensures !m.faults && !o.Fine? ==> SawChange(old(w.trace), w.trace, r)
    ensures !m.outside && o.Fine? ==> Whole(w.site.files, r)
    ensures !m.faults ==> !o.Died?
    ensures !m.faults && !m.outside && old(Whole(w.site.files, r)) ==> o.Fine?
  {
    hide Sound, Saw, SawNot;
    for i := 0 to |r.files|
      invariant w.failures == old(w.failures)
      invariant Sound(w) && old(w.site.graph) <= w.site.graph && (!m.outside ==> w.site == old(w.site))
      invariant old(w.trace) <= w.trace && Spared(old(w.site), w.site, m)
      invariant forall k :: 0 <= k < i ==> Saw(old(w.trace), w.trace, FileWhole(r.files[k]))
      invariant !m.outside ==> forall k :: 0 <= k < i ==> WholeAt(w.site.files, r.files[k])
    {
      ghost var t0 := w.trace;
      var _ :- Go(w, m, "handoff_target_changed");
      var f := r.files[i];
      SeesFile(old(w.trace), w.trace, f);
      forall k | 0 <= k < i ensures Saw(old(w.trace), w.trace, FileWhole(r.files[k])) {
        SawGrows(old(w.trace), old(w.trace), t0, w.trace, FileWhole(r.files[k]));
      }
      if f.path !in w.site.files || w.site.files[f.path] != Regular(f.content) {
        assert !WholeAt(w.site.files, r.files[i]);
        return Error("handoff_target_changed");
      }
    }
    return Fine(());
  }

  /** Creating one bundle file: never over something that is there, and perhaps cut short. */
  method Place(w: Checkout, r: Request, k: nat, m: Mode) returns (o: Outcome<()>)
    requires Sound(w) && Refusal(r) == None && r.operation in w.journals && w.journals[r.operation].request == r
    requires k < 2 && |r.files| == 2 && r.files[k].path !in w.site.files
    modifies w`site, w`trace, w`failures, w`acts
    ensures o.Fine? ==> w.failures == old(w.failures)
    ensures Sound(w) && old(w.site.graph) <= w.site.graph && OnlyBy(old(w.acts), w.acts, r.operation)
    ensures !m.outside ==>
              exists n: nat ::
                && n <= |r.files[k].content| && (!m.faults ==> n == |r.files[k].content|)
                && w.site.files == old(w.site.files)[r.files[k].path := Regular(r.files[k].content[..n])]
                && w.site == old(w.site).(files := w.site.files)
    ensures !m.faults ==> o.Fine?
    ensures old(w.trace) <= w.trace
  {
    hide Books, Refusal;
    var f := r.files[k];
    var n: int := *;
    if !m.faults || n < 0 || n > |f.content| { n := |f.content|; }
    ghost var a := Wrote(r.operation, f.path, f.content[..n], f.path in w.site.files);
    WroteOk(w.journals, r.operation, k, f.content[..n], w.branch);
    BooksAct(w.site.graph, w.journals, w.acts, a, w.branch);
    w.site := w.site.(files := w.site.files[f.path := Regular(f.content[..n])]);
    w.acts := w.acts + [a];
    o := Go(w, m, "handoff_write_failed");
    if o.Fine? && n < |f.content| { o := Error("handoff_write_failed"); }
  }

  lemma Placing(a: Site, b: Site, c: Site, r: Request, k: nat, n: nat, i: nat)
    requires KeptTidy(a, b, r) && Refusal(r) == None && k < 2 && |r.files| == 2 && r.files[k].path !in b.files
    requires n <= |r.files[k].content| && c == b.(files := b.files[r.files[k].path := Regular(r.files[k].content[..n])])
    ensures KeptTidy(a, c, r)
    ensures AbsentOrWhole(b.files, r) && n == |r.files[k].content| ==>
              AbsentOrWhole(c.files, r) && WholeAt(c.files, r.files[k])
    ensures forall j :: 0 <= j < 2 && WholeAt(b.files, r.files[j]) ==> WholeAt(c.files, r.files[j])
    ensures forall p :: p in c.files ==> p in b.files || p == r.files[k].path
  {
    hide Refusal, Tidy, Partial, AbsentOrWhole;
    TwoFiles(r);
    Writing(b.files, b.ignored, r, k, r.files[k].content[..n]);
  }

  /** `write_bundle`: each file is created only if its path is free; a file found during recovery must already be
      complete. */
  method WriteBundle(w: Checkout, r: Request, recovery: bool, m: Mode) returns (o: Outcome<()>)
    requires Sound(w) && Refusal(r) == None && r.operation in w.journals && w.journals[r.operation].request == r
    modifies w`site, w`trace, w`failures, w`acts
    ensures o.Fine? ==> w.failures == old(w.failures)
    ensures Sound(w) && old(w.site.graph) <= w.site.graph && OnlyBy(old(w.acts), w.acts, r.operation)
    ensures old(w.trace) <= w.trace
    ensures !m.outside ==> KeptTidy(old(w.site), w.site, r)
    ensures !m.outside && !m.faults && old(AbsentOrWhole(w.site.files, r)) && (recovery || old(Absent(w.site.files, r)))
            ==> o.Fine? && Whole(w.site.files, r)
  {
    hide Sound, KeptTidy, Refusal, AbsentOrWhole, WholeAt, Absent;
    TwoFiles(r);
    SameTidy(w.site, r);
    ghost var start := w.site;
    ghost var smooth := !m.outside && !m.faults && AbsentOrWhole(w.site.files, r)
                        && (recovery || Absent(w.site.files, r));
    var i := 0;
    while i < 2
      invariant 0 <= i <= 2
      invariant w.failures == old(w.failures)
      invariant Sound(w) && start.graph <= w.site.graph && OnlyBy(old(w.acts), w.acts, r.operation)
      invariant old(w.trace) <= w.trace
      invariant !m.outside ==> KeptTidy(start, w.site, r)
      invariant smooth ==> AbsentOrWhole(w.site.files, r) && forall k :: 0 <= k < i ==>
                  WholeAt(w.site.files, r.files[k])
      invariant smooth && !recovery ==> forall k :: i <= k < 2 ==> r.files[k].path !in w.site.files
    {
      var f := r.files[i];
      var _ :- Go(w, m, "handoff_path_changed");
      if f.path in w.site.files {
        if !recovery { return Error("handoff_target_exists"); }
        if w.site.files[f.path] != Regular(f.content) {
          assert !smooth by { NotWhole(w.site.files, r, i); }
          return Error("handoff_target_changed");
        }
        IsWhole(w.site.files, f);
      } else {
        ghost var before := w.site;
        var result := Place(w, r, i, m);
        if !m.outside {
          ghost var n: nat :| n <= |f.content| && (!m.faults ==> n == |f.content|)
            && w.site == before.(files := before.files[f.path := Regular(f.content[..n])]);
          Placing(start, before, w.site, r, i, n, i);
        }
        if !result.Fine? { return result; }
      }
      i := i + 1;
    }
    o := Go(w, m, "handoff_write_failed");
    assert smooth ==> Whole(w.site.files, r);
  }

  lemma SameTidy(s: Site, r: Request)
    ensures KeptTidy(s, s, r)
    ensures Absent(s.files, r) ==> forall k :: 0 <= k < |r.files| ==> r.files[k].path !in s.files
  {
    forall k | 0 <= k < |r.files| ensures InBundle(r, r.files[k].path) {}
  }

  lemma NotWhole(files: map<string, Node>, r: Request, k: nat)
    requires k < |r.files| && r.files[k].path in files && files[r.files[k].path] != Regular(r.files[k].content)
    ensures !AbsentOrWhole(files, r)
  {
    assert !WholeAt(files, r.files[k]);
  }

  lemma IsWhole(files: map<string, Node>, f: File)
    requires f.path in files && files[f.path] == Regular(f.content)
    ensures WholeAt(files, f)
  {
  }

  // ---- the parts of a call ----

  ghost predicate Ready(w: Checkout, r: Request)
    reads w`site, w`journals
  {
    Resumable(w.site, w.journals, r, w.branch, w.remote)
  }

  lemma ReadyMeans(w: Checkout, r: Request)
    ensures Ready(w, r) <==> Resumable(w.site, w.journals, r, w.branch, w.remote)
  {
  }

  /** `repo.validate`. */
  method Look(w: Checkout, m: Mode) returns (o: Outcome<nat>)
    requires Sound(w)
    modifies w`site, w`trace, w`failures
    ensures o.Fine? ==> w.failures == old(w.failures)
    ensures Sound(w) && old(w.site.graph) <= w.site.graph && (!m.outside ==> w.site == old(w.site))
    ensures o.Fine? ==> Head(w.site) == Some(o.value) && o.value < |w.site.graph|
    ensures old(w.trace) <= w.trace && (o.Fine? ==> Saw(old(w.trace), w.trace, HeadAt(o.value)))
    ensures !m.outside && !m.faults ==> (o.Fine? <==> Bound(w.site, w.branch, w.remote))
  {
    hide Books, Drift, Bound, Saw;
    ghost var g := w.site.graph;
    o := w.Validate(m);
    BooksDrift(g, w.site.graph, w.journals, w.acts, w.branch);
    if o.Fine? { SeesHead(old(w.trace), w.trace, o.value); }
  }

  /** The workspace was clean, and the paths of the bundle were free. */
  ghost predicate Began(before: seq<Site>, trace: seq<Site>, r: Request) {
    Saw(before, trace, NothingDirty) && forall k :: 0 <= k < |r.files| ==> Saw(before, trace, FileFree(r.files[k].path))
  }

  lemma BeganGrows(before: seq<Site>, later: seq<Site>, trace: seq<Site>, more: seq<Site>, r: Request)
    requires |before| <= |later| && trace <= more && Began(later, trace, r)
    ensures Began(before, more, r)
  {
    hide Saw;
    SawGrows(before, later, trace, more, NothingDirty);
    forall k | 0 <= k < |r.files| ensures Saw(before, more, FileFree(r.files[k].path)) {
      SawGrows(before, later, trace, more, FileFree(r.files[k].path));
    }
  }

  /** Read the journal of the operation, or start one on a clean workspace. The answer says which. */
  method Enlist(w: Checkout, r: Request, head: nat, m: Mode) returns (o: Outcome<bool>)
    requires Sound(w) && Refusal(r) == None && head < |w.site.graph|
    modifies w`site, w`trace, w`failures, w`journals
    ensures o.Fine? ==> w.failures == old(w.failures)
    ensures Sound(w) && old(w.site.graph) <= w.site.graph && (!m.outside ==> w.site == old(w.site))
    ensures Later(old(w.journals), w.journals, r.operation)
    ensures o.Fine? ==> r.operation in w.journals && w.journals[r.operation].request == r
                        && (o.value <==> r.operation in old(w.journals))
                        && (!o.value ==> w.journals[r.operation] == Journal(r, head, None, false))
    ensures r.operation in old(w.journals) ==> w.journals == old(w.journals)
    ensures old(w.trace) <= w.trace
    ensures w.journals != old(w.journals) ==>
              w.journals == old(w.journals)[r.operation := Journal(r, head, None, false)]
              && Began(old(w.trace), w.trace, r)
    ensures r.operation in old(w.journals) && old(w.journals)[r.operation].request != r ==> !o.Fine?
    ensures !m.outside && old(Ready(w, r)) && Head(w.site) == Some(head) ==>
              Ready(w, r) && (o.Fine? && !o.value ==> Absent(w.site.files, r)) && (!m.faults ==> o.Fine?)
  {
    hide Sound, Refusal, Ready, Absent, Later, Began;
    if Ready(w, r) && r.operation in w.journals { ReadyRequest(w, r); }
    SameJournals(w.journals, r.operation);
    var _ :- Go(w, m, "handoff_journal_invalid");
    if r.operation in w.journals {
      if w.journals[r.operation].request != r { return Error("handoff_operation_conflict"); }
      return Fine(true);
    }
    ghost var t0 := w.trace;
    var started := Start(w, r, head, m);
    if w.journals != old(w.journals) { BeganGrows(old(w.trace), t0, w.trace, w.trace, r); }
    if !started.Fine? { return started.PropagateFailure(); }
    return Fine(false);
  }

  lemma ReadyRequest(w: Checkout, r: Request)
    requires Ready(w, r) && r.operation in w.journals
    ensures w.journals[r.operation].request == r
  {
  }

  lemma SameJournals(js: map<string, Journal>, op: string)
    ensures Later(js, js, op)
  {
  }

  /** The workspace is clean, and ignored files are looked for too. */
  method Inspect(w: Checkout, r: Request, m: Mode) returns (o: Outcome<()>)
    requires Sound(w) && Refusal(r) == None
    modifies w`site, w`trace, w`failures
    ensures o.Fine? ==> w.failures == old(w.failures)
    ensures Sound(w) && old(w.site.graph) <= w.site.graph && (!m.outside ==> w.site == old(w.site))
            && old(w.trace) <= w.trace
    ensures o.Fine? ==> Began(old(w.trace), w.trace, r)
    ensures !m.outside && !m.faults
            && old(Status(w.site) == {} && forall k :: 0 <= k < |r.files| ==> r.files[k].path !in w.site.files)
            ==> o.Fine?
  {
    hide Spared, Sound, Refusal, Status, Saw;
    var _ :- Go(w, m, "handoff_git_failed");
    SeesClean(old(w.trace), w.trace, Status(w.site) != {});
    if Status(w.site) != {} { return Error("workspace_changes_checkpoint_and_retry"); }
    TwoFiles(r);
    for i := 0 to 2
      invariant w.failures == old(w.failures)
      invariant Sound(w) && old(w.site.graph) <= w.site.graph && (!m.outside ==> w.site == old(w.site))
      invariant old(w.trace) <= w.trace && Saw(old(w.trace), w.trace, NothingDirty)
      invariant forall k :: 0 <= k < i ==> Saw(old(w.trace), w.trace, FileFree(r.files[k].path))
    {
      ghost var t0 := w.trace;
      var _ :- Go(w, m, "handoff_target_exists");
      if r.files[i].path in w.site.files { return Error("handoff_target_exists"); }
      SeesFree(old(w.trace), w.trace, r.files[i].path);
      SawGrows(old(w.trace), old(w.trace), t0, w.trace, NothingDirty);
      forall k | 0 <= k < i ensures Saw(old(w.trace), w.trace, FileFree(r.files[k].path)) {
        SawGrows(old(w.trace), old(w.trace), t0, w.trace, FileFree(r.files[k].path));
      }
    }
    return Fine(());
  }

  method Start(w: Checkout, r: Request, head: nat, m: Mode) returns (o: Outcome<()>)
    requires Sound(w) && Refusal(r) == None && head < |w.site.graph| && r.operation !in w.journals
    modifies w`site, w`trace, w`failures, w`journals
    ensures o.Fine? ==> w.failures == old(w.failures)
    ensures Sound(w) && old(w.site.graph) <= w.site.graph && (!m.outside ==> w.site == old(w.site))
    ensures Later(old(w.journals), w.journals, r.operation)
    ensures old(w.trace) <= w.trace
    ensures w.journals != old(w.journals) ==>
              w.journals == old(w.journals)[r.operation := Journal(r, head, None, false)]
              && Began(old(w.trace), w.trace, r)
    ensures o.Fine? ==> r.operation in w.journals && w.journals[r.operation] == Journal(r, head, None, false)
    ensures !m.outside && old(Ready(w, r)) && Head(w.site) == Some(head) ==>
              Ready(w, r) && (o.Fine? ==> Absent(w.site.files, r)) && (!m.faults ==> o.Fine?)
  {
    hide Sound, Refusal, Absent, Status, Ready, Resumable, Later, Began;
    SameJournals(w.journals, r.operation);
    ghost var quiet := !m.outside && Ready(w, r) && Head(w.site) == Some(head);
    if quiet { ReadyStart(w, r, head); }
    var _ :- Inspect(w, r, m);
    NewJournal(w, r, head);
    ghost var t1 := w.trace;
    o := Save(w, r.operation, Journal(r, head, None, false), m);
    BeganGrows(old(w.trace), old(w.trace), t1, w.trace, r);
    ReadyMeans(w, r);
  }

  lemma ReadyStart(w: Checkout, r: Request, head: nat)
    requires Ready(w, r) && r.operation !in w.journals && Head(w.site) == Some(head)
    ensures Status(w.site) == {} && Absent(w.site.files, r)
    ensures forall k :: 0 <= k < |r.files| ==> r.files[k].path !in w.site.files
    ensures Resumable(w.site, w.journals[r.operation := Journal(r, head, None, false)], r, w.branch, w.remote)
  {
    hide Status, Absent, Midway, Fresh;
    FreshClean(w.site, r, w.branch);
    Started(w.site, r, head, w.branch);
  }

  lemma FreshClean(s: Site, r: Request, branch: string)
    requires SiteOk(s) && branch in s.branches && s.head == Some(branch) && Fresh(s, r, branch)
    ensures Status(s) == {}
    ensures forall k :: 0 <= k < |r.files| ==> r.files[k].path !in s.files
  {
    OnlyBundleDirty(s, s.branches[branch], r);
    forall k | 0 <= k < |r.files| ensures InBundle(r, r.files[k].path) {}
  }

  lemma NewJournal(w: Checkout, r: Request, head: nat)
    requires Sound(w) && Refusal(r) == None && head < |w.site.graph|
    ensures JournalOk(r.operation, Journal(r, head, None, false), w.site.graph)
    ensures Backs(r.operation, Journal(r, head, None, false), w.acts)
  {
  }

  lemma Started(s: Site, r: Request, head: nat, branch: string)
    requires SiteOk(s) && branch in s.branches && s.branches[branch] == head && Fresh(s, r, branch)
    ensures Midway(s, Journal(r, head, None, false), r, branch) && Absent(s.files, r)
  {
    forall k | 0 <= k < |r.files| ensures InBundle(r, r.files[k].path) {}
  }

  /** The index was seen at the tree of the base or of the commit. */
  ghost predicate SawTree(before: seq<Site>, trace: seq<Site>, g: Graph, j: Journal) {
    || (j.base < |g| && Saw(before, trace, IndexTree(g[j.base].tree)))
    || (j.commit.Some? && j.commit.value < |g| && Saw(before, trace, IndexTree(g[j.commit.value].tree)))
  }

  lemma SawTreeGrows(before: seq<Site>, later: seq<Site>, trace: seq<Site>, more: seq<Site>, g: Graph, g': Graph,
                     j: Journal)
    requires |before| <= |later| && trace <= more && g <= g' && SawTree(later, trace, g, j)
    ensures SawTree(before, more, g', j)
  {
    hide Saw;
    if j.base < |g| { SawGrows(before, later, trace, more, IndexTree(g[j.base].tree)); }
    if j.commit.Some? && j.commit.value < |g| {
      SawGrows(before, later, trace, more, IndexTree(g[j.commit.value].tree));
    }
  }

  lemma SawTreeHere(before: seq<Site>, trace: seq<Site>, g: Graph, j: Journal, tree: Tree)
    requires Saw(before, trace, IndexTree(tree)) && j.base < |g| && (j.commit.Some? ==> j.commit.value < |g|)
    requires tree == g[j.base].tree || (j.commit.Some? && tree == g[j.commit.value].tree)
    ensures SawTree(before, trace, g, j)
  {
    hide Saw;
  }

  /** `rev-parse commit^{tree}`. */
  method TreeOf(w: Checkout, sha: nat, m: Mode) returns (o: Outcome<Tree>)
    requires Sound(w) && sha < |w.site.graph|
    modifies w`site, w`trace, w`failures
    ensures o.Fine? ==> w.failures == old(w.failures)
    ensures Sound(w) && old(w.site.graph) <= w.site.graph && (!m.outside ==> w.site == old(w.site))
            && old(w.trace) <= w.trace
    ensures o.Fine? ==> sha < |w.site.graph| && o.value == w.site.graph[sha].tree
    ensures !m.faults ==> o.Fine?
  {
    hide Sound;
    var _ :- Go(w, m, "handoff_git_failed");
    return Fine(w.site.graph[sha].tree);
  }

  /** The index is at the base or at the commit. */
  method CheckTree(w: Checkout, r: Request, j: Journal, m: Mode) returns (o: Outcome<()>)
    requires Sound(w) && r.operation in w.journals && w.journals[r.operation] == j && j.request == r
    modifies w`site, w`trace, w`failures
    ensures o.Fine? ==> w.failures == old(w.failures)
    ensures Sound(w) && old(w.site.graph) <= w.site.graph && (!m.outside ==> w.site == old(w.site))
            && old(w.trace) <= w.trace
    ensures o.Fine? ==> SawTree(old(w.trace), w.trace, w.site.graph, j)
    ensures !m.outside && !m.faults && old(Ready(w, r)) ==> o.Fine?
  {
    hide Spared, Grown, Ready, Resumable, Sound, Saw, JournalOk;
    TreesHere(w, r.operation);
    if Ready(w, r) { ReadyIndex(w, r); }
    var _ :- Go(w, m, "handoff_git_failed");
    var indexTree := w.site.index.tree;
    SeesTree(old(w.trace), w.trace, indexTree);
    ghost var t1 := w.trace;
    TreesHere(w, r.operation);
    var baseTree :- TreeOf(w, j.base, m);
    TreesHere(w, r.operation);
    var fits := indexTree == baseTree;
    if j.commit.Some? {
      var commitTree :- TreeOf(w, j.commit.value, m);
      fits := fits || indexTree == commitTree;
    }
    if !fits { return Error("workspace_index_changed"); }
    TreesHere(w, r.operation);
    SawGrows(old(w.trace), old(w.trace), t1, w.trace, IndexTree(indexTree));
    SawTreeHere(old(w.trace), w.trace, w.site.graph, j, indexTree);
    return Fine(());
  }

  /** Nobody staged or unstaged anything since `before`. */
  predicate IndexStill(before: seq<Site>, trace: seq<Site>) {
    forall i, k :: |before| <= i < k < |trace| ==> trace[i].index.tree == trace[k].index.tree
  }

  predicate AtEither(tree: Tree, g: Graph, j: Journal) {
    || (j.base < |g| && tree == g[j.base].tree)
    || (j.commit.Some? && j.commit.value < |g| && tree == g[j.commit.value].tree)
  }

  /** The tree and the bytes of the index are looked at one after the other; they fit if nobody staged in between. */
  lemma IndexFits(before: seq<Site>, trace: seq<Site>, g: Graph, j: Journal, original: Index)
    requires SawTree(before, trace, g, j) && Saw(before, trace, IndexIs(original)) && IndexStill(before, trace)
    ensures AtEither(original.tree, g, j)
  {
    var k: nat :| |before| <= k < |trace| && Shows(trace[k], IndexIs(original));
    if j.base < |g| && Saw(before, trace, IndexTree(g[j.base].tree)) {
      var i: nat :| |before| <= i < |trace| && Shows(trace[i], IndexTree(g[j.base].tree));
      assert trace[i].index.tree == trace[k].index.tree;
    } else {
      var i: nat :| |before| <= i < |trace| && Shows(trace[i], IndexTree(g[j.commit.value].tree));
      assert trace[i].index.tree == trace[k].index.tree;
    }
  }

  /** What a polite writer stages between the two looks is in the bytes that are remembered. The lock is then taken and
      those bytes are found unchanged, so the new index takes their place, and what was staged is in neither. */
  lemma StagedInBetween(a: Site, j: Journal, path: string, content: string, m: Mode)
    returns (trace: seq<Site>, original: Index)
    requires SiteOk(a) && m.outside && a.lock.None? && j.base < |a.graph|
    requires j.commit.Some? && j.commit.value < |a.graph| && AtEither(a.index.tree, a.graph, j)
    requires path !in a.graph[j.base].tree && path !in a.graph[j.commit.value].tree
    ensures |trace| == 4 && trace[0] == a && Drift(a, trace[1], m) && LockAt(trace, 1)
    ensures SawTree([], trace[..1], a.graph, j) && Saw(trace[..1], trace[..2], IndexIs(original))
    ensures Saw(trace[..2], trace[..3], IndexIs(original))
    ensures RenameAt(trace, 2, original, a.graph[j.commit.value].tree)
    ensures path in original.tree && !AtEither(original.tree, a.graph, j) && path !in trace[3].index.tree
  {
    original := Index(a.index.tree[path := content], a.index.stamp + 1);
    var planned := Index(a.graph[j.commit.value].tree, original.stamp + 1);
    var b := a.(index := original);
    var c := b.(lock := Some(IndexLock(true, planned)));
    var d := c.(index := planned, lock := None);
    trace := [a, b, c, d];
    assert Shows(trace[..1][0], IndexTree(a.index.tree));
    assert Shows(trace[..2][1], IndexIs(original));
    assert Shows(trace[..3][2], IndexIs(original));
    assert Shows(trace[..1][0], IndexTree(a.graph[j.base].tree))
           || Shows(trace[..1][0], IndexTree(a.graph[j.commit.value].tree));
  }

  /** The user's index must be at the base or at the commit; its bytes are remembered. They are read later than the
      tree: what was staged in between is remembered too. */
  method CheckIndex(w: Checkout, r: Request, j: Journal, m: Mode) returns (o: Outcome<Index>)
    requires Sound(w) && r.operation in w.journals && w.journals[r.operation] == j && j.request == r
    modifies w`site, w`trace, w`failures
    ensures o.Fine? ==> w.failures == old(w.failures)
    ensures Sound(w) && old(w.site.graph) <= w.site.graph && (!m.outside ==> w.site == old(w.site))
            && old(w.trace) <= w.trace
    ensures !m.outside && o.Fine? ==> o.value == w.site.index
    ensures o.Fine? ==> SawTree(old(w.trace), w.trace, w.site.graph, j) && Saw(old(w.trace), w.trace, IndexIs(o.value))
    ensures o.Fine? && IndexStill(old(w.trace), w.trace) ==> AtEither(o.value.tree, w.site.graph, j)
    ensures !m.outside && !m.faults && old(Ready(w, r)) ==> o.Fine?
  {
    hide Ready, Sound, Saw, SawTree, IndexStill, AtEither;
    var _ :- CheckTree(w, r, j, m);
    ghost var t1, g := w.trace, w.site.graph;
    var _ :- Go(w, m, "workspace_index_changed");
    SawTreeGrows(old(w.trace), old(w.trace), t1, w.trace, g, w.site.graph, j);
    SeesIndex(old(w.trace), w.trace, w.site.index);
    if IndexStill(old(w.trace), w.trace) { IndexFits(old(w.trace), w.trace, w.site.graph, j, w.site.index); }
    return Fine(w.site.index);
  }

  lemma TreesHere(w: Checkout, op: string)
    requires Sound(w) && op in w.journals
    ensures w.journals[op].base < |w.site.graph|
    ensures w.journals[op].commit.Some? ==> w.journals[op].commit.value < |w.site.graph|
  {
    JournalHere(w, op);
  }

  lemma ReadyIndex(w: Checkout, r: Request)
    requires Sound(w) && Ready(w, r) && r.operation in w.journals
    ensures var j := w.journals[r.operation];
            && j.base < |w.site.graph| && (j.commit.Some? ==> j.commit.value < |w.site.graph|)
            && (w.site.index.tree == w.site.graph[j.base].tree
                || (j.commit.Some? && w.site.index.tree == w.site.graph[j.commit.value].tree))
  {
    hide Tidy, Refusal, Placed, Books, Behind, Partial, Whole;
    TreesHere(w, r.operation);
  }

  lemma JournalHere(w: Checkout, op: string)
    requires Sound(w) && op in w.journals
    ensures JournalOk(op, w.journals[op], w.site.graph)
  {
  }

  /** Nothing stands in the way of composing the commit. */
  ghost predicate Calm(w: Checkout, r: Request, recovery: bool, original: Index)
    reads w`site, w`journals
  {
    Ready(w, r) && Unharmed(w.site, r) && w.site.index == original && (recovery || Absent(w.site.files, r))
  }

  /** The private index: the base tree, then each file from a private copy of the request. */
  method BuildTree(w: Checkout, r: Request, base: nat, m: Mode) returns (o: Outcome<Tree>)
    requires Sound(w) && base < |w.site.graph|
    modifies w`site, w`trace, w`failures
    ensures o.Fine? ==> w.failures == old(w.failures)
    ensures Sound(w) && old(w.site.graph) <= w.site.graph && (!m.outside ==> w.site == old(w.site))
    ensures o.Fine? ==> base < |w.site.graph| && o.value == WithFiles(w.site.graph[base].tree, r.files)
    ensures !m.faults ==> o.Fine?
    ensures old(w.trace) <= w.trace
  {
    hide Sound;
    var _ :- Go(w, m, "handoff_git_failed");
    var private := w.site.graph[base].tree;
    for i := 0 to |r.files|
      invariant w.failures == old(w.failures)
      invariant Sound(w) && old(w.site.graph) <= w.site.graph && (!m.outside ==> w.site == old(w.site))
      invariant old(w.trace) <= w.trace
      invariant private == WithFiles(w.site.graph[base].tree, r.files[..i])
    {
      var _ :- Go(w, m, "handoff_write_failed");
      var _ :- Go(w, m, "handoff_git_failed");
      private := private[r.files[i].path := r.files[i].content];
      assert r.files[..i + 1][..i] == r.files[..i];
    }
    assert r.files[..|r.files|] == r.files;
    var _ :- Go(w, m, "handoff_git_failed");
    return Fine(private);
  }

  /** `commit-tree`: one more object, whatever the reply. */
  method CommitTree(w: Checkout, base: nat, tree: Tree, m: Mode) returns (o: Outcome<nat>)
    requires Sound(w) && base < |w.site.graph|
    modifies w`site, w`trace, w`failures
    ensures o.Fine? ==> w.failures == old(w.failures)
    ensures Sound(w) && old(w.site.graph) <= w.site.graph
    ensures !m.outside ==> w.site == old(w.site).(graph := w.site.graph)
    ensures o.Fine? ==> o.value < |w.site.graph| && w.site.graph[o.value] == Commit([base], tree)
    ensures !m.faults ==> o.Fine?
    ensures old(w.trace) <= w.trace
  {
    hide Books, Drift;
    var _ :- Go(w, m, "handoff_git_failed");
    ghost var g := w.site.graph;
    var c := |w.site.graph|;
    w.site := w.site.(graph := Added(w.site.graph, [base], tree));
    assert g <= w.site.graph && w.site.graph[c] == Commit([base], tree);
    BooksDrift(g, w.site.graph, w.journals, w.acts, w.branch);
    var _ :- Go(w, m, "handoff_git_failed");
    return Fine(c);
  }

  method Forge(w: Checkout, r: Request, base: nat, m: Mode) returns (o: Outcome<nat>)
    requires Sound(w) && base < |w.site.graph|
    modifies w`site, w`trace, w`failures
    ensures o.Fine? ==> w.failures == old(w.failures)
    ensures Sound(w) && old(w.site.graph) <= w.site.graph
    ensures !m.outside ==> w.site == old(w.site).(graph := w.site.graph)
    ensures o.Fine? ==> CommitOf(w.site.graph, base, o.value, r)
    ensures !m.faults ==> o.Fine?
    ensures old(w.trace) <= w.trace
  {
    hide Sound;
    var tree :- BuildTree(w, r, base, m);
    o := CommitTree(w, base, tree, m);
  }

  function BundlePaths(r: Request): set<string> { set f | f in r.files :: f.path }

  lemma InPaths(r: Request, p: string)
    ensures InBundle(r, p) <==> p in BundlePaths(r)
  {
  }

  /** HEAD was at the base, the index as it was read, and both files complete. */
  ghost predicate Sealed(before: seq<Site>, trace: seq<Site>, r: Request, base: nat, original: Index) {
    Saw(before, trace, HeadAt(base)) && Saw(before, trace, IndexIs(original)) && SawFiles(before, trace, r)
  }

  lemma SealedGrows(before: seq<Site>, later: seq<Site>, trace: seq<Site>, more: seq<Site>, r: Request, base: nat,
                    original: Index)
    requires |before| <= |later| && trace <= more && Sealed(later, trace, r, base, original)
    ensures Sealed(before, more, r, base, original)
  {
    hide Saw, SawFiles;
    SawGrows(before, later, trace, more, HeadAt(base));
    SawGrows(before, later, trace, more, IndexIs(original));
    SawFilesGrows(before, later, trace, more, r);
  }

  /** Write the bundle and look at it again. */
  method Bundle(w: Checkout, r: Request, recovery: bool, m: Mode) returns (o: Outcome<()>)
    requires Sound(w) && Refusal(r) == None && r.operation in w.journals && w.journals[r.operation].request == r
    requires w.journals[r.operation].commit.None?
    modifies w`site, w`trace, w`failures, w`acts
    ensures o.Fine? ==> w.failures == old(w.failures)
    ensures Sound(w) && old(w.site.graph) <= w.site.graph && OnlyBy(old(w.acts), w.acts, r.operation)
            && old(w.trace) <= w.trace
    ensures !m.outside && old(Ready(w, r)) ==>
              Ready(w, r) && w.site == old(w.site).(files := w.site.files) && (o.Fine? ==> Whole(w.site.files, r))
    ensures !m.outside && !m.faults && old(AbsentOrWhole(w.site.files, r))
            && (recovery || old(Absent(w.site.files, r))) ==>
              o.Fine?
  {
    hide Sound, Ready, Resumable, Refusal, KeptTidy, Absent, AbsentOrWhole, Whole, OnlyBy, SawFiles, SawChange, Spared;
    ghost var quiet := !m.outside && Ready(w, r);
    ghost var s0 := w.site;
    ReadyMeans(w, r);
    var bundled := WriteBundle(w, r, recovery, m);
    if quiet {
      SoundSite(w);
      ResumeBundle(s0, w.site, w.journals, r, w.branch, w.remote);
      KeptFiles(s0, w.site, r);
    }
    ReadyMeans(w, r);
    if !bundled.Fine? { return bundled; }
    o := VerifyFiles(w, r, m);
  }

  lemma ReadyBase(w: Checkout, r: Request)
    requires Ready(w, r) && r.operation in w.journals && w.journals[r.operation].commit.None?
    ensures Head(w.site) == Some(w.journals[r.operation].base) && Status(w.site) <= BundlePaths(r)
  {
    hide Status;
    ResumeBound(w.site, w.journals, r, w.branch, w.remote);
    forall p | p in Status(w.site) ensures p in BundlePaths(r) { InPaths(r, p); }
  }

  /** The part of a call before the commit is journaled: only the bundle may be dirty; write and verify it, build the
      commit, look again. */
  method Compose(w: Checkout, r: Request, recovery: bool, original: Index, m: Mode) returns (o: Outcome<nat>)
    requires Sound(w) && Refusal(r) == None && r.operation in w.journals && w.journals[r.operation].request == r
    requires w.journals[r.operation].commit.None?
    modifies w`site, w`trace, w`failures, w`acts, w`journals
    ensures o.Fine? ==> w.failures == old(w.failures)
    ensures Sound(w) && old(w.site.graph) <= w.site.graph && OnlyBy(old(w.acts), w.acts, r.operation)
    ensures Later(old(w.journals), w.journals, r.operation) && old(w.trace) <= w.trace
    ensures w.acts != old(w.acts) || w.journals != old(w.journals) ==>
              Saw(old(w.trace), w.trace, DirtyOnly(BundlePaths(r)))
    ensures w.journals != old(w.journals) ==>
              Sealed(old(w.trace), w.trace, r, old(w.journals[r.operation].base), original)
    ensures o.Fine? ==>
              w.journals == old(w.journals)[r.operation := old(w.journals[r.operation]).(commit := Some(o.value))]
    ensures !m.outside && old(Ready(w, r)) ==>
              Ready(w, r) && w.site == old(w.site).(graph := w.site.graph, files := w.site.files)
    ensures !m.outside && !m.faults && old(Calm(w, r, recovery, original)) ==> o.Fine?
  {
    hide Sound, Ready, Refusal, Status, Absent, AbsentOrWhole, Whole, Later, OnlyBy, CommitOf, Saw, Sealed,
        BundlePaths, Spared;
    var op := r.operation;
    SameJournals(w.journals, op);
    NoActs(w.acts, op);
    if Ready(w, r) { ReadyBase(w, r); }
    var _ :- Go(w, m, "handoff_git_failed");
    if !(Status(w.site) <= BundlePaths(r)) { return Error("workspace_changes_checkpoint_and_retry"); }
    SeesDirtyOnly(old(w.trace), w.trace, BundlePaths(r));
    ghost var t0 := w.trace;
    var bundled := Bundle(w, r, recovery, m);
    SawGrows(old(w.trace), old(w.trace), t0, w.trace, DirtyOnly(BundlePaths(r)));
    if !bundled.Fine? { return bundled.PropagateFailure(); }
    ghost var t1 := w.trace;
    o := Seal(w, r, original, m);
    SawGrows(old(w.trace), old(w.trace), t1, w.trace, DirtyOnly(BundlePaths(r)));
    if w.journals != old(w.journals) {
      SealedGrows(old(w.trace), t1, w.trace, w.trace, r, old(w.journals[r.operation].base), original);
    }
  }

  method Seal(w: Checkout, r: Request, original: Index, m: Mode) returns (o: Outcome<nat>)
    requires Sound(w) && Refusal(r) == None && r.operation in w.journals && w.journals[r.operation].request == r
    requires w.journals[r.operation].commit.None?
    modifies w`site, w`trace, w`failures, w`journals
    ensures o.Fine? ==> w.failures == old(w.failures)
    ensures Sound(w) && old(w.site.graph) <= w.site.graph
    ensures Later(old(w.journals), w.journals, r.operation)
    ensures old(w.trace) <= w.trace
    ensures w.journals != old(w.journals) ==>
              Sealed(old(w.trace), w.trace, r, old(w.journals[r.operation].base), original)
    ensures o.Fine? ==>
              w.journals == old(w.journals)[r.operation := old(w.journals[r.operation]).(commit := Some(o.value))]
    ensures !m.outside && old(Ready(w, r)) && old(Whole(w.site.files, r)) ==>
              Ready(w, r) && w.site == old(w.site).(graph := w.site.graph)
              && (!m.faults && old(w.site.lock.None? && w.site.index == original) ==> o.Fine?)
  {
    hide Sound, Resumable, Refusal, Status, Bound, Later, InBundle, CommitOf, Whole, JournalOk, Sealed;
    var op := r.operation;
    var j := w.journals[op];
    ghost var quiet := !m.outside && Ready(w, r) && Whole(w.site.files, r);
    SameJournals(w.journals, op);
    BaseHere(w, op);
    ghost var s0 := w.site;
    var made := Forge(w, r, j.base, m);
    if quiet {
      SoundSite(w);
      ResumeGrows(s0, w.site, w.journals, r, w.branch, w.remote);
      ResumeBound(w.site, w.journals, r, w.branch, w.remote);
    }
    if !made.Fine? { return made.PropagateFailure(); }
    var c := made.value;
    ghost var g, t0 := w.site.graph, w.trace;
    var _ :- Recheck(w, r, j.base, original, m);
    ghost var t1 := w.trace;
    CommitStays(g, w.site.graph, j.base, c, r);
    CommitJournal(w, op, c);
    if quiet { ResumeCommitted(w.site, w.journals, c, r, w.branch, w.remote); }
    var saved := Save(w, op, j.(commit := Some(c)), m);
    SealedGrows(old(w.trace), t0, t1, w.trace, r, j.base, original);
    if !saved.Fine? { return saved.PropagateFailure(); }
    return Fine(c);
  }

  /** The files, HEAD and the index bytes are still what the commit was made for. */
  method Recheck(w: Checkout, r: Request, base: nat, original: Index, m: Mode) returns (o: Outcome<()>)
    requires Sound(w)
    modifies w`site, w`trace, w`failures
    ensures o.Fine? ==> w.failures == old(w.failures)
    ensures Sound(w) && old(w.site.graph) <= w.site.graph && (!m.outside ==> w.site == old(w.site))
    ensures old(w.trace) <= w.trace && (o.Fine? ==> Sealed(old(w.trace), w.trace, r, base, original))
    ensures !m.outside && o.Fine? ==> Whole(w.site.files, r)
    ensures !m.outside && !m.faults && w.site.index == original && Head(w.site) == Some(base) ==>
              Whole(w.site.files, r) && Bound(w.site, w.branch, w.remote) ==> o.Fine?
  {
    hide Sound, Whole, Bound, Saw, SawFiles;
    var _ :- VerifyFiles(w, r, m);
    ghost var t1 := w.trace;
    var head :- Look(w, m);
    ghost var t2 := w.trace;
    var _ :- Go(w, m, "workspace_changed");
    SawFilesGrows(old(w.trace), old(w.trace), t1, w.trace, r);
    SawGrows(old(w.trace), t1, t2, w.trace, HeadAt(head));
    if head != base || w.site.index != original { return Error("workspace_changed"); }
    SeesIndex(old(w.trace), w.trace, original);
    return Fine(());
  }

  lemma NoActs(acts: seq<Act>, op: string)
    ensures OnlyBy(acts, acts, op)
  {
  }

  lemma SoundSite(w: Checkout)
    requires Sound(w)
    ensures SiteOk(w.site)
  {
  }

  lemma BaseHere(w: Checkout, op: string)
    requires Sound(w) && op in w.journals
    ensures w.journals[op].base < |w.site.graph|
  {
    JournalHere(w, op);
  }

  lemma UnharmedMeans(s: Site, r: Request)
    ensures Unharmed(s, r) <==> s.lock.None? && AbsentOrWhole(s.files, r)
  {
  }

  lemma KeptFiles(a: Site, b: Site, r: Request)
    requires KeptTidy(a, b, r)
    ensures b == a.(files := b.files)
  {
  }

  lemma CommitStays(g: Graph, g': Graph, base: nat, c: nat, r: Request)
    requires CommitOf(g, base, c, r) && g <= g'
    ensures CommitOf(g', base, c, r)
  {
  }

  lemma CommitJournal(w: Checkout, op: string, c: nat)
    requires Sound(w) && op in w.journals && w.journals[op].commit.None?
    requires CommitOf(w.site.graph, w.journals[op].base, c, w.journals[op].request)
    ensures JournalOk(op, w.journals[op].(commit := Some(c)), w.site.graph)
            && Backs(op, w.journals[op].(commit := Some(c)), w.acts)
  {
    hide CommitOf, Refusal;
    JournalHere(w, op);
  }

  // ---- publication ----

  /** Under the lock: the index as it was read, both files complete, HEAD on the branch, at the base or the commit. */
  ghost predicate Settled(before: seq<Site>, trace: seq<Site>, r: Request, j: Journal, original: Index,
                          branch: string) {
    && Saw(before, trace, IndexIs(original)) && SawFiles(before, trace, r) && Saw(before, trace, OnBranch(branch))
    && (Saw(before, trace, HeadAt(j.base)) || (j.commit.Some? && Saw(before, trace, HeadAt(j.commit.value))))
  }

  lemma SettledGrows(before: seq<Site>, later: seq<Site>, trace: seq<Site>, more: seq<Site>, r: Request, j: Journal,
                     original: Index, branch: string)
    requires |before| <= |later| && trace <= more && Settled(later, trace, r, j, original, branch)
    ensures Settled(before, more, r, j, original, branch)
  {
    hide Saw, SawFiles;
    SawGrows(before, later, trace, more, IndexIs(original));
    SawFilesGrows(before, later, trace, more, r);
    SawGrows(before, later, trace, more, OnBranch(branch));
    SawGrows(before, later, trace, more, HeadAt(j.base));
    if j.commit.Some? { SawGrows(before, later, trace, more, HeadAt(j.commit.value)); }
  }

  /** The looks under the lock. The answer says whether the branch is still at the base. */
  method LookAgain(w: Checkout, r: Request, original: Index, m: Mode) returns (o: Outcome<bool>)
    requires Sound(w) && r.operation in w.journals && w.journals[r.operation].request == r
    requires w.journals[r.operation].commit.Some?
    modifies w`site, w`trace, w`failures
    ensures o.Fine? ==> w.failures == old(w.failures)
    ensures Sound(w) && old(w.site.graph) <= w.site.graph && (!m.outside ==> w.site == old(w.site))
            && Spared(old(w.site), w.site, m)
    ensures old(w.trace) + [old(w.site)] <= w.trace
    ensures o.Fine? ==> Settled(old(w.trace), w.trace, r, w.journals[r.operation], original, w.branch)
    ensures m.polite && old(Locked(w.site)) && o.Fine? ==> w.site.index == original
    ensures !m.outside && old(Ready(w, r)) && o.Fine? ==>
              Head(w.site) == Some(if o.value then w.journals[r.operation].base
                                   else w.journals[r.operation].commit.value)
    ensures !m.outside && !m.faults && old(Ready(w, r) && w.site.index == original) ==> o.Fine?
  {
    hide Sound, Ready, Whole, Saw, SawFiles, SawChange;
    var j := w.journals[r.operation];
    if Ready(w, r) { ReadyLook(w, r); }
    var _ :- Go(w, m, "workspace_index_changed");
    if w.site.index != original { return Error("workspace_index_changed"); }
    SeesIndex(old(w.trace), w.trace, original);
    ghost var t1 := w.trace;
    var _ :- VerifyFiles(w, r, m);
    ghost var t2 := w.trace;
    var head :- LookHead(w, r, m);
    SawGrows(old(w.trace), old(w.trace), t1, w.trace, IndexIs(original));
    SawFilesGrows(old(w.trace), t1, t2, w.trace, r);
    SawGrows(old(w.trace), t2, w.trace, w.trace, HeadAt(head));
    SawGrows(old(w.trace), t2, w.trace, w.trace, OnBranch(w.branch));
    return Fine(head == j.base);
  }

  /** `rev-parse HEAD` and `symbolic-ref HEAD`. */
  method LookHead(w: Checkout, r: Request, m: Mode) returns (o: Outcome<nat>)
    requires Sound(w) && r.operation in w.journals && w.journals[r.operation].commit.Some?
    modifies w`site, w`trace, w`failures
    ensures o.Fine? ==> w.failures == old(w.failures)
    ensures Sound(w) && old(w.site.graph) <= w.site.graph && (!m.outside ==> w.site == old(w.site))
            && Spared(old(w.site), w.site, m)
    ensures old(w.trace) <= w.trace
    ensures o.Fine? ==> (o.value == w.journals[r.operation].base || Some(o.value) == w.journals[r.operation].commit)
                        && Saw(old(w.trace), w.trace, HeadAt(o.value)) && Saw(old(w.trace), w.trace, OnBranch(w.branch))
    ensures !m.outside && o.Fine? ==> Head(w.site) == Some(o.value)
    ensures (!m.outside && !m.faults && w.site.head == Some(w.branch)
             && (Head(w.site) == Some(w.journals[r.operation].base)
                 || Head(w.site) == w.journals[r.operation].commit)) ==>
                  o.Fine?
  {
    hide Sound, Saw;
    var j := w.journals[r.operation];
    var _ :- Go(w, m, "handoff_git_failed");
    var current := Head(w.site);
    if current.None? { return Error("handoff_git_failed"); }
    SeesHead(old(w.trace), w.trace, current.value);
    if current.value != j.base && current != j.commit { return Error("workspace_changed"); }
    ghost var t1 := w.trace;
    var _ :- Go(w, m, "handoff_git_failed");
    SawGrows(old(w.trace), old(w.trace), t1, w.trace, HeadAt(current.value));
    if w.site.head != Some(w.branch) { return Error("workspace_changed"); }
    SeesBranch(old(w.trace), w.trace, w.branch);
    return Fine(current.value);
  }

  lemma ReadyLook(w: Checkout, r: Request)
    requires Ready(w, r) && r.operation in w.journals && w.journals[r.operation].commit.Some?
    ensures w.site.head == Some(w.branch) && Whole(w.site.files, r)
    ensures Head(w.site) == Some(w.journals[r.operation].base) || Head(w.site) == w.journals[r.operation].commit
  {
    hide Resumable, Whole;
    ResumeBound(w.site, w.journals, r, w.branch, w.remote);
    ResumeWhole(w.site, w.journals, r, w.branch, w.remote);
  }

  /** The steps under the index lock; the caller drops the lock if this fails. Nothing is moved before the looks. */
  method Guarded(w: Checkout, r: Request, original: Index, m: Mode) returns (o: Outcome<()>)
    requires Sound(w) && r.operation in w.journals && w.journals[r.operation].request == r
    requires w.journals[r.operation].commit.Some?
    modifies w`site, w`trace, w`failures, w`acts
    ensures o.Fine? ==> w.failures == old(w.failures)
    ensures Sound(w) && old(w.site.graph) <= w.site.graph && OnlyBy(old(w.acts), w.acts, r.operation)
    ensures old(w.trace) + [old(w.site)] <= w.trace && (o.Fine? ==> w.site.lock.None?)
    ensures o.Fine? || w.acts != old(w.acts) ==>
              Settled(old(w.trace), w.trace, r, w.journals[r.operation], original, w.branch)
    ensures m.polite && old(Locked(w.site)) && o.Fine? ==>
              w.journals[r.operation].commit.value < |w.site.graph|
              && RenamesLast(w.trace, w.site, original, w.site.graph[w.journals[r.operation].commit.value].tree)
    ensures !m.outside && old(Ready(w, r) && Locked(w.site)) ==>
              Ready(w, r) && (o.Fine? ==> AtCommit(w.site, w.branch, w.journals[r.operation].commit.value))
              && w.site.upstream == old(w.site.upstream) && (!m.faults && old(w.site.index == original) ==> o.Fine?)
  {
    hide Sound, Ready, OnlyBy, AtCommit, Settled, RenamesLast;
    NoActs(w.acts, r.operation);
    var behind :- LookAgain(w, r, original, m);
    ghost var t1 := w.trace;
    o := Swap(w, r, behind, original.stamp + 1, m);
    SettledGrows(old(w.trace), old(w.trace), t1, w.trace, r, w.journals[r.operation], original, w.branch);
  }

  ghost predicate Locked(s: Site) { s.lock.Some? && s.lock.value.ours }

  ghost predicate AtCommit(s: Site, branch: string, sha: nat) {
    && branch in s.branches && s.branches[branch] == sha && sha < |s.graph| && s.index.tree == s.graph[sha].tree
    && s.lock.None?
  }

  /** Write the new index into the lock file, move the branch by compare-and-set, rename the lock file into place. */
  method Swap(w: Checkout, r: Request, behind: bool, stamp: nat, m: Mode) returns (o: Outcome<()>)
    requires Sound(w) && r.operation in w.journals && w.journals[r.operation].request == r
    requires w.journals[r.operation].commit.Some?
    modifies w`site, w`trace, w`failures, w`acts
    ensures o.Fine? ==> w.failures == old(w.failures)
    ensures Sound(w) && old(w.site.graph) <= w.site.graph && OnlyBy(old(w.acts), w.acts, r.operation)
    ensures old(w.trace) <= w.trace && (o.Fine? ==> w.site.lock.None?)
    ensures m.polite && old(Locked(w.site)) && o.Fine? ==>
              w.journals[r.operation].commit.value < |w.site.graph|
              && RenamesLast(w.trace, w.site, old(w.site.index),
                             w.site.graph[w.journals[r.operation].commit.value].tree)
    ensures !m.outside && old(Ready(w, r) && Locked(w.site)
              && Head(w.site) == Some(if behind
                 then w.journals[r.operation].base else w.journals[r.operation].commit.value)) ==>
              Ready(w, r) && (o.Fine? ==> AtCommit(w.site, w.branch, w.journals[r.operation].commit.value))
              && w.site.upstream == old(w.site.upstream) && (!m.faults ==> o.Fine?)
  {
    hide Sound, Resumable, OnlyBy, JournalOk, Books, Ready, RenamesLast;
    var op := r.operation;
    var sha := w.journals[op].commit.value;
    ghost var quiet := !m.outside && Ready(w, r) && Locked(w.site)
                       && Head(w.site) == Some(if behind then w.journals[op].base else sha);
    NoActs(w.acts, op);
    CommitHere(w, op);
    if quiet { ReadyBound(w, r); }
    var _ :- Go(w, m, "handoff_git_failed");
    WriteLock(w, r, Index(w.site.graph[sha].tree, stamp));
    var _ :- Go(w, m, "handoff_git_failed");
    o := Exchange(w, r, behind, m);
  }

  /** With the new index in the lock file: the branch, then the rename. */
  method Exchange(w: Checkout, r: Request, behind: bool, m: Mode) returns (o: Outcome<()>)
    requires Sound(w) && r.operation in w.journals && w.journals[r.operation].request == r
    requires w.journals[r.operation].commit.Some? && w.journals[r.operation].commit.value < |w.site.graph|
    modifies w`site, w`trace, w`failures, w`acts
    ensures o.Fine? ==> w.failures == old(w.failures)
    ensures Sound(w) && old(w.site.graph) <= w.site.graph && OnlyBy(old(w.acts), w.acts, r.operation)
    ensures old(w.trace) <= w.trace && (o.Fine? ==> w.site.lock.None?)
    ensures m.polite && old(Locked(w.site)) && o.Fine? ==>
              RenamesLast(w.trace, w.site, old(w.site.index), old(w.site.lock.value.content.tree))
    ensures !m.outside && old(Ready(w, r) && Locked(w.site)
              && w.site.lock.value.content.tree == w.site.graph[w.journals[r.operation].commit.value].tree
              && w.branch in w.site.branches
              && w.site.branches[w.branch] == (if behind
                 then w.journals[r.operation].base else w.journals[r.operation].commit.value)) ==>
              Ready(w, r) && (o.Fine? ==> AtCommit(w.site, w.branch, w.journals[r.operation].commit.value))
              && w.site.upstream == old(w.site.upstream) && (!m.faults ==> o.Fine?)
  {
    hide Sound, Resumable, OnlyBy, JournalOk, Books, Ready, Anc;
    NoActs(w.acts, r.operation);
    if behind {
      var moved := UpdateRef(w, r, m);
      if !moved.Fine? { return moved; }
    }
    CommitHere(w, r.operation);
    o := Publish(w, r, m);
  }

  lemma ReadyBound(w: Checkout, r: Request)
    requires Ready(w, r)
    ensures w.site.head == Some(w.branch) && w.branch in w.site.branches
  {
    ResumeBound(w.site, w.journals, r, w.branch, w.remote);
  }

  method WriteLock(w: Checkout, r: Request, content: Index)
    requires Sound(w) && r.operation in w.journals
    modifies w`site
    ensures Sound(w) && w.site == old(w.site).(lock := w.site.lock)
    ensures old(Locked(w.site)) ==> w.site.lock == Some(IndexLock(true, content))
    ensures old(Ready(w, r)) ==> Ready(w, r)
  {
    hide Resumable, Books;
    ghost var s0 := w.site;
    if w.site.lock.Some? && w.site.lock.value.ours {
      w.site := w.site.(lock := Some(IndexLock(true, content)));
    }
    if Resumable(s0, w.journals, r, w.branch, w.remote) { ResumeGrows(s0, w.site, w.journals, r, w.branch, w.remote); }
  }

  /** `update-ref branch commit base`. */
  method UpdateRef(w: Checkout, r: Request, m: Mode) returns (o: Outcome<()>)
    requires Sound(w) && r.operation in w.journals && w.journals[r.operation].request == r
    requires w.journals[r.operation].commit.Some?
    modifies w`site, w`trace, w`failures, w`acts
    ensures o.Fine? ==> w.failures == old(w.failures)
    ensures Sound(w) && old(w.site.graph) <= w.site.graph && OnlyBy(old(w.acts), w.acts, r.operation)
    ensures old(w.trace) <= w.trace && Spared(old(w.site), w.site, m)
    ensures !m.outside && w.branch in old(w.site.branches)
            && old(w.site.branches)[w.branch] == w.journals[r.operation].base ==>
              w.site == old(w.site).(branches := old(w.site.branches)[w.branch := w.journals[r.operation].commit.value])
              && (old(Ready(w, r)) ==> Ready(w, r)) && (!m.faults ==> o.Fine?)
  {
    hide Resumable, Books, JournalOk;
    var op := r.operation;
    var j := w.journals[op];
    NoActs(w.acts, op);
    CommitHere(w, op);
    if w.branch !in w.site.branches || w.site.branches[w.branch] != j.base { return Error("handoff_git_failed"); }
    ghost var s0 := w.site;
    ghost var a := Moved(op, w.branch, w.site.branches[w.branch], j.commit.value);
    BooksAct(w.site.graph, w.journals, w.acts, a, w.branch);
    w.site := w.site.(branches := w.site.branches[w.branch := j.commit.value]);
    w.acts := w.acts + [a];
    if Resumable(s0, w.journals, r, w.branch, w.remote) { ResumeMoved(s0, w.site, w.journals, r, w.branch, w.remote); }
    o := Go(w, m, "handoff_git_failed");
  }

  /** `publish`: the lock file, whatever it holds by now, becomes the index. */
  method Publish(w: Checkout, r: Request, m: Mode) returns (o: Outcome<()>)
    requires Sound(w) && r.operation in w.journals && w.journals[r.operation].commit.Some?
    requires w.journals[r.operation].commit.value < |w.site.graph|
    modifies w`site, w`trace, w`failures
    ensures o.Fine? ==> w.failures == old(w.failures)
    ensures Sound(w) && old(w.site.graph) <= w.site.graph
    ensures old(w.trace) <= w.trace && (o.Fine? ==> w.site.lock.None?)
    ensures m.polite && old(Locked(w.site)) && o.Fine? ==>
              RenamesLast(w.trace, w.site, old(w.site.index), old(w.site.lock.value.content.tree))
    ensures !m.outside
            && old(w.site.lock.Some?
                   && w.site.lock.value.content.tree == w.site.graph[w.journals[r.operation].commit.value].tree) ==>
              (w.site == old(w.site) || w.site == old(w.site).(index := old(w.site.lock.value.content), lock := None))
              && (o.Fine? ==> w.site.index == old(w.site.lock.value.content))
              && (old(Ready(w, r)) ==> Ready(w, r)) && (!m.faults ==> o.Fine?)
  {
    hide Resumable, Books;
    var _ :- Go(w, m, "handoff_index_publish_failed");
    if w.site.lock.None? { return Error("handoff_index_publish_failed"); }
    ghost var s0 := w.site;
    w.site := w.site.(index := w.site.lock.value.content, lock := None);
    var sha := w.journals[r.operation].commit.value;
    if sha < |s0.graph| && w.site.index.tree == s0.graph[sha].tree && Resumable(s0, w.journals, r, w.branch, w.remote) {
      ResumePublished(s0, w.site, w.journals, r, w.branch, w.remote);
    }
    return Fine(());
  }

  lemma CommitHere(w: Checkout, op: string)
    requires Sound(w) && op in w.journals && w.journals[op].commit.Some?
    ensures w.journals[op].commit.value < |w.site.graph| && w.journals[op].base < |w.site.graph|
  {
    JournalHere(w, op);
  }

  const EMPTY_LOCK := IndexLock(true, Index(map[], 0))

  /** `create_new` of the lock file. */
  method TakeLock(w: Checkout, r: Request, m: Mode) returns (o: Outcome<()>)
    requires Sound(w) && r.operation in w.journals
    modifies w`site, w`trace, w`failures
    ensures o.Fine? ==> w.failures == old(w.failures)
    ensures Sound(w) && old(w.site.graph) <= w.site.graph && old(w.trace) <= w.trace
    ensures o.Fine? ==> |old(w.trace)| < |w.trace| && w.trace[|w.trace| - 1].lock.None?
                        && w.site == w.trace[|w.trace| - 1].(lock := Some(EMPTY_LOCK))
    ensures !m.outside ==> w.site == if o.Fine? then old(w.site).(lock := Some(EMPTY_LOCK)) else old(w.site)
    ensures !m.outside && old(w.site.lock.Some?) ==> !o.Fine?
    ensures !m.outside && old(Ready(w, r)) ==> Ready(w, r)
    ensures !m.outside && !m.faults && old(w.site.lock.None?) ==> o.Fine?
  {
    hide Resumable, Books, Spared;
    ghost var quiet := !m.outside && Ready(w, r);
    var _ :- Go(w, m, "handoff_git_failed");
    var _ :- Go(w, m, "workspace_busy");
    if w.site.lock.Some? { return Error("workspace_busy"); }
    ghost var s0 := w.site;
    w.site := w.site.(lock := Some(EMPTY_LOCK));
    if quiet { ResumeGrows(s0, w.site, w.journals, r, w.branch, w.remote); }
    return Fine(());
  }

  /** The guard removes the lock file. */
  method GiveBack(w: Checkout, r: Request)
    requires Sound(w) && r.operation in w.journals
    modifies w`site
    ensures Sound(w) && w.site == old(w.site).(lock := None) && (old(Ready(w, r)) ==> Ready(w, r))
  {
    hide Resumable, Books;
    ghost var s1 := w.site;
    w.site := w.site.(lock := None);
    if Resumable(s1, w.journals, r, w.branch, w.remote) { ResumeGrows(s1, w.site, w.journals, r, w.branch, w.remote); }
  }

  /** Publication: take Git's index lock, swap branch and index, give the lock up if it was not used. */
  method Land(w: Checkout, r: Request, original: Index, m: Mode) returns (o: Outcome<()>)
    requires Sound(w) && r.operation in w.journals && w.journals[r.operation].request == r
    requires w.journals[r.operation].commit.Some?
    modifies w`site, w`trace, w`failures, w`acts
    ensures o.Fine? ==> w.failures == old(w.failures)
    ensures Sound(w) && old(w.site.graph) <= w.site.graph && OnlyBy(old(w.acts), w.acts, r.operation)
            && old(w.trace) <= w.trace
    // the lock is taken only if nobody holds it, and everything else comes after that
    ensures o.Fine? || w.acts != old(w.acts) ==>
              LockedIn(old(w.trace), w.trace)
              && Settled(old(w.trace), w.trace, r, w.journals[r.operation], original, w.branch)
    ensures !m.outside && old(w.site.lock.Some?) ==> !o.Fine? && w.site == old(w.site) && w.acts == old(w.acts)
    // an error gives it back
    ensures !m.outside && o.Error? ==> w.site.lock == old(w.site.lock)
    // polite writers lose nothing they staged: the index replaced is the one that was read
    ensures m.polite && o.Fine? ==>
              w.journals[r.operation].commit.value < |w.site.graph|
              && Renamed(old(w.trace), w.trace, original, w.site.graph[w.journals[r.operation].commit.value].tree)
    ensures !m.outside && old(Ready(w, r)) ==>
              Ready(w, r) && (o.Fine? ==> AtCommit(w.site, w.branch, w.journals[r.operation].commit.value))
              && w.site.upstream == old(w.site.upstream)
              && (!m.faults && old(w.site.index == original && w.site.lock.None?) ==> o.Fine?)
  {
    hide Sound, Ready, OnlyBy, AtCommit, Settled, RenamesLast, Renamed, LockedIn, Spared;
    NoActs(w.acts, r.operation);
    var _ :- TakeLock(w, r, m);
    ghost var t0, s0 := w.trace, w.site;
    o := Guarded(w, r, original, m);
    ghost var t1, s1 := w.trace, w.site;
    TakenNow(old(w.trace), t0, t1, s0);
    if o.Fine? || w.acts != old(w.acts) {
      SettledGrows(old(w.trace), t0, t1, t1, r, w.journals[r.operation], original, w.branch);
    }
    if o.Error? { GiveBack(w, r); }
    if o.Fine? {
      o := Go(w, m, "handoff_index_publish_failed");
      SettledGrows(old(w.trace), old(w.trace), t1, w.trace, r, w.journals[r.operation], original, w.branch);
      LockedGrows(old(w.trace), t1, w.trace);
      if m.polite {
        RenamedNow(old(w.trace), t1, w.trace, s1, original, s1.graph[w.journals[r.operation].commit.value].tree);
      }
    }
  }

  lemma TakenNow(before: seq<Site>, trace: seq<Site>, more: seq<Site>, s: Site)
    requires |before| < |trace| && trace[|trace| - 1].lock.None? && s == trace[|trace| - 1].(lock := Some(EMPTY_LOCK))
    requires trace + [s] <= more
    ensures LockedIn(before, more)
  {
    var k := |trace| - 1;
    assert more[k] == (trace + [s])[k] && more[k + 1] == (trace + [s])[k + 1];
    assert LockAt(more, k);
  }

  lemma RenamedNow(before: seq<Site>, trace: seq<Site>, more: seq<Site>, s: Site, original: Index, tree: Tree)
    requires |before| < |trace| && RenamesLast(trace, s, original, tree) && trace + [s] <= more
    ensures Renamed(before, more, original, tree)
  {
    var k := |trace| - 1;
    assert (trace + [s])[k] == more[k] && (trace + [s])[k + 1] == more[k + 1];
    assert RenameAt(more, k, original, tree);
  }

  /** The last act is a push of the commit, from where the remote branch was. */
  ghost predicate PushesNow(before: seq<Site>, trace: seq<Site>, acts: seq<Act>, op: string, sha: nat) {
    && acts != [] && PushOf(acts[|acts| - 1], op, sha)
    && exists k: nat :: |before| <= k && PushAt(trace, k, sha) && trace[k].upstream == acts[|acts| - 1].before
  }

  lemma PushesGrows(before: seq<Site>, later: seq<Site>, trace: seq<Site>, more: seq<Site>, acts: seq<Act>, op: string,
                    sha: nat)
    requires |before| <= |later| && trace <= more && PushesNow(later, trace, acts, op, sha)
    ensures PushesNow(before, more, acts, op, sha)
  {
    var k: nat :| |later| <= k && PushAt(trace, k, sha) && trace[k].upstream == acts[|acts| - 1].before;
    assert more[k] == trace[k] && more[k + 1] == trace[k + 1];
    assert PushAt(more, k, sha);
  }

  /** The remote takes the commit. */
  method Extend(w: Checkout, r: Request, sha: nat)
    requires Sound(w) && r.operation in w.journals && w.journals[r.operation].request == r
    requires w.journals[r.operation].commit == Some(sha) && sha < |w.site.graph|
    requires w.site.upstream.Some? ==> Anc(w.site.graph, w.site.upstream.value, sha)
    modifies w`site, w`acts
    ensures Sound(w) && w.site == old(w.site).(upstream := Some(sha))
    ensures w.acts == old(w.acts) + [Act.Pushed(r.operation, sha, old(w.site.upstream))]
    ensures old(Ready(w, r)) ==> Ready(w, r)
  {
    hide Resumable, Books, JournalOk, Anc;
    ghost var s0 := w.site;
    ghost var a := Act.Pushed(r.operation, sha, w.site.upstream);
    BooksAct(w.site.graph, w.journals, w.acts, a, w.branch);
    w.site := w.site.(upstream := Some(sha));
    w.acts := w.acts + [a];
    if Resumable(s0, w.journals, r, w.branch, w.remote) { ResumePushed(s0, w.site, w.journals, r, w.branch, w.remote); }
  }

  /** `push remote sha:branch`: a fast-forward, or nothing. */
  method PushCommit(w: Checkout, r: Request, m: Mode) returns (o: Outcome<()>)
    requires Sound(w) && r.operation in w.journals && w.journals[r.operation].request == r
    requires w.journals[r.operation].commit.Some?
    modifies w`site, w`trace, w`failures, w`acts
    ensures o.Fine? ==> w.failures == old(w.failures)
    ensures Sound(w) && old(w.site.graph) <= w.site.graph && OnlyBy(old(w.acts), w.acts, r.operation)
            && old(w.trace) <= w.trace
    ensures o.Fine? ==> w.acts != old(w.acts)
    ensures w.acts != old(w.acts) ==>
              |w.acts| == |old(w.acts)| + 1
              && PushesNow(old(w.trace), w.trace, w.acts, r.operation, w.journals[r.operation].commit.value)
    ensures !m.outside && old(Ready(w, r)) ==>
              Ready(w, r) && w.site == old(w.site).(upstream := w.site.upstream)
              && (o.Fine? ==> w.site.upstream == w.journals[r.operation].commit) && (!m.faults ==> o.Fine?)
  {
    hide Ready, Sound, Anc, Spared, PushesNow;
    var op := r.operation;
    var sha := w.journals[op].commit.value;
    NoActs(w.acts, op);
    SoundSite(w);
    CommitHere(w, op);
    if Ready(w, r) { ReadyPush(w, r); }
    var _ :- Go(w, m, "handoff_git_failed");
    SoundSite(w);
    CommitHere(w, op);
    if w.site.upstream.Some? && !Anc(w.site.graph, w.site.upstream.value, sha) { return Error("handoff_git_failed"); }
    ghost var s0, t0 := w.site, w.trace;
    Extend(w, r, sha);
    ghost var s1 := w.site;
    o := Go(w, m, "handoff_git_failed");
    PushedNow(old(w.trace), t0, w.trace, s0, s1, w.acts, op, sha);
  }

  lemma ReadyPush(w: Checkout, r: Request)
    requires SiteOk(w.site) && Ready(w, r) && r.operation in w.journals && w.journals[r.operation].commit.Some?
    ensures w.journals[r.operation].commit.value < |w.site.graph|
    ensures w.site.upstream.Some? ==> Anc(w.site.graph, w.site.upstream.value, w.journals[r.operation].commit.value)
  {
    hide Resumable;
    ResumePush(w.site, w.journals, r, w.branch, w.remote);
  }

  lemma PushedNow(before: seq<Site>, trace: seq<Site>, more: seq<Site>, a: Site, b: Site, acts: seq<Act>, op: string,
                  sha: nat)
    requires |before| < |trace| && trace[|trace| - 1] == a && trace + [b] <= more && SiteOk(a) && sha < |a.graph|
    requires b == a.(upstream := Some(sha)) && (a.upstream.Some? ==> Anc(a.graph, a.upstream.value, sha))
    requires acts != [] && acts[|acts| - 1] == Act.Pushed(op, sha, a.upstream)
    ensures PushesNow(before, more, acts, op, sha)
  {
    hide Anc;
    var k := |trace| - 1;
    assert more[k] == (trace + [b])[k] && more[k + 1] == (trace + [b])[k + 1];
    assert PushAt(more, k, sha);
  }

  /** Push the journaled commit, unless the journal says that it was pushed; then record that it is there. */
  method Send(w: Checkout, r: Request, m: Mode) returns (o: Outcome<()>)
    requires Sound(w) && r.operation in w.journals && w.journals[r.operation].request == r
    requires w.journals[r.operation].commit.Some?
    modifies w`site, w`trace, w`failures, w`acts, w`journals
    ensures o.Fine? ==> w.failures == old(w.failures)
    ensures Sound(w) && old(w.site.graph) <= w.site.graph && OnlyBy(old(w.acts), w.acts, r.operation)
            && old(w.trace) <= w.trace
    ensures Later(old(w.journals), w.journals, r.operation)
    ensures o.Fine? ==> w.journals == old(w.journals)[r.operation := old(w.journals[r.operation]).(pushed := true)]
    ensures w.acts != old(w.acts) ==>
              |w.acts| == |old(w.acts)| + 1
              && PushesNow(old(w.trace), w.trace, w.acts, r.operation, old(w.journals[r.operation].commit.value))
    ensures w.journals != old(w.journals) ==> w.acts != old(w.acts)
    ensures !m.outside && old(Ready(w, r)) ==>
              Ready(w, r) && w.site == old(w.site).(upstream := w.site.upstream)
              && (o.Fine? ==> w.site.upstream == old(w.journals[r.operation].commit)) && (!m.faults ==> o.Fine?)
  {
    hide Sound, Resumable, JournalOk, Later, OnlyBy;
    var op := r.operation;
    var j := w.journals[op];
    NoActs(w.acts, op);
    SameJournals(w.journals, op);
    if Ready(w, r) { ReadyPushed(w, r); }
    if j.pushed {
      assert w.journals == w.journals[op := j.(pushed := true)];
      return Fine(());
    }
    var _ :- PushCommit(w, r, m);
    ghost var t1 := w.trace;
    PushedJournal(w, op);
    if Ready(w, r) && w.site.upstream == j.commit { ReadyMarked(w, r); }
    o := Save(w, op, j.(pushed := true), m);
    PushesGrows(old(w.trace), old(w.trace), t1, w.trace, w.acts, op, j.commit.value);
  }

  lemma ReadyPushed(w: Checkout, r: Request)
    requires Ready(w, r) && r.operation in w.journals && w.journals[r.operation].commit.Some?
    ensures w.journals[r.operation].pushed ==> w.site.upstream == w.journals[r.operation].commit
  {
    hide Resumable;
    ResumePush(w.site, w.journals, r, w.branch, w.remote);
  }

  lemma ReadyMarked(w: Checkout, r: Request)
    requires Ready(w, r) && r.operation in w.journals && w.journals[r.operation].commit.Some?
    requires w.site.upstream == w.journals[r.operation].commit
    ensures Resumable(w.site, w.journals[r.operation := w.journals[r.operation].(pushed := true)], r, w.branch,
                      w.remote)
  {
    hide Midway;
    assert w.site == w.site.(upstream := w.journals[r.operation].commit);
    ResumePushed(w.site, w.site, w.journals, r, w.branch, w.remote);
  }

  lemma PushedJournal(w: Checkout, op: string)
    requires Sound(w) && op in w.journals && w.journals[op].commit.Some?
    requires w.acts != [] && PushOf(w.acts[|w.acts| - 1], op, w.journals[op].commit.value)
    ensures JournalOk(op, w.journals[op].(pushed := true), w.site.graph)
            && Backs(op, w.journals[op].(pushed := true), w.acts)
  {
    hide CommitOf, Refusal;
    JournalHere(w, op);
  }

  /** The receipt is the last thing recorded, and the journal bears it out. */
  ghost predicate Receipted(w: Checkout, r: Request, rc: Receipt)
    reads w`journals, w`acts
  {
    && r.operation in w.journals && w.journals[r.operation].request == r
    && w.journals[r.operation].commit == Some(rc.sha)
    && w.journals[r.operation].pushed && w.acts != [] && w.acts[|w.acts| - 1] == Answered(rc)
    && rc.operation == r.operation && rc.run == r.run && rc.generation == r.generation && rc.pushed
  }

  ghost predicate Landing(w: Checkout, rc: Receipt)
    reads w`site
  {
    Landed(w.site, w.branch, rc.sha) && !rc.dirty
  }

  /** Nothing dirty, HEAD at the commit, both files complete. */
  ghost predicate SawCalm(before: seq<Site>, trace: seq<Site>, r: Request, sha: nat) {
    Saw(before, trace, NothingDirty) && Saw(before, trace, HeadAt(sha)) && SawFiles(before, trace, r)
  }

  /** Something was dirty, HEAD elsewhere, or a file missing or different. */
  ghost predicate SawUnrest(before: seq<Site>, trace: seq<Site>, r: Request, sha: nat) {
    SawNot(before, trace, NothingDirty) || SawNot(before, trace, HeadAt(sha)) || SawChange(before, trace, r)
  }

  lemma SawCalmGrows(before: seq<Site>, later: seq<Site>, trace: seq<Site>, more: seq<Site>, r: Request, sha: nat)
    requires |before| <= |later| && trace <= more && SawCalm(later, trace, r, sha)
    ensures SawCalm(before, more, r, sha)
  {
    hide Saw, SawFiles;
    SawGrows(before, later, trace, more, NothingDirty);
    SawGrows(before, later, trace, more, HeadAt(sha));
    SawFilesGrows(before, later, trace, more, r);
  }

  /** The last looks: is anything dirty? */
  method LastLook(w: Checkout, r: Request, sha: nat, m: Mode) returns (o: Outcome<bool>)
    requires Sound(w)
    modifies w`site, w`trace, w`failures
    ensures o.Fine? && !o.value ==> w.failures == old(w.failures)
    ensures Sound(w) && old(w.site.graph) <= w.site.graph && (!m.outside ==> w.site == old(w.site))
            && old(w.trace) <= w.trace
    ensures o.Fine? && !o.value ==> SawCalm(old(w.trace), w.trace, r, sha)
    ensures !m.faults && o.Fine? && o.value ==> SawUnrest(old(w.trace), w.trace, r, sha)
    ensures !m.faults ==> o.Fine?
    ensures !m.outside && !m.faults && Status(w.site) == {} && Head(w.site) == Some(sha) && Whole(w.site.files, r) ==>
              !o.value
  {
    hide Sound, Status, Whole, Saw, SawNot, SawFiles, SawChange, Spared;
    var _ :- Go(w, m, "handoff_git_failed");
    var dirty := Status(w.site) != {};
    SeesClean(old(w.trace), w.trace, dirty);
    if dirty { return Fine(true); }
    ghost var t1 := w.trace;
    var _ :- Go(w, m, "handoff_git_failed");
    SawGrows(old(w.trace), old(w.trace), t1, w.trace, NothingDirty);
    SeesHead(old(w.trace), w.trace, sha);
    if Head(w.site) != Some(sha) { return Fine(true); }
    ghost var t2 := w.trace;
    var verified := VerifyFiles(w, r, m);
    SawGrows(old(w.trace), old(w.trace), t2, w.trace, NothingDirty);
    SawGrows(old(w.trace), old(w.trace), t2, w.trace, HeadAt(sha));
    SawFilesGrows(old(w.trace), t2, w.trace, w.trace, r);
    if verified.Died? { return Died; }
    return Fine(!verified.Fine?);
  }

  /** The last look, and the receipt. */
  method Answer(w: Checkout, r: Request, m: Mode) returns (o: Outcome<Receipt>)
    requires Sound(w) && r.operation in w.journals && w.journals[r.operation].request == r
    requires w.journals[r.operation].commit.Some? && w.journals[r.operation].pushed
    modifies w`site, w`trace, w`failures, w`acts
    ensures o.Fine? && !o.value.dirty ==> w.failures == old(w.failures)
    ensures Sound(w) && old(w.site.graph) <= w.site.graph && OnlyBy(old(w.acts), w.acts, r.operation)
    ensures !m.outside ==> w.site == old(w.site)
    ensures old(w.trace) <= w.trace
    ensures o.Fine? ==> Receipted(w, r, o.value)
    ensures o.Fine? && !o.value.dirty ==> SawCalm(old(w.trace), w.trace, r, o.value.sha)
    ensures !m.faults && o.Fine? && o.value.dirty ==> SawUnrest(old(w.trace), w.trace, r, o.value.sha)
    ensures !m.outside && !m.faults ==> o.Fine?
    ensures !m.outside && !m.faults && Landed(w.site, w.branch, w.journals[r.operation].commit.value)
            && Whole(w.site.files, r) ==>
              !o.value.dirty
  {
    hide Books, Status, JournalOk, Whole, SawCalm, SawUnrest;
    var sha := w.journals[r.operation].commit.value;
    NoActs(w.acts, r.operation);
    var dirty :- LastLook(w, r, sha, m);
    var receipt := Receipt(r.operation, r.run, r.generation, sha, true, dirty);
    BooksAct(w.site.graph, w.journals, w.acts, Answered(receipt), w.branch);
    w.acts := w.acts + [Answered(receipt)];
    return Fine(receipt);
  }

  // ---- the call ----

  /** The commit was sealed: HEAD at the base, some index as it was read before, both files complete. */
  ghost predicate Certified(before: seq<Site>, trace: seq<Site>, r: Request, base: nat) {
    exists original :: Sealed(before, trace, r, base, original)
  }

  lemma CertifiedGrows(before: seq<Site>, later: seq<Site>, trace: seq<Site>, more: seq<Site>, r: Request, base: nat)
    requires |before| <= |later| && trace <= more && Certified(later, trace, r, base)
    ensures Certified(before, more, r, base)
  {
    hide Sealed;
    var original :| Sealed(later, trace, r, base, original);
    SealedGrows(before, later, trace, more, r, base, original);
  }

  /** The index that the commit's index replaced had been read in this call. */
  ghost predicate Replaced(before: seq<Site>, trace: seq<Site>, tree: Tree) {
    exists original :: Saw(before, trace, IndexIs(original)) && Renamed(before, trace, original, tree)
  }

  lemma ReplacedGrows(before: seq<Site>, later: seq<Site>, trace: seq<Site>, more: seq<Site>, tree: Tree)
    requires |before| <= |later| && trace <= more && Replaced(later, trace, tree)
    ensures Replaced(before, more, tree)
  {
    hide Saw, Renamed;
    var original :| Saw(later, trace, IndexIs(original)) && Renamed(later, trace, original, tree);
    SawGrows(before, later, trace, more, IndexIs(original));
    RenamedGrows(before, later, trace, more, original, tree);
  }

  /** What the trace of a successful call shows: the index lock taken, the index that was read replaced by the commit's
      if others are polite, and a calm workspace if the receipt says so. */
  ghost predicate Witnessed(before: seq<Site>, trace: seq<Site>, g: Graph, r: Request, rc: Receipt, m: Mode) {
    && LockedIn(before, trace)
    && (m.polite ==> rc.sha < |g| && Replaced(before, trace, g[rc.sha].tree))
    && (!rc.dirty ==> SawCalm(before, trace, r, rc.sha))
    && (!m.faults && rc.dirty ==> SawUnrest(before, trace, r, rc.sha))
  }

  lemma WitnessedGrows(before: seq<Site>, later: seq<Site>, trace: seq<Site>, g: Graph, r: Request, rc: Receipt,
                       m: Mode)
    requires before <= later <= trace && Witnessed(later, trace, g, r, rc, m)
    ensures Witnessed(before, trace, g, r, rc, m)
  {
    hide LockAt, Replaced, SawCalm, SawNot, SawChange;
    var k: nat :| |later| <= k && LockAt(trace, k);
    if m.polite { ReplacedGrows(before, later, trace, trace, g[rc.sha].tree); }
    if !rc.dirty { SawCalmGrows(before, later, trace, trace, r, rc.sha); }
    SawGrows(before, later, trace, trace, NothingDirty);
    SawGrows(before, later, trace, trace, HeadAt(rc.sha));
    SawFilesGrows(before, later, trace, trace, r);
  }

  /** Everything after the journal was read or started. Nothing is done unless HEAD is at the base or at the commit. */
  method Resume(w: Checkout, r: Request, head: nat, recovery: bool, m: Mode) returns (o: Outcome<Receipt>)
    requires Sound(w) && Refusal(r) == None && r.operation in w.journals && w.journals[r.operation].request == r
    modifies w`site, w`trace, w`failures, w`acts, w`journals
    ensures o.Fine? && !o.value.dirty ==> w.failures == old(w.failures)
    ensures Sound(w) && old(w.site.graph) <= w.site.graph && OnlyBy(old(w.acts), w.acts, r.operation)
    ensures Later(old(w.journals), w.journals, r.operation) && old(w.trace) <= w.trace
    ensures w.acts != old(w.acts) || w.journals != old(w.journals) ==>
              head == old(w.journals[r.operation].base) || Some(head) == old(w.journals[r.operation].commit)
    ensures Gained(old(w.journals), w.journals, r.operation) ==>
              Certified(old(w.trace), w.trace, r, old(w.journals[r.operation].base))
    ensures o.Fine? ==> Receipted(w, r, o.value) && Witnessed(old(w.trace), w.trace, w.site.graph, r, o.value, m)
    ensures !m.outside && old(Ready(w, r)) && old(Head(w.site)) == Some(head) ==>
              Ready(w, r) && (!m.faults && old(Unharmed(w.site, r) && (recovery || Absent(w.site.files, r))) ==>
                o.Fine? && Landing(w, o.value))
  {
    hide Sound, Ready, Resumable, OnlyBy, Refusal, Unharmed, Later, Absent, Calm, Receipted, Landing, Certified,
        Witnessed, Saw, SawTree, IndexStill, AtEither, Gained;
    var op := r.operation;
    var j := w.journals[op];
    ghost var a0, js0 := w.acts, w.journals;
    NoActs(w.acts, op);
    SameJournals(w.journals, op);
    NotGained(js0, js0, op);
    if Ready(w, r) { ReadyHead(w, r); }
    if head != j.base && Some(head) != j.commit { return Error("workspace_changed"); }
    var original :- CheckIndex(w, r, j, m);
    CalmMeans(w, r, recovery, original);
    UnharmedMeans(w.site, r);
    ghost var t1 := w.trace;
    var composed := EnsureCommit(w, r, recovery, original, m);
    ghost var a1, js1, t2 := w.acts, w.journals, w.trace;
    if Gained(js0, js1, op) { CertifiedGrows(old(w.trace), t1, t2, t2, r, j.base); }
    if !composed.Fine? { return composed.PropagateFailure(); }
    o := Deliver(w, r, original, m);
    ActsTrans(a0, a1, w.acts, op);
    LaterTrans(js0, js1, w.journals, op);
    GainedBefore(js0, js1, w.journals, op);
    if Gained(js0, js1, op) { CertifiedGrows(old(w.trace), old(w.trace), t2, w.trace, r, j.base); }
    if o.Fine? { WitnessedGrows(old(w.trace), t2, w.trace, w.site.graph, r, o.value, m); }
  }

  /** The commit is journaled, or is composed now. */
  method EnsureCommit(w: Checkout, r: Request, recovery: bool, original: Index, m: Mode) returns (o: Outcome<()>)
    requires Sound(w) && Refusal(r) == None && r.operation in w.journals && w.journals[r.operation].request == r
    modifies w`site, w`trace, w`failures, w`acts, w`journals
    ensures o.Fine? ==> w.failures == old(w.failures)
    ensures Sound(w) && old(w.site.graph) <= w.site.graph && OnlyBy(old(w.acts), w.acts, r.operation)
    ensures Later(old(w.journals), w.journals, r.operation) && old(w.trace) <= w.trace
    ensures Gained(old(w.journals), w.journals, r.operation) ==>
              Certified(old(w.trace), w.trace, r, old(w.journals[r.operation].base))
    ensures o.Fine? ==> r.operation in w.journals && w.journals[r.operation].request == r
                        && w.journals[r.operation].commit.Some?
    ensures !m.outside && old(Ready(w, r)) ==>
              Ready(w, r) && w.site == old(w.site).(graph := w.site.graph, files := w.site.files)
    ensures !m.outside && !m.faults && old(Calm(w, r, recovery, original)) ==> o.Fine?
  {
    hide Sound, Ready, OnlyBy, Refusal, Later, Calm, Certified, Saw, Sealed, Gained;
    var op := r.operation;
    ghost var js0 := w.journals;
    NoActs(w.acts, op);
    SameJournals(w.journals, op);
    NotGained(js0, js0, op);
    if w.journals[op].commit.Some? { return Fine(()); }
    var composed := Compose(w, r, recovery, original, m);
    if w.journals != js0 { CertifiedBy(old(w.trace), old(w.trace), w.trace, r, js0[op].base, original); }
    if !composed.Fine? { return composed.PropagateFailure(); }
    return Fine(());
  }

  /** The operation got its commit. */
  predicate Gained(a: map<string, Journal>, b: map<string, Journal>, op: string) {
    op in b && b[op].commit.Some? && (op in a ==> a[op].commit.None?)
  }

  lemma NotGained(a: map<string, Journal>, b: map<string, Journal>, op: string)
    requires op in a && op in b && (a == b || a[op].commit.Some?)
    ensures !Gained(a, b, op)
  {
  }

  lemma GainedBefore(a: map<string, Journal>, b: map<string, Journal>, c: map<string, Journal>, op: string)
    requires op in b && b[op].commit.Some? && Later(b, c, op)
    ensures Gained(a, c, op) ==> Gained(a, b, op)
  {
  }

  /** A journal that was just started has no commit yet. */
  lemma GainedAfter(a: map<string, Journal>, b: map<string, Journal>, c: map<string, Journal>, op: string)
    requires Later(b, c, op) && (b == a || (op !in a && op in b && b[op].commit.None?))
    ensures Gained(a, c, op) && op in b ==> Gained(b, c, op) && op in c && c[op].base == b[op].base
  {
  }

  lemma CertifiedBy(before: seq<Site>, later: seq<Site>, trace: seq<Site>, r: Request, base: nat, original: Index)
    requires |before| <= |later| && Sealed(later, trace, r, base, original)
    ensures Certified(before, trace, r, base)
  {
    hide Sealed;
    SealedGrows(before, later, trace, trace, r, base, original);
  }

  lemma ReadyHead(w: Checkout, r: Request)
    requires Ready(w, r) && r.operation in w.journals
    ensures Head(w.site) == Some(w.journals[r.operation].base) || Head(w.site) == w.journals[r.operation].commit
  {
    hide Resumable;
    ResumeBound(w.site, w.journals, r, w.branch, w.remote);
  }

  lemma ActsTrans(a: seq<Act>, b: seq<Act>, c: seq<Act>, op: string)
    requires OnlyBy(a, b, op) && OnlyBy(b, c, op)
    ensures OnlyBy(a, c, op)
  {
    forall i | |a| <= i < |c| ensures Operation(c[i]) == op {
      if i < |b| { assert c[i] == b[i]; }
    }
  }

  lemma CalmMeans(w: Checkout, r: Request, recovery: bool, original: Index)
    ensures Calm(w, r, recovery, original) <==>
            Ready(w, r) && Unharmed(w.site, r) && w.site.index == original && (recovery || Absent(w.site.files, r))
  {
  }

  /** With the commit journaled: publish it, push it, answer. */
  method Deliver(w: Checkout, r: Request, original: Index, m: Mode) returns (o: Outcome<Receipt>)
    requires Sound(w) && Refusal(r) == None && r.operation in w.journals && w.journals[r.operation].request == r
    requires w.journals[r.operation].commit.Some?
    modifies w`site, w`trace, w`failures, w`acts, w`journals
    ensures o.Fine? && !o.value.dirty ==> w.failures == old(w.failures)
    ensures Sound(w) && old(w.site.graph) <= w.site.graph && OnlyBy(old(w.acts), w.acts, r.operation)
    ensures Later(old(w.journals), w.journals, r.operation) && old(w.trace) <= w.trace
    ensures o.Fine? ==> Receipted(w, r, o.value) && Witnessed(old(w.trace), w.trace, w.site.graph, r, o.value, m)
    ensures !m.outside && old(Ready(w, r)) ==>
              Ready(w, r) && (!m.faults && old(w.site.index == original && w.site.lock.None?) ==>
                o.Fine? && Landing(w, o.value))
  {
    hide Sound, Ready, OnlyBy, Refusal, Later, Landed, Whole, LockedIn, Settled, Renamed, SawCalm, SawUnrest,
        PushesNow, Replaced;
    var op := r.operation;
    ghost var a0 := w.acts;
    NoActs(w.acts, op);
    SameJournals(w.journals, op);
    CommitHere(w, op);
    var _ :- Land(w, r, original, m);
    ghost var a1, t1, g1 := w.acts, w.trace, w.site.graph;
    CommitHere(w, op);
    var sent := Send(w, r, m);
    ghost var a2, t2 := w.acts, w.trace;
    ActsTrans(a0, a1, a2, op);
    if !sent.Fine? { return sent.PropagateFailure(); }
    CommitHere(w, op);
    if Ready(w, r) { ReadyLanded(w, r); }
    o := Answer(w, r, m);
    ActsTrans(a0, a2, w.acts, op);
    if o.Fine? {
      LockedGrows(old(w.trace), t1, w.trace);
      if m.polite { ReplacedBy(old(w.trace), t1, w.trace, original, g1[o.value.sha].tree); }
      if !o.value.dirty { SawCalmGrows(old(w.trace), t2, w.trace, w.trace, r, o.value.sha); }
      if !m.faults && o.value.dirty { SawUnrestGrows(old(w.trace), t2, w.trace, r, o.value.sha); }
    }
  }

  lemma SawUnrestGrows(before: seq<Site>, later: seq<Site>, trace: seq<Site>, r: Request, sha: nat)
    requires |before| <= |later| && SawUnrest(later, trace, r, sha)
    ensures SawUnrest(before, trace, r, sha)
  {
    hide SawNot, SawChange;
    SawGrows(before, later, trace, trace, NothingDirty);
    SawGrows(before, later, trace, trace, HeadAt(sha));
    SawFilesGrows(before, later, trace, trace, r);
  }

  lemma ReplacedBy(before: seq<Site>, trace: seq<Site>, more: seq<Site>, original: Index, tree: Tree)
    requires trace <= more && Renamed(before, trace, original, tree)
    ensures Replaced(before, more, tree)
  {
    RenamedGrows(before, before, trace, more, original, tree);
    var k: nat :| |before| <= k && RenameAt(more, k, original, tree);
    assert Shows(more[k], IndexIs(original));
  }

  /** Branch, index and remote at the commit: the workspace has landed. */
  lemma ReadyLanded(w: Checkout, r: Request)
    requires Ready(w, r) && Refusal(r) == None && r.operation in w.journals && w.journals[r.operation].commit.Some?
    ensures Whole(w.site.files, r)
    ensures var c := w.journals[r.operation].commit.value;
            AtCommit(w.site, w.branch, c) && w.site.upstream == Some(c) ==> Landed(w.site, w.branch, c)
  {
    hide Whole, Refusal, Landed, Placed, Midway;
    ResumeWhole(w.site, w.journals, r, w.branch, w.remote);
    var c := w.journals[r.operation].commit.value;
    if AtCommit(w.site, w.branch, c) && w.site.upstream == Some(c) {
      ResumeLanded(w.site, w.journals, r, w.branch, w.remote);
    }
  }

  /** The first look and the journal. The answer is HEAD, and whether the journal was there. */
  method Admit(w: Checkout, r: Request, m: Mode) returns (o: Outcome<(nat, bool)>)
    requires Sound(w) && Refusal(r) == None
    modifies w`site, w`trace, w`failures, w`journals
    ensures o.Fine? ==> w.failures == old(w.failures)
    ensures Sound(w) && old(w.site.graph) <= w.site.graph && (!m.outside ==> w.site == old(w.site))
    ensures Later(old(w.journals), w.journals, r.operation) && old(w.trace) <= w.trace
    ensures w.journals != old(w.journals) ==>
              r.operation !in old(w.journals) && r.operation in w.journals && w.journals[r.operation].commit.None?
              && Began(old(w.trace), w.trace, r)
    ensures o.Fine? ==> r.operation in w.journals && w.journals[r.operation].request == r
    ensures r.operation in old(w.journals) && old(w.journals)[r.operation].request != r ==> !o.Fine?
    ensures !m.outside && o.Fine? ==> Head(w.site) == Some(o.value.0)
    ensures !m.outside && old(Ready(w, r)) ==> Ready(w, r) && (o.Fine? && !o.value.1 ==> Absent(w.site.files, r))
    ensures !m.outside && !m.faults && old(Ready(w, r) && w.site.lock.None?) ==> o.Fine?
  {
    hide Sound, Ready, Refusal, Later, Absent, Bound, Began, Saw, Spared;
    SameJournals(w.journals, r.operation);
    if Ready(w, r) { ReadyCall(w, r); }
    var _ :- Go(w, m, "workspace_busy");
    var head :- Look(w, m);
    ghost var t0 := w.trace;
    var enlisted := Enlist(w, r, head, m);
    if w.journals != old(w.journals) { BeganGrows(old(w.trace), t0, w.trace, w.trace, r); }
    if !enlisted.Fine? { return enlisted.PropagateFailure(); }
    return Fine((head, enlisted.value));
  }

  /** One call, with every failure and every interleaving. The only commit the operation ever moves the branch to or
      pushes is the journaled one; another payload under the same id changes nothing. A journal starts only on a clean
      workspace with free targets, and gets its commit only while HEAD, index and files are what it was made for. A
      call that nobody disturbs leaves a resumable workspace resumable wherever it stops, and finishes it when nothing
      fails. */
  method Apply(w: Checkout, r: Request, m: Mode) returns (o: Outcome<Receipt>)
    requires Sound(w)
    modifies w`site, w`trace, w`failures, w`acts, w`journals
    ensures o.Fine? && !o.value.dirty ==> w.failures == old(w.failures)
    ensures Sound(w) && old(w.site.graph) <= w.site.graph && OnlyBy(old(w.acts), w.acts, r.operation)
    ensures Later(old(w.journals), w.journals, r.operation) && old(w.trace) <= w.trace
    ensures Refusal(r).Some? ==>
              o == Error(Refusal(r).value) && w.site == old(w.site) && w.journals == old(w.journals)
              && w.acts == old(w.acts)
    ensures r.operation in old(w.journals) && old(w.journals)[r.operation].request != r ==>
              !o.Fine? && w.journals == old(w.journals) && w.acts == old(w.acts)
              && (!m.outside ==> w.site == old(w.site))
    ensures r.operation !in old(w.journals) && r.operation in w.journals ==> Began(old(w.trace), w.trace, r)
    ensures Gained(old(w.journals), w.journals, r.operation) ==>
              Certified(old(w.trace), w.trace, r, w.journals[r.operation].base)
    ensures o.Fine? ==> Receipted(w, r, o.value) && Witnessed(old(w.trace), w.trace, w.site.graph, r, o.value, m)
    ensures !m.outside && old(Ready(w, r)) ==> Ready(w, r)
    ensures !m.outside && !m.faults && old(Ready(w, r) && Unharmed(w.site, r)) && Refusal(r) == None ==>
              o.Fine? && Landing(w, o.value)
  {
    hide Sound, Ready, OnlyBy, Refusal, Unharmed, Later, Absent, Began, Certified, Witnessed, Gained, Receipted,
        Landing;
    var op := r.operation;
    NoActs(w.acts, op);
    SameJournals(w.journals, op);
    GainedNothing(w.journals, w.journals, op);
    var refusal := Refusal(r);
    if refusal.Some? { return Error(refusal.value); }
    UnharmedMeans(w.site, r);
    ghost var js0 := w.journals;
    var admitted := Admit(w, r, m);
    ghost var js1, t1 := w.journals, w.trace;
    GainedNothing(js0, js1, op);
    if !admitted.Fine? { return admitted.PropagateFailure(); }
    UnharmedMeans(w.site, r);
    o := Resume(w, r, admitted.value.0, admitted.value.1, m);
    LaterTrans(js0, js1, w.journals, op);
    if js1 != js0 { BeganGrows(old(w.trace), old(w.trace), t1, w.trace, r); }
    GainedAfter(js0, js1, w.journals, op);
    if Gained(js1, w.journals, op) { CertifiedGrows(old(w.trace), t1, w.trace, w.trace, r, js1[op].base); }
    if o.Fine? { WitnessedGrows(old(w.trace), t1, w.trace, w.site.graph, r, o.value, m); }
  }

  lemma GainedNothing(a: map<string, Journal>, b: map<string, Journal>, op: string)
    requires b == a || (op in b && b[op].commit.None?)
    ensures !Gained(a, b, op)
  {
  }

  /** A resumable workspace without a lock passes the first look, on the branch. */
  lemma ReadyCall(w: Checkout, r: Request)
    requires Ready(w, r)
    ensures w.site.lock.None? ==> Bound(w.site, w.branch, w.remote)
    ensures Head(w.site).Some?
  {
    hide Resumable, Bound;
    ResumeBound(w.site, w.journals, r, w.branch, w.remote);
  }
}
