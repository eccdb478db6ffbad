/** The session workspace as the helper sees it (ide-agent/src/durable.rs): one Git checkout that terminals write to
    at any moment, a trusted remote, and the helper's own handoff journals. */
module Workspace {
  import opened Outcomes
  import opened Wrappers
  import opened CommitGraph

  /** What occupies a path: a regular file, or something else such as a link or a directory. */
  datatype Node = Regular(content: string) | Special

  /** The index file. Two files with equal bytes are equal here; equal trees may differ in `stamp`. */
  datatype Index = Index(tree: Tree, stamp: nat)

  datatype IndexLock = IndexLock(ours: bool, content: Index)

  /** Everything outside the helper's own records. `upstream` is the session branch on the trusted remote. */
  datatype Site = Site(
    graph: Graph, head: Option<string>, detached: nat, branches: map<string, nat>, index: Index,
    lock: Option<IndexLock>, otherLocks: bool, files: map<string, Node>, ignored: set<string>,
    fetchUrl: string, pushUrl: string, upstream: Option<nat>)

  predicate SiteOk(s: Site) {
    && Ok(s.graph) && s.detached < |s.graph|
    && (forall n :: n in s.branches ==> s.branches[n] < |s.graph|)
    && (s.upstream.Some? ==> s.upstream.value < |s.graph|)
  }

  /** `git rev-parse HEAD`; an unborn branch has no commit. */
  function Head(s: Site): Option<nat> {
    if s.head.None? then Some(s.detached)
    else if s.head.value in s.branches then Some(s.branches[s.head.value])
    else None
  }

  /** `git status`: the path differs between HEAD and index, between index and workspace, or is untracked. */
  predicate DirtyAt(s: Site, p: string) {
    var tree: Tree := if Head(s).Some? && Head(s).value < |s.graph| then s.graph[Head(s).value].tree else map[];
    || (p in tree) != (p in s.index.tree)
    || (p in tree && p in s.index.tree && tree[p] != s.index.tree[p])
    || (p in s.index.tree && (p !in s.files || s.files[p] != Regular(s.index.tree[p])))
    || (p !in s.index.tree && p in s.files && p !in s.ignored)
  }

  function Paths(s: Site): set<string> {
    s.index.tree.Keys + s.files.Keys
    + if Head(s).Some? && Head(s).value < |s.graph| then s.graph[Head(s).value].tree.Keys else {}
  }

  function Status(s: Site): (dirty: set<string>)
    ensures forall p :: p in dirty <==> DirtyAt(s, p)
  {
    set p | p in Paths(s) && DirtyAt(s, p)
  }

  /** Who else acts while a call runs, and whether the helper's own steps may fail. `forward`: other writers leave
      the branch checked out and only ever move it to descendants of what it was. `polite`: they leave the index and its
      lock alone while the helper holds the lock, as Git does. */
  datatype Mode = Mode(outside: bool, forward: bool, polite: bool, faults: bool)

  predicate Forward(a: Site, b: Site)
    requires SiteOk(a) && SiteOk(b)
  {
    a.head == b.head
    && (Head(a).Some? ==> Head(b).Some? && Head(b).value < |b.graph| && Anc(b.graph, Head(a).value, Head(b).value))
  }

  /** What other writers may do between two steps of the helper. Objects are only ever added. */
  predicate Drift(a: Site, b: Site, m: Mode)
    requires SiteOk(a)
  {
    SiteOk(b) && a.graph <= b.graph && (!m.outside ==> b == a) && (m.forward ==> Forward(a, b))
    && Spared(a, b, m)
  }

  /** Polite writers leave the index and its lock alone while the helper holds it. */
  predicate Spared(a: Site, b: Site, m: Mode) {
    m.polite && a.lock.Some? && a.lock.value.ours ==> b.lock == a.lock && b.index == a.index
  }

  lemma DriftTrans(a: Site, b: Site, c: Site, m: Mode)
    requires SiteOk(a) && SiteOk(b) && Drift(a, b, m) && Drift(b, c, m)
    ensures Drift(a, c, m)
  {
    if m.forward && Head(a).Some? {
      AncGrows(b.graph, c.graph, Head(a).value, Head(b).value);
      AncTrans(c.graph, Head(a).value, Head(b).value, Head(c).value);
    }
  }

  lemma NoDrift(s: Site, m: Mode)
    requires SiteOk(s)
    ensures Drift(s, s, m)
  {
  }

  datatype File = File(path: string, content: string)

  datatype Request = Request(generation: string, operation: string, run: string, slug: string, files: seq<File>)

  datatype Journal = Journal(request: Request, base: nat, commit: Option<nat>, pushed: bool)

  datatype Receipt = Receipt(operation: string, run: string, generation: string, sha: nat, pushed: bool, dirty: bool)

  /** What the helper itself did, in order. */
  datatype Act =
    | Wrote(operation: string, path: string, content: string, existed: bool)
    | Moved(operation: string, branch: string, from: nat, to: nat)
    | Pushed(operation: string, sha: nat, before: Option<nat>)
    | Answered(receipt: Receipt)

  class Checkout {
    const branch: string
    const remote: string
    var site: Site
    var journals: map<string, Journal>
    ghost var acts: seq<Act>
    /** What the workspace was at the helper's steps so far. */
    ghost var trace: seq<Site>
    /** How many steps of the helper have failed. */
    ghost var failures: nat

    constructor (branch: string, remote: string, site: Site)
      ensures this.branch == branch && this.remote == remote && this.site == site && journals == map[] && acts == []
    {
      this.branch, this.remote, this.site, journals := branch, remote, site, map[];
      acts, trace, failures := [], [], 0;
    }

    /** The moment between two effects: other writers act, then this step may fail or the process may die. */
    method Step(m: Mode, code: string) returns (o: Outcome<()>)
      requires SiteOk(site)
      modifies this`site, this`trace, this`failures
      ensures o.Fine? ==> failures == old(failures)
      ensures SiteOk(site) && old(site.graph) <= site.graph && Drift(old(site), site, m)
              && (!m.outside ==> site == old(site))
      ensures !m.faults ==> o.Fine?
      ensures !o.Fine? ==> failures > old(failures)
      ensures trace == old(trace) + [old(site), site]
    {
      var next: Site := *;
      trace := trace + [site];
      if Drift(site, next, m) { site := next; } else { NoDrift(site, m); }
      trace := trace + [site];
      o := Fine(());
      if m.faults {
        if * { o := Error(code); }
        if * { o := Died; }
        if !o.Fine? { failures := failures + 1; }
      }
    }

    /** `Repository::validate`: the session branch is checked out, the remote is the trusted one, no Git lock is held.
        The answer is HEAD at the last of these looks. */
    method Validate(m: Mode) returns (o: Outcome<nat>)
      requires SiteOk(site)
      modifies this`site, this`trace, this`failures
      ensures o.Fine? ==> failures == old(failures)
      ensures SiteOk(site) && old(site.graph) <= site.graph && Drift(old(site), site, m)
              && (!m.outside ==> site == old(site))
      ensures o.Fine? ==> Head(site) == Some(o.value) && o.value < |site.graph|
      ensures o.Fine? && m.forward ==> site.head == Some(branch)
      ensures !m.outside && o.Fine? ==> Bound(old(site), branch, remote)
      ensures !m.outside && !m.faults && Bound(old(site), branch, remote) ==> o.Fine?
      ensures old(trace) <= trace && (o.Fine? ==> |old(trace)| < |trace| && trace[|trace| - 1] == site)
      ensures o.Fine? ==> trace[|old(trace)|] == old(site)
    {
      hide Drift, Anc, Ok, SessionBranch;
      ghost var a := site;
      NoDrift(a, m);
      if !SessionBranch(branch) || remote == "" { return Error("workspace_binding_changed"); }
      var _ :- Onward(a, m, "workspace_git_lock_busy");
      if site.lock.Some? || site.otherLocks { return Error("workspace_git_lock_busy"); }
      var _ :- Onward(a, m, "handoff_repository_probe_failed");
      if site.head != Some(branch) { return Error("workspace_binding_changed"); }
      var _ :- Onward(a, m, "handoff_repository_probe_failed");
      if site.fetchUrl != remote { return Error("workspace_binding_changed"); }
      var _ :- Onward(a, m, "handoff_repository_probe_failed");
      if site.pushUrl != remote { return Error("workspace_binding_changed"); }
      var _ :- Onward(a, m, "handoff_repository_probe_failed");
      var head := Head(site);
      if head.None? { return Error("handoff_repository_probe_failed"); }
      return Fine(head.value);
    }

    /** A step of a read-only stretch that began at `start`. */
    method Onward(ghost start: Site, m: Mode, code: string) returns (o: Outcome<()>)
      requires SiteOk(start) && SiteOk(site) && Drift(start, site, m)
      modifies this`site, this`trace, this`failures
      ensures o.Fine? ==> failures == old(failures)
      ensures SiteOk(site) && Drift(start, site, m) && start.graph <= site.graph
      ensures !m.outside ==> site == old(site)
      ensures m.forward ==> site.head == old(site.head)
      ensures !m.faults ==> o.Fine?
      ensures trace == old(trace) + [old(site), site]
    {
      ghost var before := site;
      o := Step(m, code);
      DriftTrans(start, before, site, m);
    }
  }

  predicate SessionBranch(name: string) {
    "session/" <= name && forall k :: 0 <= k < |name| ==> name[k] != '\n' && name[k] != ':' && name[k] != ' '
  }

  /** What `Validate` demands when nobody interferes. */
  predicate Bound(s: Site, branch: string, remote: string) {
    && SessionBranch(branch) && remote != "" && s.lock.None? && !s.otherLocks
    && s.head == Some(branch) && s.fetchUrl == remote && s.pushUrl == remote && Head(s).Some?
  }
}
