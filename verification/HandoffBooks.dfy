/** What must stay true of the handoff journals and of everything the helper did, over any number of calls. */
module HandoffBooks {
  import opened Wrappers
  import opened CommitGraph
  import opened Workspace
  import opened HandoffRequest

  /** The commit holds the base tree with exactly the two files, and its only parent is the base. */
  ghost predicate CommitOf(g: Graph, base: nat, c: nat, r: Request) {
    base < |g| && c < |g| && g[c] == Commit([base], WithFiles(g[base].tree, r.files))
  }

  ghost predicate JournalOk(op: string, j: Journal, g: Graph) {
    && j.request.operation == op && Refusal(j.request) == None && j.base < |g|
    && (j.commit.Some? ==> CommitOf(g, j.base, j.commit.value, j.request))
    && (j.pushed ==> j.commit.Some?)
  }

  function Operation(a: Act): string { if a.Answered? then a.receipt.operation else a.operation }

  /** The act is one the journal of its operation allows. */
  ghost predicate ActOk(a: Act, journals: map<string, Journal>, branch: string) {
    Operation(a) in journals && var j := journals[Operation(a)];
    match a
    case Wrote(_, path, content, existed) =>
      && !existed
      && exists k ::
           0 <= k < |j.request.files| && j.request.files[k].path == path && content <= j.request.files[k].content
    case Moved(_, b, from, to) => b == branch && from == j.base && j.commit == Some(to)
    case Pushed(_, sha, _) => j.commit == Some(sha)
    case Answered(rc) =>
      j.commit == Some(rc.sha) && j.pushed && rc.pushed && rc.run == j.request.run
      && rc.generation == j.request.generation
  }

  /** A push extends what the remote branch was. */
  ghost predicate Forwards(g: Graph, a: Act) {
    a.Pushed? ==> Ok(g) && a.sha < |g| && (a.before.Some? ==> Anc(g, a.before.value, a.sha))
  }

  /** The journal says that its commit is on the remote, and there was a push of it. */
  ghost predicate Backs(op: string, j: Journal, acts: seq<Act>) {
    j.pushed ==> j.commit.Some? && exists i :: 0 <= i < |acts| && PushOf(acts[i], op, j.commit.value)
  }

  predicate PushOf(a: Act, op: string, sha: nat) { a.Pushed? && a.operation == op && a.sha == sha }

  ghost predicate Books(g: Graph, journals: map<string, Journal>, acts: seq<Act>, branch: string) {
    && (forall op :: op in journals ==> JournalOk(op, journals[op], g) && Backs(op, journals[op], acts))
    && (forall i :: 0 <= i < |acts| ==> ActOk(acts[i], journals, branch) && Forwards(g, acts[i]))
  }

  /** A journal only fills in what was open. */
  predicate Grown(a: Journal, b: Journal) {
    && b.request == a.request && b.base == a.base
    && (a.commit.Some? ==> b.commit == a.commit) && (a.pushed ==> b.pushed)
  }

  /** Nothing but the journal of `op` changed, and that one only grew. */
  ghost predicate Later(a: map<string, Journal>, b: map<string, Journal>, op: string) {
    && (forall k :: k in a && k != op ==> k in b && b[k] == a[k])
    && (forall k :: k in b && k != op ==> k in a)
    && (op in a ==> op in b && Grown(a[op], b[op]))
  }

  lemma JournalDrift(op: string, j: Journal, g: Graph, g': Graph)
    requires JournalOk(op, j, g) && g <= g'
    ensures JournalOk(op, j, g')
  {
    hide Refusal;
  }

  lemma ForwardsDrift(g: Graph, g': Graph, a: Act)
    requires Forwards(g, a) && g <= g' && Ok(g')
    ensures Forwards(g', a)
  {
    if a.Pushed? && a.before.Some? { AncGrows(g, g', a.before.value, a.sha); }
  }

  lemma BooksDrift(g: Graph, g': Graph, journals: map<string, Journal>, acts: seq<Act>, branch: string)
    requires Books(g, journals, acts, branch) && g <= g' && Ok(g')
    ensures Books(g', journals, acts, branch)
  {
    hide ActOk, Refusal, Forwards, Backs;
    forall op | op in journals ensures JournalOk(op, journals[op], g') { JournalDrift(op, journals[op], g, g'); }
    forall i | 0 <= i < |acts| ensures Forwards(g', acts[i]) { ForwardsDrift(g, g', acts[i]); }
  }

  lemma BooksSave(g: Graph, journals: map<string, Journal>, op: string, j: Journal, acts: seq<Act>, branch: string)
    requires Books(g, journals, acts, branch) && JournalOk(op, j, g) && (op in journals ==> Grown(journals[op], j))
    requires Backs(op, j, acts)
    ensures Books(g, journals[op := j], acts, branch) && Later(journals, journals[op := j], op)
  {
    hide Refusal, CommitOf, Forwards, Backs;
    var later := journals[op := j];
    forall i | 0 <= i < |acts| ensures ActOk(acts[i], later, branch) && Forwards(g, acts[i]) {
      assert ActOk(acts[i], journals, branch);
    }
    forall k | k in later ensures JournalOk(k, later[k], g) && Backs(k, later[k], acts) {
      assert k != op ==> JournalOk(k, journals[k], g) && Backs(k, journals[k], acts);
    }
  }

  lemma WroteOk(journals: map<string, Journal>, op: string, k: nat, content: string, branch: string)
    requires op in journals && k < |journals[op].request.files| && content <= journals[op].request.files[k].content
    ensures ActOk(Wrote(op, journals[op].request.files[k].path, content, false), journals, branch)
  {
  }

  lemma BooksAct(g: Graph, journals: map<string, Journal>, acts: seq<Act>, a: Act, branch: string)
    requires Books(g, journals, acts, branch) && ActOk(a, journals, branch) && Forwards(g, a)
    ensures Books(g, journals, acts + [a], branch)
  {
    hide ActOk, JournalOk, Forwards, PushOf;
    forall op | op in journals ensures Backs(op, journals[op], acts + [a]) { BacksGrows(op, journals[op], acts, a); }
  }

  lemma BacksGrows(op: string, j: Journal, acts: seq<Act>, a: Act)
    requires Backs(op, j, acts)
    ensures Backs(op, j, acts + [a])
  {
    hide PushOf;
    if j.pushed {
      var i :| 0 <= i < |acts| && PushOf(acts[i], op, j.commit.value);
      assert (acts + [a])[i] == acts[i];
    }
  }

  lemma LaterTrans(a: map<string, Journal>, b: map<string, Journal>, c: map<string, Journal>, op: string)
    requires Later(a, b, op) && Later(b, c, op)
    ensures Later(a, c, op)
  {
  }

  /** Over any history: one operation has one commit. Every branch move, push and receipt of it names that commit. */
  function Names(a: Act): Option<nat> {
    match a
    case Wrote(_, _, _, _) => None
    case Moved(_, _, _, to) => Some(to)
    case Pushed(_, sha, _) => Some(sha)
    case Answered(rc) => Some(rc.sha)
  }

  lemma OneCommit(g: Graph, journals: map<string, Journal>, acts: seq<Act>, branch: string, i: nat, k: nat)
    requires Books(g, journals, acts, branch) && i < |acts| && k < |acts|
    requires Operation(acts[i]) == Operation(acts[k]) && Names(acts[i]).Some? && Names(acts[k]).Some?
    ensures Names(acts[i]) == Names(acts[k])
    ensures var sha := Names(acts[i]).value; var j := journals[Operation(acts[i])];
            sha < |g| && j.base < |g| && g[sha] == Commit([j.base], WithFiles(g[j.base].tree, j.request.files))
  {
    assert ActOk(acts[i], journals, branch) && ActOk(acts[k], journals, branch);
    assert JournalOk(Operation(acts[i]), journals[Operation(acts[i])], g);
  }
}
