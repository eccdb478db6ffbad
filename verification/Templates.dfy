/** Creating a project from a template (sigiledd/src/templates.rs, sigiledd/src/template_snapshot.rs): a durable saga
    against a provider whose replies can be lost after the effect. One name, one lock: calls for it do not overlap.
    The provider keeps the log: it records what it did and what it showed at that moment. */
module Templates {
  import opened Outcomes
  import opened Wrappers

  datatype Intent = Intent(
    operation: nat, template: string, sourceId: nat, source: string, reference: Option<string>, explicit: bool,
    destination: Option<nat>, snapshot: Option<string>, complete: bool)

  /** A repository at the provider. `marker` is the operation named by its description, `refs` its branches and tags. */
  datatype Repo = Repo(id: nat, marker: Option<nat>, hidden: bool, refs: map<string, string>, defaultBranch: string)

  datatype Source = Source(id: nat, eligible: bool, refs: map<Option<string>, string>)

  /** What an operation is about, fixed when its intent first reaches the state. */
  datatype Deal = Deal(source: string, commit: string)

  datatype Act =
    // what others do under the name
    | Founded(repo: Repo)
    | Removed
    | Wrote(ref: string, sha: string)
    | Dropped(ref: string)
    | Edited(marker: Option<nat>, hidden: bool, defaultBranch: string)
    // what this daemon asks for, with what the provider showed
    | Resolved(operation: nat, source: string)
    | Created(operation: nat, repo: Repo)
    | Shown(operation: nat, repo: Repo)
    | Absent(operation: nat)
    | Listed(operation: nat, id: nat, refs: map<string, string>)
    | Pushed(operation: nat, id: nat, commit: string, before: map<string, string>)
    | Patched(operation: nat, id: nat)
    | Keyed(operation: nat, id: nat)
    // the record with this destination has reached the state file
    | Recorded(operation: nat, id: nat)

  const MASTER := "refs/heads/master"

  predicate Outside(a: Act) { a.Founded? || a.Removed? || a.Wrote? || a.Dropped? || a.Edited? }

  /** What the daemon does for an operation once its record is on disk: every look, request and record. */
  predicate Acting(a: Act) { !Outside(a) && !a.Resolved? }

  predicate Writes(a: Act) { a.Pushed? || a.Patched? || a.Keyed? }

  // ---- the provider ----

  /** What an event makes of the repository it meets. */
  function Changed(r: Repo, a: Act): Repo {
    match a
    case Wrote(ref, sha) => r.(refs := r.refs[ref := sha])
    case Dropped(ref) => r.(refs := r.refs - {ref})
    case Edited(marker, hidden, branch) => r.(marker := marker, hidden := hidden, defaultBranch := branch)
    case Pushed(_, _, commit, _) => r.(refs := r.refs[MASTER := commit])
    case Patched(_, _) => r.(defaultBranch := "master")
    case _ => r
  }

  /** The repository under the name after an event. */
  function After(r: Option<Repo>, a: Act): Option<Repo> {
    match a
    case Founded(repo) => Some(repo)
    case Created(_, repo) => Some(repo)
    case Removed => None
    case _ => if r.None? then None else Some(Changed(r.value, a))
  }

  function Now(start: Option<Repo>, acts: seq<Act>): Option<Repo> {
    if acts == [] then start else After(Now(start, acts[..|acts| - 1]), acts[|acts| - 1])
  }

  /** Above every id given out so far. */
  function NextId(start: Option<Repo>, acts: seq<Act>): nat {
    if acts == [] then (if start.Some? then start.value.id + 1 else 0)
    else
      var last := acts[|acts| - 1];
      if last.Founded? || last.Created? then last.repo.id + 1 else NextId(start, acts[..|acts| - 1])
  }

  /** A push that requires the absence of master. */
  predicate Takes(r: Option<Repo>) { r.Some? && MASTER !in r.value.refs }

  /** What the provider does, and shows, when the name stands for `r`. */
  predicate Possible(r: Option<Repo>, next: nat, a: Act) {
    match a
    case Founded(repo) => r.None? && repo.id >= next
    case Created(op, repo) => r.None? && repo.id >= next && repo.marker == Some(op) && repo.refs == map[]
    case Shown(_, repo) => r == Some(repo)
    case Listed(_, id, refs) => r.Some? && r.value.id == id && r.value.refs == refs
    case Pushed(_, id, _, before) => Takes(r) && r.value.id == id && r.value.refs == before
    case Patched(_, id) => r.Some? && r.value.id == id
    case Keyed(_, id) => r.Some? && r.value.id == id
    case Absent(_) => r.None?
    case Resolved(_, _) => true
    case Recorded(_, _) => true
    case _ => r.Some?
  }

  ghost predicate TrueAt(start: Option<Repo>, acts: seq<Act>, k: nat)
    requires k < |acts|
  {
    Possible(Now(start, acts[..k]), NextId(start, acts[..k]), acts[k])
  }

  ghost predicate Log(start: Option<Repo>, acts: seq<Act>) { forall k :: 0 <= k < |acts| ==> TrueAt(start, acts, k) }

  // ---- what the daemon must keep true ----

  /** The provider showed a private repository that carries the operation's marker. */
  predicate MarkedBy(a: Act, op: nat) { a.Shown? && a.operation == op && a.repo.marker == Some(op) && a.repo.hidden }

  ghost predicate Marked(acts: seq<Act>, op: nat, id: nat) {
    exists j :: 0 <= j < |acts| && MarkedBy(acts[j], op) && acts[j].repo.id == id
  }

  /** The repository listed the commit as its only ref. */
  ghost predicate Verified(acts: seq<Act>, op: nat, id: nat, commit: string) {
    Listed(op, id, map[MASTER := commit]) in acts
  }

  /** The repository was shown with master as its default branch, and a deploy key was installed for the operation. */
  ghost predicate Equipped(acts: seq<Act>, op: nat, id: nat) {
    && (exists j ::
          && 0 <= j < |acts| && acts[j].Shown? && acts[j].operation == op && acts[j].repo.id == id
          && acts[j].repo.defaultBranch == "master")
    && exists k :: 0 <= k < |acts| && acts[k].Keyed? && acts[k].operation == op
  }

  /** The last thing this daemon did was to see an empty listing. */
  ghost predicate SawEmpty(acts: seq<Act>, op: nat) {
    exists j :: EmptyAt(acts, j, op) && forall i :: j < i < |acts| ==> Outside(acts[i])
  }

  predicate EmptyAt(acts: seq<Act>, j: int, op: nat) {
    0 <= j < |acts| && acts[j].Listed? && acts[j].operation == op && acts[j].refs == map[]
  }

  /** The last thing this daemon did was to find nothing under the name. */
  ghost predicate SawAbsent(acts: seq<Act>, op: nat) {
    exists j :: AbsentAt(acts, j, op) && forall i :: j < i < |acts| ==> Outside(acts[i])
  }

  predicate AbsentAt(acts: seq<Act>, j: int, op: nat) { 0 <= j < |acts| && acts[j] == Absent(op) }

  /** The repository was shown with the marker, and its id has reached the state file. */
  ghost predicate Backed(acts: seq<Act>, op: nat, id: nat) { Marked(acts, op, id) && Recorded(op, id) in acts }

  /** The intent is about what its operation is about, and what it claims was seen at the provider. */
  ghost predicate IntentOk(i: Intent, deals: map<nat, Deal>, acts: seq<Act>) {
    && i.operation in deals && i.source == deals[i.operation].source && i.snapshot == Some(deals[i.operation].commit)
    && (i.destination.Some? ==> Marked(acts, i.operation, i.destination.value))
    && (i.complete ==>
          && i.destination.Some? && Verified(acts, i.operation, i.destination.value, deals[i.operation].commit)
          && Equipped(acts, i.operation, i.destination.value)
          && Recorded(i.operation, i.destination.value) in acts)
  }

  /** The snapshot knows of the act: it is about the same operation, and about the recorded destination. */
  predicate Backs(i: Option<Intent>, a: Act) {
    Acting(a) ==> i.Some? && i.value.operation == a.operation && (a.Recorded? ==> i.value.destination == Some(a.id))
  }

  ghost predicate Consistent(i: Option<Intent>, acts: seq<Act>) { forall k :: 0 <= k < |acts| ==> Backs(i, acts[k]) }

  /** A repository is created only right after a confirmed absence, and never once a destination was recorded. Nothing
      but the operation's own commit is pushed, and only right after an empty listing. Every write comes after a look
      at a repository with the operation's marker and after the record of that repository. */
  ghost predicate Rightful(before: seq<Act>, a: Act, deals: map<nat, Deal>) {
    && (a.Pushed? ==> a.operation in deals && a.commit == deals[a.operation].commit && SawEmpty(before, a.operation))
    && (Writes(a) ==> exists id :: Backed(before, a.operation, id))
    && (a.Created? ==> SawAbsent(before, a.operation) && forall i :: 0 <= i < |before| ==> !before[i].Recorded?)
    && (a.Resolved? && a.operation in deals ==> a.source == deals[a.operation].source)
  }

  ghost predicate Story(acts: seq<Act>, deals: map<nat, Deal>, next: nat) {
    && (forall k :: 0 <= k < |acts| ==> Rightful(acts[..k], acts[k], deals))
    && (forall k :: 0 <= k < |acts| && !Outside(acts[k]) ==> acts[k].operation < next)
    && (forall op :: op in deals ==> op < next)
    && (forall j, k :: 0 <= j < k < |acts| && acts[j].Resolved? && acts[k].Resolved? ==>
          acts[j].operation != acts[k].operation)
  }

  ghost predicate Records(mem: Option<Intent>, disk: set<Option<Intent>>, deals: map<nat, Deal>, acts: seq<Act>) {
    && (mem.Some? ==> IntentOk(mem.value, deals, acts))
    && (forall d :: d in disk && d.Some? ==> IntentOk(d.value, deals, acts))
    && Consistent(mem, acts) && forall d :: d in disk ==> Consistent(d, acts)
  }

  // ---- how it stays true ----

  lemma OneMore(acts: seq<Act>, a: Act)
    ensures (acts + [a])[..|acts|] == acts && forall k :: 0 <= k <= |acts| ==> (acts + [a])[..k] == acts[..k]
  {
  }

  lemma LogGrows(start: Option<Repo>, acts: seq<Act>, a: Act)
    requires Log(start, acts) && Possible(Now(start, acts), NextId(start, acts), a)
    ensures Log(start, acts + [a]) && Now(start, acts + [a]) == After(Now(start, acts), a)
    ensures NextId(start, acts + [a]) == if a.Founded? || a.Created? then a.repo.id + 1 else NextId(start, acts)
  {
    hide Possible, After;
    OneMore(acts, a);
    forall k | 0 <= k < |acts + [a]| ensures TrueAt(start, acts + [a], k) {
      if k < |acts| { assert TrueAt(start, acts, k); }
    }
  }

  lemma StoryGrows(acts: seq<Act>, a: Act, deals: map<nat, Deal>, next: nat)
    requires Story(acts, deals, next) && Rightful(acts, a, deals) && (!Outside(a) ==> a.operation < next)
    requires a.Resolved? ==> forall k :: 0 <= k < |acts| && acts[k].Resolved? ==> acts[k].operation != a.operation
    ensures Story(acts + [a], deals, next)
  {
    hide Rightful;
    OneMore(acts, a);
  }

  lemma IntentGrows(i: Intent, deals: map<nat, Deal>, acts: seq<Act>, more: seq<Act>)
    requires IntentOk(i, deals, acts) && acts <= more
    ensures IntentOk(i, deals, more)
  {
    if i.destination.Some? {
      var j :| 0 <= j < |acts| && MarkedBy(acts[j], i.operation) && acts[j].repo.id == i.destination.value;
      assert more[j] == acts[j];
      if i.complete {
        StillThere(acts, more, Listed(i.operation, i.destination.value, map[MASTER := deals[i.operation].commit]));
        EquippedGrows(acts, more, i.operation, i.destination.value);
        StillThere(acts, more, Recorded(i.operation, i.destination.value));
      }
    }
  }

  lemma EquippedGrows(acts: seq<Act>, more: seq<Act>, op: nat, id: nat)
    requires acts <= more && Equipped(acts, op, id)
    ensures Equipped(more, op, id)
  {
    var j :| 0 <= j < |acts| && acts[j].Shown? && acts[j].operation == op && acts[j].repo.id == id
             && acts[j].repo.defaultBranch == "master";
    var k :| 0 <= k < |acts| && acts[k].Keyed? && acts[k].operation == op;
    assert more[j] == acts[j] && more[k] == acts[k];
  }

  lemma StillThere(acts: seq<Act>, more: seq<Act>, a: Act)
    requires acts <= more && a in acts
    ensures a in more
  {
    var j :| 0 <= j < |acts| && acts[j] == a;
    assert more[j] == a;
  }

  lemma ConsistentGrows(i: Option<Intent>, acts: seq<Act>, a: Act)
    requires Consistent(i, acts) && Backs(i, a)
    ensures Consistent(i, acts + [a])
  {
    hide Backs;
  }

  lemma RecordsGrow(mem: Option<Intent>, disk: set<Option<Intent>>, deals: map<nat, Deal>, acts: seq<Act>, a: Act)
    requires Records(mem, disk, deals, acts) && Backs(mem, a) && forall d :: d in disk ==> Backs(d, a)
    ensures Records(mem, disk, deals, acts + [a])
  {
    hide IntentOk, Consistent, Backs;
    if mem.Some? { IntentGrows(mem.value, deals, acts, acts + [a]); }
    ConsistentGrows(mem, acts, a);
    forall d | d in disk ensures (d.Some? ==> IntentOk(d.value, deals, acts + [a])) && Consistent(d, acts + [a]) {
      if d.Some? { IntentGrows(d.value, deals, acts, acts + [a]); }
      ConsistentGrows(d, acts, a);
    }
  }

  /** The first record of an operation fixes what it is about. */
  lemma Dealt(acts: seq<Act>, deals: map<nat, Deal>, next: nat, mem: Option<Intent>, disk: set<Option<Intent>>,
              op: nat, deal: Deal)
    requires Story(acts, deals, next) && Records(mem, disk, deals, acts)
    requires op !in deals && op < next && Resolved(op, deal.source) in acts
    ensures Story(acts, deals[op := deal], next) && Records(mem, disk, deals[op := deal], acts)
  {
    var r :| 0 <= r < |acts| && acts[r] == Resolved(op, deal.source);
    var later := deals[op := deal];
    forall k | 0 <= k < |acts| ensures Rightful(acts[..k], acts[k], later) {
      assert Rightful(acts[..k], acts[k], deals);
      assert k < r || k == r || r < k;
    }
  }

  // ---- what the log then says ----

  /** While nobody removes it, the name stands for one repository. */
  lemma {:induction false} OneRepo(start: Option<Repo>, acts: seq<Act>, j: nat, k: nat)
    requires Log(start, acts) && j <= k <= |acts| && Now(start, acts[..j]).Some?
    requires forall i :: j <= i < k ==> !acts[i].Removed?
    ensures Now(start, acts[..k]).Some? && Now(start, acts[..k]).value.id == Now(start, acts[..j]).value.id
  {
    if j < k {
      OneRepo(start, acts, j, k - 1);
      assert TrueAt(start, acts, k - 1);
      assert acts[..k][..k - 1] == acts[..k - 1];
    }
  }

  lemma {:induction false} IdsBelow(start: Option<Repo>, acts: seq<Act>, k: nat)
    requires Log(start, acts) && k <= |acts|
    ensures Now(start, acts[..k]).Some? ==> Now(start, acts[..k]).value.id < NextId(start, acts[..k])
  {
    if k > 0 {
      IdsBelow(start, acts, k - 1);
      assert TrueAt(start, acts, k - 1);
      assert acts[..k][..k - 1] == acts[..k - 1];
    }
  }

  /** A repository that lost the name never gets it back: ids are not used twice. */
  lemma {:induction false} NeverBack(start: Option<Repo>, acts: seq<Act>, j: nat, k: nat, id: nat)
    requires Log(start, acts) && j <= k <= |acts| && id < NextId(start, acts[..j])
    requires Now(start, acts[..j]).None? || Now(start, acts[..j]).value.id != id
    ensures (Now(start, acts[..k]).None? || Now(start, acts[..k]).value.id != id) && id < NextId(start, acts[..k])
  {
    if j < k {
      NeverBack(start, acts, j, k - 1, id);
      IdsBelow(start, acts, k - 1);
      assert TrueAt(start, acts, k - 1);
      assert acts[..k][..k - 1] == acts[..k - 1];
    }
  }

  /** The same repository before and after was there in between. */
  lemma Sandwich(start: Option<Repo>, acts: seq<Act>, j: nat, l: nat, k: nat, id: nat)
    requires Log(start, acts) && j <= l <= k <= |acts|
    requires Now(start, acts[..j]).Some? && Now(start, acts[..j]).value.id == id
    requires Now(start, acts[..k]).Some? && Now(start, acts[..k]).value.id == id
    ensures Now(start, acts[..l]).Some? && Now(start, acts[..l]).value.id == id
  {
    IdsBelow(start, acts, j);
    Rising(start, acts, j, l);
    if Now(start, acts[..l]).None? || Now(start, acts[..l]).value.id != id { NeverBack(start, acts, l, k, id); }
  }

  lemma {:induction false} Rising(start: Option<Repo>, acts: seq<Act>, j: nat, k: nat)
    requires Log(start, acts) && j <= k <= |acts|
    ensures NextId(start, acts[..j]) <= NextId(start, acts[..k])
  {
    if j < k {
      Rising(start, acts, j, k - 1);
      assert TrueAt(start, acts, k - 1);
      assert acts[..k][..k - 1] == acts[..k - 1];
    }
  }

  ghost predicate RemovedBetween(acts: seq<Act>, j: nat, k: nat) {
    exists i :: j < i < k && i < |acts| && acts[i].Removed?
  }

  /** The write follows a look at a private repository with the operation's marker and the record of its id, and goes to
      that very repository unless somebody removed it in between. */
  ghost predicate WriteOk(acts: seq<Act>, k: nat) {
    exists j :: 0 <= j < k < |acts| && Writes(acts[k]) && MarkedBy(acts[j], acts[k].operation)
                && Recorded(acts[k].operation, acts[j].repo.id) in acts[..k]
                && (acts[j].repo.id == acts[k].id || RemovedBetween(acts, j, k))
  }

  /** The creation was decided by a confirmed absence, and no destination had been recorded. */
  ghost predicate CreationOk(acts: seq<Act>, k: nat) {
    && k < |acts| && acts[k].Created? && (forall i :: 0 <= i < k ==> !acts[i].Recorded?)
    && exists j :: AbsentAt(acts, j, acts[k].operation) && j < k && forall i :: j < i < k ==> Outside(acts[i])
  }

  /** The push was decided by an empty listing; `before` is what the listing became by what others did since. */
  ghost predicate PushOk(acts: seq<Act>, k: nat) {
    && k < |acts| && acts[k].Pushed? && MASTER !in acts[k].before
    && exists j :: j < k && EmptyAt(acts, j, acts[k].operation) && forall i :: j < i < k ==> Outside(acts[i])
  }

  /** Over everything that ever happened under the name. */
  ghost predicate Clean(acts: seq<Act>) {
    // one operation does all there is to do, with one commit
    && (forall j, k :: 0 <= j < |acts| && 0 <= k < |acts| && Acting(acts[j]) && Acting(acts[k]) ==>
                         acts[j].operation == acts[k].operation)
    && (forall j, k :: 0 <= j < |acts| && 0 <= k < |acts| && acts[j].Pushed? && acts[k].Pushed? ==>
          acts[j].commit == acts[k].commit)
    && (forall k :: 0 <= k < |acts| && acts[k].Created? ==> CreationOk(acts, k))
    && (forall j, k :: 0 <= j < k < |acts| && acts[j].Created? && acts[k].Created? ==> RemovedBetween(acts, j, k))
    && (forall k :: 0 <= k < |acts| && acts[k].Pushed? ==> PushOk(acts, k))
    && (forall k :: 0 <= k < |acts| && Writes(acts[k]) ==> WriteOk(acts, k))
    && (forall j, k :: 0 <= j < k < |acts| && acts[j].Resolved? && acts[k].Resolved? ==>
          acts[j].operation != acts[k].operation)
  }

  /** Nothing is created once a destination was recorded, whatever was lost and whatever restarted since. */
  lemma CreatedBeforeRecord(acts: seq<Act>, deals: map<nat, Deal>, k: nat)
    requires k < |acts| && acts[k].Created? && Rightful(acts[..k], acts[k], deals)
    ensures CreationOk(acts, k)
  {
    var op := acts[k].operation;
    var j :| AbsentAt(acts[..k], j, op) && forall i :: j < i < |acts[..k]| ==> Outside(acts[..k][i]);
    assert AbsentAt(acts, j, op);
    forall i | j < i < k ensures Outside(acts[i]) { assert acts[..k][i] == acts[i]; }
    forall i | 0 <= i < k ensures !acts[i].Recorded? { assert acts[..k][i] == acts[i]; }
  }

  lemma CreationsApart(start: Option<Repo>, acts: seq<Act>, j: nat, k: nat)
    requires Log(start, acts) && j < k < |acts| && acts[j].Created? && acts[k].Created?
    ensures RemovedBetween(acts, j, k)
  {
    assert TrueAt(start, acts, j) && TrueAt(start, acts, k);
    assert acts[..j + 1][..j] == acts[..j];
    if !RemovedBetween(acts, j, k) { OneRepo(start, acts, j + 1, k); }
  }

  lemma WriteToMarked(start: Option<Repo>, acts: seq<Act>, deals: map<nat, Deal>, k: nat)
    requires Log(start, acts) && k < |acts| && Writes(acts[k]) && Rightful(acts[..k], acts[k], deals)
    ensures WriteOk(acts, k)
  {
    var id :| Backed(acts[..k], acts[k].operation, id);
    var j :| 0 <= j < |acts[..k]| && MarkedBy(acts[..k][j], acts[k].operation) && acts[..k][j].repo.id == id;
    assert acts[..k][j] == acts[j];
    assert TrueAt(start, acts, j) && TrueAt(start, acts, k);
    if !RemovedBetween(acts, j, k) { OneRepo(start, acts, j, k); }
  }

  lemma PushAfterEmpty(start: Option<Repo>, acts: seq<Act>, deals: map<nat, Deal>, k: nat)
    requires Log(start, acts) && k < |acts| && acts[k].Pushed? && Rightful(acts[..k], acts[k], deals)
    ensures PushOk(acts, k)
  {
    assert TrueAt(start, acts, k);
    var op := acts[k].operation;
    var j :| EmptyAt(acts[..k], j, op) && forall i :: j < i < |acts[..k]| ==> Outside(acts[..k][i]);
    assert EmptyAt(acts, j, op);
    forall i | j < i < k ensures Outside(acts[i]) { assert acts[..k][i] == acts[i]; }
  }

  /** One operation per name from the first look on, with one commit; creations only after a confirmed absence and never
      after a recorded destination; pushes only after an empty listing; writes only to marked and recorded
      repositories. */
  lemma StoryClean(start: Option<Repo>, acts: seq<Act>, deals: map<nat, Deal>, next: nat, mem: Option<Intent>)
    requires Log(start, acts) && Story(acts, deals, next) && Consistent(mem, acts)
    ensures Clean(acts)
  {
    hide Log, WriteOk, PushOk, CreationOk, MarkedBy, SawEmpty, SawAbsent;
    forall k | 0 <= k < |acts| && Acting(acts[k]) ensures mem.Some? && acts[k].operation == mem.value.operation {
      assert Backs(mem, acts[k]);
    }
    forall k | 0 <= k < |acts| && acts[k].Pushed? ensures PushOk(acts, k) { PushAfterEmpty(start, acts, deals, k); }
    forall k | 0 <= k < |acts| && acts[k].Created? ensures CreationOk(acts, k) { CreatedBeforeRecord(acts, deals, k); }
    forall k | 0 <= k < |acts| && Writes(acts[k]) ensures WriteOk(acts, k) { WriteToMarked(start, acts, deals, k); }
    forall j, k | 0 <= j < k < |acts| && acts[j].Created? && acts[k].Created? ensures RemovedBetween(acts, j, k) {
      CreationsApart(start, acts, j, k);
    }
    forall k | 0 <= k < |acts| && acts[k].Pushed?
      ensures acts[k].operation in deals && acts[k].commit == deals[acts[k].operation].commit {
      assert Rightful(acts[..k], acts[k], deals);
    }
  }

  predicate Puts(a: Act, ref: string) { (a.Wrote? && a.ref == ref) || (a.Founded? && ref in a.repo.refs) }

  predicate Clears(a: Act, ref: string) { a == Dropped(ref) || a.Removed? }

  /** A ref is there exactly if somebody put it there since the empty listing and nobody took it away after that. */
  ghost predicate Standing(acts: seq<Act>, j: int, k: int, ref: string) {
    exists i :: j < i < k && 0 <= i < |acts| && Puts(acts[i], ref) && !ClearedAfter(acts, i, k, ref)
  }

  ghost predicate ClearedAfter(acts: seq<Act>, i: int, k: int, ref: string) {
    exists d :: i < d < k && 0 <= d < |acts| && Clears(acts[d], ref)
  }

  lemma {:induction false} RefsSince(start: Option<Repo>, acts: seq<Act>, j: nat, k: nat, op: nat, ref: string)
    requires Log(start, acts) && EmptyAt(acts, j, op) && j < k <= |acts|
    requires forall i :: j < i < k ==> Outside(acts[i])
    ensures (Now(start, acts[..k]).Some? && ref in Now(start, acts[..k]).value.refs) <==> Standing(acts, j, k, ref)
    decreases k
  {
    assert TrueAt(start, acts, k - 1);
    assert acts[..k][..k - 1] == acts[..k - 1];
    if k > j + 1 {
      RefsSince(start, acts, j, k - 1, op, ref);
      StandingStep(acts, j, k - 1, ref);
    }
  }

  lemma StandingStep(acts: seq<Act>, j: nat, k: nat, ref: string)
    requires j < k < |acts|
    ensures Standing(acts, j, k + 1, ref) <==>
            if Clears(acts[k], ref) then false else if Puts(acts[k], ref) then true else Standing(acts, j, k, ref)
  {
    hide Clears, Puts;
    PutsKeeps(acts[k], ref);
    if Standing(acts, j, k, ref) && !Clears(acts[k], ref) {
      var i :| j < i < k && Puts(acts[i], ref) && !ClearedAfter(acts, i, k, ref);
      assert !ClearedAfter(acts, i, k + 1, ref);
    }
    if Standing(acts, j, k + 1, ref) {
      var i :| j < i < k + 1 && Puts(acts[i], ref) && !ClearedAfter(acts, i, k + 1, ref);
      assert i < k && Clears(acts[k], ref) ==> ClearedAfter(acts, i, k + 1, ref);
      if i < k {
        forall d | i < d < k ensures !Clears(acts[d], ref) { assert !(i < d < k + 1 && Clears(acts[d], ref)); }
        assert !ClearedAfter(acts, i, k, ref);
      }
    }
    if Puts(acts[k], ref) { assert !ClearedAfter(acts, k, k + 1, ref); }
  }

  lemma PutsKeeps(a: Act, ref: string)
    ensures !(Puts(a, ref) && Clears(a, ref))
  {
  }

  /** The destination is empty at the push exactly when everything that others put there since the empty listing was
      taken away again; the listing itself cannot promise it. Every push of the daemon has such a listing before it. */
  lemma EmptyAtPush(start: Option<Repo>, acts: seq<Act>, j: nat, k: nat)
    requires Log(start, acts) && k < |acts| && acts[k].Pushed? && EmptyAt(acts, j, acts[k].operation) && j < k
    requires forall i :: j < i < k ==> Outside(acts[i])
    ensures acts[k].before == map[] <==> forall i, ref :: j < i < k && Puts(acts[i], ref) ==>
              ClearedAfter(acts, i, k, ref)
    ensures (forall i :: j < i < k ==> !acts[i].Dropped? && !acts[i].Removed?) ==>
              (acts[k].before == map[] <==> forall i :: j < i < k ==> !acts[i].Wrote?)
  {
    hide After, NextId, Puts, Clears;
    assert TrueAt(start, acts, k);
    forall ref ensures ref in acts[k].before <==> Standing(acts, j, k, ref) {
      RefsSince(start, acts, j, k, acts[k].operation, ref);
    }
    if forall i, ref :: j < i < k && Puts(acts[i], ref) ==> ClearedAfter(acts, i, k, ref) {
      forall ref ensures ref !in acts[k].before {}
      assert acts[k].before == map[];
    } else {
      var i, ref :| j < i < k && Puts(acts[i], ref) && !ClearedAfter(acts, i, k, ref);
      assert Standing(acts, j, k, ref);
    }
    if forall i :: j < i < k ==> !acts[i].Dropped? && !acts[i].Removed? { OnlyWrites(start, acts, j, k); }
  }

  /** As long as nothing is taken away, what was put there was written. */
  lemma OnlyWrites(start: Option<Repo>, acts: seq<Act>, j: nat, k: nat)
    requires Log(start, acts) && j < k <= |acts| && acts[j].Listed?
    requires forall i :: j < i < k ==> Outside(acts[i]) && !acts[i].Dropped? && !acts[i].Removed?
    ensures (forall i, ref :: j < i < k && Puts(acts[i], ref) ==> ClearedAfter(acts, i, k, ref)) <==>
            forall i :: j < i < k ==> !acts[i].Wrote?
  {
    assert TrueAt(start, acts, j);
    forall i | j < i < k ensures !acts[i].Founded? {
      assert TrueAt(start, acts, i);
      OneRepo(start, acts, j, i);
    }
    forall i, ref | j < i < k ensures !ClearedAfter(acts, i, k, ref) {}
    forall i | j < i < k && acts[i].Wrote? ensures Puts(acts[i], acts[i].ref) {}
  }

  predicate Carries(r: Repo, op: nat) { r.marker == Some(op) && r.hidden }

  /** The event leaves a repository under the name that lacks the marker or is not private; or one that has both. */
  predicate Unmarks(a: Act, op: nat) {
    (a.Edited? && !(a.marker == Some(op) && a.hidden)) || ((a.Founded? || a.Created?) && !Carries(a.repo, op))
  }

  predicate Remarks(a: Act, op: nat) {
    (a.Edited? && a.marker == Some(op) && a.hidden) || ((a.Founded? || a.Created?) && Carries(a.repo, op))
  }

  ghost predicate RemarkedAfter(acts: seq<Act>, i: int, k: int, op: nat) {
    exists d :: i < d < k && 0 <= d < |acts| && Remarks(acts[d], op)
  }

  /** Whatever took the marker away since the look was made good again. */
  ghost predicate MarkerKept(acts: seq<Act>, j: int, k: int, op: nat) {
    forall i :: j < i < k && 0 <= i < |acts| && Unmarks(acts[i], op) ==> RemarkedAfter(acts, i, k, op)
  }

  /** The repository written to carries marker and privacy at the write exactly when whatever took them away since the
      marked look was made good again. The look itself cannot promise it. */
  lemma MarkedAtWrite(start: Option<Repo>, acts: seq<Act>, j: nat, k: nat)
    requires Log(start, acts) && j < k < |acts| && Writes(acts[k]) && MarkedBy(acts[j], acts[k].operation)
    ensures Now(start, acts[..k]).Some? && Now(start, acts[..k]).value.id == acts[k].id
    ensures Carries(Now(start, acts[..k]).value, acts[k].operation) <==> MarkerKept(acts, j, k, acts[k].operation)
  {
    assert TrueAt(start, acts, k);
    MarkerSince(start, acts, j, k, acts[k].operation);
  }

  lemma {:induction false} MarkerSince(start: Option<Repo>, acts: seq<Act>, j: nat, k: nat, op: nat)
    requires Log(start, acts) && j < k <= |acts| && MarkedBy(acts[j], op) && Now(start, acts[..k]).Some?
    ensures Carries(Now(start, acts[..k]).value, op) <==> MarkerKept(acts, j, k, op)
    decreases k
  {
    assert TrueAt(start, acts, k - 1);
    assert acts[..k][..k - 1] == acts[..k - 1];
    if k > j + 1 {
      MarkerStep(acts, j, k - 1, op);
      if Now(start, acts[..k - 1]).Some? { MarkerSince(start, acts, j, k - 1, op); }
    }
  }

  lemma MarkerStep(acts: seq<Act>, j: nat, k: nat, op: nat)
    requires j < k < |acts|
    ensures MarkerKept(acts, j, k + 1, op) <==>
            if Unmarks(acts[k], op) then false else if Remarks(acts[k], op) then true else MarkerKept(acts, j, k, op)
  {
    hide Unmarks, Remarks;
    if Unmarks(acts[k], op) {
      assert !RemarkedAfter(acts, k, k + 1, op);
    } else if Remarks(acts[k], op) {
      forall i | j < i < k + 1 && Unmarks(acts[i], op) ensures RemarkedAfter(acts, i, k + 1, op) { assert i < k; }
    } else {
      forall i | j < i < k ensures RemarkedAfter(acts, i, k + 1, op) <==> RemarkedAfter(acts, i, k, op) {
        if RemarkedAfter(acts, i, k + 1, op) {
          var d :| i < d < k + 1 && Remarks(acts[d], op);
          assert d < k;
        }
      }
    }
  }

  /** What `publish` does on a listing: nothing, push, or refuse. */
  datatype Decision = Already | Go | Refuse

  function Decide(refs: map<string, string>, commit: string): Decision {
    if refs == map[MASTER := commit] then Already else if refs == map[] then Go else Refuse
  }

  /** An empty listing, then a tag written by somebody else, then the push: it is taken by a destination that `publish`
      would have refused. */
  lemma PushOntoForeignTag(id: nat, op: nat, commit: string)
    ensures var start, tag := Some(Repo(id, Some(op), true, map[], "master")), map["refs/tags/v1" := "f"];
            var acts := [Listed(op, id, map[]), Wrote("refs/tags/v1", "f"), Pushed(op, id, commit, tag)];
            && Log(start, acts) && PushOk(acts, 2) && Decide(acts[0].refs, commit) == Go
            && Decide(acts[2].before, commit) == Refuse
            && Now(start, acts).Some? && Now(start, acts).value.refs == tag[MASTER := commit]
  {
    hide MarkedBy;
    assert "refs/tags/v1"[5] != MASTER[5];
    var r := Repo(id, Some(op), true, map[], "master");
    var tag: map<string, string> := map["refs/tags/v1" := "f"];
    assert "refs/tags/v1" in tag && MASTER !in tag;
    var a0 := [Listed(op, id, map[])];
    LogGrows(Some(r), [], a0[0]);
    assert [] + a0 == a0;
    var a1 := a0 + [Wrote("refs/tags/v1", "f")];
    LogGrows(Some(r), a0, a1[1]);
    var a2 := a1 + [Pushed(op, id, commit, tag)];
    LogGrows(Some(r), a1, a2[2]);
    assert EmptyAt(a2, 0, op);
    assert a2 == [Listed(op, id, map[]), Wrote("refs/tags/v1", "f"), Pushed(op, id, commit, tag)];
  }

  /** A marked look, the record, an empty listing, then somebody takes the marker away, and the push is taken by a
      repository that `create_inner` would have refused. */
  lemma PushToUnmarked(id: nat, op: nat, commit: string)
    ensures var r := Repo(id, Some(op), true, map[], "master");
            var acts := [Shown(op, r), Recorded(op, id), Listed(op, id, map[]), Edited(None, true, "master"),
                         Pushed(op, id, commit, map[])];
            && Log(Some(r), acts) && PushOk(acts, 4) && WriteOk(acts, 4)
            && Now(Some(r), acts[..4]).Some? && !Carries(Now(Some(r), acts[..4]).value, op)
  {
    var r := Repo(id, Some(op), true, map[], "master");
    var a0 := [Shown(op, r)];
    LogGrows(Some(r), [], a0[0]);
    assert [] + a0 == a0;
    var a1 := a0 + [Recorded(op, id)];
    LogGrows(Some(r), a0, a1[1]);
    var a2 := a1 + [Listed(op, id, map[])];
    LogGrows(Some(r), a1, a2[2]);
    var a3 := a2 + [Edited(None, true, "master")];
    LogGrows(Some(r), a2, a3[3]);
    var a4 := a3 + [Pushed(op, id, commit, map[])];
    LogGrows(Some(r), a3, a4[4]);
    assert EmptyAt(a4, 2, op) && MarkedBy(a4[0], op) && a4[..4] == a3 && a3[1] == Recorded(op, id);
    assert a4 == [Shown(op, r), Recorded(op, id), Listed(op, id, map[]), Edited(None, true, "master"),
                  Pushed(op, id, commit, map[])];
  }

  /** The request repeats the selection of the intent. */
  predicate Selects(i: Intent, template: string, reference: Option<string>, explicit: bool) {
    i.template == template && i.reference == reference && i.explicit == explicit
  }

  /** One request for the name. */
  datatype Request = Request(template: string, reference: Option<string>, explicit: bool)

  /** What a record of completion vouches for. */
  ghost predicate Delivered(acts: seq<Act>, i: Intent) {
    && i.snapshot.Some? && i.destination.Some? && Backed(acts, i.operation, i.destination.value)
    && Verified(acts, i.operation, i.destination.value, i.snapshot.value)
    && Equipped(acts, i.operation, i.destination.value)
  }

  predicate SelectedBy(i: Intent, r: Request) { Selects(i, r.template, r.reference, r.explicit) }

  /** The same operation, with the commit and the destination it already had. */
  predicate Continues(i: Intent, later: Intent) {
    && later == i.(snapshot := later.snapshot, destination := later.destination, complete := later.complete)
    && (i.snapshot.Some? ==> later.snapshot == i.snapshot)
    && (i.destination.Some? ==> later.destination == i.destination)
  }

  /** More happened, but no source ref was resolved, and only with leave was anything created or written. */
  ghost predicate Adds(before: seq<Act>, after: seq<Act>, creates: bool, writes: bool) {
    && before <= after
    && forall k :: |before| <= k < |after| ==>
         !after[k].Resolved? && (after[k].Created? ==> creates) && (Writes(after[k]) ==> writes)
  }

  /** Each write of the call comes after a look of the same call at the marked repository that is recorded. */
  ghost predicate LookedFirst(before: seq<Act>, after: seq<Act>) {
    forall k :: |before| <= k < |after| && Writes(after[k]) ==>
                  exists j :: |before| <= j < k && MarkedBy(after[j], after[k].operation)
  }

  ghost predicate Idle(before: seq<Act>, after: seq<Act>) {
    before <= after && forall k :: |before| <= k < |after| ==> !Acting(after[k])
  }

  ghost predicate Quiet(before: seq<Act>, after: seq<Act>) {
    before <= after && forall k :: |before| <= k < |after| ==> Outside(after[k])
  }

  /** What a creating request leaves when the provider does as it is told. */
  predicate Blank(r: Option<Repo>, op: nat) {
    r.Some? && r.value.marker == Some(op) && r.value.hidden && r.value.refs == map[]
  }

  predicate PushedTo(a: Option<Repo>, b: Option<Repo>, commit: string) {
    Takes(a) && b == Some(a.value.(refs := a.value.refs[MASTER := commit]))
  }

  /** The repository is the one the intent is about. */
  predicate Ours(r: Repo, i: Intent) {
    r.hidden && r.marker == Some(i.operation) && (i.destination.Some? ==> i.destination.value == r.id)
  }

  /** The destination can be found or created. */
  predicate Reachable(r: Option<Repo>, i: Intent) { if r.None? then i.destination.None? else Ours(r.value, i) }

  /** Nothing is in it, or the commit and nothing else. */
  predicate Fillable(r: Option<Repo>, commit: string) {
    r.None? || r.value.refs == map[] || r.value.refs == map[MASTER := commit]
  }

  /** The source is still the same eligible repository, and it was prepared as before. */
  predicate SourceFits(s: Source, i: Intent, prepared: string) {
    s.id == i.sourceId && s.eligible && (i.snapshot.None? || i.snapshot == Some(prepared))
  }

  /** What the later steps of a call make of the destination when nobody else acts: it is filled with the commit, and
      its default branch is set. */
  predicate Filled(a: Option<Repo>, b: Option<Repo>, commit: string) {
    || b == a
    || (&& a.Some? && b.Some?
        && b.value == a.value.(refs := b.value.refs, defaultBranch := b.value.defaultBranch)
        && (b.value.refs == a.value.refs || (a.value.refs == map[] && b.value.refs == map[MASTER := commit])))
  }

  /** ... and what a whole call makes of it. */
  predicate Evolved(a: Option<Repo>, b: Option<Repo>, op: nat, commit: string) {
    || Filled(a, b, commit)
    || (a.None? && b.Some? && b.value.marker == Some(op) && b.value.hidden && Fillable(b, commit))
  }

  /** At most the default branch is another. */
  predicate Redirected(a: Option<Repo>, b: Option<Repo>) {
    b == a || (a.Some? && b == Some(a.value.(defaultBranch := "master")))
  }

  lemma FilledTwice(a: Option<Repo>, b: Option<Repo>, c: Option<Repo>, commit: string)
    requires Filled(a, b, commit) && Filled(b, c, commit)
    ensures Filled(a, c, commit)
  {
  }

  /** What an attempt may have put in memory or on disk: the same intent, perhaps with the destination that stands
      there, perhaps complete. */
  predicate Offspring(d: Option<Intent>, i: Intent, r: Option<Repo>) {
    && d.Some? && d.value == i.(destination := d.value.destination, complete := d.value.complete)
    && (d.value.destination == i.destination || (r.Some? && d.value.destination == Some(r.value.id)))
  }

  /** The request can be carried through from the record `d`: nothing stands under the name yet and the source is
      eligible and has the ref; or the record is about the same selection and is complete, or the source is still the
      same eligible one, is prepared as the recorded commit, and the destination can be created, or is the marked one
      with nothing in it but that commit. */
  predicate Promising(d: Option<Intent>, name: string, request: Request, prepared: string, r: Option<Repo>, s: Source) {
    && request.template != name
    && match d
       case None => r.None? && s.eligible && request.reference in s.refs
       case Some(i) => SelectedBy(i, request)
                       && (i.complete || (SourceFits(s, i, prepared) && Reachable(r, i) && Fillable(r, prepared)))
  }

  /** An attempt leaves the request as promising as it was. */
  lemma StillPromising(chosen: Intent, d: Option<Intent>, name: string, request: Request, prepared: string,
                       a: Option<Repo>, b: Option<Repo>, s: Source)
    requires request.template != name && SelectedBy(chosen, request) && SourceFits(s, chosen, prepared)
    requires Reachable(a, chosen) && Fillable(a, prepared) && Evolved(a, b, chosen.operation, prepared)
    requires Offspring(d, chosen.(snapshot := Some(prepared)), b)
    ensures Promising(d, name, request, prepared, b, s)
  {
  }

  ghost predicate AllPromising(ds: set<Option<Intent>>, name: string, request: Request, prepared: string,
                               r: Option<Repo>, s: Source) {
    forall d :: d in ds ==> Promising(d, name, request, prepared, r, s)
  }

  lemma HopeStays(chosen: Intent, was: set<Option<Intent>>, now: set<Option<Intent>>, name: string, request: Request,
                  prepared: string, a: Option<Repo>, b: Option<Repo>, s: Source)
    requires request.template != name && SelectedBy(chosen, request) && SourceFits(s, chosen, prepared)
    requires Reachable(a, chosen) && Fillable(a, prepared) && Evolved(a, b, chosen.operation, prepared)
    requires AllPromising(was, name, request, prepared, a, s)
    requires forall d :: d in now ==> (d in was && a == b) || Offspring(d, chosen.(snapshot := Some(prepared)), b)
    ensures AllPromising(now, name, request, prepared, b, s)
  {
    hide Promising, Offspring;
    forall d | d in now ensures Promising(d, name, request, prepared, b, s) {
      if Offspring(d, chosen.(snapshot := Some(prepared)), b) {
        StillPromising(chosen, d, name, request, prepared, a, b, s);
      }
    }
  }

  /** Whether others act while a call runs, and whether requests, saves and replies may fail or the process die. */
  datatype Mode = Mode(outside: bool, faults: bool)
  {
    predicate Calm() { !outside && !faults }
  }

  class Creation {
    const runtime: bool
    ghost const start: Option<Repo>
    var mem: Option<Intent>
    var disk: set<Option<Intent>>
    var repo: Option<Repo>
    var nextId: nat
    var source: Source
    var nextOperation: nat
    ghost var deals: map<nat, Deal>
    ghost var acts: seq<Act>
    /** The source repository at each of the calls' looks at it. */
    ghost var looks: seq<Source>
    /** How many steps of the calls have failed. */
    ghost var failures: nat

    ghost predicate Valid()
      reads this
    {
      && Log(start, acts) && repo == Now(start, acts) && nextId == NextId(start, acts)
      && Story(acts, deals, nextOperation) && Records(mem, disk, deals, acts) && disk != {}
    }

    /** Memory and every snapshot a restart may load know the operation. */
    ghost predicate Held(op: nat)
      reads this`mem, this`disk
    {
      mem.Some? && mem.value.operation == op && forall d :: d in disk ==> d.Some? && d.value.operation == op
    }

    constructor (runtime: bool, repo: Option<Repo>, source: Source)
      ensures Valid() && mem == None && acts == [] && this.runtime == runtime && this.repo == repo
    {
      this.runtime, this.start, this.repo, this.source := runtime, repo, repo, source;
      nextId := if repo.Some? then repo.value.id + 1 else 0;
      mem, disk, nextOperation, deals, acts, looks, failures := None, {None}, 0, map[], [], [], 0;
    }

    // ---- the provider's side ----

    /** One event at the provider, and its place in the log. */
    method Happen(a: Act)
      requires Valid() && Possible(repo, nextId, a) && Rightful(acts, a, deals) && !a.Resolved?
      requires !Outside(a) ==> a.operation < nextOperation
      requires Backs(mem, a) && forall d :: d in disk ==> Backs(d, a)
      modifies this`repo, this`nextId, this`acts
      ensures Valid() && acts == old(acts) + [a] && repo == After(old(repo), a)
    {
      hide Log, Story, Records, Possible, Rightful, After, Now, NextId, Backs;
      LogGrows(start, acts, a);
      StoryGrows(acts, a, deals, nextOperation);
      RecordsGrow(mem, disk, deals, acts, a);
      repo := After(repo, a);
      if a.Founded? || a.Created? { nextId := a.repo.id + 1; }
      acts := acts + [a];
    }

    /** Between two requests others act at the provider, other handlers save, and the call may be cut short. */
    method Step(code: string, m: Mode) returns (o: Outcome<()>)
      requires Valid()
      modifies this`repo, this`nextId, this`acts, this`source, this`disk, this`failures
      ensures o.Fine? ==> failures == old(failures)
      ensures !o.Fine? ==> failures > old(failures)
      ensures Valid() && Quiet(old(acts), acts) && disk <= old(disk) + {mem}
      ensures !m.outside ==> unchanged(this`acts, this`repo, this`source, this`disk)
      ensures !m.faults ==> o.Fine?
    {
      hide Log, Story, Now, NextId, Possible, After, Outside, Consistent;
      o := Fine(());
      if m.faults {
        if * { o := Error(code); }
        if * { o := Died; }
        if !o.Fine? { failures := failures + 1; }
      }
      if !m.outside { return; }
      var rounds: nat := *;
      while rounds > 0
        invariant Valid() && Quiet(old(acts), acts) && disk == old(disk)
        invariant if o.Fine? then failures == old(failures) else failures > old(failures)
      {
        var a: Act := *;
        if Outside(a) && Possible(repo, nextId, a) {
          OutsideIsRightful(acts, a, deals, mem, disk);
          Happen(a);
        }
        rounds := rounds - 1;
      }
      source := *;
      if * { disk := {mem}; }
      if * { disk := disk + {mem}; }
    }

    /** A step of a call whose record is on disk. */
    method Pause(op: nat, code: string, m: Mode) returns (o: Outcome<()>)
      requires Valid() && Held(op)
      modifies this`repo, this`nextId, this`acts, this`source, this`disk, this`failures
      ensures o.Fine? ==> failures == old(failures)
      ensures Valid() && Held(op) && Quiet(old(acts), acts)
      ensures !m.outside ==> unchanged(this`acts, this`repo, this`source, this`disk)
      ensures !m.faults ==> o.Fine?
    {
      hide Log, Story, Records, Now, NextId;
      o := Step(code, m);
    }

    /** A request of such a call takes effect. */
    method Perform(op: nat, a: Act)
      requires Valid() && Held(op) && op < nextOperation && Acting(a) && a.operation == op && !a.Recorded?
      requires Possible(repo, nextId, a) && Rightful(acts, a, deals)
      modifies this`repo, this`nextId, this`acts
      ensures Valid() && Held(op) && acts == old(acts) + [a] && repo == After(old(repo), a)
    {
      hide Log, Story, Records, Now, NextId, Possible, Rightful, After;
      Happen(a);
    }

    /** `GET /repos/...`: nothing, or the repository as it is. */
    method Probe(operation: nat, code: string, m: Mode) returns (o: Outcome<Option<Repo>>)
      requires Valid() && Held(operation) && operation < nextOperation
      modifies this`repo, this`nextId, this`acts, this`source, this`disk, this`failures
      ensures o.Fine? ==> failures == old(failures)
      ensures Valid() && Held(operation) && Adds(old(acts), acts, false, false)
      ensures o.Fine? ==> o.value == repo && |acts| > |old(acts)|
                          && acts[|acts| - 1] == if o.value.Some? then Shown(operation, o.value.value)
                                                 else Absent(operation)
      ensures !m.outside ==> unchanged(this`repo, this`source, this`disk)
      ensures !m.faults ==> o.Fine?
    {
      hide Held, Log, Story, Records, Now, NextId;
      var _ :- Pause(operation, code, m);
      Perform(operation, if repo.Some? then Shown(operation, repo.value) else Absent(operation));
      return Fine(repo);
    }

    /** `ls-remote`: the heads and tags at this moment. */
    method ListRefs(operation: nat, m: Mode) returns (o: Outcome<map<string, string>>)
      requires Valid() && Held(operation) && operation < nextOperation
      modifies this`repo, this`nextId, this`acts, this`source, this`disk, this`failures
      ensures o.Fine? ==> failures == old(failures)
      ensures Valid() && Held(operation) && Adds(old(acts), acts, false, false)
      ensures o.Fine? ==> |acts| > |old(acts)| && acts[|acts| - 1].Listed? && acts[|acts| - 1].operation == operation
                          && acts[|acts| - 1].refs == o.value && repo.Some? && repo.value.refs == o.value
      ensures !m.outside ==> unchanged(this`repo, this`source, this`disk)
      ensures m.Calm() && repo.Some? ==> o.Fine?
    {
      hide Held, Log, Story, Records, Now, NextId;
      var _ :- Pause(operation, "template_git_failed", m);
      if repo.None? { return Error("template_git_failed"); }
      var refs := repo.value.refs;
      Perform(operation, Listed(operation, repo.value.id, refs));
      return Fine(refs);
    }

    /** `push --force-with-lease=refs/heads/master:`, decided by the listing just seen; the reply may be lost. */
    method PushCommit(operation: nat, commit: string, ghost id: nat, m: Mode) returns (o: Outcome<()>)
      requires Valid() && Held(operation) && operation in deals && operation < nextOperation
               && commit == deals[operation].commit
      requires SawEmpty(acts, operation) && Backed(acts, operation, id)
      modifies this`repo, this`nextId, this`acts, this`source, this`disk, this`failures
      ensures o.Fine? ==> failures == old(failures)
      ensures Valid() && Held(operation) && Adds(old(acts), acts, false, true)
      ensures o.Fine? ==> exists k :: |old(acts)| <= k < |acts| && acts[k].Pushed? && acts[k].operation == operation
                                      && acts[k].commit == commit
      ensures !m.outside ==>
                unchanged(this`source, this`disk) && (repo == old(repo) || PushedTo(old(repo), repo, commit))
      ensures !m.outside && o.Fine? ==> PushedTo(old(repo), repo, commit)
      ensures m.Calm() && old(Takes(repo)) ==> o.Fine?
    {
      hide Held, Log, Story, Records, Now, NextId, Backed, SawEmpty;
      var _ :- Pause(operation, "template_git_failed", m);
      if !Takes(repo) { return Error("template_git_failed"); }
      StillSeen(old(acts), acts, operation);
      BackedGrows(old(acts), acts, operation, id);
      Perform(operation, Pushed(operation, repo.value.id, commit, repo.value.refs));
      ghost var pushed := acts;
      o := Pause(operation, "template_git_failed", m);
      assert acts[|pushed| - 1] == pushed[|pushed| - 1];
    }

    /** The creating request, after a look that found nothing and before any destination was recorded. The provider
        refuses a name that is taken; its reply shows what was created and may be lost. */
    method Establish(operation: nat, m: Mode) returns (o: Outcome<Option<Repo>>)
      requires Valid() && Held(operation) && operation < nextOperation
      requires SawAbsent(acts, operation) && forall i :: 0 <= i < |acts| ==> !acts[i].Recorded?
      modifies this`repo, this`nextId, this`acts, this`source, this`disk, this`failures
      ensures o.Fine? ==> failures == old(failures)
      ensures Valid() && Held(operation) && Adds(old(acts), acts, true, false)
      ensures o.Fine? ==>
                o.value.Some? && exists k :: |old(acts)| <= k < |acts| && acts[k] == Shown(operation, o.value.value)
      ensures o.Fine? ==> exists k :: |old(acts)| <= k < |acts| && acts[k] == Created(operation, o.value.value)
      ensures !m.outside ==>
                unchanged(this`source, this`disk) && (repo == old(repo) || (old(repo).None? && Blank(repo, operation)))
      ensures !m.outside && o.Fine? ==> old(repo).None? && repo == o.value && Blank(repo, operation)
      ensures m.Calm() && old(repo).None? ==> o.Fine?
    {
      hide Held, Log, Story, Records, Now, NextId, SawAbsent;
      var _ :- Pause(operation, "destination_owner_not_authorized", m);
      ghost var a1 := acts;
      StillAbsent(old(acts), acts, operation);
      var _ :- Pause(operation, "provider_unavailable", m);
      StillAbsent(a1, acts, operation);
      if repo.Some? { return Error("name already exists"); }
      var created := Bring(operation, m);
      ghost var sofar := acts;
      var _ :- Pause(operation, "provider_unavailable", m);
      assert acts[|sofar| - 2] == sofar[|sofar| - 2] && acts[|sofar| - 1] == sofar[|sofar| - 1];
      return Fine(Some(created));
    }

    /** The provider creates it and shows it in its reply. */
    method Bring(operation: nat, m: Mode) returns (created: Repo)
      requires Valid() && Held(operation) && operation < nextOperation && repo.None?
      requires SawAbsent(acts, operation) && forall i :: 0 <= i < |acts| ==> !acts[i].Recorded?
      modifies this`repo, this`nextId, this`acts
      ensures Valid() && Held(operation) && acts == old(acts) + [Created(operation, created), Shown(operation, created)]
      ensures repo == Some(created) && (!m.outside ==> Blank(repo, operation))
    {
      hide Held, Log, Story, Records, Now, NextId, SawAbsent;
      created := Repo(nextId, Some(operation), true, map[], "master");
      if m.outside {
        if * { created := created.(hidden := false); }
      }
      if * { created := created.(defaultBranch := "main"); }
      Perform(operation, Created(operation, created));
      Perform(operation, Shown(operation, created));
    }

    // ---- the saga ----

    /** The source repository, as the provider shows it now. */
    method ReadSource(m: Mode) returns (o: Outcome<Source>)
      requires Valid()
      modifies this`repo, this`nextId, this`acts, this`source, this`disk, this`looks, this`failures
      ensures o.Fine? ==> failures == old(failures)
      ensures Valid() && Quiet(old(acts), acts)
      ensures looks == old(looks) + if o.Fine? then [o.value] else []
      ensures !m.outside ==> unchanged(this`acts, this`repo, this`source, this`disk)
      ensures (o.Fine? ==> o.value == source) && (!m.faults ==> o.Fine?)
    {
      hide Log, Story, Records, Now, NextId;
      var _ :- Step("template_lookup_failed", m);
      looks := looks + [source];
      return Fine(source);
    }

    /** `save`: the map in memory first, then the state file. After an error a restart may read either. */
    method Save(intent: Intent, m: Mode) returns (o: Outcome<()>)
      requires Valid() && IntentOk(intent, deals, acts) && Consistent(Some(intent), acts)
      modifies this`mem, this`repo, this`nextId, this`acts, this`source, this`disk, this`failures
      ensures o.Fine? ==> failures == old(failures)
      ensures Valid() && Quiet(old(acts), acts)
      ensures mem == Some(intent) && (o.Fine? ==> disk == {mem}) && disk <= old(disk) + {mem}
      ensures !m.outside ==> unchanged(this`acts, this`repo, this`source)
      ensures !m.faults ==> o.Fine?
    {
      hide Log, Story, IntentOk, Now, NextId, Consistent;
      mem := Some(intent);
      o := Step("project_creation_save_uncertain", m);
      if o.Fine? {
        disk := {mem};
      } else {
        if * { disk := disk + {mem}; }
      }
    }

    /** The process ended; the next one reads what a save left behind. */
    method Restart(d: Option<Intent>)
      requires Valid() && d in disk
      modifies this`mem
      ensures Valid() && mem == d && acts == old(acts)
    {
      hide Log, Story, IntentOk, Consistent;
      mem := d;
    }

    /** The saved intent, or a new one with the source ref resolved once. */
    method Choose(template: string, reference: Option<string>, explicit: bool, m: Mode) returns (o: Outcome<Intent>)
      requires Valid()
      modifies this`repo, this`nextId, this`acts, this`source, this`disk, this`nextOperation, this`looks, this`failures
      ensures o.Fine? ==> failures == old(failures)
      ensures Valid() && old(acts) <= acts
      ensures old(mem).Some? ==> acts == old(acts) && repo == old(repo) && disk == old(disk)
      ensures old(mem).Some? && !Selects(old(mem).value, template, reference, explicit) ==> o.Error?
      ensures o.Fine? && old(mem).Some? ==> mem == Some(o.value)
      ensures o.Fine? && old(mem).None? ==> New(o.value) && Selects(o.value, template, reference, explicit)
      ensures o.Fine? && old(mem).None? ==>
                && |looks| == |old(looks)| + 2 && looks[|old(looks)|].eligible
                && looks[|old(looks)|].id == o.value.sourceId
                && reference in looks[|old(looks)| + 1].refs
                && looks[|old(looks)| + 1].refs[reference] == o.value.source
      ensures Idle(old(acts), acts)
      ensures !m.outside ==> unchanged(this`repo, this`source, this`disk)
      ensures !m.outside && old(mem).None? && o.Fine? ==> o.value.sourceId == source.id && source.eligible
      ensures old(mem).None? && o.Fine? ==> o.value.operation == old(nextOperation)
      ensures m.Calm() ==> (o.Fine? <==> if old(mem).Some? then Selects(old(mem).value, template, reference, explicit)
                                         else source.eligible && reference in source.refs)
    {
      hide Log, Story, Records, Now, NextId;
      if mem.Some? {
        if mem.value.template != template || mem.value.reference != reference || mem.value.explicit != explicit {
          return Error("project_creation_selection_conflict");
        }
        return Fine(mem.value);
      }
      var first :- ReadSource(m);
      if !first.eligible { return Error("repository_not_an_eligible_template"); }
      var second :- ReadSource(m);
      if reference !in second.refs { return Error("template_revision_unresolved"); }
      var commit := second.refs[reference];
      ghost var a := Resolved(nextOperation, commit);
      LogGrows(start, acts, a);
      NewOperation(acts, deals, nextOperation, commit);
      RecordsGrow(mem, disk, deals, acts, a);
      var op := nextOperation;
      nextOperation := nextOperation + 1;
      acts := acts + [a];
      assert acts[|acts| - 1] == a;
      return Fine(Intent(op, template, first.id, commit, reference, explicit, None, None, false));
    }

    /** An intent that is in no state yet: its ref was resolved, nothing else happened. */
    ghost predicate New(i: Intent)
      reads this
    {
      && i.operation !in deals && i.operation < nextOperation && i.snapshot.None? && i.destination.None? && !i.complete
      && Resolved(i.operation, i.source) in acts
    }

    /** Prepare the root commit again, insist on the recorded one, and record it before any destination exists. */
    method Prepare(chosen: Intent, prepared: string, m: Mode) returns (o: Outcome<Intent>)
      requires Valid() && (if mem.Some? then mem == Some(chosen) else New(chosen))
      modifies this`mem, this`repo, this`nextId, this`acts, this`source, this`disk, this`deals, this`looks,
               this`failures
      ensures o.Fine? ==> failures == old(failures)
      ensures Valid() && Quiet(old(acts), acts) && old(looks) <= looks
      ensures o.Fine? ==>
                mem == Some(o.value) && o.value.snapshot.Some? && o.value == chosen.(snapshot := o.value.snapshot)
      ensures chosen.snapshot.Some? && o.Fine? ==> o.value == chosen
      ensures o.Fine? ==>
                disk == {mem} && exists s :: s in looks[|old(looks)|..] && s.id == chosen.sourceId && s.eligible
      ensures mem == old(mem)
              || (mem.Some? && chosen.snapshot.None? && mem.value == chosen.(snapshot := mem.value.snapshot))
      ensures mem == old(mem) || mem == Some(chosen.(snapshot := Some(prepared)))
      ensures o.Fine? ==> o.value.snapshot == Some(prepared)
      ensures !m.outside ==>
                && unchanged(this`acts, this`repo, this`source)
                && (disk == old(disk)
                    || (mem == Some(chosen.(snapshot := Some(prepared))) && disk <= old(disk) + {mem}))
      ensures m.Calm() ==> (o.Fine? <==> SourceFits(source, chosen, prepared))
    {
      hide Log, Story, Records, IntentOk, Now, NextId, Consistent;
      var shown :- ReadSource(m);
      if shown.id != chosen.sourceId || !shown.eligible { return Error("template_access_or_eligibility_changed"); }
      ghost var sofar := acts;
      var _ :- Step("template_preparation_failed", m);
      if chosen.snapshot.Some? && chosen.snapshot.value != prepared { return Error("template_snapshot_changed"); }
      if mem.None? { StillThere(old(acts), acts, Resolved(chosen.operation, chosen.source)); }
      var _ :- Commission(chosen, prepared, m);
      assert looks[|old(looks)|..] == [shown];
      return Fine(chosen.(snapshot := Some(prepared)));
    }

    /** The commit joins the intent, in memory and on disk. */
    method Commission(chosen: Intent, prepared: string, m: Mode) returns (o: Outcome<()>)
      requires Valid() && (if mem.Some? then mem == Some(chosen) else New(chosen))
      requires chosen.snapshot.Some? ==> chosen.snapshot.value == prepared
      modifies this`mem, this`repo, this`nextId, this`acts, this`source, this`disk, this`deals, this`failures
      ensures o.Fine? ==> failures == old(failures)
      ensures Valid() && Quiet(old(acts), acts) && mem == Some(chosen.(snapshot := Some(prepared)))
      ensures (o.Fine? ==> disk == {mem}) && disk <= old(disk) + {mem}
      ensures !m.outside ==> unchanged(this`acts, this`repo, this`source)
      ensures !m.faults ==> o.Fine?
    {
      hide Log, Story, Records, IntentOk, Now, NextId, Consistent;
      var intent := chosen.(snapshot := Some(prepared));
      if mem.None? {
        Dealt(acts, deals, nextOperation, mem, disk, intent.operation, Deal(intent.source, prepared));
        deals := deals[intent.operation := Deal(intent.source, prepared)];
        FirstRecord(intent, deals, acts);
        NothingYet(this, intent);
      } else {
        KnownOperation(this);
      }
      o := Save(intent, m);
    }

    /** Probe the destination by name. Only a confirmed absence permits creation, and only while no destination is
        recorded; anything found must be private, carry the marker, and be the recorded destination if there is one. The
        record is on disk before the call goes on. */
    method Obtain(chosen: Intent, m: Mode) returns (o: Outcome<Intent>)
      requires Valid() && mem == Some(chosen) && Held(chosen.operation)
      modifies this`mem, this`repo, this`nextId, this`acts, this`source, this`disk, this`failures
      ensures o.Fine? ==> failures == old(failures)
      ensures Valid() && Adds(old(acts), acts, chosen.destination.None?, false)
      ensures o.Fine? ==> Placed(o.value) && o.value == chosen.(destination := o.value.destination)
                          && exists j :: |old(acts)| <= j < |acts| && MarkedBy(acts[j], chosen.operation)
                                         && acts[j].repo.id == o.value.destination.value
      ensures chosen.destination.Some? && o.Fine? ==> o.value == chosen
      ensures mem.Some? && mem.value == chosen.(destination := mem.value.destination)
      ensures chosen.destination.Some? ==> mem == Some(chosen)
      ensures Held(chosen.operation)
      ensures !m.outside ==>
                && unchanged(this`source) && disk <= old(disk) + {mem} && Offspring(mem, chosen, repo)
                && (repo == old(repo)
                    || (old(repo).None? && Reachable(old(repo), chosen) && Blank(repo, chosen.operation)))
      ensures !m.outside && o.Fine? ==> repo.Some? && Ours(repo.value, o.value) && Reachable(old(repo), chosen)
      ensures m.Calm() && Reachable(old(repo), chosen) ==> o.Fine?
    {
      hide Held, Log, Story, Records, IntentOk, Now, NextId, Marked, Consistent, SawAbsent, Backs;
      var destination :- Seek(chosen, m);
      if !destination.hidden || destination.marker != Some(chosen.operation)
         || (chosen.destination.Some? && chosen.destination.value != destination.id) {
        return Error("destination_exists_or_changed");
      }
      ghost var j :| |old(acts)| <= j < |acts| && acts[j] == Shown(chosen.operation, destination);
      SeenMarked(acts, j, chosen.operation, destination);
      var intent := chosen.(destination := Some(destination.id));
      ghost var sofar := acts;
      var _ :- Record(chosen, intent, m);
      assert acts[j] == sofar[j];
      return Fine(intent);
    }

    /** The destination as the provider shows it, created if there is none and none was recorded. */
    method Seek(chosen: Intent, m: Mode) returns (o: Outcome<Repo>)
      requires Valid() && mem == Some(chosen) && Held(chosen.operation)
      modifies this`repo, this`nextId, this`acts, this`source, this`disk, this`failures
      ensures o.Fine? ==> failures == old(failures)
      ensures Valid() && Held(chosen.operation) && Adds(old(acts), acts, chosen.destination.None?, false)
      ensures o.Fine? ==> exists j :: |old(acts)| <= j < |acts| && acts[j] == Shown(chosen.operation, o.value)
      ensures !m.outside ==>
                && unchanged(this`source, this`disk)
                && (repo == old(repo)
                    || (old(repo).None? && chosen.destination.None? && Blank(repo, chosen.operation)))
      ensures !m.outside && o.Fine? ==>
                repo == Some(o.value) && (old(repo).None? ==> chosen.destination.None? && Blank(repo, chosen.operation))
      ensures m.Calm() && (old(repo).Some? || chosen.destination.None?) ==> o.Fine?
    {
      hide Held, Log, Story, Records, IntentOk, Now, NextId, Consistent, SawAbsent, Backs;
      KnownOperation(this);
      var found :- Probe(chosen.operation, "destination_probe_unavailable", m);
      if found.None? {
        if chosen.destination.Some? { return Error("destination_probe_unavailable"); }
        JustAbsent(acts, chosen.operation);
        NotRecorded(this);
        found :- Establish(chosen.operation, m);
      }
      return Fine(found.value);
    }

    /** The save of the destination, before anything is written to it. */
    method Record(chosen: Intent, intent: Intent, m: Mode) returns (o: Outcome<()>)
      requires Valid() && mem == Some(chosen) && Held(chosen.operation)
      requires intent.destination.Some? && intent == chosen.(destination := intent.destination)
      requires Marked(acts, intent.operation, intent.destination.value)
      requires chosen.destination.Some? ==> intent == chosen
      modifies this`mem, this`repo, this`nextId, this`acts, this`source, this`disk, this`failures
      ensures o.Fine? ==> failures == old(failures)
      ensures Valid() && Adds(old(acts), acts, false, false) && mem == Some(intent)
      ensures o.Fine? ==> Placed(intent)
      ensures !m.outside ==> unchanged(this`repo, this`source)
      ensures Held(chosen.operation) && disk <= old(disk) + {mem} && (!m.faults ==> o.Fine?)
    {
      hide Log, Story, Records, IntentOk, Now, NextId, Marked, Consistent, Backs;
      KnownOperation(this);
      PlacedOk(this, chosen, intent.destination.value);
      ghost var sofar := acts;
      var _ :- Save(intent, m);
      MarkedGrows(sofar, acts, intent.operation, intent.destination.value);
      ghost var saved := acts;
      Note(intent.operation, intent.destination.value);
      MarkedGrows(saved, acts, intent.operation, intent.destination.value);
      assert acts[|acts| - 1] == Recorded(intent.operation, intent.destination.value);
      return Fine(());
    }

    /** The record has reached the state file, and nothing else is there. */
    ghost method Note(op: nat, id: nat)
      requires Valid() && mem.Some? && mem.value.operation == op && mem.value.destination == Some(id) && disk == {mem}
      requires op < nextOperation
      modifies this`acts
      ensures Valid() && acts == old(acts) + [Recorded(op, id)]
    {
      hide Log, Story, Records, Now, NextId;
      var a := Recorded(op, id);
      LogGrows(start, acts, a);
      StoryGrows(acts, a, deals, nextOperation);
      RecordsGrow(mem, disk, deals, acts, a);
      acts := acts + [a];
    }

    /** The destination is in memory and on disk, marked and recorded. */
    ghost predicate Placed(intent: Intent)
      reads this
    {
      && mem == Some(intent) && disk == {mem} && intent.destination.Some?
      && Backed(acts, intent.operation, intent.destination.value)
    }

    ghost predicate Holding(intent: Intent)
      reads this
    {
      && mem == Some(intent) && Held(intent.operation) && intent.destination.Some? && intent.snapshot.Some?
      && Backed(acts, intent.operation, intent.destination.value)
    }

    /** `publish`: the destination must list nothing, or exactly the commit; afterwards it must list exactly the
        commit. */
    method Publish(intent: Intent, m: Mode) returns (o: Outcome<()>)
      requires Valid() && Holding(intent)
      modifies this`repo, this`nextId, this`acts, this`source, this`disk, this`failures
      ensures o.Fine? ==> failures == old(failures)
      ensures Valid() && Adds(old(acts), acts, false, true) && Holding(intent)
      ensures o.Fine? ==> ListedSince(old(acts), acts, intent.operation, intent.snapshot.value)
      ensures !m.outside ==> unchanged(this`source, this`disk) && Filled(old(repo), repo, intent.snapshot.value)
      ensures !m.outside && o.Fine? ==>
                old(repo).Some? && Fillable(old(repo), intent.snapshot.value)
                && repo == Some(old(repo).value.(refs := map[MASTER := intent.snapshot.value]))
      ensures m.Calm() && old(repo).Some? && Fillable(old(repo), intent.snapshot.value) ==> o.Fine?
    {
      hide Held, Log, Story, Records, IntentOk, Now, NextId, Backed;
      var commit := intent.snapshot.value;
      var op := intent.operation;
      ghost var id, a0 := intent.destination.value, acts;
      KnownOperation(this);
      var refs := ListRefs(op, m);
      BackedGrows(a0, acts, op, id);
      if !refs.Fine? { return refs.PropagateFailure(); }
      match Decide(refs.value, commit)
      case Refuse => return Error("destination_changed");
      case Already => return Fine(());
      case Go =>
      assert EmptyAt(acts, |acts| - 1, op);
      ghost var a1 := acts;
      var pushed := PushCommit(op, commit, id, m);
      BackedGrows(a1, acts, op, id);
      if !pushed.Fine? { return pushed; }
      ghost var a2 := acts;
      var again := ListRefs(op, m);
      BackedGrows(a2, acts, op, id);
      if !again.Fine? { return again.PropagateFailure(); }
      if Decide(again.value, commit) != Already { return Error("destination_verification_failed"); }
      return Fine(());
    }

    /** The destination read once more: it must still be the one that was marked. So it was also the one that was
        listed. */
    method Deliver(intent: Intent, m: Mode) returns (o: Outcome<Repo>)
      requires Valid() && Holding(intent)
      modifies this`repo, this`nextId, this`acts, this`source, this`disk, this`failures
      ensures o.Fine? ==> failures == old(failures)
      ensures Valid() && Adds(old(acts), acts, false, true) && Holding(intent)
      ensures o.Fine? ==> o.value.id == intent.destination.value
                          && Verified(acts, intent.operation, intent.destination.value, intent.snapshot.value)
                          && Shown(intent.operation, o.value) in acts
      ensures !m.outside ==> unchanged(this`source, this`disk) && Filled(old(repo), repo, intent.snapshot.value)
      ensures !m.outside && o.Fine? ==>
                repo == Some(o.value) && o.value.refs == map[MASTER := intent.snapshot.value]
                && old(repo).Some? && old(repo).value.id == intent.destination.value
                && Fillable(old(repo), intent.snapshot.value)
      ensures m.Calm() && old(repo).Some? && old(repo).value.id == intent.destination.value
              && Fillable(old(repo), intent.snapshot.value) ==>
                o.Fine?
    {
      hide Held, Story, Records, IntentOk, Now, NextId, Backed, Verified, Possible, ListedSince;
      var op := intent.operation;
      ghost var id, a0 := intent.destination.value, acts;
      KnownOperation(this);
      var published := Publish(intent, m);
      if !published.Fine? { return published.PropagateFailure(); }
      ghost var a1 := acts;
      var shown := Probe(op, "provider_unavailable", m);
      BackedGrows(a1, acts, op, id);
      if !shown.Fine? { return shown.PropagateFailure(); }
      if shown.value.None? || shown.value.value.id != intent.destination.value {
        return Error("destination_identity_changed");
      }
      ListedThere(start, a0, a1, acts, op, id, intent.snapshot.value);
      return Fine(shown.value.value);
    }

    /** Default branch and deploy key, in this order. */
    method Equip(intent: Intent, verified: Repo, m: Mode) returns (o: Outcome<()>)
      requires Valid() && Holding(intent) && verified.id == intent.destination.value
               && Shown(intent.operation, verified) in acts
      modifies this`repo, this`nextId, this`acts, this`source, this`disk, this`failures
      ensures o.Fine? ==> failures == old(failures)
      ensures Valid() && Adds(old(acts), acts, false, true) && Holding(intent)
      ensures o.Fine? ==> Equipped(acts, intent.operation, intent.destination.value)
      ensures !m.outside ==> unchanged(this`source, this`disk) && Redirected(old(repo), repo)
      ensures m.Calm() && old(repo) == Some(verified) ==> o.Fine?
    {
      hide Held, Log, Story, Records, IntentOk, Now, NextId, Backed;
      var latest := Direct(intent, verified, m);
      if !latest.Fine? { return latest.PropagateFailure(); }
      ghost var directed := acts;
      o := Write(intent, true, m);
      StillThere(directed, acts, Shown(intent.operation, latest.value));
    }

    /** The default branch is master, or is made master and looked at again. */
    method Direct(intent: Intent, verified: Repo, m: Mode) returns (o: Outcome<Repo>)
      requires Valid() && Holding(intent) && verified.id == intent.destination.value
               && Shown(intent.operation, verified) in acts
      modifies this`repo, this`nextId, this`acts, this`source, this`disk, this`failures
      ensures o.Fine? ==> failures == old(failures)
      ensures Valid() && Adds(old(acts), acts, false, true) && Holding(intent)
      ensures o.Fine? ==> Shown(intent.operation, o.value) in acts && o.value.id == intent.destination.value
                          && o.value.defaultBranch == "master"
      ensures verified.defaultBranch == "master" ==> o == Fine(verified) && acts == old(acts)
      ensures !m.outside ==> unchanged(this`source, this`disk) && Redirected(old(repo), repo)
      ensures m.Calm() && old(repo) == Some(verified) ==> o.Fine?
    {
      hide Held, Log, Story, Records, IntentOk, Now, NextId, Backed;
      if verified.defaultBranch == "master" { return Fine(verified); }
      KnownOperation(this);
      var op := intent.operation;
      var patched := Write(intent, false, m);
      if !patched.Fine? { return patched.PropagateFailure(); }
      ghost var a1 := acts;
      var checked := Probe(op, "provider_unavailable", m);
      BackedGrows(a1, acts, op, intent.destination.value);
      if !checked.Fine? { return checked.PropagateFailure(); }
      if checked.value.None? || checked.value.value.id != intent.destination.value
         || checked.value.value.defaultBranch != "master" {
        return Error("destination_default_branch_unconfirmed");
      }
      assert acts[|acts| - 1] == Shown(op, checked.value.value);
      return Fine(checked.value.value);
    }

    /** A changing request to whatever the name stands for: the default branch, or the deploy key. The reply may be
        lost. */
    method Write(intent: Intent, key: bool, m: Mode) returns (o: Outcome<()>)
      requires Valid() && Holding(intent)
      modifies this`repo, this`nextId, this`acts, this`source, this`disk, this`failures
      ensures o.Fine? ==> failures == old(failures)
      ensures Valid() && Adds(old(acts), acts, false, true) && Holding(intent)
      ensures o.Fine? && key ==>
                exists k :: |old(acts)| <= k < |acts| && acts[k].Keyed? && acts[k].operation == intent.operation
      ensures !m.outside ==> unchanged(this`source, this`disk) && Redirected(old(repo), repo)
      ensures !m.outside && !key && o.Fine? ==> repo.Some? && repo.value.defaultBranch == "master"
      ensures m.Calm() && old(repo).Some? ==> o.Fine?
    {
      hide Held, Log, Story, Records, IntentOk, Now, NextId, Backed;
      KnownOperation(this);
      var op := intent.operation;
      ghost var id, a0 := intent.destination.value, acts;
      o := Pause(op, "provider_unavailable", m);
      BackedGrows(a0, acts, op, id);
      if !o.Fine? { return; }
      if repo.None? { o := Error("provider_unavailable"); return; }
      ghost var a1 := acts;
      Perform(op, if key then Keyed(op, repo.value.id) else Patched(op, repo.value.id));
      BackedGrows(a1, acts, op, id);
      ghost var a2 := acts;
      o := Pause(op, "provider_unavailable", m);
      BackedGrows(a2, acts, op, id);
      assert acts[|a1|] == a2[|a1|];
    }

    /** With a runtime the checkout must show the commit, and its image must build. */
    method CheckOut(intent: Intent, m: Mode) returns (o: Outcome<()>)
      requires Valid() && Holding(intent)
      modifies this`repo, this`nextId, this`acts, this`source, this`disk, this`failures
      ensures o.Fine? ==> failures == old(failures)
      ensures Valid() && Held(intent.operation) && Quiet(old(acts), acts)
      ensures !m.outside ==> unchanged(this`acts, this`repo, this`source, this`disk)
      ensures runtime && o.Fine? ==> CheckedOut(start, old(acts), acts, intent.snapshot.value)
      ensures !runtime ==> o.Fine? && acts == old(acts)
      ensures m.Calm() && old(repo).Some? && old(repo).value.refs == map[MASTER := intent.snapshot.value] ==> o.Fine?
    {
      hide Held, Log, Story, Records, Now, NextId, Backed;
      if !runtime { return Fine(()); }
      var _ :- Pause(intent.operation, "template_runtime_checkout_failed", m);
      if repo.None? || MASTER !in repo.value.refs || repo.value.refs[MASTER] != intent.snapshot.value {
        return Error("destination_changed");
      }
      ghost var sofar := acts;
      o := Pause(intent.operation, "template_workspace_build_failed", m);
      CheckedOutLater(start, old(acts), sofar, acts, intent.snapshot.value);
    }

    /** The last record; an error takes the claim of completion back in memory. */
    method Finish(intent: Intent, m: Mode) returns (o: Outcome<Intent>)
      requires Valid() && Holding(intent) && !intent.complete
      requires Verified(acts, intent.operation, intent.destination.value, intent.snapshot.value)
      requires Equipped(acts, intent.operation, intent.destination.value)
      modifies this`mem, this`repo, this`nextId, this`acts, this`source, this`disk, this`failures
      ensures o.Fine? ==> failures == old(failures)
      ensures Valid() && Quiet(old(acts), acts)
      ensures o.Fine? ==> o.value == intent.(complete := true) && mem == Some(o.value) && disk == {mem}
      ensures runtime && o.Fine? ==> CheckedOut(start, old(acts), acts, intent.snapshot.value)
      ensures o.Error? ==> mem == Some(intent)
      ensures mem.Some? && mem.value == intent.(complete := mem.value.complete)
      ensures Held(intent.operation)
      ensures !m.outside ==>
                unchanged(this`source, this`repo) && disk <= old(disk) + {Some(intent.(complete := true))}
      ensures m.Calm() && old(repo).Some? && old(repo).value.refs == map[MASTER := intent.snapshot.value] ==> o.Fine?
    {
      hide Log, Story, IntentOk, Now, NextId, Backed, Equipped, Consistent, Verified, CheckedOut;
      KnownOperation(this);
      ghost var a0 := acts;
      var _ :- CheckOut(intent, m);
      Completed(this, intent, a0);
      ghost var a1 := acts;
      var saved := Save(intent.(complete := true), m);
      if runtime { CheckedOutGrows(start, a0, a0, a1, acts, intent.snapshot.value); }
      if saved.Error? {
        TakeBack(this, intent);
        SameRecord(intent.(complete := true), intent.(complete := false), acts);
        mem := Some(intent.(complete := false));
        return Error(saved.code);
      }
      if saved.Died? { return Died; }
      return Fine(intent.(complete := true));
    }

    /** From the recorded commit to the record of completion. */
    method Settle(prepared: Intent, m: Mode) returns (o: Outcome<Intent>)
      requires Valid() && mem == Some(prepared) && Held(prepared.operation) && prepared.snapshot.Some?
               && !prepared.complete
      modifies this`mem, this`repo, this`nextId, this`acts, this`source, this`disk, this`failures
      ensures o.Fine? ==> failures == old(failures)
      ensures Valid() && Adds(old(acts), acts, prepared.destination.None?, true) && LookedFirst(old(acts), acts)
      ensures o.Fine? ==> mem == Some(o.value) && o.value.complete && Delivered(acts, o.value)
      ensures runtime && o.Fine? ==> CheckedOut(start, old(acts), acts, prepared.snapshot.value)
      ensures mem.Some? && mem.value == prepared.(destination := mem.value.destination, complete := mem.value.complete)
      ensures prepared.destination.Some? ==> mem.value.destination == prepared.destination
      ensures Held(prepared.operation)
      ensures !m.outside ==>
                && unchanged(this`source) && Evolved(old(repo), repo, prepared.operation, prepared.snapshot.value)
                && (repo != old(repo) ==> Reachable(old(repo), prepared))
                && Offspring(mem, prepared, repo)
                && (forall d :: d in disk ==> d in old(disk) || Offspring(d, prepared, repo))
      ensures m.Calm() ==>
                (o.Fine? <==> Reachable(old(repo), prepared) && Fillable(old(repo), prepared.snapshot.value))
    {
      hide Log, Story, Records, IntentOk, Now, NextId, Backed, Equipped, Verified, MarkedBy, CheckedOut;
      var intent :- Obtain(prepared, m);
      ghost var looked, r1 := acts, repo;
      o := Complete(intent, m);
      if runtime && o.Fine? {
        CheckedOutGrows(start, old(acts), looked, acts, acts, prepared.snapshot.value);
      }
      AllOfOne(this);
      LooksFirst(old(acts), looked, acts, intent.operation);
    }

    /** From the recorded destination on. */
    method Complete(intent: Intent, m: Mode) returns (o: Outcome<Intent>)
      requires Valid() && Holding(intent) && !intent.complete
      modifies this`mem, this`repo, this`nextId, this`acts, this`source, this`disk, this`failures
      ensures o.Fine? ==> failures == old(failures)
      ensures Valid() && Adds(old(acts), acts, false, true)
      ensures o.Fine? ==> mem == Some(o.value) && o.value.complete && Delivered(acts, o.value)
      ensures runtime && o.Fine? ==> CheckedOut(start, old(acts), acts, intent.snapshot.value)
      ensures mem.Some? && mem.value == intent.(complete := mem.value.complete)
      ensures Held(intent.operation)
      ensures !m.outside ==> unchanged(this`source) && Filled(old(repo), repo, intent.snapshot.value)
                             && disk <= old(disk) + {Some(intent.(complete := true))}
      ensures !m.outside && o.Fine? ==> Fillable(old(repo), intent.snapshot.value)
      ensures m.Calm() && old(repo).Some? && old(repo).value.id == intent.destination.value
              && Fillable(old(repo), intent.snapshot.value) ==>
                o.Fine?
    {
      hide Log, Story, Records, IntentOk, Now, NextId, Backed, Equipped, CheckedOut;
      var verified :- Deliver(intent, m);
      ghost var seen,
          delivered := Listed(intent.operation, intent.destination.value, map[MASTER := intent.snapshot.value]), acts;
      var _ :- Equip(intent, verified, m);
      StillThere(delivered, acts, seen);
      ghost var equipped := acts;
      o := Finish(intent, m);
      StillThere(equipped, acts, seen);
      BackedGrows(equipped, acts, intent.operation, intent.destination.value);
      EquippedGrows(equipped, acts, intent.operation, intent.destination.value);
      if runtime && o.Fine? {
        CheckedOutGrows(start, old(acts), equipped, acts, acts, intent.snapshot.value);
      }
    }

    /** `create_inner`. What it returned as created was listed, in the marked and recorded repository, as the recorded
        commit and nothing else. An earlier record keeps its operation, its commit and its destination, and with a
        destination on record nothing is created. Every write follows a look of this call at the marker. */
    method Create(name: string, request: Request, prepared: string, m: Mode) returns (o: Outcome<Intent>)
      requires Valid()
      modifies this
      ensures Valid() && old(acts) <= acts && LookedFirst(old(acts), acts)
      ensures o.Fine? ==> mem == Some(o.value) && o.value.complete && Delivered(acts, o.value)
      ensures o.Fine? ==> failures == old(failures)
      ensures runtime && o.Fine? && !old(mem.Some? && mem.value.complete) ==>
                o.value.snapshot.Some? && CheckedOut(start, old(acts), acts, o.value.snapshot.value)
      ensures request.template == name || (old(mem).Some? && !SelectedBy(old(mem).value, request)) ==>
                o.Error? && acts == old(acts) && mem == old(mem) && repo == old(repo) && disk == old(disk)
      ensures old(mem).Some? && old(mem).value.complete && o.Fine? ==>
                acts == old(acts) && mem == old(mem) && disk == old(disk)
      ensures old(mem).Some? ==> mem.Some? && Continues(old(mem).value, mem.value)
                                 && Adds(old(acts), acts, old(mem).value.destination.None?, true)
      // when nobody disturbs it, the call succeeds exactly in these circumstances, unless a stranger's repository
      // carries the number of the new operation
      ensures m.Calm() && old(Promising(mem, name, request, prepared, repo, source)) ==> o.Fine?
      ensures m.Calm() && o.Fine? ==>
                || old(Promising(mem, name, request, prepared, repo, source))
                || old(mem.None? && repo.Some? && repo.value.marker == Some(nextOperation))
      // and an attempt that was cut short leaves them as they were
      ensures !m.outside && old(Hopeful(name, request, prepared)) ==> Hopeful(name, request, prepared)
    {
      hide Log, Story, Records, IntentOk, Now, NextId, Marked, Delivered, MarkedBy, Offspring, Evolved, CheckedOut;
      if request.template == name { return Error("destination_is_template"); }
      var chosen :- Choose(request.template, request.reference, request.explicit, m);
      if chosen.complete {
        CompleteMeans(this);
        return Fine(chosen);
      }
      ghost var chose := acts;
      o := Carry(chosen, prepared, m);
      IdleFirst(old(acts), chose, acts);
      if runtime && o.Fine? { CheckedOutGrows(start, old(acts), chose, acts, acts, prepared); }
      if !m.outside && old(Hopeful(name, request, prepared)) {
        assert Promising(old(mem), name, request, prepared, old(repo), old(source));
        HopeStays(chosen, old(disk) + {old(mem)}, disk + {mem}, name, request, prepared, old(repo), repo, source);
      }
    }

    /** Whatever of it a restart may find, the request can still be carried through. */
    ghost predicate Hopeful(name: string, request: Request, prepared: string)
      reads this
    {
      AllPromising(disk + {mem}, name, request, prepared, repo, source)
    }

    /** What an attempt for the intent `i` leaves when nobody else acts. */
    ghost predicate Attempted(r: Option<Repo>, before: Option<Intent>, saved: set<Option<Intent>>, i: Intent)
      requires i.snapshot.Some?
      reads this
    {
      && Evolved(r, repo, i.operation, i.snapshot.value)
      && (mem == before || Offspring(mem, i, repo))
      && (forall d :: d in disk ==> d in saved || Offspring(d, i, repo))
      && (repo != r ==> Reachable(r, i) && Offspring(mem, i, repo) && forall d :: d in disk ==> Offspring(d, i, repo))
    }

    /** An intent that is not complete, carried as far as it goes. */
    method Carry(chosen: Intent, prepared: string, m: Mode) returns (o: Outcome<Intent>)
      requires Valid() && (if mem.Some? then mem == Some(chosen) else New(chosen)) && !chosen.complete
      modifies this
      ensures Valid() && old(acts) <= acts && LookedFirst(old(acts), acts)
      ensures o.Fine? ==> mem == Some(o.value) && o.value.complete && Delivered(acts, o.value)
      ensures o.Fine? ==> failures == old(failures)
      ensures o.Fine? ==> o.value.snapshot == Some(prepared)
      ensures runtime && o.Fine? ==> CheckedOut(start, old(acts), acts, prepared)
      ensures old(mem).Some? ==>
                mem.Some? && Continues(chosen, mem.value) && Adds(old(acts), acts, chosen.destination.None?, true)
      ensures !m.outside ==> Attempted(old(repo), old(mem), old(disk), chosen.(snapshot := Some(prepared)))
                             && unchanged(this`source)
      ensures m.Calm() ==> (o.Fine? <==> && SourceFits(source, chosen, prepared)
                                         && Reachable(old(repo), chosen) && Fillable(old(repo), prepared))
    {
      hide Log, Story, Records, IntentOk, Now, NextId, Marked, Delivered, MarkedBy, CheckedOut;
      var ready :- Prepare(chosen, prepared, m);
      ghost var now := acts;
      assert ready == chosen.(snapshot := Some(prepared)) && disk == {Some(ready)};
      o := Settle(ready, m);
      IdleFirst(old(acts), now, acts);
      if runtime && o.Fine? { CheckedOutGrows(start, old(acts), now, acts, acts, prepared); }
    }
  }

  /** All acts are of the operation on record. */
  lemma AllOfOne(w: Creation)
    requires w.Valid() && w.mem.Some?
    ensures forall k :: 0 <= k < |w.acts| && Acting(w.acts[k]) ==> w.acts[k].operation == w.mem.value.operation
  {
    hide Log, Story, IntentOk;
    assert forall k :: 0 <= k < |w.acts| ==> Backs(w.mem, w.acts[k]);
  }

  lemma LooksFirst(a0: seq<Act>, a1: seq<Act>, acts: seq<Act>, op: nat)
    requires Adds(a0, a1, true, false) && a1 <= acts
    requires forall k :: 0 <= k < |acts| && Acting(acts[k]) ==> acts[k].operation == op
    requires exists j :: |a0| <= j < |a1| && MarkedBy(a1[j], op)
    ensures LookedFirst(a0, acts)
  {
    hide MarkedBy;
    var j :| |a0| <= j < |a1| && MarkedBy(a1[j], op);
    assert acts[j] == a1[j];
    forall k | |a0| <= k < |a1| ensures !Writes(acts[k]) { assert acts[k] == a1[k]; }
  }

  lemma IdleFirst(a0: seq<Act>, a1: seq<Act>, acts: seq<Act>)
    requires Idle(a0, a1) && a1 <= acts && LookedFirst(a1, acts)
    ensures LookedFirst(a0, acts)
  {
    hide MarkedBy;
    forall k | |a0| <= k < |a1| ensures !Writes(acts[k]) { assert acts[k] == a1[k]; }
  }

  lemma CompleteMeans(w: Creation)
    requires w.Valid() && w.mem.Some? && w.mem.value.complete
    ensures Delivered(w.acts, w.mem.value)
  {
    hide Log, Story, Verified, Marked;
    KnownOperation(w);
  }

  /** Any number of calls for one name, cut short anywhere, with restarts from whatever a save left behind. */
  method Run(w: Creation, name: string, calls: seq<Request>)
    requires w.Valid()
    modifies w
    ensures w.Valid() && Clean(w.acts) && old(w.acts) <= w.acts
    ensures forall d :: d in w.disk && d.Some? && d.value.complete ==> Delivered(w.acts, d.value)
  {
    hide Log, Story, Records;
    for i := 0 to |calls|
      invariant w.Valid() && old(w.acts) <= w.acts
    {
      var prepared: string, m: Mode := *, *;
      var o := w.Create(name, calls[i], prepared, m);
      if o.Died? {
        var d :| d in w.disk;
        var e: Option<Intent> := *;
        w.Restart(if e in w.disk then e else d);
      }
    }
    MemoryFits(w);
    StoryClean(w.start, w.acts, w.deals, w.nextOperation, w.mem);
    DiskComplete(w);
  }

  /** One request, tried any number of times with requests, saves and replies failing and the process dying anywhere,
      and nobody else acting: one more attempt in which nothing fails completes it. */
  method Recover(w: Creation, name: string, request: Request, prepared: string, attempts: nat)
    returns (o: Outcome<Intent>)
    requires w.Valid() && w.Hopeful(name, request, prepared)
    modifies w
    ensures w.Valid() && o.Fine? && w.mem == Some(o.value) && o.value.complete && SelectedBy(o.value, request)
    ensures Delivered(w.acts, o.value) && old(w.acts) <= w.acts
  {
    hide Log, Story, Records, Delivered;
    for i := 0 to attempts
      invariant w.Valid() && w.Hopeful(name, request, prepared) && old(w.acts) <= w.acts
    {
      var tried := w.Create(name, request, prepared, Mode(false, true));
      if tried.Died? {
        var d :| d in w.disk;
        var e: Option<Intent> := *;
        w.Restart(if e in w.disk then e else d);
      }
    }
    o := w.Create(name, request, prepared, Mode(false, false));
    assert o.Fine? && Some(o.value) in w.disk + {w.mem};
  }

  /** A name under which nothing stands, with an eligible source that has the ref, is a start from which this works. */
  lemma FreshStart(w: Creation, name: string, request: Request, prepared: string)
    requires w.mem.None? && w.disk == {None} && w.repo.None? && request.template != name
    requires w.source.eligible && request.reference in w.source.refs
    ensures w.Hopeful(name, request, prepared)
  {
  }

  lemma MemoryFits(w: Creation)
    requires w.Valid()
    ensures Consistent(w.mem, w.acts)
  {
  }

  lemma DiskComplete(w: Creation)
    requires w.Valid()
    ensures forall d :: d in w.disk && d.Some? && d.value.complete ==> Delivered(w.acts, d.value)
  {
    hide Log, Story, Verified, Marked;
    forall d | d in w.disk && d.Some? && d.value.complete ensures Delivered(w.acts, d.value) {
      assert IntentOk(d.value, w.deals, w.acts);
    }
  }

  /** At some moment of this call whatever the name stood for had the commit as its master. */
  ghost predicate CheckedOut(start: Option<Repo>, before: seq<Act>, acts: seq<Act>, commit: string) {
    exists k: nat :: |before| <= k <= |acts| && HasMaster(Now(start, acts[..k]), commit)
  }

  predicate HasMaster(r: Option<Repo>, commit: string) {
    r.Some? && MASTER in r.value.refs && r.value.refs[MASTER] == commit
  }

  lemma CheckedOutLater(start: Option<Repo>, before: seq<Act>, earlier: seq<Act>, acts: seq<Act>, commit: string)
    requires before <= earlier <= acts && HasMaster(Now(start, earlier), commit)
    ensures CheckedOut(start, before, acts, commit)
  {
    assert acts[..|earlier|] == earlier;
  }

  lemma CheckedOutGrows(start: Option<Repo>, before: seq<Act>, later: seq<Act>, acts: seq<Act>, more: seq<Act>,
                        commit: string)
    requires |before| <= |later| && acts <= more && CheckedOut(start, later, acts, commit)
    ensures CheckedOut(start, before, more, commit)
  {
    var k: nat :| |later| <= k <= |acts| && HasMaster(Now(start, acts[..k]), commit);
    assert more[..k] == acts[..k];
  }

  /** The commit was listed as the only ref since `before`. */
  ghost predicate ListedSince(before: seq<Act>, acts: seq<Act>, op: nat, commit: string) {
    exists l ::
      |before| <= l < |acts| && acts[l].Listed? && acts[l].operation == op && acts[l].refs == map[MASTER := commit]
  }

  lemma MarkedGrows(before: seq<Act>, acts: seq<Act>, op: nat, id: nat)
    requires before <= acts && Marked(before, op, id)
    ensures Marked(acts, op, id)
  {
    var j :| 0 <= j < |before| && MarkedBy(before[j], op) && before[j].repo.id == id;
    assert acts[j] == before[j];
  }

  lemma BackedGrows(before: seq<Act>, acts: seq<Act>, op: nat, id: nat)
    requires before <= acts && Backed(before, op, id)
    ensures Backed(acts, op, id)
  {
    MarkedGrows(before, acts, op, id);
    StillThere(before, acts, Recorded(op, id));
  }

  lemma SeenMarked(acts: seq<Act>, j: nat, op: nat, r: Repo)
    requires j < |acts| && acts[j] == Shown(op, r) && r.hidden && r.marker == Some(op)
    ensures Marked(acts, op, r.id) && MarkedBy(acts[j], op)
  {
  }

  lemma PlacedOk(w: Creation, i: Intent, id: nat)
    requires w.Valid() && w.mem == Some(i) && Marked(w.acts, i.operation, id)
    requires i.destination.Some? ==> i.destination.value == id
    ensures IntentOk(i.(destination := Some(id)), w.deals, w.acts)
            && Consistent(Some(i.(destination := Some(id))), w.acts)
  {
    hide Log, Story, Marked;
    forall k | 0 <= k < |w.acts| ensures Backs(Some(i.(destination := Some(id))), w.acts[k]) {
      assert Backs(w.mem, w.acts[k]);
    }
  }

  /** A record without a destination: none was ever recorded. */
  lemma NotRecorded(w: Creation)
    requires w.Valid() && w.mem.Some? && w.mem.value.destination.None?
    ensures forall k :: 0 <= k < |w.acts| ==> !w.acts[k].Recorded?
  {
    hide Log, Story, IntentOk;
    assert forall k :: 0 <= k < |w.acts| ==> Backs(w.mem, w.acts[k]);
  }

  /** Without a record nothing was ever done, so any record will do. */
  lemma NothingYet(w: Creation, i: Intent)
    requires w.Valid() && w.mem.None?
    ensures Consistent(Some(i), w.acts)
  {
    hide Log, Story, IntentOk;
    forall k | 0 <= k < |w.acts| ensures Backs(Some(i), w.acts[k]) { assert Backs(w.mem, w.acts[k]); }
  }

  lemma SameRecord(i: Intent, later: Intent, acts: seq<Act>)
    requires Consistent(Some(i), acts) && later.operation == i.operation && later.destination == i.destination
    ensures Consistent(Some(later), acts)
  {
    forall k | 0 <= k < |acts| ensures Backs(Some(later), acts[k]) { assert Backs(Some(i), acts[k]); }
  }

  lemma FirstRecord(i: Intent, deals: map<nat, Deal>, acts: seq<Act>)
    requires i.operation in deals && i.destination.None? && !i.complete && i.snapshot.Some?
    requires deals[i.operation] == Deal(i.source, i.snapshot.value)
    ensures IntentOk(i, deals, acts)
  {
  }

  lemma Completed(w: Creation, i: Intent, before: seq<Act>)
    requires w.Valid() && w.mem == Some(i) && before <= w.acts && i.destination.Some? && i.snapshot.Some?
    requires Backed(before, i.operation, i.destination.value) && Equipped(before, i.operation, i.destination.value)
    requires Verified(before, i.operation, i.destination.value, i.snapshot.value)
    ensures IntentOk(i.(complete := true), w.deals, w.acts) && Consistent(Some(i.(complete := true)), w.acts)
  {
    hide Log, Story, Marked, Equipped, Consistent;
    KnownOperation(w);
    BackedGrows(before, w.acts, i.operation, i.destination.value);
    StillThere(before, w.acts, Listed(i.operation, i.destination.value, map[MASTER := i.snapshot.value]));
    EquippedGrows(before, w.acts, i.operation, i.destination.value);
    SameRecord(i, i.(complete := true), w.acts);
  }

  lemma TakeBack(w: Creation, i: Intent)
    requires w.Valid() && w.mem == Some(i.(complete := true))
    ensures IntentOk(i.(complete := false), w.deals, w.acts)
  {
    hide Log, Story, Consistent;
    KnownOperation(w);
  }

  /** Between the marked look and the last one the name stood for one repository; so the listing was of it. */
  lemma ListedThere(start: Option<Repo>, a0: seq<Act>, a1: seq<Act>, acts: seq<Act>, op: nat, id: nat, commit: string)
    requires Log(start, acts) && a0 <= a1 <= acts && |a1| < |acts| && Backed(a0, op, id)
             && ListedSince(a0, a1, op, commit)
    requires acts[|acts| - 1].Shown? && acts[|acts| - 1].repo.id == id
    ensures Verified(acts, op, id, commit)
  {
    var j :| 0 <= j < |a0| && MarkedBy(a0[j], op) && a0[j].repo.id == id;
    var l :| |a0| <= l < |a1| && a1[l].Listed? && a1[l].operation == op && a1[l].refs == map[MASTER := commit];
    assert acts[j] == a0[j] && acts[l] == a1[l];
    var g := |acts| - 1;
    assert TrueAt(start, acts, j) && TrueAt(start, acts, l) && TrueAt(start, acts, g);
    Sandwich(start, acts, j, l, g, id);
    assert acts[l] == Listed(op, id, map[MASTER := commit]);
  }

  lemma KnownOperation(w: Creation)
    requires w.Valid() && w.mem.Some?
    ensures w.mem.value.operation in w.deals && w.mem.value.operation < w.nextOperation
    ensures w.mem.value.snapshot == Some(w.deals[w.mem.value.operation].commit)
    ensures IntentOk(w.mem.value, w.deals, w.acts) && Consistent(w.mem, w.acts)
  {
    hide Log;
    assert IntentOk(w.mem.value, w.deals, w.acts);
  }

  lemma NewOperation(acts: seq<Act>, deals: map<nat, Deal>, next: nat, source: string)
    requires Story(acts, deals, next)
    ensures Story(acts + [Resolved(next, source)], deals, next + 1) && next !in deals
  {
    var a := Resolved(next, source);
    assert Rightful(acts, a, deals);
    hide Rightful;
    OneMore(acts, a);
  }

  lemma OutsideIsRightful(acts: seq<Act>, a: Act, deals: map<nat, Deal>, mem: Option<Intent>, disk: set<Option<Intent>>)
    requires Outside(a)
    ensures Rightful(acts, a, deals) && !a.Resolved? && Backs(mem, a) && forall d :: d in disk ==> Backs(d, a)
  {
  }

  lemma StillSeen(before: seq<Act>, after: seq<Act>, op: nat)
    requires Quiet(before, after) && SawEmpty(before, op)
    ensures SawEmpty(after, op)
  {
    var j :| EmptyAt(before, j, op) && forall i :: j < i < |before| ==> Outside(before[i]);
    assert EmptyAt(after, j, op);
    forall i | j < i < |after| ensures Outside(after[i]) {
      if i < |before| { assert after[i] == before[i]; }
    }
  }

  lemma StillAbsent(before: seq<Act>, after: seq<Act>, op: nat)
    requires Quiet(before, after) && SawAbsent(before, op)
    ensures SawAbsent(after, op)
  {
    var j :| AbsentAt(before, j, op) && forall i :: j < i < |before| ==> Outside(before[i]);
    assert AbsentAt(after, j, op);
    forall i | j < i < |after| ensures Outside(after[i]) {
      if i < |before| { assert after[i] == before[i]; }
    }
  }

  lemma JustAbsent(acts: seq<Act>, op: nat)
    requires acts != [] && acts[|acts| - 1] == Absent(op)
    ensures SawAbsent(acts, op)
  {
    assert AbsentAt(acts, |acts| - 1, op);
  }
}
