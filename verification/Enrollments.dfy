/** Enrollment of a project's accepted documents in Memory (sigiledd/src/enrollment.rs): the durable intent, the
    reconcile calls that carry it out concurrently, state saves that may fail, and restarts. */
module Enrollments {
  import opened Naming
  import opened Wrappers

  datatype Phase =
    | AwaitingAuthorization | Disabled | Pending | Indexed | ProjectionPending | PersistenceUncertain | Failed
    | Conflict | UpdateRequired | Unavailable

  datatype Snapshot = Snapshot(repository: string, owner: nat, revision: nat, commit: string, digest: nat)

  /** What Memory asks back about. */
  datatype Claim = Claim(index: string, owner: nat, revision: nat, commit: string, digest: nat)

  datatype Receipt = Receipt(namespace: Option<string>, owner: nat, revision: nat, commit: string, digest: nat,
                             indexed: bool)

  datatype Enrollment = Enrollment(
    namespace: Option<string>, owner: nat, revision: nat, desired: Option<string>, phase: Phase,
    snapshot: Option<Snapshot>, confirmed: Option<Receipt>)

  function Created(owner: nat): Enrollment { Enrollment(None, owner, 0, None, AwaitingAuthorization, None, None) }

  /** `Enrollment::observe`. */
  function Observed(e: Enrollment, commit: string, enabled: bool): Enrollment {
    if e.phase == PersistenceUncertain then e
    else
      var f := if e.desired == Some(commit) then e
               else e.(revision := e.revision + 1, desired := Some(commit), snapshot := None,
                       phase := AwaitingAuthorization);
      if enabled then f else f.(phase := Disabled)
  }

  /** What a restart makes of a saved intent. */
  function Hydrated(e: Enrollment): Enrollment {
    if e.phase == Pending || e.phase == Unavailable || e.phase == ProjectionPending
    then e.(phase := AwaitingAuthorization) else e
  }

  /** `separate_namespace`: the short name of the owner joins the project name. */
  function Separated(e: Enrollment, namespace: string): Enrollment {
    e.(namespace := Some(namespace), revision := e.revision + 1, snapshot := None, phase := AwaitingAuthorization)
  }

  /** How a save ended. After a failure the old file or the new one may be what a restart reads. */
  datatype Save = Saved | FailedClean | FailedReplaced

  /** Memory's reply to one call: a verified receipt, or an error status. */
  datatype Answer = Accepted(indexed: bool) | Refused(status: Status)

  datatype Status = Unauthorized | StatusConflict | ServiceUnavailable | OtherStatus

  function PhaseOf(s: Status): Phase {
    match s
    case Unauthorized => AwaitingAuthorization
    case StatusConflict => Conflict
    case ServiceUnavailable => UpdateRequired
    case OtherStatus => Unavailable
  }

  /** Where a reconcile call stands. The first three hold the project's merge lock. */
  datatype Task =
    | Collecting(e: Enrollment)
    | Storing(snapshot: Snapshot)
    | NotStored(revision: nat)
    | Failing(revision: nat, phase: Phase)
    | Posting(snapshot: Snapshot)
    | Posted(snapshot: Snapshot, namespace: Option<string>, answer: Answer)
    | Declining
    | Persisting
    | NotPersisted
    | Done

  predicate HoldsLock(t: Task) { t.Collecting? || t.Storing? || t.NotStored? }

  // ---- what must stay true ----

  ghost predicate SnapshotFits(e: Enrollment) {
    e.snapshot.Some? ==> && e.snapshot.value.owner == e.owner && e.snapshot.value.revision == e.revision
                         && e.desired == Some(e.snapshot.value.commit)
  }

  /** Indexed means that Memory confirmed the current revision of the current commit. */
  ghost predicate IndexedFits(e: Enrollment) {
    e.phase == Indexed ==> && e.confirmed.Some? && e.confirmed.value.owner == e.owner
                           && e.confirmed.value.revision == e.revision && e.desired == Some(e.confirmed.value.commit)
                           && e.confirmed.value.indexed
  }

  ghost predicate Fits(e: Option<Enrollment>) { e.Some? ==> SnapshotFits(e.value) && IndexedFits(e.value) }

  /** `e` is at least as far as the snapshot, and equally far only with the same commit. */
  ghost predicate Beyond(e: Option<Enrollment>, s: Snapshot) {
    && e.Some? && e.value.owner == s.owner && s.revision <= e.value.revision
    && (s.revision == e.value.revision ==> e.value.desired == Some(s.commit))
  }

  ghost predicate Agreed(saved: set<Snapshot>) {
    forall s, t :: s in saved && t in saved ==>
      s.owner == t.owner && (s.revision == t.revision ==> s.commit == t.commit)
  }

  ghost predicate Kept(mem: Option<Enrollment>, disk: set<Option<Enrollment>>, saved: set<Snapshot>) {
    && Fits(mem) && (forall d :: d in disk ==> Fits(d))
    && (forall s :: s in saved ==> Beyond(mem, s))
    && (forall s, d :: s in saved && d in disk ==> Beyond(d, s))
    && Agreed(saved)
  }

  ghost predicate TaskOk(t: Task, mem: Option<Enrollment>, saved: set<Snapshot>) {
    match t
    case Collecting(e) => mem.Some? && mem.value.owner == e.owner && mem.value.revision == e.revision
                          && mem.value.desired == e.desired
    case Storing(s) => mem.Some? && mem.value.snapshot == Some(s)
    case Failing(_, phase) => phase != Indexed
    case Posting(s) => s in saved
    case Posted(s, _, _) => s in saved
    case _ => true
  }

  ghost predicate Ordered(tasks: seq<Task>, locked: bool, mem: Option<Enrollment>, saved: set<Snapshot>) {
    && (forall i :: 0 <= i < |tasks| ==> TaskOk(tasks[i], mem, saved) && (HoldsLock(tasks[i]) ==> locked))
    && (forall i, j :: 0 <= i < j < |tasks| ==> !(HoldsLock(tasks[i]) && HoldsLock(tasks[j])))
    && (tasks != [] ==> mem.Some?)
  }

  // ---- how it stays true ----

  lemma ObservedKeeps(e: Enrollment, commit: string, enabled: bool, disk: set<Option<Enrollment>>, saved: set<Snapshot>)
    requires Kept(Some(e), disk, saved)
    ensures var f := Observed(e, commit, enabled);
            && Kept(Some(f), disk, saved)
            && f.owner == e.owner && e.revision <= f.revision && (f.desired != e.desired ==> e.revision < f.revision)
            && (e.phase != PersistenceUncertain ==> f.desired == Some(commit))
            && f.namespace == e.namespace && f.confirmed == e.confirmed
            && (e.phase != PersistenceUncertain && !enabled ==> f.phase == Disabled)
            && (e.phase != PersistenceUncertain && enabled ==>
                  if e.desired == Some(commit) then f == e
                  else f.revision == e.revision + 1 && f.snapshot.None? && f.phase == AwaitingAuthorization)
            && (e.phase == PersistenceUncertain ==> f == e)
  {
  }

  lemma SaveKeeps(mem: Option<Enrollment>, disk: set<Option<Enrollment>>, saved: set<Snapshot>)
    requires Kept(mem, disk, saved)
    ensures Kept(mem, disk + {mem}, saved)
    ensures var more := if mem.Some? && mem.value.snapshot.Some? then saved + {mem.value.snapshot.value} else saved;
            Kept(mem, {mem}, more)
  {
  }

  lemma HydrateKeeps(d: Option<Enrollment>, mem: Option<Enrollment>, disk: set<Option<Enrollment>>,
                     saved: set<Snapshot>)
    requires Kept(mem, disk, saved) && d in disk
    ensures Kept(if d.Some? then Some(Hydrated(d.value)) else None, disk, saved)
  {
    var h := if d.Some? then Some(Hydrated(d.value)) else None;
    forall s | s in saved ensures Beyond(h, s) { assert Beyond(d, s); }
  }

  /** Every enrollment posted to Memory under one revision is for one commit, across restarts. */
  lemma OneCommitPerPostedRevision(mem: Option<Enrollment>, disk: set<Option<Enrollment>>, saved: set<Snapshot>,
                                   s: Snapshot, t: Snapshot)
    requires Kept(mem, disk, saved) && s in saved && t in saved && s.owner == t.owner && s.revision == t.revision
    ensures s.commit == t.commit
  {
  }

  class Intent {
    const project: string
    var mem: Option<Enrollment>
    var disk: set<Option<Enrollment>>
    var tasks: seq<Task>
    var locked: bool
    ghost var saved: set<Snapshot>
    ghost var posted: set<Snapshot>

    ghost predicate Valid()
      reads this
    {
      Kept(mem, disk, saved) && Ordered(tasks, locked, mem, saved) && posted <= saved && disk != {}
    }

    constructor (project: string)
      ensures Valid() && mem == None && disk == {None} && tasks == [] && posted == {} && !locked
              && this.project == project
    {
      this.project := project;
      mem, disk, tasks, locked, saved, posted := None, {None}, [], false, {}, {};
    }

    /** `Registry::insert`: a registration gives the project an intent, unless it has one. */
    method Register(newOwner: nat)
      requires Valid()
      modifies this`mem
      ensures Valid() && Advances(old(mem), mem)
      ensures mem == if old(mem).Some? then old(mem) else Some(Created(newOwner))
    {
      hide Kept;
      if mem.None? {
        NothingYet(mem, Created(newOwner), disk, saved);
        mem := Some(Created(newOwner));
      }
    }

    /** A refresh or a close reports the accepted commit. Both hold the project's merge lock while they do. */
    method Observe(commit: string, enabled: bool, newOwner: nat)
      requires Valid() && !locked
      modifies this`mem
      ensures Valid() && Advances(old(mem), mem)
      ensures mem == Some(Observed(if old(mem).Some? then old(mem).value else Created(newOwner), commit, enabled))
    {
      hide Kept;
      var e := if mem.Some? then mem.value else Created(newOwner);
      if mem.None? { NothingYet(mem, e, disk, saved); }
      ObservedKeeps(e, commit, enabled, disk, saved);
      mem := Some(Observed(e, commit, enabled));
    }

    /** Any handler's save of the whole state. */
    method Persist(outcome: Save)
      requires Valid()
      modifies this`disk, this`saved
      ensures Valid() && old(saved) <= saved
      ensures outcome == Saved ==>
                disk == {mem} && (mem.Some? && mem.value.snapshot.Some? ==> mem.value.snapshot.value in saved)
      ensures outcome == FailedReplaced ==> disk == old(disk) + {mem}
      ensures outcome == FailedClean ==> disk == old(disk)
    {
      hide Kept;
      SaveKeeps(mem, disk, saved);
      match outcome
      case Saved =>
        disk := {mem};
        saved := if mem.Some? && mem.value.snapshot.Some? then saved + {mem.value.snapshot.value} else saved;
      case FailedReplaced => disk := disk + {mem};
      case FailedClean =>
    }

    /** The process ends; the next one reads what a save left behind. */
    method Restart(d: Option<Enrollment>)
      requires Valid() && d in disk
      modifies this`mem, this`tasks, this`locked
      ensures Valid() && tasks == [] && !locked && mem == if d.Some? then Some(Hydrated(d.value)) else None
      // an answer that was final stays, anything else is asked for again
      ensures d.Some? ==> mem.value == d.value.(phase := mem.value.phase)
                          && mem.value.phase == match d.value.phase
                                                case Pending => AwaitingAuthorization
                                                case ProjectionPending => AwaitingAuthorization
                                                case Unavailable => AwaitingAuthorization
                                                case final => final
    {
      hide Kept;
      HydrateKeeps(d, mem, disk, saved);
      mem := if d.Some? then Some(Hydrated(d.value)) else None;
      tasks, locked := [], false;
    }

    /** `reconcile_using` up to the copy of the intent, under the merge lock. */
    method Begin(enabled: bool, token: bool)
      requires Valid() && !locked
      modifies this`tasks, this`locked
      ensures Valid()
      ensures locked <==> mem.Some? && mem.value.phase != PersistenceUncertain && enabled && token
      ensures tasks == old(tasks) + if mem.None? || mem.value.phase == PersistenceUncertain || !enabled then []
                                    else if !token then [Declining] else [Collecting(mem.value)]
    {
      hide Kept;
      if mem.None? || mem.value.phase == PersistenceUncertain || !enabled { return; }
      if !token {
        tasks := tasks + [Declining];
      } else {
        tasks := tasks + [Collecting(mem.value)];
        locked := true;
      }
    }

    /** Read the accepted documents. The snapshot is recorded only if master still is the desired commit. */
    method Collect(i: nat, repository: string, master: string, digest: nat, fits: bool)
      requires Valid() && i < |tasks| && tasks[i].Collecting?
      modifies this`mem, this`tasks, this`locked
      ensures Valid() && Advances(old(mem), mem)
      ensures locked <==> fits && old(tasks)[i].e.desired == Some(master)
      ensures !locked ==> mem == old(mem) && tasks == old(tasks)[i := Failing(old(tasks)[i].e.revision, Phase.Failed)]
      ensures locked ==>
                var snapshot := Snapshot(repository, old(tasks)[i].e.owner, old(tasks)[i].e.revision, master, digest);
                old(mem).Some? && mem == Some(old(mem).value.(snapshot := Some(snapshot), phase := Pending))
                && tasks == old(tasks)[i := Storing(snapshot)]
    {
      hide Kept;
      var e := tasks[i].e;
      if !fits || e.desired != Some(master) {
        tasks, locked := tasks[i := Failing(e.revision, Phase.Failed)], false;
        return;
      }
      var snapshot := Snapshot(repository, e.owner, e.revision, master, digest);
      StoreKeeps(mem.value, snapshot, disk, saved);
      mem := Some(mem.value.(snapshot := Some(snapshot), phase := Pending));
      tasks := tasks[i := Storing(snapshot)];
    }

    method Store(i: nat, outcome: Save)
      requires Valid() && i < |tasks| && tasks[i].Storing?
      modifies this`disk, this`saved, this`tasks, this`locked
      ensures Valid()
      ensures outcome == Saved ==> tasks == old(tasks)[i := Posting(old(tasks)[i].snapshot)] && disk == {mem}
      ensures outcome != Saved ==> tasks == old(tasks)[i := NotStored(old(tasks)[i].snapshot.revision)]
      ensures locked <==> outcome != Saved
    {
      hide Kept;
      var snapshot := tasks[i].snapshot;
      Persist(outcome);
      if outcome == Saved {
        tasks, locked := tasks[i := Posting(snapshot)], false;
      } else {
        tasks := tasks[i := NotStored(snapshot.revision)];
      }
    }

    method MarkNotStored(i: nat)
      requires Valid() && i < |tasks| && tasks[i].NotStored?
      modifies this`mem, this`tasks, this`locked
      ensures Valid() && Advances(old(mem), mem) && !locked
      ensures old(mem).Some? && mem == Some(old(mem).value.(phase := PersistenceUncertain))
      ensures tasks == old(tasks)[i := Failing(old(tasks)[i].revision, Phase.Failed)]
    {
      hide Kept;
      PhaseKeeps(mem.value, PersistenceUncertain, disk, saved);
      mem := Some(mem.value.(phase := PersistenceUncertain));
      tasks, locked := tasks[i := Failing(tasks[i].revision, Phase.Failed)], false;
    }

    /** `fail`: only if the revision is still the one that failed. */
    method Fail(i: nat)
      requires Valid() && i < |tasks| && tasks[i].Failing?
      modifies this`mem, this`tasks
      ensures Valid() && Advances(old(mem), mem)
      ensures mem.Some? && mem.value == if old(mem).value.revision == old(tasks)[i].revision
                                        then old(mem).value.(phase := old(tasks)[i].phase) else old(mem).value
      ensures tasks == old(tasks)[i := Persisting]
    {
      hide Kept;
      if mem.value.revision == tasks[i].revision {
        PhaseKeeps(mem.value, tasks[i].phase, disk, saved);
        mem := Some(mem.value.(phase := tasks[i].phase));
      }
      tasks := tasks[i := Persisting];
    }

    method Decline(i: nat)
      requires Valid() && i < |tasks| && tasks[i].Declining?
      modifies this`mem, this`tasks
      ensures Valid() && Advances(old(mem), mem) && tasks == old(tasks)[i := Persisting]
      ensures old(mem).Some? && mem == Some(old(mem).value.(phase := AwaitingAuthorization))
    {
      hide Kept;
      PhaseKeeps(mem.value, AwaitingAuthorization, disk, saved);
      mem := Some(mem.value.(phase := AwaitingAuthorization));
      tasks := tasks[i := Persisting];
    }

    method PersistTask(i: nat, outcome: Save)
      requires Valid() && i < |tasks| && tasks[i].Persisting?
      modifies this`disk, this`saved, this`tasks
      ensures Valid() && tasks == old(tasks)[i := if outcome == Saved then Done else NotPersisted]
      ensures disk == match outcome
                      case Saved => {mem}
                      case FailedReplaced => old(disk) + {mem}
                      case FailedClean => old(disk)
    {
      hide Kept;
      Persist(outcome);
      tasks := tasks[i := if outcome == Saved then Done else NotPersisted];
    }

    method MarkNotPersisted(i: nat)
      requires Valid() && i < |tasks| && tasks[i].NotPersisted?
      modifies this`mem, this`tasks
      ensures Valid() && Advances(old(mem), mem) && tasks == old(tasks)[i := Done]
      ensures old(mem).Some? && mem == Some(old(mem).value.(phase := PersistenceUncertain))
    {
      hide Kept;
      PhaseKeeps(mem.value, PersistenceUncertain, disk, saved);
      mem := Some(mem.value.(phase := PersistenceUncertain));
      tasks := tasks[i := Done];
    }

    /** The call to Memory. It may be refused before anything is posted; its reply may come at any later time. */
    method Post(i: nat, reached: bool, answer: Answer)
      requires Valid() && i < |tasks| && tasks[i].Posting? && (!reached ==> answer.Refused?)
      modifies this`tasks, this`posted
      ensures Valid()
      ensures posted == old(posted) + if reached then {old(tasks)[i].snapshot} else {}
      ensures old(tasks)[i].snapshot in saved
      ensures mem.Some? && tasks == old(tasks)[i := Posted(old(tasks)[i].snapshot, mem.value.namespace, answer)]
    {
      hide Kept;
      var snapshot := tasks[i].snapshot;
      posted := posted + if reached then {snapshot} else {};
      tasks := tasks[i := Posted(snapshot, mem.value.namespace, answer)];
    }

    /** A reply counts only if its revision is still the current one. */
    method Receive(i: nat)
      requires Valid() && i < |tasks| && tasks[i].Posted?
      modifies this`mem, this`tasks
      ensures Valid() && Advances(old(mem), mem)
      ensures old(mem).Some? && mem.Some?
      ensures var t := old(tasks)[i];
              match t.answer
              case Refused(status) => mem == old(mem)
                                      && tasks == old(tasks)[i := Failing(t.snapshot.revision, PhaseOf(status))]
              case Accepted(indexed) =>
                tasks == old(tasks)[i := Persisting]
                && mem == if old(mem).value.revision != t.snapshot.revision then old(mem)
                          else Some(old(mem).value.(
                            phase := if indexed then Indexed else ProjectionPending,
                            confirmed := Some(Receipt(t.namespace, t.snapshot.owner, t.snapshot.revision,
                                                      t.snapshot.commit, t.snapshot.digest, indexed))))
    {
      hide Kept;
      var t := tasks[i];
      match t.answer
      case Refused(status) => tasks := tasks[i := Failing(t.snapshot.revision, PhaseOf(status))];
      case Accepted(indexed) =>
        if mem.value.revision == t.snapshot.revision {
          var receipt := Receipt(t.namespace, t.snapshot.owner, t.snapshot.revision, t.snapshot.commit,
                                 t.snapshot.digest, indexed);
          ConfirmKeeps(mem.value, t.snapshot, receipt, disk, saved);
          mem := Some(mem.value.(phase := if indexed then Indexed else ProjectionPending, confirmed := Some(receipt)));
        }
        tasks := tasks[i := Persisting];
    }

    /** `separate_namespace`, under the merge lock. */
    method Separate(namespace: string) returns (ok: bool)
      requires Valid() && !locked
      modifies this`mem, this`tasks
      ensures Valid() && Advances(old(mem), mem)
      ensures ok <==> old(mem).Some? && Separable(old(mem).value, namespace)
      ensures if ok then mem == Some(Separated(old(mem).value, namespace)) else mem == old(mem)
      ensures tasks == old(tasks) + if ok then [Persisting] else []
      ensures ok ==> mem.value.revision > old(mem).value.revision && mem.value.desired == old(mem).value.desired
                     && mem.value.namespace == Some(namespace) && mem.value.snapshot.None?
                     && mem.value.phase == AwaitingAuthorization
    {
      hide Kept;
      if mem.None? || mem.value.phase != Conflict || mem.value.confirmed.Some?
         || mem.value.namespace == Some(namespace) {
        return false;
      }
      SeparateKeeps(mem.value, namespace, disk, saved);
      mem := Some(Separated(mem.value, namespace));
      tasks := tasks + [Persisting];
      return true;
    }

    /** The index the project is stored under. */
    function Index(): string
      requires mem.Some?
      reads this
    {
      if mem.value.namespace.Some? then mem.value.namespace.value else project
    }

    /** Memory asks back whether an intent is current: `validate`. `repository` and `master` are what the project is
        bound to now. */
    method Validate(claim: Claim, repository: string, master: string, enabled: bool, durable: bool) returns (ok: bool)
      requires Valid()
      ensures ok <==> && mem.Some? && mem.value.phase != PersistenceUncertain && enabled && durable
                      && ValidName(project) && ValidName(claim.index) && claim.index == Index()
                      && master == claim.commit
                      && mem.value.snapshot == Some(Snapshot(repository, claim.owner, claim.revision, claim.commit,
                                                             claim.digest))
      ensures ok ==> mem.value.owner == claim.owner && mem.value.revision == claim.revision
                     && mem.value.desired == Some(claim.commit)
    {
      if !ValidName(claim.index) || !ValidName(project) { return false; }
      if mem.None? || mem.value.phase == PersistenceUncertain || mem.value.snapshot.None? { return false; }
      var s := mem.value.snapshot.value;
      if !durable || !enabled || s.owner != claim.owner || Index() != claim.index || s.repository != repository {
        return false;
      }
      return s.revision == claim.revision && s.commit == claim.commit && master == claim.commit
             && s.digest == claim.digest;
    }
  }

  /** In one process the revision never goes back, and grows whenever the desired commit changes. */
  predicate Advances(a: Option<Enrollment>, b: Option<Enrollment>) {
    a.Some? ==> && b.Some? && b.value.owner == a.value.owner && a.value.revision <= b.value.revision
                && (b.value.desired != a.value.desired ==> a.value.revision < b.value.revision)
  }

  lemma NothingYet(mem: Option<Enrollment>, e: Enrollment, disk: set<Option<Enrollment>>, saved: set<Snapshot>)
    requires Kept(mem, disk, saved) && mem.None? && SnapshotFits(e) && IndexedFits(e)
    ensures Kept(Some(e), disk, saved)
  {
    assert forall s :: !Beyond(mem, s);
  }

  lemma PhaseKeeps(e: Enrollment, phase: Phase, disk: set<Option<Enrollment>>, saved: set<Snapshot>)
    requires Kept(Some(e), disk, saved) && phase != Indexed
    ensures Kept(Some(e.(phase := phase)), disk, saved)
  {
    forall s | s in saved ensures Beyond(Some(e.(phase := phase)), s) { assert Beyond(Some(e), s); }
  }

  lemma StoreKeeps(e: Enrollment, s: Snapshot, disk: set<Option<Enrollment>>, saved: set<Snapshot>)
    requires Kept(Some(e), disk, saved) && s.owner == e.owner && s.revision == e.revision && e.desired == Some(s.commit)
    ensures Kept(Some(e.(snapshot := Some(s), phase := Pending)), disk, saved)
  {
    forall t | t in saved ensures Beyond(Some(e.(snapshot := Some(s), phase := Pending)), t) {
      assert Beyond(Some(e), t);
    }
  }

  lemma ConfirmKeeps(e: Enrollment, s: Snapshot, r: Receipt, disk: set<Option<Enrollment>>, saved: set<Snapshot>)
    requires Kept(Some(e), disk, saved) && s in saved && s.revision == e.revision
    requires r.owner == s.owner && r.revision == s.revision && r.commit == s.commit
    ensures Kept(Some(e.(phase := if r.indexed then Indexed else ProjectionPending, confirmed := Some(r))), disk, saved)
  {
    assert Beyond(Some(e), s);
    var f := e.(phase := if r.indexed then Indexed else ProjectionPending, confirmed := Some(r));
    forall t | t in saved ensures Beyond(Some(f), t) { assert Beyond(Some(e), t); }
  }

  lemma SeparateKeeps(e: Enrollment, namespace: string, disk: set<Option<Enrollment>>, saved: set<Snapshot>)
    requires Kept(Some(e), disk, saved)
    ensures Kept(Some(Separated(e, namespace)), disk, saved)
  {
    forall t | t in saved ensures Beyond(Some(Separated(e, namespace)), t) { assert Beyond(Some(e), t); }
  }

  // ---- runs ----

  datatype Event =
    | Registering(newOwner: nat)
    | Observing(commit: string, enabled: bool, newOwner: nat)
    | Saving(outcome: Save)
    | Restarting(d: Option<Enrollment>)
    | Beginning(enabled: bool, token: bool)
    | Separating(namespace: string)
    | Moving(i: nat, repository: string, master: string, digest: nat, ok: bool, outcome: Save, answer: Answer)

  /** Any interleaving of refreshes, closes, reconcile calls with late replies, failing saves and restarts. */
  method Run(w: Intent, events: seq<Event>)
    requires w.Valid()
    modifies w
    ensures w.Valid()
    ensures forall s, t :: s in w.posted && t in w.posted && s.revision == t.revision ==> s.commit == t.commit
    ensures w.mem.Some? && w.mem.value.phase == Indexed ==>
              w.mem.value.confirmed.Some? && w.mem.value.confirmed.value.revision == w.mem.value.revision
              && w.mem.value.desired == Some(w.mem.value.confirmed.value.commit)
  {
    for k := 0 to |events|
      invariant w.Valid()
    {
      match events[k]
      case Registering(newOwner) => w.Register(newOwner);
      case Observing(commit, enabled, newOwner) => if !w.locked { w.Observe(commit, enabled, newOwner); }
      case Saving(outcome) => w.Persist(outcome);
      case Restarting(d) => if d in w.disk { w.Restart(d); }
      case Beginning(enabled, token) => if !w.locked { w.Begin(enabled, token); }
      case Separating(namespace) => if !w.locked { var ok := w.Separate(namespace); }
      case Moving(i, repository, master, digest, ok, outcome, answer) =>
        if i < |w.tasks| {
          match w.tasks[i]
          case Collecting(_) => w.Collect(i, repository, master, digest, ok);
          case Storing(_) => w.Store(i, outcome);
          case NotStored(_) => w.MarkNotStored(i);
          case Failing(_, _) => w.Fail(i);
          case Posting(_) => if ok || answer.Refused? { w.Post(i, ok, answer); }
          case Posted(_, _, _) => w.Receive(i);
          case Declining => w.Decline(i);
          case Persisting => w.PersistTask(i, outcome);
          case NotPersisted => w.MarkNotPersisted(i);
          case Done =>
        }
    }
  }

  // ---- one call that nobody disturbs ----

  /** How a call can end for the intent. */
  datatype Ending = Confirmed(indexed: bool) | Unauthorised | Contested | Outdated | Unreachable | Rejected

  /** What the world answers to one call: whether the project takes part, whether the caller has a token, what the
      mirror holds, how the two saves end, whether Memory is reached, and what it says. */
  datatype Weather = Weather(enabled: bool, token: bool, repository: string, master: string, digest: nat, fits: bool,
                             stored: Save, reached: bool, answer: Answer, last: Save)

  predicate Collectable(e: Enrollment, x: Weather) { x.fits && e.desired == Some(x.master) }

  function SnapshotBy(e: Enrollment, x: Weather): Snapshot {
    Snapshot(x.repository, e.owner, e.revision, x.master, x.digest)
  }

  /** The end that the answers call for. */
  function EndOf(e: Enrollment, x: Weather): Ending {
    if !x.token then Unauthorised
    else if !Collectable(e, x) || x.stored != Saved then Rejected
    else match x.answer
      case Accepted(indexed) => Confirmed(indexed)
      case Refused(Unauthorized) => Unauthorised
      case Refused(StatusConflict) => Contested
      case Refused(ServiceUnavailable) => Outdated
      case Refused(OtherStatus) => Unreachable
  }

  /** One whole reconcile call. The intent ends in the phase the answers call for, or as uncertain when the last save
      fails; it keeps owner, revision and commit. Memory is called only with the stored snapshot of the desired commit,
      and a confirmation names exactly that under the namespace in use. Afterwards a separate namespace is to be had
      exactly after a conflict, as long as nothing was ever confirmed. */
  method Reconcile(w: Intent, x: Weather, namespace: string)
    requires w.Valid() && !w.locked && (!x.reached ==> x.answer.Refused?)
    modifies w
    ensures w.Valid() && !w.locked
    ensures old(w.mem.None? || w.mem.value.phase == PersistenceUncertain) || !x.enabled ==>
              w.mem == old(w.mem) && w.disk == old(w.disk) && w.posted == old(w.posted)
    ensures old(w.mem.Some? && w.mem.value.phase != PersistenceUncertain) && x.enabled ==>
              var e := old(w.mem.value);
              && w.mem.Some? && w.mem.value == e.(phase := w.mem.value.phase, snapshot := w.mem.value.snapshot,
                                                  confirmed := w.mem.value.confirmed)
              && w.mem.value.snapshot == (if x.token && Collectable(e, x) then Some(SnapshotBy(e, x)) else e.snapshot)
              && w.posted == old(w.posted) + (if x.token && Collectable(e, x) && x.stored == Saved && x.reached
                                              then {SnapshotBy(e, x)} else {})
              && w.mem.value.confirmed == (if EndOf(e, x).Confirmed?
                                           then Some(Receipt(e.namespace, e.owner, e.revision, x.master, x.digest,
                                                             EndOf(e, x).indexed))
                                           else e.confirmed)
              && (x.last == Saved ==> w.disk == {w.mem} && Shows(w.mem.value.phase, EndOf(e, x)))
              && (x.last != Saved ==> w.mem.value.phase == PersistenceUncertain)
              && (Separable(w.mem.value, namespace) <==>
                    x.last == Saved && EndOf(e, x) == Contested && e.confirmed.None? && e.namespace != Some(namespace))
  {
    hide Kept, Ordered, Beyond, Agreed;
    var i := |w.tasks|;
    w.Begin(x.enabled, x.token);
    if |w.tasks| == i { return; }
    if w.tasks[i].Declining? {
      w.Decline(i);
    } else {
      w.Collect(i, x.repository, x.master, x.digest, x.fits);
      if w.tasks[i].Storing? {
        w.Store(i, x.stored);
        if w.tasks[i].NotStored? {
          w.MarkNotStored(i);
        } else {
          w.Post(i, x.reached, x.answer);
          w.Receive(i);
        }
      }
      if w.tasks[i].Failing? { w.Fail(i); }
    }
    w.PersistTask(i, x.last);
    if w.tasks[i].NotPersisted? { w.MarkNotPersisted(i); }
  }

  /** A separate namespace is to be had. */
  predicate Separable(e: Enrollment, namespace: string) {
    e.phase == Conflict && e.confirmed.None? && e.namespace != Some(namespace)
  }

  /** What the owner of the project reads. */
  predicate Shows(phase: Phase, end: Ending) {
    match phase
    case Indexed => end == Confirmed(true)
    case ProjectionPending => end == Confirmed(false)
    case AwaitingAuthorization => end == Unauthorised
    case Conflict => end == Contested
    case UpdateRequired => end == Outdated
    case Unavailable => end == Unreachable
    case Failed => end == Rejected
    case _ => false
  }

  // ---- what a revision names after a restart ----

  function AfterObserving(e: Enrollment, commits: seq<string>): Enrollment {
    if commits == [] then e
    else Observed(AfterObserving(e, commits[..|commits| - 1]), commits[|commits| - 1], true)
  }

  ghost predicate Renames(d: Enrollment, revision: nat, commit: string, commits: seq<string>) {
    var e := AfterObserving(Hydrated(d), commits);
    e.revision == revision && e.desired.Some? && e.desired != Some(commit)
  }

  /** One revision can come to name two commits, but only across a restart: memory held `revision` for `commit`, the
      restart loads `d`. Some later course of commits gives the same number to another commit exactly when the loaded
      revision is lower and not frozen, or is that revision for another commit already. */
  lemma RevisionReused(d: Enrollment, revision: nat, commit: string)
    ensures (exists commits :: Renames(d, revision, commit, commits))
            <==> ((d.revision < revision && d.phase != PersistenceUncertain)
                  || (d.revision == revision && d.desired.Some? && d.desired != Some(commit)))
  {
    if d.revision < revision && d.phase != PersistenceUncertain {
      var commits := Climb(Hydrated(d), revision - d.revision, commit);
      assert Renames(d, revision, commit, commits);
    } else if d.revision == revision && d.desired.Some? && d.desired != Some(commit) {
      assert Renames(d, revision, commit, []);
    }
    forall commits | Renames(d, revision, commit, commits)
      ensures (d.revision < revision && d.phase != PersistenceUncertain)
              || (d.revision == revision && d.desired.Some? && d.desired != Some(commit))
    {
      OnlyForward(Hydrated(d), commits);
    }
  }

  lemma {:induction false} OnlyForward(e: Enrollment, commits: seq<string>)
    ensures var f := AfterObserving(e, commits);
            && e.revision <= f.revision && (f.revision == e.revision ==> f.desired == e.desired)
            && (e.phase == PersistenceUncertain ==> f == e)
            && (e.phase != PersistenceUncertain ==> f.phase != PersistenceUncertain)
  {
    if commits != [] { OnlyForward(e, commits[..|commits| - 1]); }
  }

  lemma {:induction false} Climb(e: Enrollment, steps: nat, avoid: string) returns (commits: seq<string>)
    requires steps > 0 && e.phase != PersistenceUncertain
    ensures var f := AfterObserving(e, commits);
            f.revision == e.revision + steps && f.desired.Some? && f.desired != Some(avoid)
            && f.phase != PersistenceUncertain
    decreases steps
  {
    var init: seq<string> := [];
    if steps > 1 { init := Climb(e, steps - 1, avoid); }
    var before := AfterObserving(e, init);
    assert "a" != "b" && "b" != "c" && "a" != "c";
    var next := if before.desired != Some("a") && avoid != "a" then "a"
                else if before.desired != Some("b") && avoid != "b" then "b" else "c";
    commits := init + [next];
    assert commits[..|commits| - 1] == init;
  }

  /** The smallest such course, run: a registration that is saved, a commit observed but not saved, a restart, another
      commit under the same number and owner. */
  method ReusedRevisionExample(owner: nat) returns (w: Intent, lost: Enrollment)
    ensures w.Valid() && w.mem.Some? && lost.revision == w.mem.value.revision == 1
            && lost.owner == w.mem.value.owner == owner
    ensures lost.desired == Some("a") && w.mem.value.desired == Some("b")
  {
    w := new Intent("notes");
    w.Register(owner);
    w.Persist(Saved);
    w.Observe("a", true, owner);
    lost := w.mem.value;
    w.Restart(Some(Created(owner)));
    w.Observe("b", true, owner);
    assert "a"[0] != "b"[0];
  }
}
