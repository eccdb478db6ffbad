/** The lifecycle promises for every schedule of steps, saves that fail, lost replies and crashes. */
module LifecycleSafety {
  import opened Sessions
  import opened LifecycleMachine
  import opened LifecycleInvariant
  import opened LifecycleSteps

  /** A snapshot of the release before bindings: every record still uses its project's alias. */
  ghost predicate LegacySnapshot(s: Snapshot) {
    && (forall id :: id in s.records ==>
          s.records[id].id == id && s.records[id].binding.None? && s.records[id].generation <= MAX_GENERATION)
    && BranchesUnique(s)
    && DebtsOk(s)
  }

  /** The process has just booted from such a snapshot; an empty one is a fresh install. */
  ghost predicate Booted(w: World, s: Snapshot) {
    && LegacySnapshot(s)
    && w.mem == Hydrated(s) && w.disk == {s} && w.tasks == map[] && w.mirrors == map[] && w.log == []
    && (forall c :: c in w.live ==> c.LegacyVm?)
    && w.used == s.records.Keys
    && (forall id :: id in s.records ==> s.records[id].branch in w.seen)
    && (forall p, d :: p in s.debts && d in s.debts[p] ==> d.branch in w.seen)
  }

  /** What memory and every snapshot a restart could load say about containers and branches. */
  ghost predicate Truthful(w: World, s: Snapshot) {
    && LiveNamed(w.live, s)
    && UsableLive(w.live, s)
    && BranchesUnique(s)
    && DebtsOk(s)
  }

  lemma BootedInv(w: World, s: Snapshot)
    requires Booted(w, s)
    ensures Inv(w)
  {
    assert SnapshotOk(w, s);
    HydratedSnapshot(w, w, s);
  }

  lemma {:induction false} RunInv(w: World, s: Snapshot, schedule: seq<Action>)
    requires Booted(w, s)
    ensures Inv(Run(w, schedule))
  {
    hide Inv, Booted;
    if schedule == [] {
      BootedInv(w, s);
    } else {
      RunInv(w, s, schedule[..|schedule| - 1]);
      KeepsStep(Run(w, schedule[..|schedule| - 1]), schedule[|schedule| - 1]);
    }
  }

  /** In every reachable state each live session container is named by the record of its session, in
      memory and in every snapshot a restart could load; each such record that is active and owns its
      runtime names a live container; no two records of a project share a branch; a branch has at most
      one debt, and while it has one no session but the filer owns the branch. */
  lemma {:induction false} ContainersAreAlwaysNamed(w: World, s: Snapshot, schedule: seq<Action>)
    requires Booted(w, s)
    ensures Truthful(Run(w, schedule), Run(w, schedule).mem)
    ensures forall d :: d in Run(w, schedule).disk ==> Truthful(Run(w, schedule), d)
  {
    RunInv(w, s, schedule);
    var w' := Run(w, schedule);
    assert SnapshotOk(w', w'.mem);
    forall d | d in w'.disk ensures Truthful(w', d) {
      assert SnapshotOk(w', d);
    }
  }

  /** Between `since` and `i` one hold of the session lock flushed exactly this record with a reply that
      makes its work safe, and close and recycle fetched its branch after that. */
  ghost predicate SavedInOneHold(log: seq<Event>, i: nat, since: nat, f: nat)
    requires i < |log| && log[i].Destroyed?
  {
    var e := log[i];
    && since < f < i
    && log[since] == Locked(e.id) && (forall k :: since < k < i ==> log[k] != Locked(e.id) && log[k] != Crashed)
    && FlushedAt(log, e.id, e.rec, f)
    && (e.verb != Reap ==> exists h :: f < h < i && FetchedAt(log, e.id, e.rec.branch, h))
  }

  /** Whenever a lifecycle verb destroys a container: no other token-holding record names it, the record owns
      its runtime, a successful create of the same session made it (or it is the pre-binding alias), and the
      work in it was saved in the same hold of the session lock. */
  lemma {:induction false} DestroyOnlySafeWork(w: World, s: Snapshot, schedule: seq<Action>, i: nat)
    requires Booted(w, s)
    requires i < |Run(w, schedule).log| && Run(w, schedule).log[i].Destroyed?
    ensures var log := Run(w, schedule).log; log[i].others == {} && log[i].rec.runtimeOwned
    ensures var log := Run(w, schedule).log; log[i].rec.binding.Some? ==>
              Created(log[i].id, log[i].rec.Container()) in log[..i]
    ensures exists since, f :: SavedInOneHold(Run(w, schedule).log, i, since, f)
  {
    RunInv(w, s, schedule);
    DestroyedIsSaved(Run(w, schedule).log, i);
  }

  lemma DestroyedIsSaved(log: seq<Event>, i: nat)
    requires i < |log| && log[i].Destroyed? && DestroyedOk(log, i)
    ensures log[i].others == {} && log[i].rec.runtimeOwned
    ensures log[i].rec.binding.Some? ==> Created(log[i].id, log[i].rec.Container()) in log[..i]
    ensures exists since, f :: SavedInOneHold(log, i, since, f)
  {
    var e := log[i];
    var before := log[..i];
    var since: nat :| Justified(before, e.id, e.verb, e.rec, since);
    var f :| since < f && FlushedAt(before, e.id, e.rec, f)
          && (e.verb != Reap ==> exists h :: f < h && FetchedAt(before, e.id, e.rec.branch, h));
    forall k | 0 <= k < i ensures log[k] == before[k] {
    }
    assert FlushedAt(log, e.id, e.rec, f);
    if e.verb != Reap {
      var h :| f < h && FetchedAt(before, e.id, e.rec.branch, h);
      assert FetchedAt(log, e.id, e.rec.branch, h);
    }
    assert SavedInOneHold(log, i, since, f);
  }

  /** The branch an open adopts is, when the record is put, in no debt and on no record of the project. */
  lemma {:induction false} AdoptedBranchIsFree(w: World, s: Snapshot, schedule: seq<Action>, id: string)
    requires Booted(w, s)
    requires id in Run(w, schedule).tasks && Run(w, schedule).tasks[id].pc.OpenAdopt?
             && Run(w, schedule).tasks[id].pc.found.Some?
    ensures var w' := Run(w, schedule); Adoptable(w'.mem, w'.tasks[id].rec.project, w'.tasks[id].pc.found.value)
  {
    RunInv(w, s, schedule);
    Turn(Run(w, schedule), id);
  }
}
