/** The store under the lifecycle: the object updated in place is, after every step of the machine, what the machine
    says it is (sigiledd/src/sessions.rs). */
module LifecycleStore {
  import opened Wrappers
  import opened Sessions
  import opened SessionStore
  import opened Ide
  import opened LifecycleMachine

  /** The checks before a verb, with the scan that the store makes for them. */
  method Refuses(store: SessionState, r: Record) returns (code: Option<Failure>)
    ensures code == Refusal(store.State(), r)
  {
    var safe := store.CheckBinding(r);
    if !safe { return Some(LegacyOwnershipAmbiguous); }
    return if !r.runtimeOwned || !r.token then Some(RuntimeNotOwned) else None;
  }

  /** The puts and marks of one verb. */
  method FollowPublish(store: SessionState, w: World, id: string)
    requires store.State() == w.mem
    modifies store
    ensures store.State() == StepPublish(w, id).mem
  {
    hide Put, Mark, PushDebt, ClearDebt, Remove, Rebound;
    if id !in w.tasks { return; }
    var t := w.tasks[id];
    match t.pc {
      case OpenPut => if !(id in w.used || SessionBranch(id) in w.seen) { store.PutRecord(t.rec); }
      case OpenAdopt(None) => store.PutRecord(t.rec);
      case OpenAdopt(Some(branch)) => store.PutRecord(t.rec.(branch := branch, stale := true));
      case Marking => store.MarkRecord(id, if t.verb == Recycle then Recycling else Closing, None);
      case DebtPut => store.AddDebt(t.rec.project, MergeDebt(t.rec.branch, id));
      case Clearing => store.DropDebt(t.rec.project, t.rec.branch);
      case Removing => store.RemoveRecord(id);
      case Rebind => store.PutRecord(Rebound(t.rec));
      case OwnPut => store.PutRecord(t.rec.(runtimeOwned := true));
      case ActivePut =>
        var error := if t.verb == Recycle then None else t.rec.error;
        store.PutRecord(t.rec.(lifecycle := Active, error := error));
      case FailMark(code) => store.MarkRecord(id, Failed, Some(code));
      case _ =>
    }
  }

  method FollowPutImage(store: SessionState, w: World, id: string, ide: bool)
    requires store.State() == w.mem
    modifies store
    ensures store.State() == StepPutImage(w, id, ide).mem
  {
    hide Put;
    if id !in w.tasks || w.tasks[id].pc != ImagePut || w.tasks[id].rec.binding.None? { return; }
    var t := w.tasks[id];
    var b := t.rec.binding.value.(ide := if ide then Some(IdeBinding(t.rec.generation, false)) else None);
    store.PutRecord(t.rec.(binding := Some(b), runtimeOwned := false,
                           lifecycle := if t.verb == Recycle then Recycling else t.rec.lifecycle));
  }

  method FollowPutNote(store: SessionState, w: World, id: string, started: bool, pending: bool)
    requires store.State() == w.mem
    modifies store
    ensures store.State() == StepPutNote(w, id, started, pending).mem
  {
    hide Put;
    if id !in w.tasks || w.tasks[id].pc != Noting { return; }
    var r := w.tasks[id].rec.(handoffPending := pending);
    if started && r.binding.Some? && r.binding.value.ide.Some? {
      r := r.(binding := Some(r.binding.value.(ide := Some(r.binding.value.ide.value.(started := true)))));
    }
    store.PutRecord(r);
  }

  /** A restart hydrates one of the snapshots that a save left behind. */
  method FollowCrash(store: SessionState, w: World, s: Snapshot)
    requires store.State() == w.mem
    modifies store
    ensures store.State() == StepCrash(w, s).mem
  {
    hide Hydrated;
    if s in w.disk {
      store.Hydrate(s.debts, s.records);
      assert Snapshot(s.records, s.debts) == s;
    }
  }

  /** All other steps leave the store alone. */
  lemma StoreKept(w: World, a: Action)
    requires !a.Publish? && !a.PutImage? && !a.PutNote? && !a.Crash?
    ensures Step(w, a).mem == w.mem
  {
    hide FindOrphan, Refusal, IdleRecord, FlushRecord, SavedDisk, FreshRecord;
  }

  method Follow(store: SessionState, w: World, a: Action)
    requires store.State() == w.mem
    modifies store
    ensures store.State() == Step(w, a).mem
  {
    hide StepPublish, StepPutImage, StepPutNote, StepCrash, StepBegin, StepSave, StepAttempt;
    match a {
      case Publish(id) => FollowPublish(store, w, id);
      case PutImage(id, ide) => FollowPutImage(store, w, id, ide);
      case PutNote(id, started, pending) => FollowPutNote(store, w, id, started, pending);
      case Crash(s) => FollowCrash(store, w, s);
      case _ => StoreKept(w, a);
    }
  }

  /** Along any run of the machine, the object holds what the machine says. */
  method FollowRun(store: SessionState, worlds: seq<World>, schedule: seq<Action>)
    requires |worlds| == |schedule| + 1 && store.State() == worlds[0].mem
    requires forall i :: 0 <= i < |schedule| ==> worlds[i + 1] == Step(worlds[i], schedule[i])
    modifies store
    ensures store.State() == Run(worlds[0], schedule).mem
  {
    hide Step;
    for i := 0 to |schedule|
      invariant store.State() == worlds[i].mem && worlds[i] == Run(worlds[0], schedule[..i])
    {
      Follow(store, worlds[i], schedule[i]);
      assert schedule[..i + 1][..i] == schedule[..i];
    }
    assert schedule[..|schedule|] == schedule;
  }
}
