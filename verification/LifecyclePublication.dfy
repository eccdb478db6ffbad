/** What a close has secured before it destroys: the merge was pushed in the same hold of the session lock, or its
    branch is in debt on every snapshot a restart could load (sigiledd/src/sessions.rs). */
module LifecyclePublication {
  import Ide
  import opened Sessions
  import opened LifecycleMachine
  import opened LifecycleInvariant
  import opened LifecycleSteps
  import opened LifecycleSafety

  /** Since `since` the branch was fetched and after that a push of master was accepted. */
  ghost predicate Pushed(log: seq<Event>, id: string, branch: string, since: nat) {
    exists h, a :: since < h < a < |log| && log[h] == Fetched(id, branch) && log[a] == Replied(id, branch, true)
  }

  predicate BeforeMerge(pc: Pc) {
    match pc
    case Marking | MarkSave | Flushing | MirrorWait | MirrorGet | Fetching | Merging | Pushing | Accepting | Resolving
       | RecycleImage => true
    case _ => false
  }

  predicate CloseOnly(pc: Pc) {
    match pc
    case Merging | DebtPut | Pushing | Accepting | CloseSave => true
    case _ => false
  }

  /** Which verb a task is, as far as its place tells. */
  predicate Placed(t: Task) {
    && (BeforeMerge(t.pc) ==> !t.debt) && (t.pc.DebtPut? ==> t.debt) && (CloseOnly(t.pc) ==> t.verb == Close)
    && (t.pc.MirrorWait? || t.pc.MirrorGet? || t.pc.Fetching? ==> t.verb != Reap)
    && (t.pc.Resolving? || t.pc.RecycleImage? ==> t.verb == Recycle)
  }

  /** What a close has secured so far. */
  ghost predicate Secured(w: World, id: string, t: Task) {
    && (t.pc.Accepting? || (!t.debt && (t.pc.CloseSave? || (t.pc.Destroying? && t.verb == Close))) ==>
          Pushed(w.log, id, t.rec.branch, t.since))
    && (t.debt && t.pc.CloseSave? ==> InDebt(w.mem, t.rec.project, t.rec.branch))
    && (t.debt && t.pc.Destroying? && t.verb == Close ==> Filed(w, t.rec))
  }

  ghost predicate DestroyedAfter(log: seq<Event>, i: int)
    requires 0 <= i < |log|
  {
    log[i].Destroyed? && log[i].verb == Close ==>
      log[i].filed
      || exists since: nat ::
           Section(log[..i], log[i].id, since) && Pushed(log[..i], log[i].id, log[i].rec.branch, since)
  }

  ghost predicate Published(w: World) {
    && (forall id :: id in w.tasks ==> Placed(w.tasks[id]) && Secured(w, id, w.tasks[id]))
    && (forall i :: 0 <= i < |w.log| ==> DestroyedAfter(w.log, i))
  }

  // ---- frames ----

  /** What a step of session `id` leaves to the others. */
  ghost predicate Apart(w: World, w': World, id: string) {
    && w'.tasks - {id} == w.tasks - {id} && w.log <= w'.log
    && (forall p :: p in w.mirrors && w.mirrors[p] != id ==> DebtsFor(w'.mem, p) == DebtsFor(w.mem, p))
    && (forall s :: s in w'.disk ==> s in w.disk || s == w.mem)
  }

  lemma PushedGrows(log: seq<Event>, more: seq<Event>, id: string, branch: string, since: nat)
    requires Pushed(log, id, branch, since) && log <= more
    ensures Pushed(more, id, branch, since)
  {
    var h, a :| since < h < a < |log| && log[h] == Fetched(id, branch) && log[a] == Replied(id, branch, true);
    assert more[h] == log[h] && more[a] == log[a];
  }

  lemma OtherSecured(w: World, w': World, id: string, o: string)
    requires Inv(w) && Apart(w, w', id) && o != id && o in w'.tasks && o in w.tasks && w'.tasks[o] == w.tasks[o]
    requires Secured(w, o, w.tasks[o])
    ensures Secured(w', o, w'.tasks[o])
  {
    hide SnapshotOk, LogOk, TaskLocal, TaskLog, TaskMem, TaskAdopts, TaskLive, TaskSaved, Pushed;
    var t := w.tasks[o];
    assert TaskOk(w, o, t);
    if Pushed(w.log, o, t.rec.branch, t.since) { PushedGrows(w.log, w'.log, o, t.rec.branch, t.since); }
  }

  lemma LogStays(log: seq<Event>, e: Event)
    requires (forall i :: 0 <= i < |log| ==> DestroyedAfter(log, i)) && DestroyedAfter(log + [e], |log|)
    ensures forall i :: 0 <= i < |log + [e]| ==> DestroyedAfter(log + [e], i)
  {
    forall i | 0 <= i < |log| ensures DestroyedAfter(log + [e], i) {
      assert DestroyedAfter(log, i);
      assert (log + [e])[..i] == log[..i];
    }
  }

  /** Assembling after a step of session `id` that wrote at most one event. */
  lemma Assembled(w: World, w': World, id: string)
    requires Inv(w) && Published(w) && Apart(w, w', id)
    requires w'.log == w.log || (|w'.log| == |w.log| + 1 && DestroyedAfter(w'.log, |w.log|))
    requires id in w'.tasks ==> Placed(w'.tasks[id]) && Secured(w', id, w'.tasks[id])
    ensures Published(w')
  {
    hide Inv, Secured, Placed, DestroyedAfter;
    if w'.log != w.log {
      assert w'.log == w.log + [w'.log[|w.log|]];
      LogStays(w.log, w'.log[|w.log|]);
    }
    forall o | o in w'.tasks && o != id ensures Placed(w'.tasks[o]) && Secured(w', o, w'.tasks[o]) {
      assert o in (w'.tasks - {id}) && (w'.tasks - {id})[o] == w'.tasks[o];
      assert o in (w.tasks - {id}) && (w.tasks - {id})[o] == w.tasks[o];
      OtherSecured(w, w', id, o);
    }
  }

  /** A step that leaves debts and files alone and writes no event, or none of a destroy. */
  lemma Moved(w: World, w': World, id: string)
    requires Inv(w) && Published(w) && w'.tasks - {id} == w.tasks - {id} && w'.disk == w.disk
             && w'.mem.debts == w.mem.debts
    requires w'.log == w.log || (w.log <= w'.log && |w'.log| == |w.log| + 1 && !w'.log[|w.log|].Destroyed?)
    requires id in w'.tasks ==> Placed(w'.tasks[id]) && Secured(w', id, w'.tasks[id])
    ensures Published(w')
  {
    hide Inv, Secured, Placed;
    Assembled(w, w', id);
  }

  // ---- steps ----

  lemma Here(w: World, id: string)
    requires Published(w) && id in w.tasks
    ensures Placed(w.tasks[id]) && Secured(w, id, w.tasks[id])
  {
    hide Placed, Secured, DestroyedAfter;
  }

  lemma PublishedBegin(w: World, a: Action)
    requires Inv(w) && Published(w)
             && (a.BeginOpen? || a.BeginClose? || a.BeginRecycle? || a.BeginReap? || a.BeginNote?)
    ensures Published(StepBegin(w, a))
  {
    hide Inv, Published, Secured, StepBegin;
    var w' := StepBegin(w, a);
    BeginKinds(w, a);
    if w' != w {
      var t' := w'.tasks[a.id];
      assert w'.tasks - {a.id} == w.tasks - {a.id};
      NothingSecured(w', a.id, t');
      Moved(w, w', a.id);
    }
  }

  lemma BeginKinds(w: World, a: Action)
    requires a.BeginOpen? || a.BeginClose? || a.BeginRecycle? || a.BeginReap? || a.BeginNote?
    ensures var w' := StepBegin(w, a);
            w' != w ==>
              && a.id in w'.tasks && w' == Enter(w, a.id, w'.tasks[a.id].verb, w'.tasks[a.id].pc, w'.tasks[a.id].rec)
              && var pc := w'.tasks[a.id].pc; pc.OpenWait? || pc.Marking? || pc.FailMark? || pc.Noting?
  {
    hide Refusal, Ide.IdleRecord, FreshRecord, BindingSafe;
  }

  lemma PublishedEnd(w: World, id: string)
    requires Inv(w) && Published(w)
    ensures Published(End(w, id))
  {
    hide Inv, Published;
    var w' := End(w, id);
    assert w'.tasks - {id} == w.tasks - {id};
    Moved(w, w', id);
  }

  lemma PublishedGoto(w: World, id: string, pc: Pc)
    requires Inv(w) && Published(w) && id in w.tasks && Placed(w.tasks[id].(pc := pc))
             && Secured(w, id, w.tasks[id].(pc := pc))
    ensures Published(Goto(w, id, pc))
  {
    hide Inv, Published, Placed;
    var w' := Goto(w, id, pc);
    assert w'.tasks - {id} == w.tasks - {id};
    Moved(w, w', id);
  }

  lemma PublishedFail(w: World, id: string, code: Failure)
    requires Inv(w) && Published(w) && id in w.tasks
    ensures Published(Fail(w, id, code))
  {
    hide Inv, Published, Pushed, Filed;
    PublishedGoto(w, id, FailMark(code));
  }

  lemma PublishedLock(w: World, id: string)
    requires Inv(w) && Published(w)
    ensures Published(StepLockMirror(w, id))
  {
    hide Published, Pushed, Inv;
    var w' := StepLockMirror(w, id);
    if w' == End(w, id) {
      PublishedEnd(w, id);
    } else if w' != w {
      Here(w, id);
      assert w'.tasks - {id} == w.tasks - {id};
      Moved(w, w', id);
    }
  }

  lemma PublishedDisk(w: World, o: SaveOutcome)
    requires Inv(w) && Published(w)
    ensures Published(w.(disk := SavedDisk(w, o)))
  {
    hide Inv, Pushed, DestroyedAfter, InDebt, Placed;
    var w' := w.(disk := SavedDisk(w, o));
    forall id | id in w'.tasks ensures Placed(w'.tasks[id]) && Secured(w', id, w'.tasks[id]) {
      assert Secured(w, id, w.tasks[id]);
    }
  }

  /** The save before the destroy: after it, a debt in memory is in every snapshot a restart could load. */
  lemma PublishedSave(w: World, id: string, o: SaveOutcome)
    requires Inv(w) && Published(w)
    ensures Published(StepSave(w, id, o))
  {
    hide Inv, Published, Pushed, InDebt;
    if id in w.tasks && SavePc(w.tasks[id].pc) {
      KeepsDisk(w, o);
      PublishedDisk(w, o);
      var s := w.(disk := SavedDisk(w, o));
      var t := w.tasks[id];
      if t.pc == Noting {
      } else if t.pc.LastSave? || t.pc.FailSave? {
        PublishedEnd(s, id);
      } else if o != Saved {
        PublishedFail(s, id, PersistFailed);
      } else if AfterSave(s, id) == End(s, id) {
        PublishedEnd(s, id);
      } else {
        Here(s, id);
        var w' := AfterSave(s, id);
        assert w'.tasks - {id} == s.tasks - {id};
        Moved(s, w', id);
      }
    }
  }

  lemma PublishedAttempt(w: World, id: string, ok: bool)
    requires Inv(w) && Published(w)
    ensures Published(StepAttempt(w, id, ok))
  {
    hide Inv, Published, Placed, Secured, TaskOk, SnapshotOk, MirrorsOk, LogOk, StepAttempt;
    var w' := StepAttempt(w, id, ok);
    AttemptKinds(w, id, ok);
    if w' != w {
      Here(w, id);
      Turn(w, id);
      if w'.tasks[id].pc.FailMark? {
        FailPlaced(w.tasks[id], w'.tasks[id]);
        NothingSecured(w', id, w'.tasks[id]);
        Moved(w, w', id);
      } else {
        AttemptPlaced(w, id, w.tasks[id], w'.tasks[id]);
        AttemptSecured(w, id, w.tasks[id], w'.tasks[id]);
        Moved(w, w', id);
      }
    }
  }

  lemma FailPlaced(t: Task, t': Task)
    requires t'.pc.FailMark?
    ensures Placed(t')
  {
  }

  lemma AttemptKinds(w: World, id: string, ok: bool)
    ensures var w' := StepAttempt(w, id, ok);
            w' != w ==>
              && id in w.tasks && id in w'.tasks
              && (w'.tasks[id].pc.FailMark? <==> !ok)
              && w'.tasks - {id} == w.tasks - {id} && w'.disk == w.disk && w'.mem == w.mem
              && (w'.log == w.log || (w.log <= w'.log && |w'.log| == |w.log| + 1 && !w'.log[|w.log|].Destroyed?))
  {
    if id in w.tasks { assert StepAttempt(w, id, ok).tasks - {id} == w.tasks - {id}; }
  }

  lemma AttemptSecured(w: World, id: string, t: Task, t': Task)
    requires TaskOk(w, id, t) && Placed(t) && Secured(w, id, t) && id in w.tasks && w.tasks[id] == t
    requires StepAttempt(w, id, true) != w && t' == StepAttempt(w, id, true).tasks[id]
    ensures Secured(StepAttempt(w, id, true), id, t')
  {
    hide Pushed, Filed, TaskLocal, TaskMem, TaskAdopts, TaskLive, TaskSaved, HoldsMirror, InDebt;
    if t.pc == Pushing { AcceptedNow(w, id, t); }
  }

  lemma AttemptPlaced(w: World, id: string, t: Task, t': Task)
    requires TaskOk(w, id, t) && Placed(t) && id in w.tasks && w.tasks[id] == t
    requires StepAttempt(w, id, true) != w && t' == StepAttempt(w, id, true).tasks[id]
    ensures Placed(t')
  {
    hide TaskLog, TaskMem, TaskAdopts, TaskLive, TaskSaved, HoldsMirror;
  }

  lemma AcceptedNow(w: World, id: string, t: Task)
    requires TaskLog(w.log, id, t) && t.pc == Pushing
    ensures Pushed(w.log + [Replied(id, t.rec.branch, true)], id, t.rec.branch, t.since)
  {
    var f, h :| t.since < f < h && FlushedAt(w.log, id, t.rec, f) && FetchedAt(w.log, id, t.rec.branch, h);
    var log := w.log + [Replied(id, t.rec.branch, true)];
    assert log[h] == Fetched(id, t.rec.branch) && log[|w.log|] == Replied(id, t.rec.branch, true);
  }

  lemma PublishedPublish(w: World, id: string)
    requires Inv(w) && Published(w)
    ensures Published(StepPublish(w, id))
  {
    hide Inv, Published, Placed, Secured, StepPublish;
    var w' := StepPublish(w, id);
    if id in w.tasks && (w.tasks[id].pc.DebtPut? || w.tasks[id].pc.Clearing?) {
      PublishedDebt(w, id);
    } else {
      PublishKinds(w, id);
      if w' != w {
        Here(w, id);
        PublishPlaced(w.tasks[id], w'.tasks[id]);
        NothingSecured(w', id, w'.tasks[id]);
        Moved(w, w', id);
      }
    }
  }

  predicate PutOrMark(t: Task, t': Task) {
    && t'.verb == t.verb && t'.debt == t.debt
    && (t'.pc.OpenSave? || t'.pc.OpenAdoptSave? || (t'.pc.MarkSave? && t.pc.Marking?) || t'.pc.LastSave?
        || t'.pc.RebindSave?
        || t'.pc.OwnSave? || t'.pc.ActiveSave? || t'.pc.FailSave?)
  }

  lemma PublishPlaced(t: Task, t': Task)
    requires Placed(t) && PutOrMark(t, t')
    ensures Placed(t')
  {
  }

  lemma PublishKinds(w: World, id: string)
    requires id in w.tasks ==> !w.tasks[id].pc.DebtPut? && !w.tasks[id].pc.Clearing?
    ensures var w' := StepPublish(w, id);
            w' != w ==>
              && id in w.tasks && id in w'.tasks && PutOrMark(w.tasks[id], w'.tasks[id])
              && w'.tasks - {id} == w.tasks - {id} && w'.disk == w.disk && w'.log == w.log
              && w'.mem.debts == w.mem.debts
  {
    hide Rebound, SessionBranch, Placed;
    if id in w.tasks { assert StepPublish(w, id).tasks - {id} == w.tasks - {id}; }
  }

  /** Only the holder of the mirror changes the debts of its project. */
  lemma PublishedDebt(w: World, id: string)
    requires Inv(w) && Published(w) && id in w.tasks && (w.tasks[id].pc.DebtPut? || w.tasks[id].pc.Clearing?)
    ensures Published(StepPublish(w, id))
  {
    hide Inv, Published, Pushed, Without, TaskOk, SnapshotOk, MirrorsOk, LogOk, Secured;
    Turn(w, id);
    Here(w, id);
    DebtFiled(w, id, w.tasks[id]);
    var w' := StepPublish(w, id);
    assert w'.tasks - {id} == w.tasks - {id};
    Assembled(w, w', id);
  }

  lemma DebtFiled(w: World, id: string, t: Task)
    requires TaskOk(w, id, t) && Placed(t) && id in w.tasks && w.tasks[id] == t && (t.pc.DebtPut? || t.pc.Clearing?)
    ensures HoldsMirror(w.mirrors, id, t) && Secured(StepPublish(w, id), id, StepPublish(w, id).tasks[id])
  {
    hide Pushed, Without, TaskLocal, TaskLog, TaskMem, TaskAdopts, TaskLive, TaskSaved;
    if t.pc.DebtPut? {
      var q := DebtsFor(StepPublish(w, id).mem, t.rec.project);
      assert q[|q| - 1] == MergeDebt(t.rec.branch, id);
    }
  }

  lemma PublishedFind(w: World, id: string, refs: seq<string>)
    requires Inv(w) && Published(w)
    ensures Published(StepFind(w, id, refs))
  {
    hide Published, Pushed, Inv, FindOrphan;
    var w' := StepFind(w, id, refs);
    if w' != w {
      assert w'.tasks - {id} == w.tasks - {id};
      Moved(w, w', id);
    }
  }

  lemma PublishedPutImage(w: World, id: string, ide: bool)
    requires Inv(w) && Published(w)
    ensures Published(StepPutImage(w, id, ide))
  {
    hide Published, Pushed, Inv;
    var w' := StepPutImage(w, id, ide);
    if w' != w {
      assert w'.tasks - {id} == w.tasks - {id};
      Moved(w, w', id);
    }
  }

  lemma PublishedPutNote(w: World, id: string, started: bool, pending: bool)
    requires Inv(w) && Published(w)
    ensures Published(StepPutNote(w, id, started, pending))
  {
    hide Published, Pushed, Inv;
    var w' := StepPutNote(w, id, started, pending);
    if w' != w {
      assert w'.tasks - {id} == w.tasks - {id};
      Moved(w, w', id);
    }
  }

  lemma PublishedFlush(w: World, id: string, reply: Ide.Reply)
    requires Inv(w) && Published(w)
    ensures Published(StepFlush(w, id, reply))
  {
    hide Published, Pushed, Inv, Ide.FlushRecord;
    var w' := StepFlush(w, id, reply);
    if w' != w {
      if w'.tasks[id].pc.FailMark? {
        PublishedFail(w, id, FlushFailed);
      } else {
        Here(w, id);
        assert w'.tasks - {id} == w.tasks - {id};
        Moved(w, w', id);
      }
    }
  }

  lemma PublishedMerge(w: World, id: string, result: MergeResult)
    requires Inv(w) && Published(w)
    ensures Published(StepMerge(w, id, result))
  {
    hide Published, Pushed, Inv;
    var w' := StepMerge(w, id, result);
    if w' != w {
      Here(w, id);
      assert w'.tasks - {id} == w.tasks - {id};
      Moved(w, w', id);
    }
  }

  lemma PublishedAllocate(w: World, id: string, result: CreateResult)
    requires Inv(w) && Published(w)
    ensures Published(StepAllocate(w, id, result))
  {
    hide Published, Pushed, Inv;
    var w' := StepAllocate(w, id, result);
    if w' != w {
      assert w'.tasks - {id} == w.tasks - {id};
      Moved(w, w', id);
    }
  }

  lemma PublishedDestroy(w: World, id: string, result: DestroyResult)
    requires Inv(w) && Published(w)
    ensures Published(StepDestroy(w, id, result))
  {
    hide Inv, Published, Pushed, Filed, Secured, TaskOk, SnapshotOk, MirrorsOk, LogOk, DestroyedAfter;
    var w' := StepDestroy(w, id, result);
    if w' != w {
      Here(w, id);
      Turn(w, id);
      DestroyShown(w, id, w.tasks[id]);
      assert w'.tasks - {id} == w.tasks - {id};
      assert Secured(w', id, w'.tasks[id]) by { NothingSecured(w', id, w'.tasks[id]); }
      Assembled(w, w', id);
    }
  }

  lemma NothingSecured(w: World, id: string, t: Task)
    requires !t.pc.Accepting? && !t.pc.CloseSave? && !t.pc.Destroying?
    ensures Secured(w, id, t)
  {
  }

  lemma DestroyShown(w: World, id: string, t: Task)
    requires TaskOk(w, id, t) && Placed(t) && Secured(w, id, t) && t.pc.Destroying?
    ensures DestroyedAfter(w.log + [Destroyed(id, t.verb, t.rec, Claimants(w.mem, id, t.rec.Container()),
                                              Filed(w, t.rec))], |w.log|)
  {
    hide Pushed, Filed, Section, TaskLocal, TaskMem, TaskAdopts, TaskLive, TaskSaved, HoldsMirror, Claimants;
    var log := w.log + [Destroyed(id, t.verb, t.rec, Claimants(w.mem, id, t.rec.Container()), Filed(w, t.rec))];
    assert log[..|w.log|] == w.log;
  }

  lemma PublishedCrash(w: World, s: Snapshot)
    requires Inv(w) && Published(w)
    ensures Published(StepCrash(w, s))
  {
    hide DestroyedAfter;
    if s in w.disk {
      assert DestroyedAfter(w.log + [Crashed], |w.log|) by { NotDestroyed(w.log, Crashed); }
      LogStays(w.log, Crashed);
    }
  }

  lemma NotDestroyed(log: seq<Event>, e: Event)
    requires !e.Destroyed?
    ensures DestroyedAfter(log + [e], |log|)
  {
  }

  lemma PublishedStep(w: World, a: Action)
    requires Inv(w) && Published(w)
    ensures Published(Step(w, a))
  {
    hide Inv, Published;
    match a {
      case BeginOpen(_, _, _) => PublishedBegin(w, a);
      case BeginClose(_, _) => PublishedBegin(w, a);
      case BeginRecycle(_) => PublishedBegin(w, a);
      case BeginReap(_, _, _, _) => PublishedBegin(w, a);
      case BeginNote(_) => PublishedBegin(w, a);
      case LockMirror(id) => PublishedLock(w, id);
      case Save(id, o) => PublishedSave(w, id, o);
      case Publish(id) => PublishedPublish(w, id);
      case Attempt(id, ok) => PublishedAttempt(w, id, ok);
      case Find(id, refs) => PublishedFind(w, id, refs);
      case PutImage(id, ide) => PublishedPutImage(w, id, ide);
      case PutNote(id, started, pending) => PublishedPutNote(w, id, started, pending);
      case Flush(id, reply) => PublishedFlush(w, id, reply);
      case Merge(id, result) => PublishedMerge(w, id, result);
      case Allocate(id, result) => PublishedAllocate(w, id, result);
      case Destroy(id, result) => PublishedDestroy(w, id, result);
      case Abandon(id) => PublishedEnd(w, id);
      case BackgroundSave(o) => PublishedDisk(w, o);
      case Crash(s) => PublishedCrash(w, s);
    }
  }

  lemma {:induction false} RunPublished(w: World, s: Snapshot, schedule: seq<Action>)
    requires Booted(w, s)
    ensures Published(Run(w, schedule))
  {
    hide Step, Inv, Published;
    if schedule == [] {
      assert Published(w) by { NothingYet(w, s); }
    } else {
      var before := schedule[..|schedule| - 1];
      RunPublished(w, s, before);
      RunInv(w, s, before);
      PublishedStep(Run(w, before), schedule[|schedule| - 1]);
    }
  }

  lemma NothingYet(w: World, s: Snapshot)
    requires Booted(w, s)
    ensures Published(w)
  {
  }

  /** Before a close destroys a container, its branch is in debt in memory and in every snapshot a restart could load,
      or in the same hold of the session lock the branch was fetched and after that a push of the merge was accepted. */
  lemma CloseIsPublished(w: World, s: Snapshot, schedule: seq<Action>, i: nat)
    requires Booted(w, s)
    requires i < |Run(w, schedule).log| && Run(w, schedule).log[i].Destroyed? && Run(w, schedule).log[i].verb == Close
    ensures var log := Run(w, schedule).log;
            || log[i].filed
            || exists since: nat ::
                 Section(log[..i], log[i].id, since) && Pushed(log[..i], log[i].id, log[i].rec.branch, since)
  {
    hide Run, Section, Pushed;
    RunPublished(w, s, schedule);
    assert DestroyedAfter(Run(w, schedule).log, i);
  }
}
