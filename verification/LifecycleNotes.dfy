/** What a note on a session's record is worth (sigiledd/src/ide.rs, sigiledd/src/browser/research/handoff.rs): a
    pending handoff and the start of an IDE, once saved, hold over every later schedule, restarts included. */
module LifecycleNotes {
  import opened Wrappers
  import opened Sessions
  import opened Ide
  import opened LifecycleMachine
  import opened LifecycleInvariant
  import opened LifecycleSteps
  import opened LifecycleSafety
  import opened LifecycleFailures

  // ---- one step ----

  /** What can be loaded was loadable before or is what memory holds. */
  lemma DiskStep(w: World, a: Action)
    ensures forall s :: s in Step(w, a).disk ==> s in w.disk || (!a.Crash? && s == w.mem)
  {
    hide FindOrphan, Refusal, IdleRecord, FlushRecord, FreshRecord, BindingSafe, Unlocked, Filed, Claimants, Hydrated;
  }

  /** The log grows, and by a destroy only in that step. */
  lemma LogStep(w: World, a: Action)
    ensures w.log <= Step(w, a).log
    ensures !a.Destroy? ==> forall i :: |w.log| <= i < |Step(w, a).log| ==> !Step(w, a).log[i].Destroyed?
  {
    hide FindOrphan, Refusal, IdleRecord, FlushRecord, FreshRecord, BindingSafe, Unlocked, Filed, Claimants, Hydrated,
         SavedDisk, StepBegin;
    if a.BeginOpen? || a.BeginClose? || a.BeginRecycle? || a.BeginReap? || a.BeginNote? { BeginLog(w, a); }
  }

  lemma BeginLog(w: World, a: Action)
    requires a.BeginOpen? || a.BeginClose? || a.BeginRecycle? || a.BeginReap? || a.BeginNote?
    ensures StepBegin(w, a).log == w.log || StepBegin(w, a).log == w.log + [Locked(a.id)]
  {
    hide Refusal, IdleRecord, FreshRecord, BindingSafe;
  }

  lemma DestroyLog(w: World, id: string, o: DestroyResult)
    ensures var v := Step(w, Destroy(id, o));
            v.log != w.log ==>
              && |v.log| == |w.log| + 1 && v.log[|w.log|].Destroyed? && v.log[|w.log|].id == id
              && id in w.tasks && w.tasks[id].pc.Destroying? && v.log[|w.log|].rec == w.tasks[id].rec
  {
    hide Filed, Claimants;
  }

  /** Only a destroy takes a container away, and only the one its record names. */
  lemma LiveStep(w: World, a: Action, c: Container)
    requires c in w.live && c !in Step(w, a).live
    ensures a.Destroy? && a.id in w.tasks && w.tasks[a.id].pc.Destroying? && w.tasks[a.id].rec.Container() == c
  {
    hide FindOrphan, Refusal, IdleRecord, FlushRecord, FreshRecord, BindingSafe, Unlocked, Filed, Claimants, Hydrated,
         SavedDisk;
  }

  ghost predicate Others(w: World, w': World, id: string) {
    && SameFor(w, w', id)
    && (forall s :: s in w'.disk ==> s in w.disk || s == w.mem)
    && (forall g :: SessionVm(id, g) in w.live ==> SessionVm(id, g) in w'.live)
    && w.log <= w'.log && (forall i :: |w.log| <= i < |w'.log| && w'.log[i].Destroyed? ==> w'.log[i].id != id)
  }

  /** What a step of another session leaves as it is. */
  lemma OthersLeave(w: World, a: Action, id: string)
    requires Inv(w) && Elsewhere(a, id)
    ensures Others(w, Step(w, a), id)
  {
    hide Inv, Step, SameFor;
    OthersStep(w, a, id);
    DiskStep(w, a);
    LogStep(w, a);
    if a.Destroy? { DestroyLog(w, a.id, a.destroyed); }
    forall g | SessionVm(id, g) in w.live ensures SessionVm(id, g) in Step(w, a).live {
      if SessionVm(id, g) !in Step(w, a).live {
        LiveStep(w, a, SessionVm(id, g));
        OwnContainer(w, a.id);
      }
    }
  }

  lemma OwnContainer(w: World, id: string)
    requires Inv(w) && id in w.tasks
    ensures w.tasks[id].rec.id == id
    ensures var r := w.tasks[id].rec; r.Container().LegacyVm? || r.Container() == SessionVm(id, r.generation)
  {
    hide SnapshotsOk, MirrorsOk, LogOk, TaskLog, TaskMem, TaskAdopts, TaskLive, TaskSaved;
    Turn(w, id);
  }

  // ---- a pending handoff ----

  ghost predicate PendingIn(s: Snapshot, id: string, g: nat) {
    id in s.records && s.records[id].handoffPending && s.records[id].generation == g
  }

  /** The handoff is pending in memory and in every snapshot a restart could load, and no verb but a note is at work. */
  ghost predicate Pending(w: World, id: string, g: nat) {
    && PendingIn(w.mem, id, g) && (forall s :: s in w.disk ==> PendingIn(s, id, g))
    && (id in w.tasks ==> w.tasks[id].pc.Noting? && w.tasks[id].rec == w.mem.records[id])
  }

  predicate Withdraws(a: Action, id: string) { a.PutNote? && a.id == id && !a.handoffPending }

  /** A note at work takes no other verb's steps. */
  lemma OnlyNotes(w: World, a: Action, id: string)
    requires !a.BackgroundSave? && !a.Crash? && a.id == id && (id in w.tasks ==> w.tasks[id].pc.Noting?)
    requires a.LockMirror? || a.Publish? || a.Attempt? || a.Find? || a.PutImage? || a.Flush? || a.Merge? || a.Allocate?
             || a.Destroy?
    ensures Step(w, a) == w
  {
    hide FindOrphan, FlushRecord;
  }

  lemma PendingBegins(w: World, a: Action, id: string, g: nat)
    requires a.BeginOpen? || a.BeginClose? || a.BeginRecycle? || a.BeginReap? || a.BeginNote?
    requires Pending(w, id, g) && a.id == id
    ensures Pending(StepBegin(w, a), id, g)
  {
    hide Refusal, IdleRecord, FreshRecord, BindingSafe;
  }

  lemma PendingOwn(w: World, a: Action, id: string, g: nat)
    requires Pending(w, id, g) && !a.BackgroundSave? && !a.Crash? && a.id == id && !Withdraws(a, id)
    requires id in w.tasks ==> w.tasks[id].rec.id == id
    ensures Pending(Step(w, a), id, g)
  {
    hide StepBegin, Unlocked;
    if a.BeginOpen? || a.BeginClose? || a.BeginRecycle? || a.BeginReap? || a.BeginNote? {
      PendingBegins(w, a, id, g);
    } else if a.Save? || a.Abandon? || a.PutNote? {
    } else {
      OnlyNotes(w, a, id);
    }
  }

  lemma PendingCrash(w: World, s: Snapshot, id: string, g: nat)
    requires Pending(w, id, g)
    ensures Pending(Step(w, Crash(s)), id, g)
  {
    hide Ambiguous;
  }

  lemma PendingOthers(w: World, w': World, id: string, g: nat)
    requires Pending(w, id, g) && Others(w, w', id)
    ensures Pending(w', id, g)
  {
  }

  /** A destroy or a lost container of this session would be a step of its own verb. */
  lemma PendingStep(w: World, a: Action, id: string, g: nat)
    requires Inv(w) && Pending(w, id, g) && !Withdraws(a, id)
    ensures Pending(Step(w, a), id, g) && Untouched(w, Step(w, a), id)
  {
    hide Inv, Step, Pending, Others, SameFor;
    if a.Crash? {
      PendingCrash(w, a.snapshot, id, g);
      OwnUntouched(w, a, id);
    } else if a.BackgroundSave? || a.id != id {
      assert Elsewhere(a, id);
      OthersLeave(w, a, id);
      PendingOthers(w, Step(w, a), id, g);
      OthersUntouched(w, Step(w, a), id);
    } else {
      if id in w.tasks { OwnContainer(w, id); }
      PendingOwn(w, a, id, g);
      NotingNow(w, id, g);
      if a.Destroy? { OnlyNotes(w, a, id); }
      OwnUntouched(w, a, id);
    }
  }

  /** No container of the session is taken away, and none of its destroys is in the log's new part. */
  ghost predicate Untouched(w: World, w': World, id: string) {
    && (forall g :: SessionVm(id, g) in w.live ==> SessionVm(id, g) in w'.live)
    && w.log <= w'.log && (forall i :: |w.log| <= i < |w'.log| && w'.log[i].Destroyed? ==> w'.log[i].id != id)
  }

  lemma OthersUntouched(w: World, w': World, id: string)
    requires Others(w, w', id)
    ensures Untouched(w, w', id)
  {
  }

  lemma NotingNow(w: World, id: string, g: nat)
    requires Pending(w, id, g)
    ensures id in w.tasks ==> w.tasks[id].pc.Noting?
  {
  }

  lemma OwnUntouched(w: World, a: Action, id: string)
    requires a.Destroy? ==> Step(w, a) == w
    ensures Untouched(w, Step(w, a), id)
  {
    hide Step;
    LogStep(w, a);
    forall g | SessionVm(id, g) in w.live ensures SessionVm(id, g) in Step(w, a).live {
      if SessionVm(id, g) !in Step(w, a).live { LiveStep(w, a, SessionVm(id, g)); }
    }
  }

  lemma {:induction false} PendingRun(w: World, later: seq<Action>, id: string, g: nat)
    requires Inv(w) && Pending(w, id, g) && forall a :: a in later ==> !Withdraws(a, id)
    ensures Inv(Run(w, later)) && Pending(Run(w, later), id, g) && Untouched(w, Run(w, later), id)
  {
    hide Inv, Step, Pending;
    if later != [] {
      var n := |later| - 1;
      PendingRun(w, later[..n], id, g);
      assert later[n] in later;
      PendingStep(Run(w, later[..n]), later[n], id, g);
      KeepsStep(Run(w, later[..n]), later[n]);
    }
  }

  // ---- an IDE that was started ----

  ghost predicate BegunIn(s: Snapshot, id: string, g: nat) {
    id in s.records ==> BegunRecord(s.records[id], g)
  }

  /** The record is of a later generation, or its IDE counts as started. */
  predicate BegunRecord(r: Record, g: nat) { r.generation > g || (r.generation == g && r.IdeStarted()) }

  /** A workspace of a new generation that has no image yet. */
  predicate Unmade(pc: Pc) {
    || pc.OpenSave? || pc.OpenMirror? || pc.OpenFind? || pc.OpenAdopt? || pc.OpenAdoptSave? || pc.OpenImage?
    || pc.RebindSave? || pc.ImagePut?
  }

  /** In memory, in every snapshot a restart could load and in the verb at work the IDE of generation `g` counts as
      started, or the session is past it. */
  ghost predicate Begun(w: World, id: string, g: nat) {
    && id in w.used && BegunIn(w.mem, id, g) && (forall s :: s in w.disk ==> BegunIn(s, id, g))
    && (id in w.tasks ==> BegunTask(w.tasks[id], g))
  }

  predicate BegunTask(t: Task, g: nat) {
    UnpublishedPc(t.pc) || (BegunRecord(t.rec, g) && (Unmade(t.pc) ==> t.rec.generation > g))
  }

  lemma BegunBegins(w: World, a: Action, id: string, g: nat)
    requires a.BeginOpen? || a.BeginClose? || a.BeginRecycle? || a.BeginReap? || a.BeginNote?
    requires Begun(w, id, g) && a.id == id
    ensures Begun(StepBegin(w, a), id, g)
  {
    hide Refusal, IdleRecord, FreshRecord, BindingSafe, BegunRecord;
  }

  /** The verb puts its own copy. */
  lemma BegunPutsOwn(w: World, id: string, g: nat)
    requires Begun(w, id, g) && id in w.tasks && w.tasks[id].rec.id == id
    requires var pc := w.tasks[id].pc; pc.OpenPut? || pc.OpenAdopt? || pc.Rebind? || pc.OwnPut? || pc.ActivePut?
    ensures Begun(StepPublish(w, id), id, g)
  {
    hide SessionBranch, Without;
  }

  lemma BegunPublishes(w: World, id: string, g: nat)
    requires Begun(w, id, g) && (id in w.tasks ==> w.tasks[id].rec.id == id)
    ensures Begun(StepPublish(w, id), id, g)
  {
    hide SessionBranch, PushDebt, ClearDebt;
    if id in w.tasks {
      var pc := w.tasks[id].pc;
      DebtsOnly(w.mem, id);
      if pc.OpenPut? || pc.OpenAdopt? || pc.Rebind? || pc.OwnPut? || pc.ActivePut? { BegunPutsOwn(w, id, g); }
    }
  }

  lemma BegunPuts(w: World, a: Action, id: string, g: nat)
    requires Begun(w, id, g) && (id in w.tasks ==> w.tasks[id].rec.id == id) && (a.PutImage? || a.PutNote?)
    requires a.id == id
    ensures Begun(Step(w, a), id, g)
  {
  }

  /** An answer moves the verb on and changes nothing that can be loaded. */
  ghost predicate Moved(w: World, w': World, id: string) {
    && w'.mem == w.mem && w'.disk == w.disk && w'.used == w.used
    && (id in w'.tasks ==>
          && id in w.tasks && w'.tasks[id].rec == w.tasks[id].rec
          && (Unmade(w'.tasks[id].pc) ==> Unmade(w.tasks[id].pc))
          && (UnpublishedPc(w.tasks[id].pc) ==> UnpublishedPc(w'.tasks[id].pc)))
  }

  lemma LookMoves(w: World, a: Action)
    requires a.Find? || a.Flush? || a.Merge?
    ensures Moved(w, Step(w, a), a.id)
  {
    hide FindOrphan, FlushRecord;
  }

  lemma ContainerMoves(w: World, a: Action)
    requires a.Allocate? || a.Destroy?
    ensures Moved(w, Step(w, a), a.id)
  {
    hide Filed, Claimants;
  }

  lemma AttemptMoves(w: World, a: Action)
    requires a.Attempt?
    ensures Moved(w, Step(w, a), a.id)
  {
    hide Unlocked;
  }

  lemma BegunAsks(w: World, a: Action, id: string, g: nat)
    requires Begun(w, id, g) && !a.BackgroundSave? && !a.Crash? && a.id == id
    requires a.Attempt? || a.Find? || a.Flush? || a.Merge? || a.Allocate? || a.Destroy?
    ensures Begun(Step(w, a), id, g)
  {
    hide Step, BegunRecord, Unmade;
    if a.Attempt? {
      AttemptMoves(w, a);
    } else if a.Allocate? || a.Destroy? {
      ContainerMoves(w, a);
    } else {
      LookMoves(w, a);
    }
  }

  lemma BegunSaves(w: World, a: Action, id: string, g: nat)
    requires Begun(w, id, g) && (a.Save? || a.Abandon? || a.LockMirror?) && a.id == id
    ensures Begun(Step(w, a), id, g)
  {
    hide DebtsFor, Unlocked, BegunRecord;
  }

  lemma BegunCrash(w: World, s: Snapshot, id: string, g: nat)
    requires Begun(w, id, g)
    ensures Begun(Step(w, Crash(s)), id, g)
  {
    hide Ambiguous;
  }

  lemma UsedStep(w: World, a: Action)
    ensures w.used <= Step(w, a).used
  {
    hide FindOrphan, Refusal, IdleRecord, FlushRecord, FreshRecord, BindingSafe, Unlocked, Filed, Claimants, Hydrated,
         SavedDisk;
  }

  lemma BegunOthers(w: World, w': World, id: string, g: nat)
    requires Begun(w, id, g) && Others(w, w', id) && w.used <= w'.used
    ensures Begun(w', id, g)
  {
    hide BegunRecord;
  }

  lemma BegunStep(w: World, a: Action, id: string, g: nat)
    requires Inv(w) && Begun(w, id, g)
    ensures Begun(Step(w, a), id, g)
  {
    hide Inv, Step, Begun, Others, SameFor;
    if a.Crash? {
      BegunCrash(w, a.snapshot, id, g);
    } else if a.BackgroundSave? || a.id != id {
      assert Elsewhere(a, id);
      OthersLeave(w, a, id);
      UsedStep(w, a);
      BegunOthers(w, Step(w, a), id, g);
    } else {
      if id in w.tasks { OwnContainer(w, id); }
      match a {
        case Publish(_) => BegunPublishes(w, id, g); assert Step(w, a) == StepPublish(w, id) by { Unfold(w, a); }
        case PutImage(_, _) => BegunPuts(w, a, id, g);
        case PutNote(_, _, _) => BegunPuts(w, a, id, g);
        case Save(_, _) => BegunSaves(w, a, id, g);
        case Abandon(_) => BegunSaves(w, a, id, g);
        case LockMirror(_) => BegunSaves(w, a, id, g);
        case BeginOpen(_, _, _) => BegunBegins(w, a, id, g); Unfold(w, a);
        case BeginClose(_, _) => BegunBegins(w, a, id, g); Unfold(w, a);
        case BeginRecycle(_) => BegunBegins(w, a, id, g); Unfold(w, a);
        case BeginReap(_, _, _, _) => BegunBegins(w, a, id, g); Unfold(w, a);
        case BeginNote(_) => BegunBegins(w, a, id, g); Unfold(w, a);
        case _ => BegunAsks(w, a, id, g);
      }
    }
  }

  lemma Unfold(w: World, a: Action)
    ensures a.Publish? ==> Step(w, a) == StepPublish(w, a.id)
    ensures a.BeginOpen? || a.BeginClose? || a.BeginRecycle? || a.BeginReap? || a.BeginNote? ==>
              Step(w, a) == StepBegin(w, a)
  {
    hide StepPublish, StepBegin;
  }

  /** Every destroy of that generation logged since then was one of a record whose IDE counts as started. */
  ghost predicate DestroysStarted(w: World, n: nat, id: string, g: nat) {
    forall i :: n <= i < |w.log| && w.log[i].Destroyed? && w.log[i].id == id && w.log[i].rec.generation == g ==>
                  w.log[i].rec.IdeStarted()
  }

  lemma DestroysStep(w: World, a: Action, n: nat, id: string, g: nat)
    requires Begun(w, id, g) && DestroysStarted(w, n, id, g) && n <= |w.log|
    ensures DestroysStarted(Step(w, a), n, id, g) && n <= |Step(w, a).log|
  {
    hide Step;
    LogStep(w, a);
    if a.Destroy? { DestroyLog(w, a.id, a.destroyed); }
  }

  lemma {:induction false} BegunRun(w: World, later: seq<Action>, id: string, g: nat)
    requires Inv(w) && Begun(w, id, g)
    ensures var v := Run(w, later);
            Inv(v) && Begun(v, id, g) && |w.log| <= |v.log| && DestroysStarted(v, |w.log|, id, g)
  {
    hide Inv, Step, Begun, DestroysStarted;
    if later == [] {
      DestroysNone(w, id, g);
    } else {
      var n := |later| - 1;
      var u := Run(w, later[..n]);
      BegunRun(w, later[..n], id, g);
      BegunStep(u, later[n], id, g);
      KeepsStep(u, later[n]);
      DestroysStep(u, later[n], |w.log|, id, g);
    }
  }

  lemma DestroysNone(w: World, id: string, g: nat)
    ensures DestroysStarted(w, |w.log|, id, g)
  {
  }

  // ---- a whole note ----

  /** An active session of known image whose lock is free: what a note on IDE or handoff demands. */
  ghost predicate Notable(w: World, id: string) {
    && id in w.mem.records && id !in w.tasks
    && var r := w.mem.records[id];
    && r.lifecycle.Active? && r.runtimeOwned && r.binding.Some? && r.binding.value.ide.Some? && BindingSafe(w.mem, r)
  }

  function NotedRecord(r: Record, started: bool, pending: bool): Record
    requires r.binding.Some? && r.binding.value.ide.Some?
  {
    var b, ide := r.binding.value, r.binding.value.ide.value;
    r.(handoffPending := pending, binding := Some(b.(ide := Some(ide.(started := started || ide.started)))))
  }

  /** The session lock, the note, a good save; others act in between. */
  function Noted(id: string, started: bool, pending: bool, between: seq<Action>, after: seq<Action>): seq<Action> {
    [BeginNote(id)] + between + [PutNote(id, started, pending)] + after + [Save(id, Saved)]
  }

  lemma NoteParts(w: World, id: string, started: bool, pending: bool, between: seq<Action>, after: seq<Action>)
    ensures var w3 := Step(Run(Step(w, BeginNote(id)), between), PutNote(id, started, pending));
            Run(w, Noted(id, started, pending, between, after)) == Step(Run(w3, after), Save(id, Saved))
  {
    hide Step;
    var put := PutNote(id, started, pending);
    RunSplit(w, [BeginNote(id)] + between + [put] + after, [Save(id, Saved)]);
    RunSplit(w, [BeginNote(id)] + between + [put], after);
    RunSplit(w, [BeginNote(id)] + between, [put]);
    RunSplit(w, [BeginNote(id)], between);
    RunOnce(w, BeginNote(id));
    RunOnce(Run(Step(w, BeginNote(id)), between), put);
    RunOnce(Run(Step(Run(Step(w, BeginNote(id)), between), put), after), Save(id, Saved));
  }

  /** The holder of the session lock, with the record as its copy. */
  ghost predicate Writing(w: World, id: string, r: Record) {
    id in w.tasks && w.tasks[id].pc.Noting? && w.tasks[id].rec == r && id in w.mem.records && w.mem.records[id] == r
  }

  lemma NoteBegins(w: World, id: string)
    requires Notable(w, id)
    ensures Writing(Step(w, BeginNote(id)), id, w.mem.records[id])
  {
    hide BindingSafe;
  }

  lemma NotePuts(w: World, id: string, r: Record, started: bool, pending: bool)
    requires Writing(w, id, r) && r.id == id && r.binding.Some? && r.binding.value.ide.Some?
    ensures Writing(Step(w, PutNote(id, started, pending)), id, NotedRecord(r, started, pending))
  {
  }

  lemma NoteSaves(w: World, id: string, r: Record)
    requires Writing(w, id, r)
    ensures var v := Step(w, Save(id, Saved)); Writing(v, id, r) && v.disk == {v.mem} && v.mem == w.mem
  {
  }

  lemma WritingStays(w: World, w': World, id: string, r: Record)
    requires Writing(w, id, r) && SameFor(w, w', id)
    ensures Writing(w', id, r)
  {
  }

  /** Once its save went well, a note is in memory and on disk, and the record is otherwise what it was. */
  lemma NoteIsRecorded(w0: World, s: Snapshot, schedule: seq<Action>, id: string, started: bool, pending: bool,
                       between: seq<Action>, after: seq<Action>)
    requires Booted(w0, s) && Notable(Run(w0, schedule), id)
    requires forall b :: b in between + after ==> Elsewhere(b, id)
    ensures var w := Run(w0, schedule); var u := Run(w0, schedule + Noted(id, started, pending, between, after));
            && u.disk == {u.mem} && Inv(u) && id in w.mem.records && id in u.used
            && Writing(u, id, NotedRecord(w.mem.records[id], started, pending))
  {
    hide Inv, Step, Run, Booted, Writing, Notable, NotedRecord, Noted;
    RunInv(w0, s, schedule);
    var w := Run(w0, schedule);
    NotableRecord(w, id);
    var r := w.mem.records[id];
    NoteBegins(w, id);
    var w1 := Step(w, BeginNote(id));
    KeepsStep(w, BeginNote(id));
    Parts(between, after, id);
    OthersRun(w1, between, id);
    var w2 := Run(w1, between);
    WritingStays(w1, w2, id, r);
    NotePuts(w2, id, r, started, pending);
    KeepsStep(w2, PutNote(id, started, pending));
    var w3 := Step(w2, PutNote(id, started, pending));
    OthersRun(w3, after, id);
    var w4 := Run(w3, after);
    WritingStays(w3, w4, id, NotedRecord(r, started, pending));
    NoteSaves(w4, id, NotedRecord(r, started, pending));
    KeepsStep(w4, Save(id, Saved));
    NoteParts(w, id, started, pending, between, after);
    RunSplit(w0, schedule, Noted(id, started, pending, between, after));
    KnownUsed(Step(w4, Save(id, Saved)), id, NotedRecord(r, started, pending));
  }

  lemma NotableRecord(w: World, id: string)
    requires Inv(w) && Notable(w, id)
    ensures id in w.mem.records
    ensures var r := w.mem.records[id]; r.id == id && r.binding.Some? && r.binding.value.ide.Some?
  {
    assert SnapshotOk(w, w.mem);
  }

  lemma KnownUsed(w: World, id: string, r: Record)
    requires Inv(w) && Writing(w, id, r)
    ensures id in w.used && r.id == id
  {
    assert SnapshotOk(w, w.mem);
  }

  // ---- what holds from then on ----

  lemma PendingNow(w: World, id: string, r: Record, started: bool)
    requires r.binding.Some? && r.binding.value.ide.Some? && r.lifecycle.Active? && r.runtimeOwned
    requires Inv(w) && Writing(w, id, NotedRecord(r, started, true)) && w.disk == {w.mem}
    ensures Pending(w, id, r.generation) && r.Container() == SessionVm(id, r.generation) && r.Container() in w.live
  {
    assert SnapshotOk(w, w.mem);
  }

  lemma BegunNow(w: World, id: string, r: Record, pending: bool)
    requires r.binding.Some? && r.binding.value.ide.Some?
    requires Writing(w, id, NotedRecord(r, true, pending)) && w.disk == {w.mem} && id in w.used
    ensures Begun(w, id, r.generation)
  {
  }

  lemma NotableFields(w: World, id: string)
    requires Notable(w, id)
    ensures w.mem.records[id].lifecycle.Active? && w.mem.records[id].runtimeOwned
    ensures w.mem.records[id].binding.Some? && w.mem.records[id].binding.value.ide.Some?
  {
  }

  /** A pending handoff, once noted and saved, protects its workspace: whatever happens later, restarts included, as
      long as no later note withdraws it, the session stays on record in its generation with the handoff pending, only
      notes work on it, its container stays, and no verb destroys anything of it. */
  lemma PendingHandoffHolds(w0: World, s: Snapshot, schedule: seq<Action>, id: string, started: bool,
                            between: seq<Action>, after: seq<Action>, later: seq<Action>)
    requires Booted(w0, s) && Notable(Run(w0, schedule), id)
    requires forall b :: b in between + after ==> Elsewhere(b, id)
    requires forall a :: a in later ==> !Withdraws(a, id)
    ensures var r := Run(w0, schedule).mem.records[id];
            var u := Run(w0, schedule + Noted(id, started, true, between, after));
            var v := Run(w0, schedule + Noted(id, started, true, between, after) + later);
            && id in v.mem.records && v.mem.records[id].handoffPending && v.mem.records[id].generation == r.generation
            && r.Container() in v.live && (id in v.tasks ==> v.tasks[id].pc.Noting?)
            && |u.log| <= |v.log|
            && (forall i :: |u.log| <= i < |v.log| && v.log[i].Destroyed? ==> v.log[i].id != id)
  {
    hide Inv, Step, Run, Booted, Writing, Notable, NotedRecord, Noted, Pending, BindingSafe;
    NoteIsRecorded(w0, s, schedule, id, started, true, between, after);
    NotableFields(Run(w0, schedule), id);
    var r := Run(w0, schedule).mem.records[id];
    var u := Run(w0, schedule + Noted(id, started, true, between, after));
    PendingNow(u, id, r, started);
    PendingRun(u, later, id, r.generation);
    RunSplit(w0, schedule + Noted(id, started, true, between, after), later);
    PendingHere(Run(u, later), id, r.generation);
  }

  lemma PendingHere(w: World, id: string, g: nat)
    requires Pending(w, id, g)
    ensures id in w.mem.records && w.mem.records[id].handoffPending && w.mem.records[id].generation == g
    ensures id in w.tasks ==> w.tasks[id].pc.Noting?
  {
  }

  /** The answer with which an IDE-started workspace of this generation has finished: nothing dirty, all pushed. */
  predicate Finished(reply: Reply, g: nat) {
    && reply.Helper? && reply.finish.Some? && reply.finish.value.state == "finished"
    && reply.finish.value.generation == Some(g) && reply.finish.value.dirty == Some(false)
    && Sha(reply.finish.value.sha)
  }

  lemma SafeIsFinished(r: Record, reply: Reply)
    requires WorkSafe(r, reply) && r.IdeStarted()
    ensures Finished(reply, r.generation)
  {
    hide ObservationAuthority;
  }

  /** A workspace whose IDE start was noted and saved is never again taken for an ordinary one: whatever happens later,
      restarts included, its generation is destroyed only after its helper finished, in the same hold of the lock. */
  lemma StartedNeedsFinish(w0: World, s: Snapshot, schedule: seq<Action>, id: string, pending: bool,
                           between: seq<Action>, after: seq<Action>, later: seq<Action>, i: nat)
    requires Booted(w0, s) && Notable(Run(w0, schedule), id)
    requires forall b :: b in between + after ==> Elsewhere(b, id)
    requires var v := Run(w0, schedule + Noted(id, true, pending, between, after) + later);
             && |Run(w0, schedule + Noted(id, true, pending, between, after)).log| <= i < |v.log|
             && v.log[i].Destroyed? && v.log[i].id == id
             && v.log[i].rec.generation == Run(w0, schedule).mem.records[id].generation
    ensures var v := Run(w0, schedule + Noted(id, true, pending, between, after) + later);
            exists since: nat, f: nat ::
              SavedInOneHold(v.log, i, since, f) && Finished(v.log[f].reply, v.log[i].rec.generation)
  {
    hide Inv, Step, Run, Booted, Writing, Notable, NotedRecord, Noted, Begun, BindingSafe, WorkSafe, Finished;
    NoteIsRecorded(w0, s, schedule, id, true, pending, between, after);
    NotableFields(Run(w0, schedule), id);
    var r := Run(w0, schedule).mem.records[id];
    var u := Run(w0, schedule + Noted(id, true, pending, between, after));
    BegunNow(u, id, r, pending);
    BegunRun(u, later, id, r.generation);
    RunSplit(w0, schedule + Noted(id, true, pending, between, after), later);
    var v := Run(u, later);
    DestroyOnlySafeWork(w0, s, schedule + Noted(id, true, pending, between, after) + later, i);
    var since: nat, f: nat :| SavedInOneHold(v.log, i, since, f);
    SafeIsFinished(v.log[i].rec, v.log[f].reply);
  }
}
