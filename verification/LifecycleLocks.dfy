/** The merge lock of a project while a session of it is being booted (sigiledd/src/sessions.rs). */
module LifecycleLocks {
  import opened Sessions
  import opened Ide
  import opened LifecycleMachine
  import opened LifecycleSafety

  predicate BootPc(pc: Pc) {
    || pc.ImagePut? || pc.ImageSave? || pc.Create? || pc.OwnPut? || pc.OwnSave? || pc.Boot? || pc.ActivePut?
    || pc.ActiveSave?
  }

  ghost predicate Holds(w: World, id: string) { exists p :: p in w.mirrors && w.mirrors[p] == id }

  ghost predicate BootsFree(w: World) { forall id :: id in w.tasks && BootPc(w.tasks[id].pc) ==> !Holds(w, id) }

  /** A session's step leaves the locks, takes one, or gives up its own; it goes on to the image without one. */
  ghost predicate LocksKept(w: World, w': World, id: string) {
    && w'.tasks - {id} == w.tasks - {id}
    && (w'.mirrors == w.mirrors || w'.mirrors == Unlocked(w.mirrors, id) || Takes(w.mirrors, w'.mirrors, id))
    && (id in w'.tasks && BootPc(w'.tasks[id].pc) ==>
          || w'.mirrors == Unlocked(w.mirrors, id)
          || (id in w.tasks && BootPc(w.tasks[id].pc) && w'.mirrors == w.mirrors))
  }

  ghost predicate Takes(a: map<string, string>, b: map<string, string>, id: string) {
    exists p :: p in b && b == a[p := id]
  }

  lemma LocksNow(w: World, w': World, id: string)
    requires BootsFree(w) && LocksKept(w, w', id)
    ensures BootsFree(w')
  {
    hide BootPc;
    forall o | o in w'.tasks && BootPc(w'.tasks[o].pc) ensures !Holds(w', o) {
      if o != id { assert o in w'.tasks - {id} && (w'.tasks - {id})[o] == (w.tasks - {id})[o]; }
    }
  }

  lemma BeginLocks(w: World, a: Action)
    requires a.BeginOpen? || a.BeginClose? || a.BeginRecycle? || a.BeginReap? || a.BeginNote?
    ensures LocksKept(w, StepBegin(w, a), a.id)
  {
    hide Refusal, IdleRecord, FreshRecord, BindingSafe, Unlocked, Takes;
  }

  lemma PublishLocks(w: World, id: string)
    ensures LocksKept(w, StepPublish(w, id), id)
  {
    hide SessionBranch, PushDebt, ClearDebt, Put, Mark, Remove, Rebound, Unlocked, Takes;
  }

  lemma AttemptLocks(w: World, id: string, ok: bool)
    ensures LocksKept(w, StepAttempt(w, id, ok), id)
  {
    hide Unlocked, Takes;
  }

  lemma SaveLocks(w: World, id: string, o: SaveOutcome)
    ensures LocksKept(w, StepSave(w, id, o), id)
  {
    hide SavedDisk, Unlocked, Takes;
  }

  lemma PutLocks(w: World, a: Action)
    requires a.Destroy? || a.PutImage? || a.PutNote?
    ensures LocksKept(w, Step(w, a), a.id)
  {
    hide Filed, Claimants, Put, Unlocked, Takes;
  }

  lemma AskLocks(w: World, a: Action)
    requires a.Find? || a.Flush? || a.Merge? || a.Allocate?
    ensures LocksKept(w, Step(w, a), a.id)
  {
    hide FindOrphan, FlushRecord, Unlocked, Takes;
  }

  lemma TakeLocks(w: World, a: Action)
    requires a.LockMirror? || a.Abandon?
    ensures LocksKept(w, Step(w, a), a.id)
  {
    hide DebtsFor, Unlocked;
  }

  lemma LocksStep(w: World, a: Action)
    requires BootsFree(w)
    ensures BootsFree(Step(w, a))
  {
    hide BootsFree, LocksKept, StepBegin, StepPublish, StepAttempt, StepSave, StepFind, StepFlush, StepMerge,
        StepAllocate, StepDestroy, StepPutImage, StepPutNote, StepLockMirror, StepCrash;
    match a {
      case BeginOpen(id, _, _) => BeginLocks(w, a); LocksNow(w, Step(w, a), id);
      case BeginClose(id, _) => BeginLocks(w, a); LocksNow(w, Step(w, a), id);
      case BeginRecycle(id) => BeginLocks(w, a); LocksNow(w, Step(w, a), id);
      case BeginReap(id, _, _, _) => BeginLocks(w, a); LocksNow(w, Step(w, a), id);
      case BeginNote(id) => BeginLocks(w, a); LocksNow(w, Step(w, a), id);
      case Publish(id) => PublishLocks(w, id); LocksNow(w, Step(w, a), id);
      case Attempt(id, ok) => AttemptLocks(w, id, ok); LocksNow(w, Step(w, a), id);
      case Save(id, o) => SaveLocks(w, id, o); LocksNow(w, Step(w, a), id);
      case BackgroundSave(_) => SameLocks(w, Step(w, a));
      case Crash(s) => CrashLocks(w, s);
      case LockMirror(id) => TakeLocks(w, a); LocksNow(w, Step(w, a), id);
      case Abandon(id) => TakeLocks(w, a); LocksNow(w, Step(w, a), id);
      case Destroy(id, _) => PutLocks(w, a); LocksNow(w, Step(w, a), id);
      case PutImage(id, _) => PutLocks(w, a); LocksNow(w, Step(w, a), id);
      case PutNote(id, _, _) => PutLocks(w, a); LocksNow(w, Step(w, a), id);
      case _ => AskLocks(w, a); LocksNow(w, Step(w, a), a.id);
    }
  }

  lemma SameLocks(w: World, w': World)
    requires BootsFree(w) && w'.tasks == w.tasks && w'.mirrors == w.mirrors
    ensures BootsFree(w')
  {
  }

  lemma CrashLocks(w: World, s: Snapshot)
    requires BootsFree(w)
    ensures BootsFree(StepCrash(w, s))
  {
  }

  /** In every reachable state: a session whose image, container or workspace is being made does not hold the merge lock
      of its project. */
  lemma {:induction false} BootsWithoutLock(w: World, s: Snapshot, schedule: seq<Action>, id: string)
    requires Booted(w, s) && id in Run(w, schedule).tasks && BootPc(Run(w, schedule).tasks[id].pc)
    ensures forall p :: p in Run(w, schedule).mirrors ==> Run(w, schedule).mirrors[p] != id
  {
    hide BootPc, Booted;
    AllBootFree(w, s, schedule);
  }

  lemma {:induction false} AllBootFree(w: World, s: Snapshot, schedule: seq<Action>)
    requires Booted(w, s)
    ensures BootsFree(Run(w, schedule))
  {
    hide BootPc, Step, LegacySnapshot;
    if schedule != [] {
      AllBootFree(w, s, schedule[..|schedule| - 1]);
      LocksStep(Run(w, schedule[..|schedule| - 1]), schedule[|schedule| - 1]);
    }
  }
}
