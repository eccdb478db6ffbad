/** open, close, recycle and reap as interleaved steps (sigiledd/src/sessions.rs, sigiledd/src/reaper.rs).
    One step touches shared state once. Between any two steps other sessions run, a request may be
    abandoned, a save may fail with or without having replaced the file, and the process may crash. */
module LifecycleMachine {
  import opened Wrappers
  import opened Sessions
  import opened Ide

  /** `Note` is any other holder of a session lock that rewrites IDE or handoff fields of an active record. */
  datatype Verb = Open(allowOrphan: bool) | Close | Recycle | Reap | Note

  /** Where a verb is: the name of the access it performs next. */
  datatype Pc =
    // open only
    | OpenWait | OpenPut | OpenSave | OpenMirror | OpenFind | OpenAdopt(found: Option<string>) | OpenAdoptSave
      | OpenImage
    // close, recycle and reap
    | Marking | MarkSave | Flushing | MirrorWait | MirrorGet | Fetching
    // close
    | Merging | DebtPut | Pushing | Accepting | CloseSave
    | Destroying | Clearing | Removing | LastSave
    // recycle
    | Resolving | RecycleImage | Rebind | RebindSave
    // open and recycle
    | ImagePut | ImageSave | Create | OwnPut | OwnSave | Boot | ActivePut | ActiveSave
    // failure()
    | FailMark(code: Failure) | FailSave
    | Noting

  /** A verb in flight. `rec` is its local copy of the record, `since` the log index at which it locked the session. */
  datatype Task = Task(verb: Verb, pc: Pc, rec: Record, since: nat, debt: bool)

  datatype Event =
    | Locked(id: string)
    | Created(id: string, container: Container)
    | Flushed(id: string, rec: Record, reply: Reply)
    | Fetched(id: string, branch: string)
    | Replied(id: string, branch: string, accepted: bool)
    | Destroyed(id: string, verb: Verb, rec: Record, others: set<string>, filed: bool)
    | Crashed

  /** `disk` holds every snapshot a restart could still load; `tasks` is keyed by the session lock
      it holds, `mirrors` maps a project to the holder of its merge lock; `used` and `seen` are the
      ids and branches that ever existed; `log` is history. */
  datatype World = World(
    mem: Snapshot, disk: set<Snapshot>, live: set<Container>, tasks: map<string, Task>, mirrors: map<string, string>,
    used: set<string>, seen: set<string>, log: seq<Event>)

  datatype SaveOutcome = Saved | FailedClean | FailedReplaced

  datatype MergeResult = MergedIn | Conflict | MergeError

  datatype CreateResult = CreateRefused | CreateUndone | CreateLeaked | CreateStarted

  datatype DestroyResult = DestroyDone | DestroyRefused | DestroyReplyLost

  datatype Action =
    | BeginOpen(id: string, project: string, allowOrphan: bool)
    | BeginClose(id: string, expected: Option<nat>)
    | BeginRecycle(id: string)
    | BeginReap(id: string, expected: Option<nat>, minimum: nat, status: Option<Status>)
    | BeginNote(id: string)
    | LockMirror(id: string)
    | Save(id: string, outcome: SaveOutcome)
    | Publish(id: string)
    | Attempt(id: string, ok: bool)
    | Find(id: string, refs: seq<string>)
    | PutImage(id: string, ide: bool)
    | PutNote(id: string, started: bool, handoffPending: bool)
    | Flush(id: string, reply: Reply)
    | Merge(id: string, merged: MergeResult)
    | Allocate(id: string, created: CreateResult)
    | Destroy(id: string, destroyed: DestroyResult)
    | Abandon(id: string)
    | BackgroundSave(outcome: SaveOutcome)
    | Crash(snapshot: Snapshot)

  // ---- helpers ----

  function Goto(w: World, id: string, pc: Pc): World
    requires id in w.tasks
  {
    w.(tasks := w.tasks[id := w.tasks[id].(pc := pc)])
  }

  function Fail(w: World, id: string, code: Failure): World
    requires id in w.tasks
  {
    Goto(w, id, FailMark(code))
  }

  function Unlocked(mirrors: map<string, string>, id: string): map<string, string> {
    map p | p in mirrors && mirrors[p] != id :: mirrors[p]
  }

  function End(w: World, id: string): World {
    w.(tasks := w.tasks - {id}, mirrors := Unlocked(w.mirrors, id))
  }

  function SavedDisk(w: World, o: SaveOutcome): set<Snapshot> {
    match o
    case Saved => {w.mem}
    case FailedClean => w.disk
    case FailedReplaced => w.disk + {w.mem}
  }

  function Log(w: World, e: Event): World { w.(log := w.log + [e]) }

  /** Put the local copy in the store and go on. */
  function PutRecord(w: World, id: string, rec: Record, pc: Pc): World
    requires id in w.tasks
  {
    w.(mem := Put(w.mem, rec), tasks := w.tasks[id := w.tasks[id].(rec := rec, pc := pc)])
  }

  function Enter(w: World, id: string, verb: Verb, pc: Pc, rec: Record): World {
    Log(w, Locked(id)).(tasks := w.tasks[id := Task(verb, pc, rec, |w.log|, false)])
  }

  function FreshRecord(id: string, project: string): Record {
    Record(id, project, SessionBranch(id), false, true, Some(Binding(SessionVm(id, 1), 1, None)), Creating, 1, None,
           false, false)
  }

  function Rebound(r: Record): Record {
    r.(binding := Some(Binding(SessionVm(r.id, r.generation + 1), r.generation + 1, None)),
       generation := r.generation + 1,
       token := true, runtimeOwned := false)
  }

  /** The checks shared by close, recycle and reap once the record is read. */
  ghost function Refusal(s: Snapshot, r: Record): Option<Failure> {
    if !BindingSafe(s, r) then Some(LegacyOwnershipAmbiguous)
    else if !r.runtimeOwned || !r.token then Some(RuntimeNotOwned)
    else None
  }

  // ---- steps ----

  ghost function Begin(w: World, id: string, verb: Verb, r: Record): World {
    match Refusal(w.mem, r)
    case Some(code) => Enter(w, id, verb, FailMark(code), r)
    case None =>
      if verb == Recycle && r.generation >= MAX_GENERATION then Enter(w, id, verb, FailMark(GenerationExhausted), r)
      else Enter(w, id, verb, Marking, r)
  }

  predicate CanBegin(w: World, id: string) { id !in w.tasks && id in w.mem.records }

  ghost function StepBegin(w: World, a: Action): World
    requires a.BeginOpen? || a.BeginClose? || a.BeginRecycle? || a.BeginReap? || a.BeginNote?
  {
    match a
    case BeginOpen(id, project, allowOrphan) =>
      if id in w.tasks || id in w.mem.records then w
      else Enter(w, id, Open(allowOrphan), OpenWait, FreshRecord(id, project))
    case BeginClose(id, expected) =>
      if !CanBegin(w, id) then w
      else
        var r := w.mem.records[id];
        if (expected.Some? && expected.value != r.generation) || r.handoffPending then w else Begin(w, id, Close, r)
    case BeginRecycle(id) =>
      if !CanBegin(w, id) || w.mem.records[id].handoffPending then w else Begin(w, id, Recycle, w.mem.records[id])
    case BeginReap(id, expected, minimum, status) =>
      if !CanBegin(w, id) then w
      else
        var r := w.mem.records[id];
        if (expected.Some? && (expected.value != r.generation || r.lifecycle != Active)) || r.handoffPending then w
        else if Refusal(w.mem, r).None? && expected.Some? then
          var idle := IdleRecord(r, MAX_GENERATION, status);
          if idle.None? || idle.value < minimum then w else Begin(w, id, Reap, r)
        else Begin(w, id, Reap, r)
    case BeginNote(id) =>
      if !CanBegin(w, id) then w
      else
        var r := w.mem.records[id];
        if r.lifecycle == Active && r.runtimeOwned && BindingSafe(w.mem, r) && r.binding.Some?
           && r.binding.value.ide.Some?
        then Enter(w, id, Note, Noting, r) else w
  }

  function StepLockMirror(w: World, id: string): World {
    if id !in w.tasks || w.tasks[id].rec.project in w.mirrors then w
    else
      var t := w.tasks[id];
      if t.pc == OpenWait then
        if t.verb.Open? && !t.verb.allowOrphan && DebtsFor(w.mem, t.rec.project) != [] then End(w, id)
        else Goto(w, id, OpenPut).(mirrors := w.mirrors[t.rec.project := id])
      else if t.pc == MirrorWait then Goto(w, id, MirrorGet).(mirrors := w.mirrors[t.rec.project := id])
      else w
  }

  function AfterSave(w: World, id: string): World
    requires id in w.tasks
  {
    match w.tasks[id].pc
    case OpenSave => Goto(w, id, OpenMirror)
    case OpenAdoptSave => Goto(w, id, OpenImage)
    case MarkSave => Goto(w, id, Flushing)
    case CloseSave => Goto(w, id, Destroying)
    case RebindSave => Goto(w, id, ImagePut).(mirrors := Unlocked(w.mirrors, id))
    case ImageSave => Goto(w, id, Create)
    case OwnSave => Goto(w, id, Boot)
    case _ => End(w, id)
  }

  predicate SavePc(pc: Pc) {
    match pc
    case OpenSave | OpenAdoptSave | MarkSave | CloseSave | RebindSave | ImageSave | OwnSave | ActiveSave | LastSave
      | FailSave
       | Noting => true
    case _ => false
  }

  function StepSave(w: World, id: string, o: SaveOutcome): World {
    if id !in w.tasks || !SavePc(w.tasks[id].pc) then w
    else
      var t := w.tasks[id];
      var s := w.(disk := SavedDisk(w, o));
      if t.pc == Noting then s
      else if t.pc.LastSave? || t.pc.FailSave? then End(s, id)
      else if o == Saved then AfterSave(s, id)
      else Fail(s, id, PersistFailed)
  }

  /** The puts and marks that need no answer from outside. */
  function StepPublish(w: World, id: string): World {
    if id !in w.tasks then w
    else
      var t := w.tasks[id];
      match t.pc
      case OpenPut =>
        // A fresh random id: nothing was ever named after it.
        if id in w.used || SessionBranch(id) in w.seen then w
        else PutRecord(w, id, t.rec, OpenSave).(used := w.used + {id}, seen := w.seen + {t.rec.branch})
      case OpenAdopt(None) => PutRecord(w, id, t.rec, OpenAdoptSave)
      case OpenAdopt(Some(branch)) => PutRecord(w, id, t.rec.(branch := branch, stale := true), OpenAdoptSave)
      case Marking =>
        Goto(w, id, MarkSave).(mem := Mark(w.mem, id, if t.verb == Recycle then Recycling else Closing, None))
      case DebtPut => Goto(w, id, CloseSave).(mem := PushDebt(w.mem, t.rec.project, MergeDebt(t.rec.branch, id)))
      case Clearing => Goto(w, id, Removing).(mem := ClearDebt(w.mem, t.rec.project, t.rec.branch))
      case Removing => Goto(w, id, LastSave).(mem := Remove(w.mem, id))
      case Rebind => PutRecord(w, id, Rebound(t.rec), RebindSave)
      case OwnPut => PutRecord(w, id, t.rec.(runtimeOwned := true), OwnSave)
      case ActivePut =>
        var error := if t.verb == Recycle then None else t.rec.error;
        PutRecord(w, id, t.rec.(lifecycle := Active, error := error), ActiveSave)
      case FailMark(code) => Goto(w, id, FailSave).(mem := Mark(w.mem, id, Failed, Some(code)))
      case _ => w
  }

  /** Calls whose answer decides the next step but which change nothing modelled here. */
  function StepAttempt(w: World, id: string, ok: bool): World {
    if id !in w.tasks then w
    else
      var t := w.tasks[id];
      match t.pc
      case OpenMirror =>
        if !ok then Fail(w, id, MirrorFailed)
        else Goto(w, id, if t.verb == Open(true) then OpenFind else OpenAdopt(None))
      case OpenImage =>
        if !ok then Fail(w, id, BootFailed) else Goto(w, id, ImagePut).(mirrors := Unlocked(w.mirrors, id))
      case MirrorGet => if !ok then Fail(w, id, MirrorFailed) else Goto(w, id, Fetching)
      case Fetching =>
        if !ok then Fail(w, id, FetchFailed)
        else Log(Goto(w, id, if t.verb == Recycle then Resolving else Merging), Fetched(id, t.rec.branch))
      case Resolving => if !ok then Fail(w, id, FetchFailed) else Goto(w, id, RecycleImage)
      case RecycleImage => if !ok then Fail(w, id, BootFailed) else Goto(w, id, Destroying)
      case Pushing =>
        Log(if !ok then Fail(w, id, PushFailed) else Goto(w, id, Accepting), Replied(id, t.rec.branch, ok))
      case Accepting => if !ok then Fail(w, id, PersistFailed) else Goto(w, id, CloseSave)
      case Boot => if !ok then Fail(w, id, BootFailed) else Goto(w, id, ActivePut)
      case _ => w
  }

  ghost function StepFind(w: World, id: string, refs: seq<string>): World {
    if id !in w.tasks || w.tasks[id].pc != OpenFind then w
    else
      Goto(w, id, OpenAdopt(FindOrphan(w.mem, w.tasks[id].rec.project, refs))).(seen := w.seen + set b | b in refs)
  }

  function StepPutImage(w: World, id: string, ide: bool): World {
    if id !in w.tasks || w.tasks[id].pc != ImagePut || w.tasks[id].rec.binding.None? then w
    else
      var t := w.tasks[id];
      var b := t.rec.binding.value.(ide := if ide then Some(IdeBinding(t.rec.generation, false)) else None);
      PutRecord(w, id, t.rec.(binding := Some(b), runtimeOwned := false,
                              lifecycle := if t.verb == Recycle then Recycling else t.rec.lifecycle), ImageSave)
  }

  function StepPutNote(w: World, id: string, started: bool, handoffPending: bool): World {
    if id !in w.tasks || w.tasks[id].pc != Noting then w
    else
      var r := w.tasks[id].rec.(handoffPending := handoffPending);
      if started && r.binding.Some? && r.binding.value.ide.Some? then
        var ide := r.binding.value.ide.value.(started := true);
        PutRecord(w, id, r.(binding := Some(r.binding.value.(ide := Some(ide)))), Noting)
      else PutRecord(w, id, r, Noting)
  }

  function StepFlush(w: World, id: string, reply: Reply): World {
    if id !in w.tasks || w.tasks[id].pc != Flushing then w
    else if !FlushRecord(w.tasks[id].rec, reply) then Fail(w, id, FlushFailed)
    else Log(Goto(w, id, if w.tasks[id].verb == Reap then Destroying else MirrorWait),
             Flushed(id, w.tasks[id].rec, reply))
  }

  function StepMerge(w: World, id: string, result: MergeResult): World {
    if id !in w.tasks || w.tasks[id].pc != Merging then w
    else match result
      case MergedIn => Goto(w, id, Pushing)
      case Conflict => w.(tasks := w.tasks[id := w.tasks[id].(pc := DebtPut, debt := true)])
      case MergeError => Fail(w, id, MergeFailed)
  }

  /** Creation owns the name atomically: it is refused when the name is taken. */
  function StepAllocate(w: World, id: string, result: CreateResult): World {
    if id !in w.tasks || w.tasks[id].pc != Create then w
    else
      var c := w.tasks[id].rec.Container();
      if c in w.live then Fail(w, id, CreateFailed)
      else match result
        case CreateRefused => Fail(w, id, CreateFailed)
        case CreateUndone => Fail(w, id, CreateFailed)
        case CreateLeaked => Fail(w, id, CreateFailed).(live := w.live + {c})
        case CreateStarted => Log(Goto(w, id, OwnPut), Created(id, c)).(live := w.live + {c})
  }

  /** The other token-holding records that name this container at this moment. */
  function Claimants(s: Snapshot, id: string, c: Container): set<string> {
    set other | other in s.records && other != id && s.records[other].token && s.records[other].Container() == c
  }

  /** The branch is in debt in memory and in every snapshot a restart could load. */
  ghost predicate Filed(w: World, r: Record) {
    InDebt(w.mem, r.project, r.branch) && forall s :: s in w.disk ==> InDebt(s, r.project, r.branch)
  }

  ghost function StepDestroy(w: World, id: string, result: DestroyResult): World {
    if id !in w.tasks || w.tasks[id].pc != Destroying then w
    else
      var t := w.tasks[id];
      var c := t.rec.Container();
      var s := Log(w, Destroyed(id, t.verb, t.rec, Claimants(w.mem, id, c), Filed(w, t.rec)));
      match result
      case DestroyDone =>
        Goto(s, id, if t.verb == Recycle then Rebind else if t.verb == Close && !t.debt then Clearing
                                                          else Removing).(live := w.live - {c})
      case DestroyRefused => Fail(s, id, CleanupFailed)
      case DestroyReplyLost => Fail(s, id, CleanupFailed).(live := w.live - {c})
  }

  ghost function StepCrash(w: World, s: Snapshot): World {
    if s !in w.disk then w
    else Log(w, Crashed).(mem := Hydrated(s), disk := {s}, tasks := map[], mirrors := map[])
  }

  /** One step. An action that is not enabled changes nothing. */
  ghost function Step(w: World, a: Action): World {
    match a
    case BeginOpen(_, _, _) => StepBegin(w, a)
    case BeginClose(_, _) => StepBegin(w, a)
    case BeginRecycle(_) => StepBegin(w, a)
    case BeginReap(_, _, _, _) => StepBegin(w, a)
    case BeginNote(_) => StepBegin(w, a)
    case LockMirror(id) => StepLockMirror(w, id)
    case Save(id, o) => StepSave(w, id, o)
    case Publish(id) => StepPublish(w, id)
    case Attempt(id, ok) => StepAttempt(w, id, ok)
    case Find(id, refs) => StepFind(w, id, refs)
    case PutImage(id, ide) => StepPutImage(w, id, ide)
    case PutNote(id, started, pending) => StepPutNote(w, id, started, pending)
    case Flush(id, reply) => StepFlush(w, id, reply)
    case Merge(id, result) => StepMerge(w, id, result)
    case Allocate(id, result) => StepAllocate(w, id, result)
    case Destroy(id, result) => StepDestroy(w, id, result)
    case Abandon(id) => End(w, id)
    case BackgroundSave(o) => w.(disk := SavedDisk(w, o))
    case Crash(s) => StepCrash(w, s)
  }

  /** The state after a schedule of steps. */
  ghost function Run(w: World, schedule: seq<Action>): World {
    if schedule == [] then w else Step(Run(w, schedule[..|schedule| - 1]), schedule[|schedule| - 1])
  }
}
