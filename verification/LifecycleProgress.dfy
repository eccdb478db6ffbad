/** The other half of the lifecycle: when every answer is good, open, close, recycle and
    reap reach their end. */
module LifecycleProgress {
  import opened Wrappers
  import opened Sessions
  import opened Ide
  import opened LifecycleMachine
  import opened LifecycleInvariant
  import opened LifecycleSteps

  /** What one verb in flight sees. */
  datatype View = View(verb: Verb, pc: Pc, rec: Record, debt: bool, mem: Snapshot, live: set<Container>)

  ghost predicate Sees(w: World, schedule: seq<Action>, v: World, id: string, x: View) {
    v == Run(w, schedule) && Looks(v, id, x)
  }

  ghost predicate Looks(v: World, id: string, x: View) {
    && id in v.tasks && v.mem == x.mem && v.live == x.live
    && v.tasks[id].verb == x.verb && v.tasks[id].pc == x.pc && v.tasks[id].rec == x.rec && v.tasks[id].debt == x.debt
  }

  /** A verb that has ended, with its last save on disk and no lock left. */
  ghost predicate Ended(w: World, schedule: seq<Action>, v: World, id: string, mem: Snapshot, live: set<Container>) {
    v == Run(w, schedule) && id !in v.tasks && v.mem == mem && v.disk == {mem} && v.live == live && NoMirror(v, id)
  }

  ghost predicate NoMirror(v: World, id: string) { forall p :: p in v.mirrors ==> v.mirrors[p] != id }

  lemma RunOne(w: World, schedule: seq<Action>, a: Action)
    ensures Run(w, schedule + [a]) == Step(Run(w, schedule), a)
  {
    hide Step;
    assert (schedule + [a])[..|schedule|] == schedule;
  }

  // ---- one good answer ----

  function Adopted(r: Record, found: Option<string>): Record {
    if found.Some? then r.(branch := found.value, stale := true) else r
  }

  function Published(x: View, id: string): View {
    match x.pc
    case OpenPut => x.(pc := OpenSave, mem := Put(x.mem, x.rec))
    case OpenAdopt(found) => x.(pc := OpenAdoptSave, rec := Adopted(x.rec, found),
                                mem := Put(x.mem, Adopted(x.rec, found)))
    case Marking => x.(pc := MarkSave, mem := Mark(x.mem, id, if x.verb == Recycle then Recycling else Closing, None))
    case DebtPut => x.(pc := CloseSave, mem := PushDebt(x.mem, x.rec.project, MergeDebt(x.rec.branch, id)))
    case Clearing => x.(pc := Removing, mem := ClearDebt(x.mem, x.rec.project, x.rec.branch))
    case Removing => x.(pc := LastSave, mem := Remove(x.mem, id))
    case Rebind => x.(pc := RebindSave, rec := Rebound(x.rec), mem := Put(x.mem, Rebound(x.rec)))
    case OwnPut => var r := x.rec.(runtimeOwned := true); x.(pc := OwnSave, rec := r, mem := Put(x.mem, r))
    case ActivePut =>
      var r := x.rec.(lifecycle := Active, error := if x.verb == Recycle then None else x.rec.error);
      x.(pc := ActiveSave, rec := r, mem := Put(x.mem, r))
    case _ => x
  }

  lemma PublishStep(v: World, id: string)
    ensures Step(v, Publish(id)) == StepPublish(v, id)
  {
    hide StepPublish;
  }

  lemma PublishLooks(v: World, id: string, x: View)
    requires Looks(v, id, x) && !x.pc.FailMark?
    requires x.pc.OpenPut? ==> id !in v.used && SessionBranch(id) !in v.seen
    ensures Looks(StepPublish(v, id), id, Published(x, id)) && StepPublish(v, id).mirrors == v.mirrors
  {
    hide FindOrphan, Put, Mark, PushDebt, ClearDebt, Remove, Rebound, SessionBranch;
  }

  lemma Publishes(w: World, schedule: seq<Action>, v: World, id: string, x: View)
    returns (longer: seq<Action>, v': World, x': View)
    requires Sees(w, schedule, v, id, x) && !x.pc.FailMark?
    requires x.pc.OpenPut? ==> id !in v.used && SessionBranch(id) !in v.seen
    ensures Sees(w, longer, v', id, x') && x' == Published(x, id) && v'.mirrors == v.mirrors
    ensures longer == schedule + [Publish(id)]
  {
    hide Run, Step, StepPublish, Published, Looks;
    longer, v' := schedule + [Publish(id)], StepPublish(v, id);
    PublishLooks(v, id, x);
    RunOne(w, schedule, Publish(id));
    PublishStep(v, id);
    x' := Published(x, id);
  }

  function AfterGoodSave(pc: Pc): Pc {
    match pc
    case OpenSave => OpenMirror
    case OpenAdoptSave => OpenImage
    case MarkSave => Flushing
    case CloseSave => Destroying
    case RebindSave => ImagePut
    case ImageSave => Create
    case _ => Boot
  }

  lemma Saves(w: World, schedule: seq<Action>, v: World, id: string, x: View)
    returns (longer: seq<Action>, v': World, x': View)
    requires Sees(w, schedule, v, id, x)
    requires x.pc.OpenSave? || x.pc.OpenAdoptSave? || x.pc.MarkSave? || x.pc.CloseSave? || x.pc.RebindSave?
             || x.pc.ImageSave?
          || x.pc.OwnSave?
    ensures Sees(w, longer, v', id, x') && x' == x.(pc := AfterGoodSave(x.pc))
            && (x.pc.MarkSave? ==> v'.mirrors == v.mirrors)
    ensures longer == schedule + [Save(id, Saved)]
  {
    hide Run, Put, Mark, PushDebt, ClearDebt, Remove, Rebound, Unlocked, Imaged;
    longer, v' := schedule + [Save(id, Saved)], StepSave(v, id, Saved);
    RunOne(w, schedule, Save(id, Saved));
    x' := x.(pc := AfterGoodSave(x.pc));
  }

  lemma SavesLast(w: World, schedule: seq<Action>, v: World, id: string, x: View)
    returns (longer: seq<Action>, v': World)
    requires Sees(w, schedule, v, id, x) && (x.pc.LastSave? || x.pc.ActiveSave?)
    ensures Ended(w, longer, v', id, x.mem, x.live)
    ensures longer == schedule + [Save(id, Saved)]
  {
    hide Run, Put, Mark, PushDebt, ClearDebt, Remove, Rebound, Imaged;
    longer, v' := schedule + [Save(id, Saved)], StepSave(v, id, Saved);
    RunOne(w, schedule, Save(id, Saved));
  }

  function AfterGoodAttempt(x: View): Pc {
    match x.pc
    case OpenMirror => if x.verb == Open(true) then OpenFind else OpenAdopt(None)
    case OpenImage => ImagePut
    case MirrorGet => Fetching
    case Fetching => if x.verb == Recycle then Resolving else Merging
    case Resolving => RecycleImage
    case RecycleImage => Destroying
    case Pushing => Accepting
    case Accepting => CloseSave
    case Boot => ActivePut
    case _ => x.pc
  }

  lemma Attempts(w: World, schedule: seq<Action>, v: World, id: string, x: View)
    returns (longer: seq<Action>, v': World, x': View)
    requires Sees(w, schedule, v, id, x)
    ensures Sees(w, longer, v', id, x') && x' == x.(pc := AfterGoodAttempt(x))
    ensures longer == schedule + [Attempt(id, true)]
  {
    hide Run, Put, Mark, PushDebt, ClearDebt, Remove, Rebound, Unlocked, Imaged;
    longer, v' := schedule + [Attempt(id, true)], StepAttempt(v, id, true);
    RunOne(w, schedule, Attempt(id, true));
    x' := x.(pc := AfterGoodAttempt(x));
  }

  lemma Locks(w: World, schedule: seq<Action>, v: World, id: string, x: View)
    returns (longer: seq<Action>, v': World, x': View)
    requires Sees(w, schedule, v, id, x) && x.rec.project !in v.mirrors && (x.pc.OpenWait? || x.pc.MirrorWait?)
    requires x.pc.OpenWait? && x.verb == Open(false) ==> DebtsFor(x.mem, x.rec.project) == []
    ensures Sees(w, longer, v', id, x') && x' == x.(pc := if x.pc.OpenWait? then OpenPut else MirrorGet)
    ensures v'.used == v.used && v'.seen == v.seen
    ensures longer == schedule + [LockMirror(id)]
  {
    hide Run, Put, Mark, PushDebt, ClearDebt, Remove, Rebound, Unlocked, Imaged;
    longer, v' := schedule + [LockMirror(id)], StepLockMirror(v, id);
    RunOne(w, schedule, LockMirror(id));
    x' := x.(pc := if x.pc.OpenWait? then OpenPut else MirrorGet);
  }

  function AfterGoodFlush(verb: Verb): Pc { if verb == Reap then Destroying else MirrorWait }

  lemma Finds(w: World, schedule: seq<Action>, v: World, id: string, x: View, refs: seq<string>)
    returns (longer: seq<Action>, v': World, x': View)
    requires Sees(w, schedule, v, id, x) && x.pc.OpenFind?
    ensures Sees(w, longer, v', id, x') && x' == x.(pc := OpenAdopt(FindOrphan(x.mem, x.rec.project, refs)))
    ensures longer == schedule + [Find(id, refs)]
  {
    hide Run, FindOrphan;
    longer, v' := schedule + [Find(id, refs)], StepFind(v, id, refs);
    RunOne(w, schedule, Find(id, refs));
    x' := x.(pc := OpenAdopt(FindOrphan(x.mem, x.rec.project, refs)));
  }

  lemma Flushes(w: World, schedule: seq<Action>, v: World, id: string, x: View, reply: Reply)
    returns (longer: seq<Action>, v': World, x': View)
    requires Sees(w, schedule, v, id, x) && x.pc.Flushing? && FlushRecord(x.rec, reply)
    ensures Sees(w, longer, v', id, x') && x' == x.(pc := AfterGoodFlush(x.verb)) && v'.mirrors == v.mirrors
    ensures longer == schedule + [Flush(id, reply)]
  {
    hide FlushRecord, Run;
    longer, v' := schedule + [Flush(id, reply)], StepFlush(v, id, reply);
    RunOne(w, schedule, Flush(id, reply));
    x' := x.(pc := AfterGoodFlush(x.verb));
  }

  lemma Merges(w: World, schedule: seq<Action>, v: World, id: string, x: View, conflict: bool)
    returns (longer: seq<Action>, v': World, x': View)
    requires Sees(w, schedule, v, id, x) && x.pc.Merging? && !x.debt
    ensures Sees(w, longer, v', id, x') && x' == x.(pc := if conflict then DebtPut else Pushing, debt := conflict)
    ensures longer == schedule + [Merge(id, if conflict then Conflict else MergedIn)]
  {
    hide Run, Put, Mark, PushDebt, ClearDebt, Remove, Rebound, Unlocked, Imaged;
    var a := Merge(id, if conflict then Conflict else MergedIn);
    longer, v' := schedule + [a], StepMerge(v, id, a.merged);
    RunOne(w, schedule, a);
    x' := x.(pc := if conflict then DebtPut else Pushing, debt := conflict);
  }

  function AfterDestroy(x: View): Pc {
    if x.verb == Recycle then Rebind else if x.verb == Close && !x.debt then Clearing else Removing
  }

  lemma Destroys(w: World, schedule: seq<Action>, v: World, id: string, x: View)
    returns (longer: seq<Action>, v': World, x': View)
    requires Sees(w, schedule, v, id, x) && x.pc.Destroying?
    ensures Sees(w, longer, v', id, x') && x' == x.(pc := AfterDestroy(x),
                    live := x.live - {x.rec.Container()})
    ensures longer == schedule + [Destroy(id, DestroyDone)]
  {
    hide Run, Put, Mark, PushDebt, ClearDebt, Remove, Rebound, Unlocked, Imaged;
    longer, v' := schedule + [Destroy(id, DestroyDone)], StepDestroy(v, id, DestroyDone);
    RunOne(w, schedule, Destroy(id, DestroyDone));
    x' := x.(pc := AfterDestroy(x), live := x.live - {x.rec.Container()});
  }

  lemma Allocates(w: World, schedule: seq<Action>, v: World, id: string, x: View)
    returns (longer: seq<Action>, v': World, x': View)
    requires Sees(w, schedule, v, id, x) && x.pc.Create? && x.rec.Container() !in x.live
    ensures Sees(w, longer, v', id, x') && x' == x.(pc := OwnPut, live := x.live + {x.rec.Container()})
    ensures longer == schedule + [Allocate(id, CreateStarted)]
  {
    hide Run, Put, Mark, PushDebt, ClearDebt, Remove, Rebound, Unlocked, Imaged;
    longer, v' := schedule + [Allocate(id, CreateStarted)], StepAllocate(v, id, CreateStarted);
    RunOne(w, schedule, Allocate(id, CreateStarted));
    x' := x.(pc := OwnPut, live := x.live + {x.rec.Container()});
  }

  function Imaged(x: View, ide: bool): Record
    requires x.rec.binding.Some?
  {
    x.rec.(binding := Some(x.rec.binding.value.(ide := if ide then Some(IdeBinding(x.rec.generation, false))
                                                       else None)),
       runtimeOwned := false, lifecycle := if x.verb == Recycle then Recycling else x.rec.lifecycle)
  }

  lemma PutsImage(w: World, schedule: seq<Action>, v: World, id: string, x: View, ide: bool)
    returns (longer: seq<Action>, v': World, x': View)
    requires Sees(w, schedule, v, id, x) && x.pc.ImagePut? && x.rec.binding.Some?
    ensures Sees(w, longer, v', id, x')
            && x' == x.(pc := ImageSave, rec := Imaged(x, ide), mem := Put(x.mem, Imaged(x, ide)))
    ensures longer == schedule + [PutImage(id, ide)]
  {
    hide Run, Put, Mark, PushDebt, ClearDebt, Remove, Rebound, Unlocked;
    longer, v' := schedule + [PutImage(id, ide)], StepPutImage(v, id, ide);
    RunOne(w, schedule, PutImage(id, ide));
    x' := x.(pc := ImageSave, rec := Imaged(x, ide), mem := Put(x.mem, Imaged(x, ide)));
  }

  // ---- whole verbs: the steps of one session, in order, each with a good answer ----

  function HeadSteps(id: string, verb: Verb, reply: Reply): seq<Action> {
    [if verb == Close then BeginClose(id, None) else BeginRecycle(id), Publish(id), Save(id, Saved), Flush(id, reply),
     LockMirror(id), Attempt(id, true), Attempt(id, true)]
  }

  function MergeSteps(id: string, conflict: bool): seq<Action> {
    if conflict then [Merge(id, Conflict), Publish(id)] else [Merge(id, MergedIn), Attempt(id, true), Attempt(id, true)]
  }

  function LeaveSteps(id: string, conflict: bool): seq<Action> {
    [Save(id, Saved), Destroy(id, DestroyDone)]
    + if conflict then [Publish(id), Save(id, Saved)] else [Publish(id), Publish(id), Save(id, Saved)]
  }

  function CloseSteps(id: string, reply: Reply, conflict: bool): seq<Action> {
    HeadSteps(id, Close, reply) + MergeSteps(id, conflict) + LeaveSteps(id, conflict)
  }

  function ReapSteps(id: string, expected: Option<nat>, minimum: nat, status: Option<Status>,
                     reply: Reply): seq<Action> {
    [BeginReap(id, expected, minimum, status), Publish(id), Save(id, Saved), Flush(id, reply), Destroy(id, DestroyDone),
     Publish(id), Save(id, Saved)]
  }

  /** Image, create, own, boot, active, with three saves in between and one at the end. */
  function BootSteps(id: string, ide: bool): seq<Action> {
    [PutImage(id, ide), Save(id, Saved), Allocate(id, CreateStarted), Publish(id), Save(id, Saved), Attempt(id, true),
     Publish(id), Save(id, Saved)]
  }

  function RecycleSteps(id: string, reply: Reply, ide: bool): seq<Action> {
    HeadSteps(id, Recycle, reply)
    + [Attempt(id, true), Attempt(id, true), Destroy(id, DestroyDone), Publish(id), Save(id, Saved)]
    + BootSteps(id, ide)
  }

  function OpenSteps(id: string, project: string, allowOrphan: bool, refs: seq<string>, ide: bool): seq<Action> {
    [BeginOpen(id, project, allowOrphan), LockMirror(id), Publish(id), Save(id, Saved), Attempt(id, true)]
    + (if allowOrphan then [Find(id, refs)] else [])
    + [Publish(id), Save(id, Saved), Attempt(id, true)]
    + BootSteps(id, ide)
  }

  /** The session can be ended or recycled: safe binding, custody, no handoff, nobody at work on it. */
  ghost predicate Workable(w: World, id: string) {
    && id in w.mem.records && w.mem.records[id].id == id && id !in w.tasks && !w.mem.records[id].handoffPending
    && Refusal(w.mem, w.mem.records[id]).None?
  }

  /** ... nor on its mirror. */
  ghost predicate Closable(w: World, id: string) { Workable(w, id) && w.mem.records[id].project !in w.mirrors }

  /** Nothing was asked of the record, or it is the active record that was looked at and has been idle long enough. */
  predicate Reapable(r: Record, expected: Option<nat>, minimum: nat, status: Option<Status>) {
    expected.Some? ==>
      && r.generation == expected.value && r.lifecycle == Active
      && IdleRecord(r, MAX_GENERATION, status).Some? && IdleRecord(r, MAX_GENERATION, status).value >= minimum
  }

  lemma Begins(w: World, id: string, verb: Verb) returns (schedule: seq<Action>, v: World)
    requires Workable(w, id) && (verb == Close || (verb == Recycle && w.mem.records[id].generation < MAX_GENERATION))
    ensures Sees(w, schedule, v, id, View(verb, Marking, w.mem.records[id], false, w.mem, w.live))
            && v.mirrors == w.mirrors
    ensures schedule == [if verb == Close then BeginClose(id, None) else BeginRecycle(id)]
  {
    hide Refusal;
    var a := if verb == Close then BeginClose(id, None) else BeginRecycle(id);
    assert Run(w, []) == w;
    RunOne(w, [], a);
    schedule, v := [] + [a], StepBegin(w, a);
  }

  /** Mark, save, flush, take the mirror, fetch. */
  lemma Head(w: World, id: string, verb: Verb, reply: Reply) returns (schedule: seq<Action>, v: World, x: View)
    requires Closable(w, id) && FlushRecord(w.mem.records[id], reply)
    requires verb == Close || (verb == Recycle && w.mem.records[id].generation < MAX_GENERATION)
    ensures Sees(w, schedule, v, id, x)
    ensures x == View(verb, if verb == Close then Merging else Resolving, w.mem.records[id], false,
                      Mark(w.mem, id, if verb == Close then Closing else Recycling, None), w.live)
    ensures schedule == HeadSteps(id, verb, reply)
  {
    hide Run, Sees, FlushRecord, Mark, Refusal;
    x := View(verb, Marking, w.mem.records[id], false, w.mem, w.live);
    schedule, v := Begins(w, id, verb);
    schedule, v, x := Publishes(w, schedule, v, id, x);
    schedule, v, x := Saves(w, schedule, v, id, x);
    schedule, v, x := Flushes(w, schedule, v, id, x, reply);
    schedule, v, x := Locks(w, schedule, v, id, x);
    schedule, v, x := Attempts(w, schedule, v, id, x);
    schedule, v, x := Attempts(w, schedule, v, id, x);
  }

  /** The store after a close: the record is gone, and its branch left the debt queue or joined it. */
  function Closed(s: Snapshot, id: string, r: Record, conflict: bool): Snapshot {
    var m := Mark(s, id, Closing, None);
    Remove(if conflict then PushDebt(m, r.project, MergeDebt(r.branch, id)) else ClearDebt(m, r.project, r.branch), id)
  }

  /** The merge, and the push or the debt. */
  lemma MergeRuns(w: World, schedule0: seq<Action>, v0: World, id: string, x0: View, conflict: bool)
    returns (schedule: seq<Action>, v: World, x: View)
    requires Sees(w, schedule0, v0, id, x0) && x0.pc.Merging? && x0.verb == Close && !x0.debt
    ensures Sees(w, schedule, v, id, x) && schedule == schedule0 + MergeSteps(id, conflict)
    ensures x == x0.(pc := CloseSave, debt := conflict,
                     mem := if conflict then PushDebt(x0.mem, x0.rec.project, MergeDebt(x0.rec.branch, id)) else x0.mem)
  {
    hide Run, Sees, PushDebt;
    schedule, v, x := Merges(w, schedule0, v0, id, x0, conflict);
    if conflict {
      schedule, v, x := Publishes(w, schedule, v, id, x);
    } else {
      schedule, v, x := Attempts(w, schedule, v, id, x);
      schedule, v, x := Attempts(w, schedule, v, id, x);
    }
  }

  /** From the save before the destroy to the last one. */
  lemma LeaveRuns(w: World, schedule0: seq<Action>, v0: World, id: string, x0: View)
    returns (schedule: seq<Action>, v: World)
    requires Sees(w, schedule0, v0, id, x0) && x0.pc.CloseSave? && x0.verb == Close
    ensures schedule == schedule0 + LeaveSteps(id, x0.debt)
    ensures Ended(w, schedule, v, id, Remove(if x0.debt then x0.mem
                                             else ClearDebt(x0.mem, x0.rec.project, x0.rec.branch), id),
                  x0.live - {x0.rec.Container()})
  {
    hide Run, Sees, Ended, ClearDebt, Remove;
    var x: View;
    schedule, v, x := Saves(w, schedule0, v0, id, x0);
    schedule, v, x := Destroys(w, schedule, v, id, x);
    if !x0.debt { schedule, v, x := Publishes(w, schedule, v, id, x); }
    schedule, v, x := Publishes(w, schedule, v, id, x);
    schedule, v := SavesLast(w, schedule, v, id, x);
  }

  lemma CloseRuns(w: World, id: string, reply: Reply, conflict: bool) returns (schedule: seq<Action>, v: World)
    requires Closable(w, id) && FlushRecord(w.mem.records[id], reply)
    ensures Ended(w, schedule, v, id, Closed(w.mem, id, w.mem.records[id], conflict),
                  w.live - {w.mem.records[id].Container()})
    ensures schedule == CloseSteps(id, reply, conflict)
  {
    hide Run, Sees, Ended, FlushRecord, Mark, Refusal, PushDebt, ClearDebt, Remove, HeadSteps, MergeSteps, LeaveSteps;
    var x: View;
    schedule, v, x := Head(w, id, Close, reply);
    schedule, v, x := MergeRuns(w, schedule, v, id, x, conflict);
    schedule, v := LeaveRuns(w, schedule, v, id, x);
  }

  /** A close in which every answer is good ends with record and container gone, exactly that on disk, and the branch
      out of the debt queue, or at its end when the merge conflicted; nothing of any other session has changed. */
  lemma CloseCompletes(w: World, id: string, reply: Reply, conflict: bool)
    requires Closable(w, id) && FlushRecord(w.mem.records[id], reply)
    ensures var v := Run(w, CloseSteps(id, reply, conflict)); var r := w.mem.records[id];
            && id !in v.tasks && v.mem.records == w.mem.records - {id} && v.disk == {v.mem} && NoMirror(v, id)
            && v.live == w.live - {r.Container()}
            && (conflict ==>
                  DebtsFor(v.mem, r.project)
                  == Without(DebtsFor(w.mem, r.project), r.branch) + [MergeDebt(r.branch, id)])
            && (!conflict ==> DebtsFor(v.mem, r.project) == Without(DebtsFor(w.mem, r.project), r.branch))
            && forall p :: p != r.project ==> DebtsFor(v.mem, p) == DebtsFor(w.mem, p)
  {
    hide Run, FlushRecord, Refusal, HeadSteps, BootSteps, CloseSteps;
    var schedule: seq<Action>;
    var v: World;
    schedule, v := CloseRuns(w, id, reply, conflict);
    assert v.mem.records == w.mem.records - {id};
  }

  lemma BeginsReap(w: World, id: string, expected: Option<nat>, minimum: nat, status: Option<Status>)
    returns (schedule: seq<Action>, v: World)
    requires Workable(w, id) && Reapable(w.mem.records[id], expected, minimum, status)
    ensures Sees(w, schedule, v, id, View(Reap, Marking, w.mem.records[id], false, w.mem, w.live))
    ensures schedule == [BeginReap(id, expected, minimum, status)]
  {
    hide Refusal, IdleRecord;
    var a := BeginReap(id, expected, minimum, status);
    assert Run(w, []) == w;
    RunOne(w, [], a);
    schedule, v := [] + [a], StepBegin(w, a);
  }

  lemma ReapRuns(w: World, id: string, expected: Option<nat>, minimum: nat, status: Option<Status>, reply: Reply)
    returns (schedule: seq<Action>, v: World)
    requires Workable(w, id) && Reapable(w.mem.records[id], expected, minimum, status)
             && FlushRecord(w.mem.records[id], reply)
    ensures Ended(w, schedule, v, id, Remove(Mark(w.mem, id, Closing, None), id),
                  w.live - {w.mem.records[id].Container()})
    ensures schedule == ReapSteps(id, expected, minimum, status, reply)
  {
    hide Run, Sees, Ended, FlushRecord, Mark, Refusal, Remove, Reapable;
    var x := View(Reap, Marking, w.mem.records[id], false, w.mem, w.live);
    schedule, v := BeginsReap(w, id, expected, minimum, status);
    schedule, v, x := Publishes(w, schedule, v, id, x);
    schedule, v, x := Saves(w, schedule, v, id, x);
    schedule, v, x := Flushes(w, schedule, v, id, x, reply);
    schedule, v, x := Destroys(w, schedule, v, id, x);
    schedule, v, x := Publishes(w, schedule, v, id, x);
    schedule, v := SavesLast(w, schedule, v, id, x);
  }

  /** A reap in which every answer is good ends with record and container gone and no debt touched, whoever holds the
      mirror; a branch that is in no debt is then an orphan that the next open may adopt. */
  lemma ReapCompletes(w: World, id: string, expected: Option<nat>, minimum: nat, status: Option<Status>, reply: Reply)
    requires Inv(w) && Workable(w, id) && Reapable(w.mem.records[id], expected, minimum, status)
    requires FlushRecord(w.mem.records[id], reply)
    ensures var v := Run(w, ReapSteps(id, expected, minimum, status, reply)); var r := w.mem.records[id];
            && id !in v.tasks && v.mem.records == w.mem.records - {id} && v.mem.debts == w.mem.debts
            && v.disk == {v.mem} && NoMirror(v, id)
            && v.live == w.live - {r.Container()}
            && (Adoptable(v.mem, r.project, r.branch) <==> !InDebt(w.mem, r.project, r.branch))
  {
    hide Run, FlushRecord, Refusal, Inv, Reapable, HeadSteps, BootSteps, ReapSteps;
    var schedule: seq<Action>;
    var v: World;
    schedule, v := ReapRuns(w, id, expected, minimum, status, reply);
    assert v.mem.records == w.mem.records - {id};
    OnlyOwner(w, id);
    assert InDebt(v.mem, w.mem.records[id].project, w.mem.records[id].branch)
      <==> InDebt(w.mem, w.mem.records[id].project, w.mem.records[id].branch);
  }

  lemma OnlyOwner(w: World, id: string)
    requires Inv(w) && id in w.mem.records
    ensures !Owned(w.mem.(records := w.mem.records - {id}), w.mem.records[id].project, w.mem.records[id].branch)
  {
    hide RecordsOk, DebtsOk, DebtsSeen, UsableLive, LiveNamed;
    InvMem(w);
  }

  /** The IDE layer of a workspace that has just been created: prepared for its generation, not started. */
  function IdeFor(generation: nat, ide: bool): Option<IdeBinding> {
    if ide then Some(IdeBinding(generation, false)) else None
  }

  /** A record that is active, owns its runtime and is what a restart would read. */
  ghost predicate Running(v: World, id: string, c: Container, branch: string) {
    && id in v.mem.records && Usable(v.mem.records[id]) && v.mem.records[id].Container() == c && c in v.live
    && v.mem.records[id].branch == branch && v.mem.records[id].token && v.disk == {v.mem} && id !in v.tasks
  }

  /** The record once the container runs. */
  function Booted(x: View, ide: bool): Record
    requires x.rec.binding.Some?
  {
    Imaged(x, ide).(runtimeOwned := true, lifecycle := Active, error := if x.verb == Recycle then None else x.rec.error)
  }

  /** Only the verb and the record matter for what the record becomes. */
  function AtImage(verb: Verb, r: Record): View { View(verb, ImagePut, r, false, Snapshot(map[], map[]), {}) }

  lemma SameBoot(x: View, ide: bool)
    requires x.rec.binding.Some?
    ensures Booted(x, ide) == Booted(AtImage(x.verb, x.rec), ide)
  {
  }

  lemma ImagedKeeps(x: View, ide: bool)
    requires x.rec.binding.Some?
    ensures var r := Imaged(x, ide);
            && r.Container() == x.rec.Container() && r.binding.Some? && r.id == x.rec.id && r.error == x.rec.error
            && Booted(x, ide) == r.(runtimeOwned := true, lifecycle := Active,
                                    error := if x.verb == Recycle then None else x.rec.error)
  {
  }

  lemma PutTwice(s: Snapshot, a: Record, b: Record)
    requires a.id == b.id
    ensures Put(Put(s, a), b) == Put(s, b)
  {
  }

  /** Image, create, own, boot, active: the common tail of open and recycle. */
  lemma Boots(w: World, schedule0: seq<Action>, v0: World, id: string, x0: View, ide: bool)
    returns (schedule: seq<Action>, v: World)
    requires Sees(w, schedule0, v0, id, x0) && x0.pc.ImagePut? && x0.rec.binding.Some? && x0.rec.id == id
    requires x0.rec.Container() !in x0.live
    ensures Ended(w, schedule, v, id, Put(x0.mem, Booted(x0, ide)), x0.live + {x0.rec.Container()})
    ensures schedule == schedule0 + BootSteps(id, ide)
  {
    hide Run, Sees, Ended, Put, Imaged, Booted;
    ImagedKeeps(x0, ide);
    PutTwice(x0.mem, Imaged(x0, ide), Booted(x0, ide));
    var x: View;
    schedule, v, x := PutsImage(w, schedule0, v0, id, x0, ide);
    schedule, v, x := Saves(w, schedule, v, id, x);
    schedule, v, x := Allocates(w, schedule, v, id, x);
    schedule, v := Activates(w, schedule, v, id, x, Booted(x0, ide));
  }

  /** From the created container to the active record. */
  lemma Activates(w: World, schedule0: seq<Action>, v0: World, id: string, x0: View, r: Record)
    returns (schedule: seq<Action>, v: World)
    requires Sees(w, schedule0, v0, id, x0) && x0.pc.OwnPut? && x0.rec.id == id
    requires r == x0.rec.(runtimeOwned := true, lifecycle := Active, error := if x0.verb == Recycle then None
                                                                              else x0.rec.error)
    ensures Ended(w, schedule, v, id, Put(x0.mem, r), x0.live)
    ensures schedule == schedule0 + BootSteps(id, false)[3..]
  {
    hide Run, Sees, Ended, Put;
    PutTwice(x0.mem, x0.rec.(runtimeOwned := true), r);
    var x: View;
    schedule, v, x := Publishes(w, schedule0, v0, id, x0);
    schedule, v, x := Saves(w, schedule, v, id, x);
    schedule, v, x := Attempts(w, schedule, v, id, x);
    schedule, v, x := Publishes(w, schedule, v, id, x);
    schedule, v := SavesLast(w, schedule, v, id, x);
  }

  lemma ReboundNames(r: Record)
    ensures Rebound(r).Container() == SessionVm(r.id, r.generation + 1) && Rebound(r).binding.Some?
            && Rebound(r).id == r.id
  {
  }

  lemma RecycleRuns(w: World, id: string, reply: Reply, ide: bool) returns (schedule: seq<Action>, v: World, r: Record)
    requires Inv(w) && Closable(w, id) && FlushRecord(w.mem.records[id], reply)
             && w.mem.records[id].generation < MAX_GENERATION
    ensures r == Booted(AtImage(Recycle, Rebound(w.mem.records[id])), ide)
    ensures Ended(w, schedule, v, id, Put(Put(Mark(w.mem, id, Recycling, None), Rebound(w.mem.records[id])), r),
                  w.live - {w.mem.records[id].Container()} + {Rebound(w.mem.records[id]).Container()})
    ensures schedule == RecycleSteps(id, reply, ide)
  {
    hide Run, Sees, Ended, FlushRecord, Mark, Refusal, Inv, Put, Rebound, Imaged, Booted;
    NextIsFree(w, id);
    ReboundNames(w.mem.records[id]);
    var x: View;
    schedule, v, x := Head(w, id, Recycle, reply);
    schedule, v, x := Attempts(w, schedule, v, id, x);
    schedule, v, x := Attempts(w, schedule, v, id, x);
    schedule, v, x := Destroys(w, schedule, v, id, x);
    schedule, v, x := Publishes(w, schedule, v, id, x);
    schedule, v, x := Saves(w, schedule, v, id, x);
    r := Booted(x, ide);
    SameBoot(x, ide);
    schedule, v := Boots(w, schedule, v, id, x, ide);
  }

  /** A recycle replaces the container by the one of the next generation and keeps everything else of the session. */
  lemma RecycleCompletes(w: World, id: string, reply: Reply, ide: bool)
    requires Inv(w) && Closable(w, id) && FlushRecord(w.mem.records[id], reply)
             && w.mem.records[id].generation < MAX_GENERATION
    ensures var v := Run(w, RecycleSteps(id, reply, ide)); var r := w.mem.records[id];
            && Running(v, id, SessionVm(id, r.generation + 1), r.branch) && NoMirror(v, id)
            && v.mem.records[id] == r.(binding := Some(Binding(SessionVm(id, r.generation + 1), r.generation + 1,
                                                               IdeFor(r.generation + 1, ide))),
                                       generation := r.generation + 1, token := true, runtimeOwned := true,
                                       lifecycle := Active, error := None)
            && v.live == w.live - {r.Container()} + {SessionVm(id, r.generation + 1)}
            && v.mem.records.Keys == w.mem.records.Keys && v.mem.debts == w.mem.debts
            && forall other :: other in w.mem.records && other != id ==> v.mem.records[other] == w.mem.records[other]
  {
    hide Run, FlushRecord, Refusal, Inv, HeadSteps, BootSteps, RecycleSteps;
    var schedule: seq<Action>;
    var v: World;
    var r: Record;
    schedule, v, r := RecycleRuns(w, id, reply, ide);
    assert v.mem.records[id] == r;
    assert v.mem.records.Keys == w.mem.records.Keys;
  }

  lemma NextIsFree(w: World, id: string)
    requires Inv(w) && id in w.mem.records
    ensures SessionVm(id, w.mem.records[id].generation + 1) !in w.live
  {
    hide BranchesUnique, DebtsOk, DebtsSeen, UsableLive;
    InvMem(w);
    var r := w.mem.records[id];
    assert RecordOk(id, r);
    assert !Names(w.mem, id, SessionVm(id, r.generation + 1));
  }

  lemma FreshNames(id: string, project: string)
    ensures var r := FreshRecord(id, project);
            r.Container() == SessionVm(id, 1) && r.binding.Some? && r.id == id && r.project == project
  {
  }

  lemma BeginsOpen(w: World, id: string, project: string, allowOrphan: bool) returns (schedule: seq<Action>, v: World)
    requires id !in w.mem.records && id !in w.tasks
    ensures Sees(w, schedule, v, id, View(Open(allowOrphan), OpenWait, FreshRecord(id, project), false, w.mem, w.live))
    ensures v.mirrors == w.mirrors && v.used == w.used && v.seen == w.seen
    ensures schedule == [BeginOpen(id, project, allowOrphan)]
  {
    hide FreshRecord;
    var a := BeginOpen(id, project, allowOrphan);
    assert Run(w, []) == w;
    RunOne(w, [], a);
    schedule, v := [] + [a], StepBegin(w, a);
  }

  /** What the open finds once its own record is in the store. */
  ghost function FoundBy(w: World, id: string, project: string, allowOrphan: bool, refs: seq<string>): Option<string> {
    if allowOrphan then FindOrphan(Put(w.mem, FreshRecord(id, project)), project, refs) else None
  }

  /** From the mirror to the branch. */
  lemma Chooses(w: World, schedule0: seq<Action>, v0: World, id: string, x0: View, refs: seq<string>)
    returns (schedule: seq<Action>, v: World, x: View)
    requires Sees(w, schedule0, v0, id, x0) && x0.pc.OpenMirror? && x0.verb.Open?
    ensures Sees(w, schedule, v, id, x)
    ensures x == x0.(pc := OpenAdopt(if x0.verb.allowOrphan then FindOrphan(x0.mem, x0.rec.project, refs) else None))
    ensures schedule == schedule0 + [Attempt(id, true)] + if x0.verb.allowOrphan then [Find(id, refs)] else []
  {
    hide Run, Sees, FindOrphan;
    schedule, v, x := Attempts(w, schedule0, v0, id, x0);
    if x0.verb.allowOrphan { schedule, v, x := Finds(w, schedule, v, id, x, refs); }
  }

  lemma AdoptedNames(r: Record, found: Option<string>)
    ensures var a := Adopted(r, found);
            a.Container() == r.Container() && a.binding == r.binding && a.id == r.id && a.project == r.project
  {
  }

  /** An open up to the save of the branch it works on. */
  lemma OpenChooses(w: World, id: string, project: string, allowOrphan: bool, refs: seq<string>)
    returns (schedule: seq<Action>, v: World, x: View)
    requires id !in w.mem.records && id !in w.tasks && id !in w.used && SessionBranch(id) !in w.seen
             && project !in w.mirrors
    requires !allowOrphan ==> DebtsFor(w.mem, project) == []
    ensures Sees(w, schedule, v, id, x)
    ensures var s, found := Put(w.mem, FreshRecord(id, project)), FoundBy(w, id, project, allowOrphan, refs);
            x == View(Open(allowOrphan), OpenImage, Adopted(FreshRecord(id, project), found), false,
                      Put(s, Adopted(FreshRecord(id, project), found)), w.live)
    ensures schedule == [BeginOpen(id, project, allowOrphan), LockMirror(id), Publish(id), Save(id, Saved),
                         Attempt(id, true)]
                        + (if allowOrphan then [Find(id, refs)] else []) + [Publish(id), Save(id, Saved)]
  {
    hide Run, Sees, Put, FreshRecord, SessionBranch, FindOrphan, Adopted;
    FreshNames(id, project);
    x := View(Open(allowOrphan), OpenWait, FreshRecord(id, project), false, w.mem, w.live);
    schedule, v := BeginsOpen(w, id, project, allowOrphan);
    schedule, v, x := Locks(w, schedule, v, id, x);
    schedule, v, x := Publishes(w, schedule, v, id, x);
    schedule, v, x := Saves(w, schedule, v, id, x);
    schedule, v, x := Chooses(w, schedule, v, id, x, refs);
    AdoptedNames(x.rec, x.pc.found);
    schedule, v, x := Publishes(w, schedule, v, id, x);
    schedule, v, x := Saves(w, schedule, v, id, x);
  }

  lemma OpenRuns(w: World, id: string, project: string, allowOrphan: bool, refs: seq<string>, ide: bool)
    returns (schedule: seq<Action>, v: World, r: Record)
    requires id !in w.mem.records && id !in w.tasks && id !in w.used && SessionBranch(id) !in w.seen
             && project !in w.mirrors
    requires (!allowOrphan ==> DebtsFor(w.mem, project) == []) && SessionVm(id, 1) !in w.live
    ensures r == Booted(AtImage(Open(allowOrphan),
                                Adopted(FreshRecord(id, project), FoundBy(w, id, project, allowOrphan, refs))), ide)
    ensures Ended(w, schedule, v, id,
                  Put(Put(Put(w.mem, FreshRecord(id, project)),
                          Adopted(FreshRecord(id, project), FoundBy(w, id, project, allowOrphan, refs))), r),
                  w.live + {SessionVm(id, 1)})
    ensures schedule == OpenSteps(id, project, allowOrphan, refs, ide)
  {
    hide Run, Sees, Ended, Put, FreshRecord, Imaged, Booted, SessionBranch, FindOrphan, Adopted;
    FreshNames(id, project);
    AdoptedNames(FreshRecord(id, project), FoundBy(w, id, project, allowOrphan, refs));
    var x: View;
    schedule, v, x := OpenChooses(w, id, project, allowOrphan, refs);
    schedule, v, x := Attempts(w, schedule, v, id, x);
    r := Booted(x, ide);
    SameBoot(x, ide);
    schedule, v := Boots(w, schedule, v, id, x, ide);
  }

  /** The branch of an opened record: without adoption its own, otherwise the first ref of the mirror that is adoptable,
      or its own if there is none. */
  ghost predicate Branched(s: Snapshot, project: string, id: string, allowOrphan: bool, refs: seq<string>, r: Record) {
    if r.stale then
      allowOrphan && exists k :: 0 <= k < |refs| && refs[k] == r.branch && Free(s, project, id, r.branch)
                                 && forall j :: 0 <= j < k ==> !Free(s, project, id, refs[j])
    else r.branch == SessionBranch(id) && (allowOrphan ==> forall b :: b in refs ==> !Free(s, project, id, b))
  }

  ghost predicate Free(s: Snapshot, project: string, id: string, branch: string) {
    branch != SessionBranch(id) && Adoptable(s, project, branch)
  }

  lemma OwnTaken(s: Snapshot, id: string, project: string, b: string)
    requires id !in s.records
    ensures Adoptable(Put(s, FreshRecord(id, project)), project, b) <==> Free(s, project, id, b)
  {
    var s' := Put(s, FreshRecord(id, project));
    assert s'.records[id].branch == SessionBranch(id) && s'.records[id].project == project;
    assert forall other :: other in s.records ==> s'.records[other] == s.records[other];
    assert InDebt(s', project, b) <==> InDebt(s, project, b);
  }

  lemma BranchedBy(w: World, id: string, project: string, allowOrphan: bool, refs: seq<string>, ide: bool, r: Record)
    requires id !in w.mem.records
    requires r == Booted(AtImage(Open(allowOrphan),
                                 Adopted(FreshRecord(id, project), FoundBy(w, id, project, allowOrphan, refs))), ide)
    ensures Branched(w.mem, project, id, allowOrphan, refs, r)
  {
    hide Put, Adoptable, Free;
    forall b ensures Adoptable(Put(w.mem, FreshRecord(id, project)), project, b) <==> Free(w.mem, project, id, b) {
      OwnTaken(w.mem, id, project, b);
    }
    var found := FoundBy(w, id, project, allowOrphan, refs);
    if found.Some? {
      var k :| FirstAdoptable(Put(w.mem, FreshRecord(id, project)), project, refs, k) && refs[k] == found.value;
    }
  }

  /** An open under a fresh id ends with its own container running. Without adoption it demands that the project has no
      debts and gets its own branch; with adoption, debts are no obstacle and the first adoptable branch is taken. */
  lemma OpenCompletes(w: World, id: string, project: string, allowOrphan: bool, refs: seq<string>, ide: bool)
    requires Inv(w) && id !in w.tasks && id !in w.used && SessionBranch(id) !in w.seen && project !in w.mirrors
    requires !allowOrphan ==> DebtsFor(w.mem, project) == []
    ensures var v := Run(w, OpenSteps(id, project, allowOrphan, refs, ide));
            && id in v.mem.records && Running(v, id, SessionVm(id, 1), v.mem.records[id].branch) && NoMirror(v, id)
            && v.mem.records[id] == Record(id, project, v.mem.records[id].branch, v.mem.records[id].stale, true,
                                           Some(Binding(SessionVm(id, 1), 1, IdeFor(1, ide))), Active, 1, None, true,
                                           false)
            && Branched(w.mem, project, id, allowOrphan, refs, v.mem.records[id])
            && v.live == w.live + {SessionVm(id, 1)}
            && v.mem.records.Keys == w.mem.records.Keys + {id} && v.mem.debts == w.mem.debts
            && forall other :: other in w.mem.records ==> v.mem.records[other] == w.mem.records[other]
  {
    hide Run, Inv, Branched, FindOrphan, HeadSteps, BootSteps, OpenSteps;
    Unknown(w, id);
    var schedule: seq<Action>;
    var v: World;
    var r: Record;
    schedule, v, r := OpenRuns(w, id, project, allowOrphan, refs, ide);
    BranchedBy(w, id, project, allowOrphan, refs, ide, r);
    assert v.mem.records[id] == r;
    assert v.mem.records.Keys == w.mem.records.Keys + {id};
  }

  lemma Unknown(w: World, id: string)
    requires Inv(w) && id !in w.used
    ensures id !in w.mem.records && SessionVm(id, 1) !in w.live
  {
    hide BranchesUnique, DebtsOk, DebtsSeen, UsableLive;
    InvMem(w);
    assert !Names(w.mem, id, SessionVm(id, 1));
  }
}
