/** What a verb that does not reach its end leaves behind (sigiledd/src/sessions.rs, sigiledd/src/reaper.rs): the record
    says that the session failed and why, whatever other sessions do in between; and what a restart and the overview say
    about such sessions. */
module LifecycleFailures {
  import opened Wrappers
  import opened Sessions
  import opened Ide
  import opened LifecycleMachine
  import opened LifecycleInvariant
  import opened LifecycleSteps
  import opened LifecycleSafety
  import Overview

  // ---- whose fault ----

  /** The error that an answer calls for, by what the verb had asked. `taken`: the container's name is in use. */
  ghost function Blamed(t: Task, a: Action, taken: bool): Option<Failure> {
    match a
    case Flush(_, reply) => if t.pc.Flushing? && !WorkSafe(t.rec, reply) then Some(FlushFailed) else None
    case Attempt(_, ok) => if ok then None else Missing(t.pc)
    case Merge(_, result) => if t.pc.Merging? && result.MergeError? then Some(MergeFailed) else None
    case Allocate(_, result) => if t.pc.Create? && (taken || !result.CreateStarted?) then Some(CreateFailed) else None
    case Destroy(_, result) => if t.pc.Destroying? && !result.DestroyDone? then Some(CleanupFailed) else None
    case Save(_, outcome) => if !outcome.Saved? && Demands(t.pc) then Some(PersistFailed) else None
    case _ => None
  }

  /** What was not to be had: a mirror, a branch, an image, a push, the handoff's acceptance, a workspace. */
  function Missing(pc: Pc): Option<Failure> {
    if pc.OpenMirror? || pc.MirrorGet? then Some(MirrorFailed)
    else if pc.Fetching? || pc.Resolving? then Some(FetchFailed)
    else if pc.OpenImage? || pc.RecycleImage? || pc.Boot? then Some(BootFailed)
    else if pc.Pushing? then Some(PushFailed)
    else if pc.Accepting? then Some(PersistFailed)
    else None
  }

  /** The saves without which a verb does not go on. */
  predicate Demands(pc: Pc) {
    || pc.OpenSave? || pc.OpenAdoptSave? || pc.MarkSave? || pc.CloseSave? || pc.RebindSave? || pc.ImageSave?
    || pc.OwnSave? || pc.ActiveSave?
  }

  /** The error with which a verb is refused at once. */
  ghost function Refused(s: Snapshot, r: Record, verb: Verb): Option<Failure> {
    if r.error == Some(LegacyOwnershipAmbiguous)
       || (exists o :: o in s.records && s.records[o].id != r.id && s.records[o].token
                       && s.records[o].Container() == r.Container())
    then Some(LegacyOwnershipAmbiguous)
    else if !(r.runtimeOwned && r.token) then Some(RuntimeNotOwned)
    else if verb.Recycle? && r.generation >= MAX_GENERATION then Some(GenerationExhausted)
    else None
  }

  // ---- what others do meanwhile ----

  /** A step of another session, or a save; not a restart. */
  predicate Elsewhere(a: Action, id: string) { !a.Crash? && (a.BackgroundSave? || a.id != id) }

  ghost predicate SameFor(w: World, w': World, id: string) {
    && (id in w.tasks <==> id in w'.tasks) && (id in w.tasks ==> w'.tasks[id] == w.tasks[id])
    && (id in w.mem.records <==> id in w'.mem.records)
    && (id in w.mem.records ==> w'.mem.records[id] == w.mem.records[id])
  }

  lemma OwnRecord(w: World, id: string)
    requires Inv(w) && id in w.tasks
    ensures w.tasks[id].rec.id == id
  {
    hide SnapshotsOk, MirrorsOk, LogOk, TaskLog, TaskMem, TaskAdopts, TaskLive, TaskSaved;
    Turn(w, id);
  }

  lemma OthersPublish(w: World, o: string, id: string)
    requires o != id && (o in w.tasks ==> w.tasks[o].rec.id == o)
    ensures SameFor(w, StepPublish(w, o), id)
  {
    hide SessionBranch, Without, PushDebt, ClearDebt;
    DebtsOnly(w.mem, o);
  }

  lemma DebtsOnly(s: Snapshot, o: string)
    ensures forall p, d :: PushDebt(s, p, d).records == s.records
    ensures forall p, b :: ClearDebt(s, p, b).records == s.records
  {
  }

  lemma OthersBegin(w: World, a: Action, id: string)
    requires (a.BeginOpen? || a.BeginClose? || a.BeginRecycle? || a.BeginReap? || a.BeginNote?)
             && a.id != id
    ensures SameFor(w, StepBegin(w, a), id)
  {
    hide Refusal, IdleRecord, FreshRecord, BindingSafe;
  }

  lemma OthersPut(w: World, a: Action, id: string)
    requires (a.PutImage? || a.PutNote?) && a.id != id
    requires a.id in w.tasks ==> w.tasks[a.id].rec.id == a.id
    ensures SameFor(w, Step(w, a), id)
  {
  }

  /** Calls and saves touch no record. */
  lemma OthersAsk(w: World, a: Action, id: string)
    requires Elsewhere(a, id)
    requires a.Attempt? || a.Find? || a.Flush? || a.Merge? || a.Allocate? || a.Destroy?
    ensures SameFor(w, Step(w, a), id)
  {
    hide FindOrphan, FlushRecord, Filed, Claimants, Unlocked;
  }

  lemma OthersSave(w: World, a: Action, id: string)
    requires Elsewhere(a, id) && (a.LockMirror? || a.Save? || a.Abandon? || a.BackgroundSave?)
    ensures SameFor(w, Step(w, a), id)
  {
    hide SavedDisk, Unlocked, DebtsFor;
  }

  lemma OthersStep(w: World, a: Action, id: string)
    requires Inv(w) && Elsewhere(a, id)
    ensures SameFor(w, Step(w, a), id)
  {
    hide Inv, SameFor, StepPublish, StepBegin;
    if !a.BackgroundSave? && a.id in w.tasks { OwnRecord(w, a.id); }
    match a {
      case BeginOpen(_, _, _) => OthersBegin(w, a, id);
      case BeginClose(_, _) => OthersBegin(w, a, id);
      case BeginRecycle(_) => OthersBegin(w, a, id);
      case BeginReap(_, _, _, _) => OthersBegin(w, a, id);
      case BeginNote(_) => OthersBegin(w, a, id);
      case PutImage(_, _) => OthersPut(w, a, id);
      case PutNote(_, _, _) => OthersPut(w, a, id);
      case Publish(o) => OthersPublish(w, o, id);
      case LockMirror(_) => OthersSave(w, a, id);
      case Save(_, _) => OthersSave(w, a, id);
      case Abandon(_) => OthersSave(w, a, id);
      case BackgroundSave(_) => OthersSave(w, a, id);
      case _ => OthersAsk(w, a, id);
    }
  }

  /** Any number of steps of others leave a session's record, and the verb at work on it, alone. */
  lemma {:induction false} OthersRun(w: World, more: seq<Action>, id: string)
    requires Inv(w) && forall a :: a in more ==> Elsewhere(a, id)
    ensures Inv(Run(w, more)) && SameFor(w, Run(w, more), id)
  {
    hide Inv, Step;
    if more != [] {
      var n := |more| - 1;
      OthersRun(w, more[..n], id);
      assert more[n] in more;
      OthersStep(Run(w, more[..n]), more[n], id);
      KeepsStep(Run(w, more[..n]), more[n]);
    }
  }

  lemma {:induction false} RunSplit(w: World, a: seq<Action>, b: seq<Action>)
    ensures Run(w, a + b) == Run(Run(w, a), b)
  {
    hide Step;
    if b == [] {
      assert a + b == a;
    } else {
      var n := |b| - 1;
      RunSplit(w, a, b[..n]);
      assert (a + b)[..|a + b| - 1] == a + b[..n];
    }
  }

  lemma RunOnce(w: World, a: Action)
    ensures Run(w, [a]) == Step(w, a)
  {
    hide Step;
    assert [a][..0] == [];
    assert Run(w, []) == w;
  }

  // ---- the record of a failure ----

  /** A verb takes the answer `a`, and later its last two steps; others act in between. */
  function Ending(a: Action, between: seq<Action>, after: seq<Action>, o: SaveOutcome): seq<Action>
    requires !a.BackgroundSave? && !a.Crash?
  {
    [a] + between + [Publish(a.id)] + after + [Save(a.id, o)]
  }

  function FailedWith(r: Record, code: Failure): Record { r.(lifecycle := Lifecycle.Failed, error := Some(code)) }

  /** The verb is over: the record carries the failure and is otherwise what it was, no lock is left, and a good save
      has put exactly that on disk. */
  ghost predicate RecordedAs(w: World, v: World, id: string, code: Failure, o: SaveOutcome) {
    && id in w.mem.records && id in v.mem.records && v.mem.records[id] == FailedWith(w.mem.records[id], code)
    && id !in v.tasks && (forall p :: p in v.mirrors ==> v.mirrors[p] != id)
    && (o.Saved? ==> v.disk == {v.mem})
  }

  /** The answer sends the verb to its failure and touches no record. */
  lemma AnswerFails(w: World, a: Action)
    requires !a.BackgroundSave? && !a.Crash? && a.id in w.tasks && Accused(w, a).Some?
    ensures var w' := Step(w, a);
            && a.id in w'.tasks && w'.tasks[a.id].pc == FailMark(Accused(w, a).value) && w'.mem == w.mem
  {
    hide Filed, Claimants, SavedDisk, FlushRecord, WorkSafe;
    match a
    case Flush(_, reply) => FlushIsSafe(w.tasks[a.id].rec, reply);
    case _ =>
  }

  ghost function Accused(w: World, a: Action): Option<Failure>
    requires !a.BackgroundSave? && !a.Crash? && a.id in w.tasks
  {
    Blamed(w.tasks[a.id], a, w.tasks[a.id].rec.Container() in w.live)
  }

  /** A verb that waits for an answer has its record in the store. */
  lemma OnRecord(w: World, a: Action)
    requires Inv(w) && !a.BackgroundSave? && !a.Crash? && a.id in w.tasks && Accused(w, a).Some?
    ensures a.id in w.mem.records
  {
    hide SnapshotsOk, MirrorsOk, LogOk, TaskLocal, TaskLog, TaskAdopts, TaskLive, TaskSaved, WorkSafe;
    Turn(w, a.id);
  }

  lemma Marks(w: World, id: string, code: Failure)
    requires id in w.tasks && w.tasks[id].pc == FailMark(code) && id in w.mem.records
    ensures var w' := Step(w, Publish(id));
            && w'.mem == w.mem.(records := w.mem.records[id := FailedWith(w.mem.records[id], code)])
            && id in w'.tasks && w'.tasks[id].pc == FailSave
  {
  }

  lemma Leaves(w: World, id: string, o: SaveOutcome)
    requires id in w.tasks && w.tasks[id].pc == FailSave
    ensures var w' := Step(w, Save(id, o));
            && w'.mem == w.mem && id !in w'.tasks && (forall p :: p in w'.mirrors ==> w'.mirrors[p] != id)
            && (o.Saved? ==> w'.disk == {w'.mem})
  {
  }

  lemma EndingParts(w: World, a: Action, between: seq<Action>, after: seq<Action>, o: SaveOutcome)
    requires !a.BackgroundSave? && !a.Crash?
    ensures var w3 := Step(Run(Step(w, a), between), Publish(a.id));
            Run(w, Ending(a, between, after, o)) == Step(Run(w3, after), Save(a.id, o))
  {
    hide Step;
    RunSplit(w, [a] + between + [Publish(a.id)] + after, [Save(a.id, o)]);
    RunSplit(w, [a] + between + [Publish(a.id)], after);
    RunSplit(w, [a] + between, [Publish(a.id)]);
    RunSplit(w, [a], between);
    RunOnce(w, a);
    RunOnce(Run(Step(w, a), between), Publish(a.id));
    RunOnce(Run(Step(Run(Step(w, a), between), Publish(a.id)), after), Save(a.id, o));
  }

  /** From the failing answer on. */
  lemma Fails(w: World, a: Action, code: Failure, between: seq<Action>, after: seq<Action>, o: SaveOutcome)
    requires Inv(w) && !a.BackgroundSave? && !a.Crash?
    requires var w' := Step(w, a);
             && a.id in w.mem.records && a.id in w'.tasks && w'.tasks[a.id].pc == FailMark(code) && w'.mem == w.mem
    requires forall b :: b in between + after ==> Elsewhere(b, a.id)
    ensures RecordedAs(w, Run(w, Ending(a, between, after, o)), a.id, code, o)
    ensures between == [] && after == [] ==>
              Run(w, Ending(a, between, after, o)).mem
              == w.mem.(records := w.mem.records[a.id := FailedWith(w.mem.records[a.id], code)])
  {
    hide Inv, Step, Run;
    var w1 := Step(w, a);
    KeepsStep(w, a);
    Parts(between, after, a.id);
    OthersRun(w1, between, a.id);
    var w2 := Run(w1, between);
    Marks(w2, a.id, code);
    KeepsStep(w2, Publish(a.id));
    var w3 := Step(w2, Publish(a.id));
    OthersRun(w3, after, a.id);
    Leaves(Run(w3, after), a.id, o);
    EndingParts(w, a, between, after, o);
    Nothing(w1);
    Nothing(w3);
  }

  lemma Nothing(w: World)
    ensures Run(w, []) == w
  {
  }

  lemma Parts(between: seq<Action>, after: seq<Action>, id: string)
    requires forall b :: b in between + after ==> Elsewhere(b, id)
    ensures forall b :: b in between ==> Elsewhere(b, id)
    ensures forall b :: b in after ==> Elsewhere(b, id)
  {
    hide Elsewhere;
    forall b | b in between || b in after ensures Elsewhere(b, id) { assert b in between + after; }
  }

  /** In every reachable state: whatever answer makes a verb fail, once the verb has taken its last two steps the record
      is marked failed with exactly the error of that answer, and nothing else of it has changed; a good save has put it
      on disk. Steps of others come in between and touch neither; without any, no other record and no debt changed. */
  lemma FailureIsRecorded(w0: World, s: Snapshot, schedule: seq<Action>, a: Action, between: seq<Action>,
                          after: seq<Action>, o: SaveOutcome)
    requires Booted(w0, s) && !a.BackgroundSave? && !a.Crash? && a.id in Run(w0, schedule).tasks
    requires Accused(Run(w0, schedule), a).Some?
    requires forall b :: b in between + after ==> Elsewhere(b, a.id)
    ensures var w := Run(w0, schedule); var v := Run(w0, schedule + Ending(a, between, after, o));
            var code := Accused(w, a).value;
            && RecordedAs(w, v, a.id, code, o)
            && (between == [] && after == [] ==>
                  v.mem == w.mem.(records := w.mem.records[a.id := FailedWith(w.mem.records[a.id], code)]))
  {
    hide Inv, Step, Run, Booted, Ending, Accused, Blamed;
    RunInv(w0, s, schedule);
    var w := Run(w0, schedule);
    AnswerFails(w, a);
    OnRecord(w, a);
    Fails(w, a, Accused(w, a).value, between, after, o);
    RunSplit(w0, schedule, Ending(a, between, after, o));
  }

  // ---- refusals at once ----

  /** A close, recycle or reap that its caller's checks let through: the session is known and nobody works on it, no
      handoff is pending, and generation and idleness are what the caller expects. */
  ghost predicate Admitted(w: World, a: Action) {
    && (a.BeginClose? || a.BeginRecycle? || a.BeginReap?) && a.id in w.mem.records && a.id !in w.tasks
    && var r := w.mem.records[a.id];
    && !r.handoffPending
    && (!a.BeginRecycle? && a.expected.Some? ==> a.expected.value == r.generation)
    && (a.BeginReap? && a.expected.Some? ==> r.lifecycle.Active? && (Refused(w.mem, r, Reap).Some? || LongIdle(r, a)))
  }

  /** The workspace is known to have been idle long enough: if its IDE runs, it says so itself, with authority and for
      this generation, and nothing runs in its terminals. */
  ghost predicate LongIdle(r: Record, a: Action)
    requires a.BeginReap?
  {
    if !r.IdeStarted() then a.minimum <= MAX_GENERATION
    else && a.status.Some? && r.binding.value.ide.value.generation == r.generation
         && a.status.value.generation == r.generation && ObservationAuthority(a.status.value)
         && ((a.status.value.busy == Some(true) && a.minimum == 0)
             || (a.status.value.busy == Some(false) && a.minimum <= a.status.value.idleSecs
                 && a.minimum <= MAX_GENERATION))
  }

  function VerbOf(a: Action): Verb
    requires a.BeginClose? || a.BeginRecycle? || a.BeginReap?
  {
    if a.BeginClose? then Close else if a.BeginRecycle? then Recycle else Reap
  }

  lemma RefusedSame(s: Snapshot, r: Record, verb: Verb)
    ensures Refused(s, r, verb)
            == if Refusal(s, r).Some? then Refusal(s, r)
               else if verb == Recycle && r.generation >= MAX_GENERATION then Some(GenerationExhausted) else None
  {
  }

  /** What the first step of a verb does: nothing at all, the refusal, or the start. */
  lemma FirstStep(w: World, a: Action)
    requires (a.BeginClose? || a.BeginRecycle? || a.BeginReap?) && a.id !in w.tasks
    ensures var w' := Step(w, a);
            if !Admitted(w, a) then w' == w
            else && a.id in w'.tasks && w'.mem == w.mem && w'.tasks[a.id].verb == VerbOf(a)
                 && w'.tasks[a.id].rec == w.mem.records[a.id] && w'.disk == w.disk && w'.mirrors == w.mirrors
                 && w'.tasks[a.id].pc == match Refused(w.mem, w.mem.records[a.id], VerbOf(a))
                                         case Some(code) => FailMark(code)
                                         case None => Marking
  {
    hide Refused, Refusal, ObservationAuthority;
    if a.id in w.mem.records { RefusedSame(w.mem, w.mem.records[a.id], VerbOf(a)); }
  }

  /** A verb that is refused at once marks the session failed with the reason; nothing else changes. */
  lemma RefusalIsRecorded(w0: World, s: Snapshot, schedule: seq<Action>, a: Action, between: seq<Action>,
                          after: seq<Action>, o: SaveOutcome)
    requires Booted(w0, s) && Admitted(Run(w0, schedule), a)
    requires Refused(Run(w0, schedule).mem, Run(w0, schedule).mem.records[a.id], VerbOf(a)).Some?
    requires forall b :: b in between + after ==> Elsewhere(b, a.id)
    ensures var w := Run(w0, schedule); var v := Run(w0, schedule + Ending(a, between, after, o));
            var code := Refused(w.mem, w.mem.records[a.id], VerbOf(a)).value;
            && RecordedAs(w, v, a.id, code, o)
            && (between == [] && after == [] ==>
                  v.mem == w.mem.(records := w.mem.records[a.id := FailedWith(w.mem.records[a.id], code)]))
  {
    hide Inv, Step, Run, Booted, Ending, Refused, LongIdle;
    RunInv(w0, s, schedule);
    var w := Run(w0, schedule);
    FirstStep(w, a);
    Fails(w, a, Refused(w.mem, w.mem.records[a.id], VerbOf(a)).value, between, after, o);
    RunSplit(w0, schedule, Ending(a, between, after, o));
  }

  // ---- announced before anything happens ----

  /** Before a verb asks its workspace for anything, the record says in memory and on disk that the session is closing,
      or recycling, without an error. */
  lemma AnnouncedFirst(w0: World, s: Snapshot, schedule: seq<Action>, a: Action, between: seq<Action>,
                       after: seq<Action>)
    requires Booted(w0, s) && Admitted(Run(w0, schedule), a)
    requires Refused(Run(w0, schedule).mem, Run(w0, schedule).mem.records[a.id], VerbOf(a)).None?
    requires forall b :: b in between + after ==> Elsewhere(b, a.id)
    ensures var w := Run(w0, schedule); var v := Run(w0, schedule + Ending(a, between, after, Saved));
            && a.id in v.mem.records && v.disk == {v.mem} && a.id in v.tasks && v.tasks[a.id].pc == Flushing
            && v.mem.records[a.id] == w.mem.records[a.id].(lifecycle := if a.BeginRecycle? then Recycling else Closing,
                                                           error := None)
  {
    hide Inv, Step, Run, Booted, Refused, LongIdle;
    RunInv(w0, s, schedule);
    var w := Run(w0, schedule);
    FirstStep(w, a);
    var w1 := Step(w, a);
    KeepsStep(w, a);
    Parts(between, after, a.id);
    OthersRun(w1, between, a.id);
    var w2 := Run(w1, between);
    Announces(w2, a.id);
    KeepsStep(w2, Publish(a.id));
    var w3 := Step(w2, Publish(a.id));
    OthersRun(w3, after, a.id);
    GoesOn(Run(w3, after), a.id);
    EndingParts(w, a, between, after, Saved);
    RunSplit(w0, schedule, Ending(a, between, after, Saved));
  }

  lemma Announces(w: World, id: string)
    requires id in w.tasks && w.tasks[id].pc == Marking && id in w.mem.records
    ensures var w' := Step(w, Publish(id));
            && id in w'.tasks && w'.tasks[id].pc == MarkSave && id in w'.mem.records
            && w'.mem.records[id] == w.mem.records[id].(lifecycle := if w.tasks[id].verb == Recycle then Recycling
                                                                     else Closing, error := None)
  {
  }

  lemma GoesOn(w: World, id: string)
    requires id in w.tasks && w.tasks[id].pc == MarkSave
    ensures var w' := Step(w, Save(id, Saved));
            && w'.mem == w.mem && w'.disk == {w.mem} && id in w'.tasks && w'.tasks[id].pc == Flushing
  {
  }

  /** An open without adoption that meets a debt of its project is over and has changed nothing. */
  lemma DebtRefusesOpen(w: World, id: string, project: string)
    requires id !in w.tasks && id !in w.mem.records && project !in w.mirrors && DebtsFor(w.mem, project) != []
    ensures var v := Run(w, [BeginOpen(id, project, false), LockMirror(id)]);
            && v.mem == w.mem && v.disk == w.disk && v.live == w.live && v.tasks == w.tasks
            && v.used == w.used && v.seen == w.seen && forall p :: p in v.mirrors ==> v.mirrors[p] != id
  {
    hide Run, Step;
    var a := BeginOpen(id, project, false);
    assert [a] + [LockMirror(id)] == [a, LockMirror(id)];
    RunSplit(w, [a], [LockMirror(id)]);
    RunOnce(w, a);
    RunOnce(Step(w, a), LockMirror(id));
    OpensWaiting(w, id, project);
    MeetsDebt(Step(w, a), id, project);
    assert Step(w, a).tasks - {id} == w.tasks;
  }

  lemma OpensWaiting(w: World, id: string, project: string)
    requires id !in w.tasks && id !in w.mem.records
    ensures var w' := Step(w, BeginOpen(id, project, false));
            w' == w.(tasks := w'.tasks, log := w'.log) && id in w'.tasks && w'.tasks - {id} == w.tasks - {id}
            && w'.tasks[id].verb == Open(false) && w'.tasks[id].pc == OpenWait && w'.tasks[id].rec.project == project
  {
  }

  lemma MeetsDebt(w: World, id: string, project: string)
    requires id in w.tasks && w.tasks[id].verb == Open(false) && w.tasks[id].pc == OpenWait
    requires w.tasks[id].rec.project == project && project !in w.mirrors && DebtsFor(w.mem, project) != []
    ensures var v := Step(w, LockMirror(id));
            v == w.(tasks := w.tasks - {id}, mirrors := v.mirrors) && forall p :: p in v.mirrors ==> v.mirrors[p] != id
  {
  }

  // ---- what the overview shows ----

  /** A session that failed is on the attention list of its project. */
  lemma FailureIsListed(w: World, v: World, id: string, code: Failure, o: SaveOutcome, list: seq<Record>)
    requires RecordedAs(w, v, id, code, o) && Overview.Listing(v.mem, list)
    ensures id in Overview.AttentionOf(v.mem, list, v.mem.records[id].project)
  {
    var r := v.mem.records[id];
    assert r in list && Overview.NeedsAttention(v.mem, r) && r.id == id;
  }

  /** In every reachable state: a session that is not on the attention list has not failed, owns its runtime, and is
      refused by no verb that finds its token; if it is active and bound, its container is live. */
  lemma UnlistedIsUsable(w0: World, s: Snapshot, schedule: seq<Action>, list: seq<Record>, id: string)
    requires Booted(w0, s) && id in Run(w0, schedule).mem.records && Overview.Listing(Run(w0, schedule).mem, list)
    requires id !in Overview.AttentionOf(Run(w0, schedule).mem, list, Run(w0, schedule).mem.records[id].project)
    ensures var w := Run(w0, schedule); var r := w.mem.records[id];
            && !r.lifecycle.Failed? && r.error.None? && r.runtimeOwned
            && (r.token ==> Refused(w.mem, r, Close).None?)
            && (r.lifecycle.Active? && r.binding.Some? ==> r.Container() in w.live)
  {
    hide Run, Booted;
    ContainersAreAlwaysNamed(w0, s, schedule);
    var w := Run(w0, schedule);
    var r := w.mem.records[id];
    assert r in list && r.id == id;
    assert !Overview.NeedsAttention(w.mem, r);
  }
}
