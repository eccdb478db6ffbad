/** Every step of the lifecycle machine keeps the invariant. */
module LifecycleSteps {
  import opened Wrappers
  import opened Sessions
  import opened Ide
  import opened LifecycleMachine
  import opened LifecycleInvariant

  // ---- frames ----

  lemma LogOkGrows(log: seq<Event>, e: Event)
    requires LogOk(log) && !e.Destroyed?
    ensures LogOk(log + [e])
  {
    forall i | 0 <= i < |log| + 1 ensures DestroyedOk(log + [e], i) {
      if i < |log| {
        assert DestroyedOk(log, i);
        assert (log + [e])[..i] == log[..i];
      }
    }
  }

  /** Session `id` may have moved; nothing another lock holder relies on did. */
  ghost predicate Frame(w: World, w': World, id: string) {
    && w'.tasks - {id} == w.tasks - {id}
    && SameOff(w.mem, w'.mem, id)
    && (forall s :: s in w'.disk ==> s in w.disk || s == w.mem)
    && (forall o, g :: o != id ==> (SessionVm(o, g) in w'.live <==> SessionVm(o, g) in w.live))
    && w.log <= w'.log
    && (forall k :: |w.log| <= k < |w'.log| ==> w'.log[k] != Crashed && (w'.log[k].Locked? ==> w'.log[k].id == id))
    && (forall p :: p in w.mirrors && w.mirrors[p] != id ==> p in w'.mirrors && w'.mirrors[p] == w.mirrors[p])
    && w.used <= w'.used && w.seen <= w'.seen
    && (forall p :: p in w.mirrors && w.mirrors[p] != id ==> DebtsFor(w'.mem, p) == DebtsFor(w.mem, p))
    && (id in w'.mem.records ==> Stays(w, w'.mem.records[id], id))
  }

  /** The new record of `id` adds no claim and takes no branch in a project another session has locked. */
  ghost predicate Stays(w: World, r: Record, id: string) {
    && r.id == id
    && (r.token ==> (r.binding.Some? && r.Container() == SessionVm(id, r.generation))
                    || (id in w.mem.records && w.mem.records[id].token
                        && w.mem.records[id].Container() == r.Container()))
    && (r.project in w.mirrors && w.mirrors[r.project] != id ==>
          id in w.mem.records && w.mem.records[id].project == r.project && w.mem.records[id].branch == r.branch)
  }

  ghost predicate SameOff(m: Snapshot, m': Snapshot, id: string) {
    forall o :: o != id ==> (o in m.records <==> o in m'.records) && (o in m.records ==> m'.records[o] == m.records[o])
  }

  lemma OtherTask(w: World, w': World, id: string, o: string)
    requires Inv(w) && Frame(w, w', id) && o != id && o in w'.tasks
    ensures o in w.tasks && w'.tasks[o] == w.tasks[o] && TaskOk(w', o, w'.tasks[o])
  {
    assert o in (w'.tasks - {id}) && (w'.tasks - {id})[o] == w'.tasks[o];
    assert o in (w.tasks - {id}) && (w.tasks - {id})[o] == w.tasks[o];
    var t := w.tasks[o];
    assert TaskOk(w, o, t);
    OtherLog(w, w', id, o, t);
    OtherMem(w, w', id, o, t);
    OtherAdopts(w, w', id, o, t);
  }

  lemma OtherLog(w: World, w': World, id: string, o: string, t: Task)
    requires Frame(w, w', id) && o != id && TaskLog(w.log, o, t)
    ensures TaskLog(w'.log, o, t)
  {
    LogGrows(w.log, w'.log, o, t);
  }

  /** What a task knows from the log stays known while the log grows without its own lock or a crash. */
  lemma LogGrows(log: seq<Event>, log': seq<Event>, id: string, t: Task)
    requires TaskLog(log, id, t) && log <= log'
    requires forall k :: |log| <= k < |log'| ==> log'[k] != Crashed && log'[k] != Locked(id)
    ensures TaskLog(log', id, t)
  {
    if FlushedPc(t.pc) {
      var f :| t.since < f && FlushedAt(log, id, t.rec, f);
      assert FlushedAt(log', id, t.rec, f);
    }
    if FetchedPc(t) {
      var f, h :| t.since < f < h && FlushedAt(log, id, t.rec, f) && FetchedAt(log, id, t.rec.branch, h);
      assert FlushedAt(log', id, t.rec, f) && FetchedAt(log', id, t.rec.branch, h);
    }
  }

  /** A later access of the same task knows no more than the present one. */
  lemma LogMoves(log: seq<Event>, id: string, t: Task, t': Task)
    requires TaskLog(log, id, t) && t'.rec == t.rec && t'.since == t.since
    requires (FlushedPc(t'.pc) ==> FlushedPc(t.pc)) && (FetchedPc(t') ==> FetchedPc(t))
    requires RunningPc(t'.pc) ==> RunningPc(t.pc) || Created(id, t.rec.Container()) in log
    ensures TaskLog(log, id, t')
  {
    hide Section, CreatedIfOwned, FlushedAt, FetchedAt;
  }

  lemma OtherMem(w: World, w': World, id: string, o: string, t: Task)
    requires Frame(w, w', id) && o != id && TaskMem(w.mem, o, t) && TaskLocal(o, t)
    ensures TaskMem(w'.mem, o, t)
  {
    if HeadPc(t.pc) {
      forall x | x in w'.mem.records && x != o && w'.mem.records[x].token
        ensures w'.mem.records[x].Container() != t.rec.Container()
      {
        if x != id {
          assert w'.mem.records[x] == w.mem.records[x];
        }
      }
    }
  }

  lemma OtherAdopts(w: World, w': World, id: string, o: string, t: Task)
    requires Frame(w, w', id) && o != id && TaskAdopts(w.mem, w.seen, t)
             && (MirrorPc(t) ==> HoldsMirror(w.mirrors, o, t))
    ensures TaskAdopts(w'.mem, w'.seen, t)
  {
    if t.pc.OpenAdopt? && t.pc.found.Some? {
      var p, b := t.rec.project, t.pc.found.value;
      forall x | x in w'.mem.records && w'.mem.records[x].project == p ensures w'.mem.records[x].branch != b {
        assert x in w.mem.records && w.mem.records[x].project == p
               && w'.mem.records[x].branch == w.mem.records[x].branch;
        assert !Owned(w.mem, p, b);
      }
      assert forall d :: d in DebtsFor(w'.mem, p) ==> d.branch != b by {
        assert !InDebt(w.mem, p, b);
      }
    }
  }

  /** A snapshot stays good while live containers stay and history grows. */
  lemma SnapshotStays(w: World, w': World, s: Snapshot)
    requires SnapshotOk(w, s) && w'.live == w.live && w.used <= w'.used && w.seen <= w'.seen && w.log <= w'.log
    ensures SnapshotOk(w', s)
  {
  }

  /** Assembling the invariant after a step of session `id`. */
  lemma AssembleAll(w: World, w': World, id: string)
    requires Inv(w) && Frame(w, w', id)
    requires SnapshotsOk(w') && LogOk(w'.log) && MirrorsOk(w')
    requires id in w'.tasks ==> TaskOk(w', id, w'.tasks[id])
    ensures Inv(w')
  {
    forall o | o in w'.tasks ensures TaskOk(w', o, w'.tasks[o]) {
      if o != id {
        OtherTask(w, w', id, o);
      }
    }
  }

  /** The same when no container starts or stops. */
  lemma Assemble(w: World, w': World, id: string)
    requires Inv(w) && Frame(w, w', id) && w'.live == w.live
    requires SnapshotOk(w', w'.mem) && LogOk(w'.log) && MirrorsOk(w')
    requires id in w'.tasks ==> TaskOk(w', id, w'.tasks[id])
    ensures Inv(w')
  {
    hide TaskOk, LogOk, MirrorsOk, TasksOk;
    forall s | s in w'.disk ensures SnapshotOk(w', s) {
      SnapshotStays(w, w', s);
    }
    AssembleAll(w, w', id);
  }

  lemma UnlockedMirrors(w: World, w': World, id: string)
    requires MirrorsOk(w) && w'.mirrors == Unlocked(w.mirrors, id) && w'.tasks - {id} == w.tasks - {id}
    ensures MirrorsOk(w')
  {
    forall p | p in w'.mirrors ensures w'.mirrors[p] in w'.tasks && w'.tasks[w'.mirrors[p]].rec.project == p {
      var o := w.mirrors[p];
      assert o in (w.tasks - {id}) && (w.tasks - {id})[o] == w.tasks[o];
      assert o in (w'.tasks - {id}) && (w'.tasks - {id})[o] == w'.tasks[o];
    }
  }

  lemma KeepsEnd(w: World, id: string)
    requires Inv(w)
    ensures Inv(End(w, id))
  {
    hide SnapshotOk, TaskOk, LogOk, MirrorsOk;
    var w' := End(w, id);
    assert w'.tasks - {id} == w.tasks - {id};
    UnlockedMirrors(w, w', id);
    SnapshotStays(w, w', w.mem);
    if id in w.mem.records { StaysPut(w, id); }
    Assemble(w, w', id);
  }

  lemma StaysPut(w: World, id: string)
    requires SnapshotOk(w, w.mem) && id in w.mem.records
    ensures Stays(w, w.mem.records[id], id)
  {
    assert RecordOk(id, w.mem.records[id]);
  }

  lemma SameMirrors(w: World, w': World, id: string)
    requires MirrorsOk(w) && w'.mirrors == w.mirrors && w'.tasks - {id} == w.tasks - {id}
    requires id in w.tasks ==> id in w'.tasks && w'.tasks[id].rec.project == w.tasks[id].rec.project
    ensures MirrorsOk(w')
  {
    forall p | p in w'.mirrors ensures w'.mirrors[p] in w'.tasks && w'.tasks[w'.mirrors[p]].rec.project == p {
      var o := w.mirrors[p];
      if o != id {
        assert o in (w.tasks - {id}) && (w.tasks - {id})[o] == w.tasks[o];
        assert o in (w'.tasks - {id}) && (w'.tasks - {id})[o] == w'.tasks[o];
      }
    }
  }

  predicate Noted(w: World, w': World) {
    w'.log == w.log ||
    (|w'.log| == |w.log| + 1 && w'.log[..|w.log|] == w.log
     && !w'.log[|w.log|].Destroyed? && !w'.log[|w.log|].Locked? && w'.log[|w.log|] != Crashed)
  }

  /** Moving on, possibly giving up the mirror lock or noting an event, without touching the store. */
  lemma KeepsMove(w: World, w': World, id: string)
    requires Inv(w) && id in w.tasks && id in w'.tasks
    requires w' == w.(tasks := w'.tasks, mirrors := w'.mirrors, seen := w'.seen, log := w'.log)
    requires w'.tasks - {id} == w.tasks - {id} && w'.tasks[id].rec == w.tasks[id].rec
    requires w'.mirrors == w.mirrors || w'.mirrors == Unlocked(w.mirrors, id)
    requires w.seen <= w'.seen && Noted(w, w')
    requires TaskOk(w', id, w'.tasks[id])
    ensures Inv(w')
  {
    hide SnapshotOk, TaskOk;
    if w'.log != w.log {
      LogOkGrows(w.log, w'.log[|w.log|]);
      assert w'.log == w.log + [w'.log[|w.log|]];
    }
    if w'.mirrors == w.mirrors { SameMirrors(w, w', id); } else { UnlockedMirrors(w, w', id); }
    SnapshotStays(w, w', w.mem);
    if id in w.mem.records { StaysPut(w, id); }
    Assemble(w, w', id);
  }

  /** The next access rests on nothing that the present one does not. */
  predicate NoNewDuty(t: Task, t': Task) {
    && t' == t.(pc := t'.pc)
    && (MirrorPc(t') ==> MirrorPc(t))
    && (HeadPc(t'.pc) ==> HeadPc(t.pc))
    && (QuietPc(t'.pc) ==> QuietPc(t.pc))
    && (FlushedPc(t'.pc) ==> FlushedPc(t.pc))
    && (FetchedPc(t') ==> FetchedPc(t))
    && (NoLivePc(t'.pc) ==> NoLivePc(t.pc))
    && (RunningPc(t'.pc) ==> RunningPc(t.pc))
    && (BoundPc(t'.pc) ==> BoundPc(t.pc))
    && !UnpublishedPc(t'.pc) && !t'.pc.Create? && !t'.pc.Rebind? && !t'.pc.MarkSave? && !t'.pc.Noting?
    && !t'.pc.LastSave?
    && (!EndingPc(t'.pc) ==> !EndingPc(t.pc) && !UnpublishedPc(t.pc))
    && (t'.pc.OpenAdopt? ==> t'.pc.found.None?)
  }

  /** A move that adds no duty: only the mirror lock may be given up. */
  lemma TaskMoves(w: World, w': World, id: string, t: Task, t': Task)
    requires TaskOk(w, id, t) && NoNewDuty(t, t')
    requires w'.mem == w.mem && w'.disk == w.disk && w'.live == w.live && w'.log == w.log
    requires w'.mirrors == w.mirrors || !MirrorPc(t')
    ensures TaskOk(w', id, t')
  {
    hide TaskLog;
    LogMoves(w.log, id, t, t');
  }

  lemma KeepsGoto(w: World, id: string, pc: Pc)
    requires Inv(w) && id in w.tasks && NoNewDuty(w.tasks[id], w.tasks[id].(pc := pc))
    ensures Inv(Goto(w, id, pc))
  {
    hide NoNewDuty, TaskOk, SnapshotsOk, MirrorsOk, LogOk;
    var w' := Goto(w, id, pc);
    TaskMoves(w, w', id, w.tasks[id], w'.tasks[id]);
    assert w'.tasks - {id} == w.tasks - {id};
    KeepsMove(w, w', id);
  }

  lemma KeepsFail(w: World, id: string, code: Failure)
    requires Inv(w) && id in w.tasks
    ensures Inv(Fail(w, id, code))
  {
    hide Inv;
    KeepsGoto(w, id, FailMark(code));
  }

  lemma KeepsFetched(w: World, id: string)
    requires Inv(w) && id in w.tasks && w.tasks[id].pc == Fetching
    ensures Inv(StepAttempt(w, id, true))
  {
    hide Inv, TaskOk, SnapshotOk, MirrorsOk, LogOk;
    Turn(w, id);
    var t := w.tasks[id];
    var w' := StepAttempt(w, id, true);
    assert w'.tasks - {id} == w.tasks - {id};
    TaskFetched(w, w', id, t, w'.tasks[id]);
    KeepsMove(w, w', id);
  }

  lemma TaskFetched(w: World, w': World, id: string, t: Task, t': Task)
    requires TaskOk(w, id, t) && t.pc == Fetching && t' == t.(pc := t'.pc) && (t'.pc.Resolving? || t'.pc.Merging?)
    requires w' == w.(log := w.log + [Fetched(id, t.rec.branch)], tasks := w'.tasks)
    ensures TaskOk(w', id, t')
  {
    hide TaskLog;
    FetchedLog(w.log, id, t, t');
  }

  lemma FetchedLog(log: seq<Event>, id: string, t: Task, t': Task)
    requires TaskLog(log, id, t) && FlushedPc(t.pc) && t' == t.(pc := t'.pc) && !RunningPc(t'.pc)
    ensures TaskLog(log + [Fetched(id, t.rec.branch)], id, t')
  {
    var log' := log + [Fetched(id, t.rec.branch)];
    LogGrows(log, log', id, t);
    var f :| t.since < f && FlushedAt(log, id, t.rec, f);
    assert FlushedAt(log', id, t.rec, f) && FetchedAt(log', id, t.rec.branch, |log|);
  }

  lemma KeepsReplied(w: World, id: string, ok: bool)
    requires Inv(w) && id in w.tasks && w.tasks[id].pc == Pushing
    ensures Inv(StepAttempt(w, id, ok))
  {
    hide Inv, TaskOk, SnapshotOk, MirrorsOk, LogOk;
    Turn(w, id);
    var t := w.tasks[id];
    var w' := StepAttempt(w, id, ok);
    assert w'.tasks - {id} == w.tasks - {id};
    TaskReplied(w, w', id, ok, t, w'.tasks[id]);
    KeepsMove(w, w', id);
  }

  lemma TaskReplied(w: World, w': World, id: string, ok: bool, t: Task, t': Task)
    requires TaskOk(w, id, t) && t.pc == Pushing && t' == t.(pc := t'.pc) && (t'.pc.Accepting? || t'.pc.FailMark?)
    requires w' == w.(log := w.log + [Replied(id, t.rec.branch, ok)], tasks := w'.tasks)
    ensures TaskOk(w', id, t')
  {
    hide TaskLog;
    LogGrows(w.log, w'.log, id, t);
    LogMoves(w'.log, id, t, t');
  }

  lemma KeepsImaged(w: World, id: string)
    requires Inv(w) && id in w.tasks && w.tasks[id].pc == OpenImage
    ensures Inv(StepAttempt(w, id, true))
  {
    hide TaskOk, SnapshotsOk, MirrorsOk, LogOk;
    var w' := StepAttempt(w, id, true);
    TaskMoves(w, w', id, w.tasks[id], w'.tasks[id]);
    assert w'.tasks - {id} == w.tasks - {id};
    KeepsMove(w, w', id);
  }

  lemma KeepsAttempt(w: World, id: string, ok: bool)
    requires Inv(w)
    ensures Inv(StepAttempt(w, id, ok))
  {
    hide Inv;
    if id in w.tasks {
      var w' := StepAttempt(w, id, ok);
      if w.tasks[id].pc == Fetching && ok {
        KeepsFetched(w, id);
      } else if w.tasks[id].pc == Pushing {
        KeepsReplied(w, id, ok);
      } else if w.tasks[id].pc == OpenImage && ok {
        KeepsImaged(w, id);
      } else if w' != w {
        if w'.tasks[id].pc.FailMark? {
          KeepsFail(w, id, w'.tasks[id].pc.code);
        } else {
          KeepsGoto(w, id, w'.tasks[id].pc);
        }
      }
    }
  }

  // ---- puts ----

  /** No other session of the project has the branch, and no other session filed a debt on it. */
  ghost predicate BranchFree(s: Snapshot, id: string, r: Record) {
    && (forall o :: o in s.records && o != id && s.records[o].project == r.project ==> s.records[o].branch != r.branch)
    && (forall d :: d in DebtsFor(s, r.project) && d.branch == r.branch ==> d.filedBy == id)
  }

  /** The put keeps the promise about live containers. */
  ghost predicate LiveKept(live: set<Container>, s: Snapshot, id: string, r: Record) {
    && (NoLive(live, id) || Names(s, id, r.Container()))
    && (Usable(r) ==> r.Container() in live)
  }

  lemma PutSnapshot(w: World, w': World, id: string, r: Record)
    requires SnapshotOk(w, w.mem) && w'.mem == Put(w.mem, r) && w'.live == w.live && w'.log == w.log
    requires w.used <= w'.used && w.seen <= w'.seen && id in w'.used && r.branch in w'.seen
    requires RecordOk(id, r) && CreatedIfOwned(w.log, id, r) && BranchFree(w.mem, id, r)
             && LiveKept(w.live, w.mem, id, r)
    ensures SnapshotOk(w', w'.mem)
  {
    var s, s' := w.mem, w'.mem;
    forall p, d, o | p in s'.debts && d in s'.debts[p] && o in s'.records
      ensures s'.records[o].project == p && s'.records[o].branch == d.branch ==> o == d.filedBy
    {
      if o == id { assert p == r.project ==> d in DebtsFor(s, r.project); }
    }
  }

  lemma KeepsPut(w: World, w': World, id: string, r: Record)
    requires Inv(w) && id in w.tasks && id in w'.tasks
    requires w' == w.(mem := Put(w.mem, r), tasks := w'.tasks, used := w'.used, seen := w'.seen)
    requires w'.tasks - {id} == w.tasks - {id} && w'.tasks[id].rec.project == w.tasks[id].rec.project
    requires w.used <= w'.used && w.seen <= w'.seen && id in w'.used && r.branch in w'.seen
    requires RecordOk(id, r) && CreatedIfOwned(w.log, id, r) && BranchFree(w.mem, id, r)
             && LiveKept(w.live, w.mem, id, r)
    requires Stays(w, r, id) && TaskOk(w', id, w'.tasks[id])
    ensures Inv(w')
  {
    hide TaskOk, BranchFree, LiveKept, SnapshotOk;
    PutSnapshot(w, w', id, r);
    SameMirrors(w, w', id);
    Assemble(w, w', id);
  }

  /** A record already in the store keeps its branch. */
  lemma SameBranch(s: Snapshot, id: string, r: Record)
    requires BranchesUnique(s) && DebtsOk(s) && id in s.records && s.records[id].project == r.project
             && s.records[id].branch == r.branch
    ensures BranchFree(s, id, r)
  {
  }

  lemma Turn(w: World, id: string)
    requires Inv(w) && id in w.tasks
    ensures TaskOk(w, id, w.tasks[id]) && SnapshotOk(w, w.mem) && MirrorsOk(w) && LogOk(w.log)
  {
    hide TaskOk, SnapshotOk, MirrorsOk, LogOk;
  }

  /** The accesses right after a put. */
  predicate PutPc(pc: Pc) {
    match pc
    case OpenSave | OpenAdoptSave | RebindSave | ImageSave | OwnSave | ActiveSave | Noting => true
    case _ => false
  }

  /** The local copy that is about to be put may be put. */
  ghost predicate MayPut(w: World, id: string, t: Task, t': Task) {
    && PutPc(t'.pc) && t' == t.(pc := t'.pc, rec := t'.rec) && t'.rec.project == t.rec.project
    && RecordOk(id, t'.rec)
    && CreatedIfOwned(w.log, id, t'.rec)
    && t'.rec.binding.Some?
    && (RunningPc(t'.pc) || t'.pc.Noting? || !t'.rec.runtimeOwned)
    && (RunningPc(t'.pc) ==> RunningPc(t.pc) && t'.rec.Container() == t.rec.Container())
    && (NoLivePc(t'.pc) ==> NoLive(w.live, id))
    && (MirrorPc(t') ==> MirrorPc(t))
  }

  lemma TaskPut(w: World, w': World, id: string, t: Task, t': Task)
    requires TaskOk(w, id, t) && MayPut(w, id, t, t')
    requires w'.mem == Put(w.mem, t'.rec) && w'.log == w.log && w'.live == w.live && w'.mirrors == w.mirrors
    ensures TaskOk(w', id, t')
  {
  }

  lemma KeepsLocalPut(w: World, w': World, id: string)
    requires Inv(w) && id in w.tasks && id in w'.tasks
    requires w' == w.(mem := Put(w.mem, w'.tasks[id].rec), tasks := w.tasks[id := w'.tasks[id]], used := w'.used,
                      seen := w'.seen)
    requires w.used <= w'.used && w.seen <= w'.seen && id in w'.used && w'.tasks[id].rec.branch in w'.seen
    requires MayPut(w, id, w.tasks[id], w'.tasks[id])
    requires BranchFree(w.mem, id, w'.tasks[id].rec) && LiveKept(w.live, w.mem, id, w'.tasks[id].rec)
             && Stays(w, w'.tasks[id].rec, id)
    ensures Inv(w')
  {
    hide TaskOk, BranchFree, LiveKept, SnapshotOk, Stays, Inv;
    Turn(w, id);
    TaskPut(w, w', id, w.tasks[id], w'.tasks[id]);
    assert w'.tasks - {id} == w.tasks - {id};
    KeepsPut(w, w', id, w'.tasks[id].rec);
  }

  lemma KeepsOpenPut(w: World, id: string)
    requires Inv(w) && id in w.tasks && w.tasks[id].pc == OpenPut
    ensures Inv(StepPublish(w, id))
  {
    hide Inv;
    Turn(w, id);
    var t := w.tasks[id];
    var w' := StepPublish(w, id);
    if w' != w {
      assert BranchFree(w.mem, id, t.rec) by {
        forall d | d in DebtsFor(w.mem, t.rec.project) ensures d.branch in w.seen {
        }
      }
      assert NoLive(w.live, id);
      KeepsLocalPut(w, w', id);
    }
  }

  lemma KeepsOpenAdopt(w: World, id: string)
    requires Inv(w) && id in w.tasks && w.tasks[id].pc.OpenAdopt?
    ensures Inv(StepPublish(w, id))
  {
    hide Inv;
    Turn(w, id);
    var t := w.tasks[id];
    var w' := StepPublish(w, id);
    var r := w'.tasks[id].rec;
    assert id in w.used && w.mem.records[id].branch in w.seen;
    assert BranchFree(w.mem, id, r) by {
      if t.pc.found.None? {
        SameBranch(w.mem, id, r);
      } else {
        assert Adoptable(w.mem, r.project, r.branch);
        forall o | o in w.mem.records && w.mem.records[o].project == r.project
          ensures w.mem.records[o].branch != r.branch {
          assert !Owned(w.mem, r.project, r.branch);
        }
        forall d | d in DebtsFor(w.mem, r.project) ensures d.branch != r.branch {
          assert !InDebt(w.mem, r.project, r.branch);
        }
      }
    }
    KeepsLocalPut(w, w', id);
  }

  /** A put that keeps project and branch. */
  lemma KeepsSamePut(w: World, w': World, id: string)
    requires Inv(w) && id in w.tasks && id in w'.tasks
    requires w' == w.(mem := Put(w.mem, w'.tasks[id].rec), tasks := w.tasks[id := w'.tasks[id]])
    requires Agrees(w.mem, id, w.tasks[id].rec) && w'.tasks[id].rec.branch == w.tasks[id].rec.branch
    requires MayPut(w, id, w.tasks[id], w'.tasks[id])
    requires LiveKept(w.live, w.mem, id, w'.tasks[id].rec)
    ensures Inv(w')
  {
    hide Inv, TaskOk;
    Turn(w, id);
    SameBranch(w.mem, id, w'.tasks[id].rec);
    assert id in w.used && w.mem.records[id].branch in w.seen;
    KeepsLocalPut(w, w', id);
  }

  lemma RebindReady(w: World, id: string, t: Task, t': Task)
    requires TaskOk(w, id, t) && t.pc == Rebind && t' == t.(pc := RebindSave, rec := Rebound(t.rec))
    ensures Agrees(w.mem, id, t.rec) && MayPut(w, id, t, t') && LiveKept(w.live, w.mem, id, t'.rec)
  {
    hide TaskAdopts, TaskSaved, TaskLog;
  }

  lemma KeepsRebind(w: World, id: string)
    requires Inv(w) && id in w.tasks && w.tasks[id].pc == Rebind
    ensures Inv(StepPublish(w, id))
  {
    hide Inv, SnapshotOk, MirrorsOk, LogOk, TaskOk, MayPut, LiveKept, Agrees;
    Turn(w, id);
    RebindReady(w, id, w.tasks[id], StepPublish(w, id).tasks[id]);
    KeepsSamePut(w, StepPublish(w, id), id);
  }

  /** The puts that keep project and branch, described without the store. */
  ghost predicate SamePut(t: Task, t': Task) {
    && t' == t.(pc := t'.pc, rec := t'.rec)
    && (if t.pc == OwnPut then t'.pc.OwnSave? && t'.rec == t.rec.(runtimeOwned := true)
        else if t.pc == ActivePut
             then t'.pc.ActiveSave? && t'.rec == t.rec.(lifecycle := t'.rec.lifecycle, error := t'.rec.error)
        else t.pc == ImagePut && t'.pc.ImageSave? && t.rec.binding.Some? && t'.rec.binding.Some?
             && t'.rec == t.rec.(binding := t'.rec.binding, runtimeOwned := false, lifecycle := t'.rec.lifecycle)
             && t'.rec.binding.value == t.rec.binding.value.(ide := t'.rec.binding.value.ide))
  }

  lemma SamePutReady(w: World, id: string, t: Task, t': Task)
    requires TaskOk(w, id, t) && SamePut(t, t')
    ensures Agrees(w.mem, id, t.rec) && MayPut(w, id, t, t') && LiveKept(w.live, w.mem, id, t'.rec)
    ensures t'.rec.branch == t.rec.branch
  {
    hide TaskLog, TaskAdopts, TaskSaved, CreatedIfOwned, LiveKept;
    SamePutLog(w, id, t, t');
    SamePutLive(w, id, t, t');
  }

  lemma SamePutLive(w: World, id: string, t: Task, t': Task)
    requires TaskLive(w.live, id, t) && TaskMem(w.mem, id, t) && SamePut(t, t')
    ensures LiveKept(w.live, w.mem, id, t'.rec)
  {
  }

  lemma SamePutLog(w: World, id: string, t: Task, t': Task)
    requires TaskLog(w.log, id, t) && SamePut(t, t')
    ensures CreatedIfOwned(w.log, id, t'.rec)
  {
    hide Section, FlushedAt, FetchedAt;
  }

  lemma KeepsOwnPut(w: World, id: string)
    requires Inv(w) && id in w.tasks && w.tasks[id].pc == OwnPut
    ensures Inv(StepPublish(w, id))
  {
    hide Inv, SnapshotOk, MirrorsOk, LogOk, TaskOk, MayPut, LiveKept, Agrees;
    Turn(w, id);
    SamePutReady(w, id, w.tasks[id], StepPublish(w, id).tasks[id]);
    KeepsSamePut(w, StepPublish(w, id), id);
  }

  lemma KeepsActivePut(w: World, id: string)
    requires Inv(w) && id in w.tasks && w.tasks[id].pc == ActivePut
    ensures Inv(StepPublish(w, id))
  {
    hide Inv, SnapshotOk, MirrorsOk, LogOk, TaskOk, MayPut, LiveKept, Agrees;
    Turn(w, id);
    SamePutReady(w, id, w.tasks[id], StepPublish(w, id).tasks[id]);
    KeepsSamePut(w, StepPublish(w, id), id);
  }

  lemma KeepsPutImage(w: World, id: string, ide: bool)
    requires Inv(w)
    ensures Inv(StepPutImage(w, id, ide))
  {
    hide Inv, SnapshotOk, MirrorsOk, LogOk, TaskOk, MayPut, LiveKept, Agrees;
    var w' := StepPutImage(w, id, ide);
    if w' != w {
      Turn(w, id);
      SamePutReady(w, id, w.tasks[id], w'.tasks[id]);
      KeepsSamePut(w, w', id);
    }
  }

  /** A holder of the lock rewrites IDE and handoff fields of the record it read. */
  ghost predicate NotePut(t: Task, t': Task) {
    && t.pc.Noting? && t' == t.(rec := t'.rec)
    && t'.rec == t.rec.(binding := t'.rec.binding, handoffPending := t'.rec.handoffPending)
    && (t'.rec.binding == t.rec.binding
        || (t.rec.binding.Some? && t'.rec.binding.Some?
            && t'.rec.binding.value == t.rec.binding.value.(ide := t'.rec.binding.value.ide)))
  }

  lemma NoteReady(w: World, id: string, t: Task, t': Task)
    requires TaskOk(w, id, t) && NotePut(t, t') && LiveNamed(w.live, w.mem) && UsableLive(w.live, w.mem)
    ensures Agrees(w.mem, id, t.rec) && MayPut(w, id, t, t') && LiveKept(w.live, w.mem, id, t'.rec)
    ensures t'.rec.branch == t.rec.branch
  {
  }

  lemma KeepsPutNote(w: World, id: string, started: bool, pending: bool)
    requires Inv(w)
    ensures Inv(StepPutNote(w, id, started, pending))
  {
    hide Inv, RecordsOk, BranchesUnique, DebtsOk, DebtsSeen, LiveNamed, UsableLive, MirrorsOk, LogOk, TaskOk, MayPut,
        LiveKept, Agrees;
    if id in w.tasks && w.tasks[id].pc == Noting {
      Turn(w, id);
      var w' := StepPutNote(w, id, started, pending);
      NoteReady(w, id, w.tasks[id], w'.tasks[id]);
      KeepsSamePut(w, w', id);
    }
  }

  // ---- marks, debts and removal ----

  lemma MarkedTask(w: World, w': World, id: string, t: Task, t': Task)
    requires TaskOk(w, id, t) && id in w.mem.records && t' == t.(pc := t'.pc)
    requires (t.pc.Marking? && t'.pc.MarkSave?) || (t.pc.FailMark? && t'.pc.FailSave?)
    requires id in w'.mem.records && w'.mem.records[id].lifecycle != Active
    requires w'.mem == Put(w.mem,
                           w.mem.records[id].(lifecycle := w'.mem.records[id].lifecycle,
                                              error := w'.mem.records[id].error))
    requires w.mem.records[id].id == id
    requires w'.log == w.log && w'.live == w.live && w'.mirrors == w.mirrors
    ensures TaskOk(w', id, t')
  {
    hide TaskLog;
    LogMoves(w.log, id, t, t');
    if t.pc.Marking? {
      forall o | o in w'.mem.records && o != id && w'.mem.records[o].token
        ensures w'.mem.records[o].Container() != t.rec.Container() {
        assert w'.mem.records[o] == w.mem.records[o];
      }
    }
  }

  lemma KeepsMark(w: World, id: string, lifecycle: Lifecycle, error: Option<Failure>, pc: Pc)
    requires Inv(w) && id in w.tasks && lifecycle != Active && id in w.mem.records
    requires (w.tasks[id].pc.Marking? && pc.MarkSave?) || (w.tasks[id].pc.FailMark? && pc.FailSave?)
    ensures Inv(Goto(w, id, pc).(mem := Mark(w.mem, id, lifecycle, error)))
  {
    hide Inv, TaskOk;
    Turn(w, id);
    var w' := Goto(w, id, pc).(mem := Mark(w.mem, id, lifecycle, error));
    var r := w.mem.records[id].(lifecycle := lifecycle, error := error);
    assert RecordOk(id, w.mem.records[id]);
    MarkedTask(w, w', id, w.tasks[id], w'.tasks[id]);
    SameBranch(w.mem, id, r);
    assert w'.tasks - {id} == w.tasks - {id};
    KeepsPut(w, w', id, r);
  }

  lemma KeepsFailMark(w: World, id: string)
    requires Inv(w) && id in w.tasks && w.tasks[id].pc.FailMark?
    ensures Inv(StepPublish(w, id))
  {
    hide Inv;
    if id in w.mem.records {
      KeepsMark(w, id, Failed, Some(w.tasks[id].pc.code), FailSave);
    } else {
      KeepsGoto(w, id, FailSave);
    }
  }

  lemma KeepsMarking(w: World, id: string)
    requires Inv(w) && id in w.tasks && w.tasks[id].pc.Marking?
    ensures Inv(StepPublish(w, id))
  {
    hide Inv, SnapshotOk;
    Turn(w, id);
    KeepsMark(w, id, if w.tasks[id].verb == Recycle then Recycling else Closing, None, MarkSave);
  }

  lemma DebtSnapshot(w: World, w': World, p: string, q: seq<MergeDebt>)
    requires SnapshotOk(w, w.mem) && w'.live == w.live && w'.log == w.log && w'.used == w.used && w'.seen == w.seen
    requires w'.mem == w.mem.(debts := w.mem.debts[p := q])
    requires forall i, j :: 0 <= i < j < |q| ==> q[i].branch != q[j].branch
    requires forall d :: d in q ==> d.branch in w.seen
    requires forall d, o :: d in q && o in w.mem.records ==>
      w.mem.records[o].project == p && w.mem.records[o].branch == d.branch ==> o == d.filedBy
    ensures SnapshotOk(w', w'.mem)
  {
  }

  /** A queue keeps its order and its distinct branches when a branch is dropped. */
  lemma {:induction false} WithoutDistinct(q: seq<MergeDebt>, branch: string)
    requires forall i, j :: 0 <= i < j < |q| ==> q[i].branch != q[j].branch
    ensures forall i, j :: 0 <= i < j < |Without(q, branch)| ==>
              Without(q, branch)[i].branch != Without(q, branch)[j].branch
  {
    if q != [] {
      WithoutDistinct(q[1..], branch);
      var rest := Without(q[1..], branch);
      forall d | d in rest ensures d.branch != q[0].branch {
        assert d in q[1..];
        var k :| 0 <= k < |q[1..]| && q[1..][k] == d;
        assert q[k + 1] == d;
      }
    }
  }

  lemma KeepsDebts(w: World, id: string, q: seq<MergeDebt>, pc: Pc)
    requires Inv(w) && id in w.tasks && MirrorPc(w.tasks[id]) && NoNewDuty(w.tasks[id], w.tasks[id].(pc := pc))
    requires pc.CloseSave? || pc.Removing?
    requires forall i, j :: 0 <= i < j < |q| ==> q[i].branch != q[j].branch
    requires forall d :: d in q ==> d.branch in w.seen
    requires forall d, o :: d in q && o in w.mem.records ==>
      w.mem.records[o].project == w.tasks[id].rec.project && w.mem.records[o].branch == d.branch ==> o == d.filedBy
    ensures Inv(Goto(w, id, pc).(mem := w.mem.(debts := w.mem.debts[w.tasks[id].rec.project := q])))
  {
    hide Inv, SnapshotOk, NoNewDuty, MirrorsOk, LogOk, TaskLog, TaskMem, TaskAdopts, TaskLive, TaskSaved, TaskLocal;
    Turn(w, id);
    var t := w.tasks[id];
    var m := Goto(w, id, pc);
    var w' := m.(mem := w.mem.(debts := w.mem.debts[t.rec.project := q]));
    DebtSnapshot(w, w', t.rec.project, q);
    TaskMoves(w, m, id, t, t.(pc := pc));
    DebtTask(m, w', id);
    assert w'.tasks - {id} == w.tasks - {id};
    if id in w.mem.records { StaysPut(w, id); }
    SameMirrors(w, w', id);
    Assemble(w, w', id);
  }

  lemma DebtTask(m: World, w': World, id: string)
    requires id in m.tasks && TaskOk(m, id, m.tasks[id]) && !(m.tasks[id].pc.OpenAdopt?)
    requires w' == m.(mem := m.mem.(debts := w'.mem.debts))
    ensures TaskOk(w', id, w'.tasks[id])
  {
  }

  lemma KeepsDebtPut(w: World, id: string)
    requires Inv(w) && id in w.tasks && w.tasks[id].pc.DebtPut?
    ensures Inv(StepPublish(w, id))
  {
    hide Inv, MirrorsOk, LogOk;
    Turn(w, id);
    var t := w.tasks[id];
    var queue := DebtsFor(w.mem, t.rec.project);
    WithoutDistinct(queue, t.rec.branch);
    KeepsDebts(w, id, Without(queue, t.rec.branch) + [MergeDebt(t.rec.branch, id)], CloseSave);
  }

  lemma KeepsClearing(w: World, id: string)
    requires Inv(w) && id in w.tasks && w.tasks[id].pc.Clearing?
    ensures Inv(StepPublish(w, id))
  {
    hide Inv, MirrorsOk, LogOk, TaskLog, TaskMem, TaskAdopts, TaskLive, TaskSaved, TaskLocal;
    hide LiveNamed, UsableLive, RecordsOk, BranchesUnique;
    Turn(w, id);
    var t := w.tasks[id];
    if t.rec.project in w.mem.debts {
      var queue := w.mem.debts[t.rec.project];
      WithoutDistinct(queue, t.rec.branch);
      KeepsDebts(w, id, Without(queue, t.rec.branch), Removing);
    } else {
      KeepsGoto(w, id, Removing);
    }
  }

  lemma RemovedSnapshot(w: World, w': World, id: string)
    requires SnapshotOk(w, w.mem) && NoLive(w.live, id) && w' == w.(mem := Remove(w.mem, id), tasks := w'.tasks)
    ensures SnapshotOk(w', w'.mem)
  {
  }

  lemma RemovedTask(w: World, w': World, id: string, t: Task, t': Task)
    requires TaskOk(w, id, t) && t.pc.Removing? && t' == t.(pc := LastSave)
    requires w' == w.(mem := Remove(w.mem, id), tasks := w'.tasks)
    ensures TaskOk(w', id, t')
  {
  }

  lemma KeepsRemoving(w: World, id: string)
    requires Inv(w) && id in w.tasks && w.tasks[id].pc.Removing?
    ensures Inv(StepPublish(w, id))
  {
    hide Inv, SnapshotOk, MirrorsOk, LogOk;
    Turn(w, id);
    var w' := StepPublish(w, id);
    RemovedSnapshot(w, w', id);
    RemovedTask(w, w', id, w.tasks[id], w'.tasks[id]);
    assert w'.tasks - {id} == w.tasks - {id};
    SameMirrors(w, w', id);
    Assemble(w, w', id);
  }

  lemma KeepsPublish(w: World, id: string)
    requires Inv(w)
    ensures Inv(StepPublish(w, id))
  {
    hide Inv;
    if id in w.tasks {
      match w.tasks[id].pc {
        case OpenPut => KeepsOpenPut(w, id);
        case OpenAdopt(_) => KeepsOpenAdopt(w, id);
        case Marking => KeepsMarking(w, id);
        case DebtPut => KeepsDebtPut(w, id);
        case Clearing => KeepsClearing(w, id);
        case Removing => KeepsRemoving(w, id);
        case Rebind => KeepsRebind(w, id);
        case OwnPut => KeepsOwnPut(w, id);
        case ActivePut => KeepsActivePut(w, id);
        case FailMark(_) => KeepsFailMark(w, id);
        case _ =>
      }
    }
  }

  // ---- saves ----

  /** Whatever a save does to the file, what is true of memory becomes true of what a restart loads. */
  lemma KeepsDisk(w: World, o: SaveOutcome)
    requires Inv(w)
    ensures Inv(w.(disk := SavedDisk(w, o)))
  {
    hide TaskLocal, TaskLog, TaskMem, TaskAdopts, TaskLive, HoldsMirror;
    hide RecordsOk, BranchesUnique, DebtsOk, DebtsSeen, LiveNamed, UsableLive;
    var w' := w.(disk := SavedDisk(w, o));
    forall s | s in w'.disk ensures SnapshotOk(w', s) {
      assert s in w.disk || s == w.mem;
      assert SnapshotOk(w, s);
    }
    forall id | id in w'.tasks ensures TaskOk(w', id, w'.tasks[id]) {
      assert TaskOk(w, id, w.tasks[id]);
    }
  }

  /** After a successful save the only snapshot a restart could load is the one in memory. */
  lemma SavedTask(w: World, w': World, id: string, t: Task, t': Task)
    requires TaskOk(w, id, t) && w.disk == {w.mem} && SavePc(t.pc) && t' == t.(pc := t'.pc)
    requires match t.pc
      case OpenSave => t'.pc.OpenMirror?
      case OpenAdoptSave => t'.pc.OpenImage?
      case MarkSave => t'.pc.Flushing?
      case CloseSave => t'.pc.Destroying?
      case RebindSave => t'.pc.ImagePut?
      case ImageSave => t'.pc.Create?
      case OwnSave => t'.pc.Boot?
      case _ => false
    requires w' == w.(tasks := w'.tasks, mirrors := w'.mirrors) && (w'.mirrors == w.mirrors || t'.pc.ImagePut?)
    ensures TaskOk(w', id, t')
  {
    hide TaskLog;
    LogMoves(w.log, id, t, t');
  }

  lemma KeepsAfterSave(w: World, id: string)
    requires Inv(w) && id in w.tasks && w.disk == {w.mem} && SavePc(w.tasks[id].pc)
    ensures Inv(AfterSave(w, id))
  {
    hide Inv, TaskOk, SnapshotOk, MirrorsOk, LogOk;
    var w' := AfterSave(w, id);
    if w' == End(w, id) {
      KeepsEnd(w, id);
    } else {
      Turn(w, id);
      SavedTask(w, w', id, w.tasks[id], w'.tasks[id]);
      assert w'.tasks - {id} == w.tasks - {id};
      KeepsMove(w, w', id);
    }
  }

  lemma KeepsSave(w: World, id: string, o: SaveOutcome)
    requires Inv(w)
    ensures Inv(StepSave(w, id, o))
  {
    hide Inv;
    if id in w.tasks && SavePc(w.tasks[id].pc) {
      var s := w.(disk := SavedDisk(w, o));
      KeepsDisk(w, o);
      if w.tasks[id].pc.LastSave? || w.tasks[id].pc.FailSave? {
        KeepsEnd(s, id);
      } else if o == Saved {
        KeepsAfterSave(s, id);
      } else {
        KeepsFail(s, id, PersistFailed);
      }
    }
  }

  // ---- locks, replies and containers ----

  /** A session that takes its lock reads the record in the store. */
  lemma KeepsEnter(w: World, id: string, verb: Verb, pc: Pc, r: Record)
    requires Inv(w) && id !in w.tasks
    requires TaskOk(Enter(w, id, verb, pc, r), id, Enter(w, id, verb, pc, r).tasks[id])
    ensures Inv(Enter(w, id, verb, pc, r))
  {
    hide SnapshotOk, TaskOk;
    var w' := Enter(w, id, verb, pc, r);
    LogOkGrows(w.log, Locked(id));
    assert w'.tasks - {id} == w.tasks - {id};
    SameMirrors(w, w', id);
    SnapshotStays(w, w', w.mem);
    if id in w.mem.records { StaysPut(w, id); }
    Assemble(w, w', id);
  }

  lemma EnterTask(w: World, id: string, verb: Verb, pc: Pc, r: Record)
    requires SnapshotOk(w, w.mem) && id in w.mem.records && w.mem.records[id] == r
    requires pc.FailMark?
          || (pc.Noting? && Usable(r))
          || (pc.Marking? && (verb.Close? || verb.Recycle? || verb.Reap?) && Refusal(w.mem, r).None?
              && (verb.Recycle? ==> r.generation < MAX_GENERATION))
    ensures TaskOk(Enter(w, id, verb, pc, r), id, Enter(w, id, verb, pc, r).tasks[id])
  {
    hide SnapshotOk, ClaimsFree, Refusal, CreatedIfOwned, TaskLog;
    var w' := Enter(w, id, verb, pc, r);
    RecordHere(w, id);
    EnterLog(w.log, id, verb, pc, r);
    if pc.Marking? { Unclaimed(w.mem, id, r); }
  }

  lemma RecordHere(w: World, id: string)
    requires SnapshotOk(w, w.mem) && id in w.mem.records
    ensures RecordOk(id, w.mem.records[id]) && CreatedIfOwned(w.log, id, w.mem.records[id])
    ensures forall o :: o in w.mem.records ==> RecordOk(o, w.mem.records[o])
  {
    hide LiveNamed, UsableLive, BranchesUnique, DebtsOk, DebtsSeen;
  }

  lemma EnterLog(log: seq<Event>, id: string, verb: Verb, pc: Pc, r: Record)
    requires CreatedIfOwned(log, id, r) && !FlushedPc(pc) && !RunningPc(pc)
    ensures TaskLog(log + [Locked(id)], id, Task(verb, pc, r, |log|, false))
  {
  }

  lemma Unclaimed(s: Snapshot, id: string, r: Record)
    requires id in s.records && s.records[id] == r && (forall o :: o in s.records ==> RecordOk(o, s.records[o]))
    requires Refusal(s, r).None?
    ensures ClaimsFree(s, id, r) && r.runtimeOwned && r.token
  {
    assert ClaimFree(s, r);
    forall o | o in s.records && o != id && s.records[o].token ensures s.records[o].Container() != r.Container() {
      assert s.records[o].id == o;
    }
  }

  lemma EnterOpenTask(w: World, id: string, project: string, allowOrphan: bool)
    requires id !in w.mem.records
    ensures var w' := Enter(w, id, Open(allowOrphan), OpenWait, FreshRecord(id, project)); TaskOk(w', id, w'.tasks[id])
  {
  }

  lemma InvMem(w: World)
    requires Inv(w)
    ensures SnapshotOk(w, w.mem)
  {
  }

  lemma KeepsBegin(w: World, a: Action)
    requires Inv(w) && (a.BeginOpen? || a.BeginClose? || a.BeginRecycle? || a.BeginReap? || a.BeginNote?)
    ensures Inv(StepBegin(w, a))
  {
    hide Inv, SnapshotOk, TaskOk;
    var w' := StepBegin(w, a);
    var id := a.id;
    InvMem(w);
    if id !in w.tasks && id in w'.tasks {
      var t := w'.tasks[id];
      if a.BeginOpen? {
        EnterOpenTask(w, id, a.project, a.allowOrphan);
      } else {
        EnterTask(w, id, t.verb, t.pc, t.rec);
      }
      KeepsEnter(w, id, t.verb, t.pc, t.rec);
    }
  }

  lemma LockedTask(w: World, w': World, id: string, t: Task, t': Task)
    requires TaskOk(w, id, t) && t' == t.(pc := t'.pc)
    requires (t.pc.OpenWait? && t'.pc.OpenPut?) || (t.pc.MirrorWait? && t'.pc.MirrorGet?)
    requires w' == w.(tasks := w'.tasks, mirrors := w.mirrors[t.rec.project := id])
    ensures TaskOk(w', id, t')
  {
  }

  lemma LockedMirrors(w: World, w': World, id: string)
    requires MirrorsOk(w) && id in w.tasks && id in w'.tasks && w'.tasks == w.tasks[id := w'.tasks[id]]
    requires w'.tasks[id].rec == w.tasks[id].rec && w'.mirrors == w.mirrors[w.tasks[id].rec.project := id]
    ensures MirrorsOk(w')
  {
  }

  lemma KeepsLockMirror(w: World, id: string)
    requires Inv(w)
    ensures Inv(StepLockMirror(w, id))
  {
    hide Inv, SnapshotOk, TaskOk, LogOk, MirrorsOk;
    var w' := StepLockMirror(w, id);
    if w' == End(w, id) {
      KeepsEnd(w, id);
    } else if w' != w {
      Turn(w, id);
      LockedTask(w, w', id, w.tasks[id], w'.tasks[id]);
      LockedMirrors(w, w', id);
      assert w'.tasks - {id} == w.tasks - {id};
      SnapshotStays(w, w', w.mem);
      if id in w.mem.records { StaysPut(w, id); }
      Assemble(w, w', id);
    }
  }

  lemma FoundTask(w: World, w': World, id: string, refs: seq<string>, t: Task, t': Task)
    requires TaskOk(w, id, t) && t.pc.OpenFind? && t' == t.(pc := OpenAdopt(FindOrphan(w.mem, t.rec.project, refs)))
    requires w' == w.(tasks := w'.tasks, seen := w.seen + set b | b in refs)
    ensures TaskOk(w', id, t')
  {
    if t'.pc.found.Some? {
      var k :| FirstAdoptable(w.mem, t.rec.project, refs, k) && refs[k] == t'.pc.found.value;
    }
  }

  lemma KeepsFind(w: World, id: string, refs: seq<string>)
    requires Inv(w)
    ensures Inv(StepFind(w, id, refs))
  {
    hide Inv, SnapshotOk, TaskOk, LogOk, MirrorsOk;
    var w' := StepFind(w, id, refs);
    if w' != w {
      Turn(w, id);
      FoundTask(w, w', id, refs, w.tasks[id], w'.tasks[id]);
      assert w'.tasks - {id} == w.tasks - {id};
      KeepsMove(w, w', id);
    }
  }

  /** The reply that lets a flush pass is the reply that makes the work safe. */
  lemma FlushIsSafe(r: Record, reply: Reply)
    ensures FlushRecord(r, reply) <==> WorkSafe(r, reply)
  {
  }

  lemma FlushedTask(w: World, w': World, id: string, reply: Reply, t: Task, t': Task)
    requires TaskOk(w, id, t) && t.pc.Flushing? && FlushRecord(t.rec, reply)
    requires t' == t.(pc := if t.verb == Reap then Destroying else MirrorWait)
    requires w' == w.(tasks := w'.tasks, log := w.log + [Flushed(id, t.rec, reply)])
    ensures TaskOk(w', id, t')
  {
    hide TaskLog, FlushRecord;
    FlushedLog(w.log, id, reply, t, t');
  }

  lemma FlushedLog(log: seq<Event>, id: string, reply: Reply, t: Task, t': Task)
    requires TaskLog(log, id, t) && FlushRecord(t.rec, reply) && t' == t.(pc := t'.pc) && !RunningPc(t'.pc)
    requires FetchedPc(t') ==> FetchedPc(t)
    ensures TaskLog(log + [Flushed(id, t.rec, reply)], id, t')
  {
    var log' := log + [Flushed(id, t.rec, reply)];
    LogGrows(log, log', id, t);
    FlushIsSafe(t.rec, reply);
    assert FlushedAt(log', id, t.rec, |log|);
  }

  lemma KeepsFlush(w: World, id: string, reply: Reply)
    requires Inv(w)
    ensures Inv(StepFlush(w, id, reply))
  {
    hide Inv, SnapshotOk, TaskOk, LogOk, MirrorsOk, FlushRecord;
    var w' := StepFlush(w, id, reply);
    if w' != w {
      Turn(w, id);
      if w'.tasks[id].pc.FailMark? {
        KeepsFail(w, id, FlushFailed);
      } else {
        FlushedTask(w, w', id, reply, w.tasks[id], w'.tasks[id]);
        assert w'.tasks - {id} == w.tasks - {id};
        KeepsMove(w, w', id);
      }
    }
  }

  lemma MergedTask(w: World, w': World, id: string, t: Task, t': Task)
    requires TaskOk(w, id, t) && t.pc.Merging? && t' == t.(pc := DebtPut, debt := true)
    requires w' == w.(tasks := w'.tasks)
    ensures TaskOk(w', id, t')
  {
  }

  lemma KeepsMerge(w: World, id: string, result: MergeResult)
    requires Inv(w)
    ensures Inv(StepMerge(w, id, result))
  {
    hide Inv, SnapshotOk, TaskOk, LogOk, MirrorsOk;
    var w' := StepMerge(w, id, result);
    if w' != w {
      Turn(w, id);
      match result {
        case MergedIn => KeepsGoto(w, id, Pushing);
        case Conflict =>
          MergedTask(w, w', id, w.tasks[id], w'.tasks[id]);
          assert w'.tasks - {id} == w.tasks - {id};
          KeepsMove(w, w', id);
        case MergeError => KeepsFail(w, id, MergeFailed);
      }
    }
  }

  lemma StartedSnapshot(w: World, w': World, id: string, c: Container, s: Snapshot)
    requires SnapshotOk(w, s) && Names(s, id, c) && c.SessionVm? && c.id == id
    requires w' == w.(live := w.live + {c}, tasks := w'.tasks, log := w'.log) && w.log <= w'.log
    ensures SnapshotOk(w', s)
  {
  }

  lemma AllocatedTask(w: World, w': World, id: string, t: Task, t': Task)
    requires TaskOk(w, id, t) && t.pc.Create? && t' == t.(pc := t'.pc)
    requires w' == w.(live := w.live + {t.rec.Container()}, tasks := w'.tasks, log := w'.log)
    requires (t'.pc.FailMark? && w'.log == w.log)
             || (t'.pc.OwnPut? && w'.log == w.log + [Created(id, t.rec.Container())])
    ensures TaskOk(w', id, t')
  {
    hide TaskLog;
    LogGrows(w.log, w'.log, id, t);
    if t'.pc.OwnPut? { assert w'.log[|w.log|] == Created(id, t.rec.Container()); }
    LogMoves(w'.log, id, t, t');
  }

  lemma KeepsAllocate(w: World, id: string, result: CreateResult)
    requires Inv(w)
    ensures Inv(StepAllocate(w, id, result))
  {
    hide SnapshotOk, TaskOk, LogOk, MirrorsOk;
    var w' := StepAllocate(w, id, result);
    if id in w.tasks && w.tasks[id].pc.Create? {
      var t := w.tasks[id];
      if w'.live == w.live {
        KeepsFail(w, id, CreateFailed);
      } else {
        Turn(w, id);
        AllocatedBoth(w, w', id, t, w'.tasks[id]);
      }
    }
  }

  lemma AllocatedBoth(w: World, w': World, id: string, t: Task, t': Task)
    requires Inv(w) && id in w.tasks && t == w.tasks[id] && TaskOk(w, id, t) && t.pc.Create? && t' == t.(pc := t'.pc)
    requires w' == w.(live := w.live + {t.rec.Container()}, tasks := w.tasks[id := t'], log := w'.log)
    requires (t'.pc.FailMark? && w'.log == w.log)
             || (t'.pc.OwnPut? && w'.log == w.log + [Created(id, t.rec.Container())])
    ensures Inv(w')
  {
    hide SnapshotOk, LogOk, MirrorsOk, TaskLog, TaskMem, TaskAdopts, TaskLive, HoldsMirror;
    var c := t.rec.Container();
    forall s | s in w'.disk || s == w'.mem ensures SnapshotOk(w', s) {
      StartedSnapshot(w, w', id, c, s);
    }
    AllocatedTask(w, w', id, t, t');
    if w'.log != w.log { LogOkGrows(w.log, Created(id, c)); }
    assert w'.tasks - {id} == w.tasks - {id};
    SameMirrors(w, w', id);
    if id in w.mem.records { StaysPut(w, id); }
    AssembleAll(w, w', id);
  }

  // ---- the destroy ----

  lemma StoppedSnapshot(w: World, w': World, id: string, c: Container, s: Snapshot)
    requires SnapshotOk(w, s) && QuietIn(s, id) && (c.SessionVm? ==> c.id == id)
    requires w' == w.(live := w'.live, tasks := w'.tasks, log := w'.log) && w.log <= w'.log
    requires w'.live == w.live || w'.live == w.live - {c}
    ensures SnapshotOk(w', s)
  {
  }

  /** The event of a destroy is justified by what the log already shows. */
  lemma DestroyLogged(w: World, id: string, t: Task)
    requires LogOk(w.log) && TaskOk(w, id, t) && t.pc.Destroying?
    ensures LogOk(w.log + [Destroyed(id, t.verb, t.rec, Claimants(w.mem, id, t.rec.Container()), Filed(w, t.rec))])
  {
    var e := Destroyed(id, t.verb, t.rec, Claimants(w.mem, id, t.rec.Container()), Filed(w, t.rec));
    var log' := w.log + [e];
    forall i | 0 <= i < |log'| ensures DestroyedOk(log', i) {
      if i < |w.log| {
        assert DestroyedOk(w.log, i);
        assert log'[..i] == w.log[..i];
      } else {
        assert log'[..i] == w.log;
        assert e.others == {};
        JustifiedNow(w.log, id, t);
      }
    }
  }

  lemma JustifiedNow(log: seq<Event>, id: string, t: Task)
    requires TaskLog(log, id, t) && TaskLocal(id, t) && t.pc.Destroying?
    ensures Justified(log, id, t.verb, t.rec, t.since)
  {
    if t.verb == Reap {
      var f :| t.since < f && FlushedAt(log, id, t.rec, f);
      assert t.verb != Reap ==> exists h :: f < h && FetchedAt(log, id, t.rec.branch, h);
    } else {
      var f, h :| t.since < f < h && FlushedAt(log, id, t.rec, f) && FetchedAt(log, id, t.rec.branch, h);
    }
  }

  /** A destroyed container was the only one of its session. */
  lemma DestroyedTask(w: World, w': World, id: string, t: Task, t': Task)
    requires TaskOk(w, id, t) && t.pc.Destroying? && t' == t.(pc := t'.pc) && LiveNamed(w.live, w.mem)
    requires w' == w.(live := w'.live, tasks := w'.tasks, log := w'.log) && w.log <= w'.log
    requires forall k :: |w.log| <= k < |w'.log| ==> w'.log[k] != Crashed && w'.log[k] != Locked(id)
    requires t'.pc.FailMark? || (w'.live == w.live - {t.rec.Container()} &&
      (if t.verb.Recycle? then t'.pc.Rebind? else if t.verb.Close? && !t.debt then t'.pc.Clearing?
                                                  else t'.pc.Removing?))
    ensures TaskOk(w', id, t')
  {
    hide TaskLog;
    LogGrows(w.log, w'.log, id, t);
    LogMoves(w'.log, id, t, t');
    if !t'.pc.FailMark? {
      forall g | SessionVm(id, g) in w.live ensures SessionVm(id, g) == t.rec.Container() {
        assert Names(w.mem, id, SessionVm(id, g));
      }
    }
  }

  lemma KeepsDestroyed(w: World, w': World, id: string, t: Task, t': Task)
    requires Inv(w) && id in w.tasks && t == w.tasks[id] && TaskOk(w, id, t) && t.pc.Destroying? && TaskOk(w', id, t')
             && t'.rec == t.rec
    requires w' == w.(live := w'.live, tasks := w.tasks[id := t'],
                      log := w.log + [Destroyed(id, t.verb, t.rec, Claimants(w.mem, id, t.rec.Container()),
                                                Filed(w, t.rec))])
    requires w'.live == w.live || w'.live == w.live - {t.rec.Container()}
    ensures Inv(w')
  {
    hide SnapshotOk, LogOk, MirrorsOk, TaskLog, TaskMem, TaskAdopts, TaskLive, HoldsMirror;
    DestroyLogged(w, id, t);
    forall s | s in w'.disk || s == w'.mem ensures SnapshotOk(w', s) {
      StoppedSnapshot(w, w', id, t.rec.Container(), s);
    }
    assert w'.tasks - {id} == w.tasks - {id};
    SameMirrors(w, w', id);
    if id in w.mem.records { StaysPut(w, id); }
    AssembleAll(w, w', id);
  }

  lemma KeepsDestroy(w: World, id: string, result: DestroyResult)
    requires Inv(w)
    ensures Inv(StepDestroy(w, id, result))
  {
    hide Inv, TaskOk, LogOk, MirrorsOk, RecordsOk, BranchesUnique, DebtsOk, DebtsSeen, UsableLive;
    var w' := StepDestroy(w, id, result);
    if id in w.tasks && w.tasks[id].pc.Destroying? {
      Turn(w, id);
      DestroyedTask(w, w', id, w.tasks[id], w'.tasks[id]);
      KeepsDestroyed(w, w', id, w.tasks[id], w'.tasks[id]);
    }
  }

  // ---- crash ----

  /** A snapshot with the same records up to lifecycle and error marks, none of them newly usable. */
  ghost predicate SameWork(s: Snapshot, h: Snapshot) {
    && h.debts == s.debts && h.records.Keys == s.records.Keys
    && forall id :: id in s.records ==>
         && h.records[id] == s.records[id].(lifecycle := h.records[id].lifecycle, error := h.records[id].error)
         && (Usable(h.records[id]) ==> Usable(s.records[id]))
  }

  lemma HydratedOne(records: map<string, Record>, id: string)
    requires id in records
    ensures var r := HydratedRecord(records, id);
            r == records[id].(lifecycle := r.lifecycle, error := r.error) && (Usable(r) ==> Usable(records[id]))
  {
    hide Ambiguous;
  }

  lemma HydratedWork(s: Snapshot)
    ensures SameWork(s, Hydrated(s))
  {
    hide HydratedRecord, Usable;
    forall id | id in s.records
      ensures var r := HydratedRecord(s.records, id);
              r == s.records[id].(lifecycle := r.lifecycle, error := r.error) && (Usable(r) ==> Usable(s.records[id]))
    {
      HydratedOne(s.records, id);
    }
  }

  lemma SameWorkNames(live: set<Container>, s: Snapshot, h: Snapshot)
    requires SameWork(s, h) && LiveNamed(live, s) && UsableLive(live, s)
    ensures LiveNamed(live, h) && UsableLive(live, h)
  {
    forall id, g | SessionVm(id, g) in live ensures Names(h, id, SessionVm(id, g)) {
      assert Names(s, id, SessionVm(id, g));
    }
  }

  lemma HydratedSnapshot(w: World, w': World, s: Snapshot)
    requires SnapshotOk(w, s) && w'.live == w.live && w'.used == w.used && w'.seen == w.seen && w.log <= w'.log
    ensures SnapshotOk(w', Hydrated(s))
  {
    hide Hydrated, LiveNamed, UsableLive;
    HydratedWork(s);
    SameWorkNames(w.live, s, Hydrated(s));
  }

  lemma KeepsCrash(w: World, s: Snapshot)
    requires Inv(w)
    ensures Inv(StepCrash(w, s))
  {
    hide SnapshotOk, TaskOk, LogOk;
    if s in w.disk {
      var w' := StepCrash(w, s);
      HydratedSnapshot(w, w', s);
      SnapshotStays(w, w', s);
      LogOkGrows(w.log, Crashed);
    }
  }

  // ---- every schedule ----

  lemma KeepsStep(w: World, a: Action)
    requires Inv(w)
    ensures Inv(Step(w, a))
  {
    hide Inv;
    match a {
      case BeginOpen(_, _, _) => KeepsBegin(w, a);
      case BeginClose(_, _) => KeepsBegin(w, a);
      case BeginRecycle(_) => KeepsBegin(w, a);
      case BeginReap(_, _, _, _) => KeepsBegin(w, a);
      case BeginNote(_) => KeepsBegin(w, a);
      case LockMirror(id) => KeepsLockMirror(w, id);
      case Save(id, o) => KeepsSave(w, id, o);
      case Publish(id) => KeepsPublish(w, id);
      case Attempt(id, ok) => KeepsAttempt(w, id, ok);
      case Find(id, refs) => KeepsFind(w, id, refs);
      case PutImage(id, ide) => KeepsPutImage(w, id, ide);
      case PutNote(id, started, pending) => KeepsPutNote(w, id, started, pending);
      case Flush(id, reply) => KeepsFlush(w, id, reply);
      case Merge(id, result) => KeepsMerge(w, id, result);
      case Allocate(id, result) => KeepsAllocate(w, id, result);
      case Destroy(id, result) => KeepsDestroy(w, id, result);
      case Abandon(id) => KeepsEnd(w, id);
      case BackgroundSave(o) => KeepsDisk(w, o);
      case Crash(s) => KeepsCrash(w, s);
    }
  }
}
