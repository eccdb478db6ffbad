/** What the lifecycle promises in every reachable state, and the invariant that carries it. */
module LifecycleInvariant {
  import opened Sessions
  import opened Ide
  import opened LifecycleMachine

  // ---- what is promised ----

  ghost predicate Names(s: Snapshot, id: string, c: Container) {
    id in s.records && s.records[id].Container() == c
  }

  /** Every live session container is named by the record of its session. */
  ghost predicate LiveNamed(live: set<Container>, s: Snapshot) {
    forall id, g :: SessionVm(id, g) in live ==> Names(s, id, SessionVm(id, g))
  }

  predicate Usable(r: Record) { r.lifecycle == Active && r.runtimeOwned && r.binding.Some? }

  /** An active record that owns its runtime names a live container. */
  ghost predicate UsableLive(live: set<Container>, s: Snapshot) {
    forall id :: id in s.records && Usable(s.records[id]) ==> s.records[id].Container() in live
  }

  /** Two records of one project never have the same branch. */
  ghost predicate BranchesUnique(s: Snapshot) {
    forall i, j :: i in s.records && j in s.records && i != j && s.records[i].project == s.records[j].project
      ==> s.records[i].branch != s.records[j].branch
  }

  /** At most one debt per branch, and only the session that filed it may still own the branch. */
  ghost predicate DebtsOk(s: Snapshot) {
    && (forall p, i, j :: p in s.debts && 0 <= i < j < |s.debts[p]| ==> s.debts[p][i].branch != s.debts[p][j].branch)
    && (forall p, d, id :: p in s.debts && d in s.debts[p] && id in s.records ==>
          s.records[id].project == p && s.records[id].branch == d.branch ==> id == d.filedBy)
  }

  /** The session lock taken at index `since` was not given up before the end of the log. */
  ghost predicate Section(log: seq<Event>, id: string, since: nat) {
    since < |log| && log[since] == Locked(id) && forall k :: since < k < |log| ==>
      log[k] != Locked(id) && log[k] != Crashed
  }

  ghost predicate FlushedAt(log: seq<Event>, id: string, rec: Record, f: int) {
    0 <= f < |log| && log[f].Flushed? && log[f].id == id && log[f].rec == rec && WorkSafe(rec, log[f].reply)
  }

  ghost predicate FetchedAt(log: seq<Event>, id: string, branch: string, h: int) {
    0 <= h < |log| && log[h] == Fetched(id, branch)
  }

  /** What a log must show before `rec`'s container may be destroyed inside the section begun at `since`. */
  ghost predicate Justified(log: seq<Event>, id: string, verb: Verb, rec: Record, since: nat) {
    && Section(log, id, since)
    && rec.runtimeOwned
    && (rec.binding.Some? ==> Created(id, rec.Container()) in log)
    && (exists f :: since < f && FlushedAt(log, id, rec, f)
          && (verb != Reap ==> exists h :: f < h && FetchedAt(log, id, rec.branch, h)))
  }

  ghost predicate DestroyedOk(log: seq<Event>, i: int)
    requires 0 <= i < |log|
  {
    log[i].Destroyed? ==>
      && log[i].others == {}
      && exists since :: Justified(log[..i], log[i].id, log[i].verb, log[i].rec, since)
  }

  ghost predicate LogOk(log: seq<Event>) {
    forall i :: 0 <= i < |log| ==> DestroyedOk(log, i)
  }

  // ---- the invariant ----

  predicate RecordOk(id: string, r: Record) {
    && r.id == id
    && r.generation <= MAX_GENERATION
    && (r.binding.Some? ==> r.token && r.binding.value.generation == r.generation
                            && r.binding.value.container == SessionVm(id, r.generation))
  }

  ghost predicate CreatedIfOwned(log: seq<Event>, id: string, r: Record) {
    r.runtimeOwned && r.binding.Some? ==> Created(id, r.Container()) in log
  }

  ghost predicate RecordsOk(s: Snapshot, used: set<string>, seen: set<string>, log: seq<Event>) {
    forall id :: id in s.records ==>
      RecordOk(id, s.records[id]) && id in used && s.records[id].branch in seen
      && CreatedIfOwned(log, id, s.records[id])
  }

  ghost predicate DebtsSeen(s: Snapshot, seen: set<string>) {
    forall p, d :: p in s.debts && d in s.debts[p] ==> d.branch in seen
  }

  /** What holds of memory and of every snapshot a restart could load. */
  ghost predicate SnapshotOk(w: World, s: Snapshot) {
    && RecordsOk(s, w.used, w.seen, w.log)
    && DebtsSeen(s, w.seen)
    && BranchesUnique(s)
    && DebtsOk(s)
    && LiveNamed(w.live, s)
    && UsableLive(w.live, s)
  }

  ghost predicate MirrorsOk(w: World) {
    forall p :: p in w.mirrors ==> w.mirrors[p] in w.tasks && w.tasks[w.mirrors[p]].rec.project == p
  }

  ghost predicate HoldsMirror(mirrors: map<string, string>, id: string, t: Task) {
    t.rec.project in mirrors && mirrors[t.rec.project] == id
  }

  /** The record in the store is the local copy up to the lifecycle and error marks. */
  ghost predicate Agrees(s: Snapshot, id: string, r: Record) {
    id in s.records && s.records[id].(lifecycle := r.lifecycle, error := r.error) == r
  }

  ghost predicate NoLive(live: set<Container>, id: string) {
    forall g :: SessionVm(id, g) !in live
  }

  ghost predicate QuietIn(s: Snapshot, id: string) {
    id in s.records ==> !Usable(s.records[id])
  }

  ghost predicate Quiet(mem: Snapshot, disk: set<Snapshot>, id: string) {
    QuietIn(mem, id) && forall s :: s in disk ==> QuietIn(s, id)
  }

  ghost predicate Recorded(mem: Snapshot, disk: set<Snapshot>, id: string, c: Container) {
    Names(mem, id, c) && forall s :: s in disk ==> Names(s, id, c)
  }

  ghost predicate ClaimsFree(s: Snapshot, id: string, r: Record) {
    forall other :: other in s.records && other != id && s.records[other].token ==>
      s.records[other].Container() != r.Container()
  }

  /** The accesses made while the merge lock of the project is held. */
  predicate MirrorPc(t: Task) {
    match t.pc
    case OpenPut | OpenSave | OpenMirror | OpenFind | OpenAdopt(_) | OpenAdoptSave | OpenImage => true
    case MirrorGet | Fetching | Merging | DebtPut | Pushing | Accepting | CloseSave | Clearing => true
    case Resolving | RecycleImage | Rebind | RebindSave => true
    case Destroying => t.verb != Reap
    case _ => false
  }

  /** close, recycle and reap up to the destroy. */
  predicate HeadPc(pc: Pc) {
    match pc
    case Marking | MarkSave | Flushing | MirrorWait | MirrorGet | Fetching | Merging | DebtPut | Pushing | Accepting
       | CloseSave | Destroying | Resolving | RecycleImage => true
    case _ => false
  }

  predicate QuietPc(pc: Pc) { HeadPc(pc) && pc != Marking && pc != MarkSave }

  predicate FlushedPc(pc: Pc) { QuietPc(pc) && pc != Flushing }

  predicate FetchedPc(t: Task) {
    match t.pc
    case Merging | DebtPut | Pushing | Accepting | CloseSave | Resolving | RecycleImage => true
    case Destroying => t.verb != Reap
    case _ => false
  }

  /** No container of the session runs: before a create, or after a destroy. */
  predicate NoLivePc(pc: Pc) {
    match pc
    case OpenSave | OpenMirror | OpenFind | OpenAdopt(_) | OpenAdoptSave | OpenImage => true
    case Rebind | RebindSave | ImagePut | ImageSave | Create | Clearing | Removing | LastSave => true
    case _ => false
  }

  predicate RunningPc(pc: Pc) {
    match pc
    case OwnPut | OwnSave | Boot | ActivePut | ActiveSave => true
    case _ => false
  }

  predicate UnpublishedPc(pc: Pc) { pc.OpenWait? || pc.OpenPut? }

  predicate EndingPc(pc: Pc) { pc.LastSave? || pc.FailMark? || pc.FailSave? }

  /** The local copy names a session container. */
  predicate BoundPc(pc: Pc) {
    match pc
    case OpenWait | OpenPut | OpenSave | OpenMirror | OpenFind | OpenAdopt(_) | OpenAdoptSave | OpenImage => true
    case RebindSave | ImagePut | ImageSave | Create | OwnPut | OwnSave | Boot | ActivePut | ActiveSave | Noting => true
    case _ => false
  }

  ghost predicate TaskLocal(id: string, t: Task) {
    && RecordOk(id, t.rec)
    && (UnpublishedPc(t.pc) ==> t.rec == FreshRecord(id, t.rec.project))
    && (BoundPc(t.pc) ==> t.rec.binding.Some?)
    && (BoundPc(t.pc) && !RunningPc(t.pc) && !t.pc.Noting? ==> !t.rec.runtimeOwned)
    && (HeadPc(t.pc) ==> (t.verb.Close? || t.verb.Recycle? || t.verb.Reap?) && t.rec.runtimeOwned && t.rec.token
                         && (t.verb == Recycle ==> t.rec.generation < MAX_GENERATION))
    && (t.pc.Rebind? ==> t.rec.generation < MAX_GENERATION)
  }

  ghost predicate TaskLog(log: seq<Event>, id: string, t: Task) {
    && Section(log, id, t.since)
    && CreatedIfOwned(log, id, t.rec)
    && (RunningPc(t.pc) ==> Created(id, t.rec.Container()) in log)
    && (FlushedPc(t.pc) ==> exists f :: t.since < f && FlushedAt(log, id, t.rec, f))
    && (FetchedPc(t) ==>
          exists f, h :: t.since < f < h && FlushedAt(log, id, t.rec, f) && FetchedAt(log, id, t.rec.branch, h))
  }

  ghost predicate TaskMem(mem: Snapshot, id: string, t: Task) {
    && (UnpublishedPc(t.pc) || t.pc.LastSave? ==> id !in mem.records)
    && (!UnpublishedPc(t.pc) && !EndingPc(t.pc) ==> Agrees(mem, id, t.rec))
    && (t.pc.Noting? ==> mem.records[id] == t.rec)
    && (HeadPc(t.pc) ==> ClaimsFree(mem, id, t.rec))
  }

  ghost predicate TaskAdopts(mem: Snapshot, seen: set<string>, t: Task) {
    t.pc.OpenAdopt? && t.pc.found.Some? ==> Adoptable(mem, t.rec.project, t.pc.found.value) && t.pc.found.value in seen
  }

  ghost predicate TaskLive(live: set<Container>, id: string, t: Task) {
    && (NoLivePc(t.pc) ==> NoLive(live, id))
    && (RunningPc(t.pc) ==> t.rec.Container() in live)
  }

  ghost predicate TaskSaved(mem: Snapshot, disk: set<Snapshot>, id: string, t: Task) {
    && (t.pc.Create? ==> Recorded(mem, disk, id, t.rec.Container()))
    && (t.pc.MarkSave? ==> QuietIn(mem, id))
    && (QuietPc(t.pc) ==> Quiet(mem, disk, id))
  }

  ghost predicate TaskOk(w: World, id: string, t: Task) {
    && TaskLocal(id, t)
    && TaskLog(w.log, id, t)
    && TaskMem(w.mem, id, t)
    && TaskAdopts(w.mem, w.seen, t)
    && TaskLive(w.live, id, t)
    && TaskSaved(w.mem, w.disk, id, t)
    && (MirrorPc(t) ==> HoldsMirror(w.mirrors, id, t))
  }

  ghost predicate TasksOk(w: World) {
    forall id :: id in w.tasks ==> TaskOk(w, id, w.tasks[id])
  }

  ghost predicate SnapshotsOk(w: World) {
    SnapshotOk(w, w.mem) && forall s :: s in w.disk ==> SnapshotOk(w, s)
  }

  ghost predicate Inv(w: World) {
    SnapshotsOk(w) && MirrorsOk(w) && LogOk(w.log) && TasksOk(w)
  }
}
