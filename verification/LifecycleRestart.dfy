/** What a restart says about the sessions it finds (sigiledd/src/sessions.rs), above all about those a verb was working
    on when the process ended. */
module LifecycleRestart {
  import opened Wrappers
  import opened Sessions
  import opened Ide
  import opened LifecycleMachine
  import opened LifecycleInvariant
  import opened LifecycleProgress

  /** A restart from `s`, whatever schedule came before: every record is active or failed. Rival claims on an alias fail
      as ambiguous, unfinished verbs as interrupted, everything else is as it was saved. */
  lemma RestartMarks(w: World, s: Snapshot, id: string)
    requires s in w.disk
    ensures var v := Step(w, Crash(s));
            && v.mem.records.Keys == s.records.Keys && v.mem.debts == s.debts && v.disk == {s} && v.tasks == map[]
            && (id in s.records ==>
                  var r, h := s.records[id], v.mem.records[id];
                  && h == r.(lifecycle := h.lifecycle, error := h.error)
                  && (h.lifecycle.Active? <==> r.lifecycle.Active? && !Rivalled(s, id))
                  && (h.lifecycle.Active? || h.lifecycle.Failed?)
                  && h.error == if Rivalled(s, id) then Some(LegacyOwnershipAmbiguous)
                                else if r.lifecycle.Active? || r.lifecycle.Failed? then r.error else Some(Interrupted))
  {
    hide Step, Rivalled, HydratedRecord;
    Crashes(w, s);
    if id in s.records {
      Marks(s, id);
    }
  }

  lemma Marks(s: Snapshot, id: string)
    requires id in s.records
    ensures var r, h := s.records[id], HydratedRecord(s.records, id);
            && h == r.(lifecycle := h.lifecycle, error := h.error)
            && (h.lifecycle.Active? <==> r.lifecycle.Active? && !Rivalled(s, id))
            && (h.lifecycle.Active? || h.lifecycle.Failed?)
            && h.error == if Rivalled(s, id) then Some(LegacyOwnershipAmbiguous)
                          else if r.lifecycle.Active? || r.lifecycle.Failed? then r.error else Some(Interrupted)
  {
    hide Ambiguous, Rivalled;
    Rivals(s, id);
  }

  lemma Rivals(s: Snapshot, id: string)
    requires id in s.records
    ensures Rivalled(s, id) <==> Ambiguous(s.records, id)
  {
  }

  lemma Crashes(w: World, s: Snapshot)
    ensures Step(w, Crash(s)) == StepCrash(w, s)
  {
    hide StepCrash;
  }

  /** Another record keeps a token for the same project, and neither has a binding. */
  ghost predicate Rivalled(s: Snapshot, id: string)
    requires id in s.records
  {
    && s.records[id].binding.None? && s.records[id].token
    && exists o :: o in s.records && o != id && s.records[o].binding.None? && s.records[o].token
                   && s.records[o].project == s.records[id].project
  }

  // ---- what a restart may load ----

  /** The file now holds what memory holds, or may. */
  predicate Writes(w: World, a: Action) {
    || (a.BackgroundSave? && a.outcome != FailedClean)
    || (a.Save? && a.outcome != FailedClean && a.id in w.tasks && SavePc(w.tasks[a.id].pc))
  }

  /** Only one other than `s` can be loaded after this step: a good save of it, or a restart that has read it. */
  predicate Discards(w: World, a: Action, s: Snapshot) {
    || (Writes(w, a) && a.outcome == Saved && s != w.mem)
    || (a.Crash? && a.snapshot in w.disk && a.snapshot != s)
  }

  ghost predicate WrittenAt(w: World, schedule: seq<Action>, k: nat, s: Snapshot) {
    k < |schedule| && Writes(Run(w, schedule[..k]), schedule[k]) && Run(w, schedule[..k]).mem == s
  }

  ghost predicate DiscardedAt(w: World, schedule: seq<Action>, k: nat, s: Snapshot) {
    k < |schedule| && Discards(Run(w, schedule[..k]), schedule[k], s)
  }

  ghost predicate Stands(w: World, schedule: seq<Action>, from: nat, s: Snapshot) {
    forall k: nat :: from <= k < |schedule| ==> !DiscardedAt(w, schedule, k, s)
  }

  /** Steps that save nothing. */
  lemma SameDisk(w: World, a: Action)
    requires !a.Save? && !a.BackgroundSave? && !a.Crash?
    ensures Step(w, a).disk == w.disk
  {
    hide FindOrphan, Refusal, IdleRecord, FlushRecord, FreshRecord, BindingSafe, Unlocked, Filed, Claimants;
  }

  lemma DiskNow(w: World, a: Action, s: Snapshot)
    ensures s in Step(w, a).disk <==> (s in w.disk && !Discards(w, a, s)) || (Writes(w, a) && w.mem == s)
  {
    hide Hydrated, Unlocked;
    if a.Save? || a.BackgroundSave? || a.Crash? {
    } else {
      hide Step;
      SameDisk(w, a);
    }
  }

  /** After any schedule, a restart can load exactly what was there at the start or what memory held at a save, good or
      not, unless something else was saved for good, or loaded, after that. */
  lemma {:induction false} Loadable(w: World, schedule: seq<Action>, s: Snapshot)
    ensures s in Run(w, schedule).disk <==>
            || (s in w.disk && Stands(w, schedule, 0, s))
            || exists k: nat :: WrittenAt(w, schedule, k, s) && Stands(w, schedule, k + 1, s)
  {
    hide Step, Writes, Discards, Stands;
    if schedule == [] {
      NothingYet(w, s);
    } else {
      var n := |schedule| - 1;
      Loadable(w, schedule[..n], s);
      DiskNow(Run(w, schedule[..n]), schedule[n], s);
      OneMore(w, schedule, s);
    }
  }

  lemma NothingYet(w: World, s: Snapshot)
    ensures Stands(w, [], 0, s) && forall k: nat :: !WrittenAt(w, [], k, s)
  {
  }

  /** The last step of a schedule, and those before it. */
  lemma OneMore(w: World, schedule: seq<Action>, s: Snapshot)
    requires schedule != []
    ensures var n := |schedule| - 1; var init := schedule[..n];
            && (forall from: nat :: from <= n ==>
                  (Stands(w, schedule, from, s)
                   <==> Stands(w, init, from, s) && !Discards(Run(w, init), schedule[n], s)))
            && Stands(w, schedule, n + 1, s)
            && (forall k: nat :: k < n ==> (WrittenAt(w, schedule, k, s) <==> WrittenAt(w, init, k, s)))
            && (WrittenAt(w, schedule, n, s) <==> Writes(Run(w, init), schedule[n]) && Run(w, init).mem == s)
  {
    hide Step, Writes, Discards, Run;
    var n := |schedule| - 1;
    forall from: nat | from <= n
      ensures Stands(w, schedule, from, s)
              <==> Stands(w, schedule[..n], from, s) && !Discards(Run(w, schedule[..n]), schedule[n], s)
    {
      StandsOneMore(w, schedule, from, s);
    }
    forall k: nat | k < n ensures WrittenAt(w, schedule, k, s) <==> WrittenAt(w, schedule[..n], k, s) {
      assert schedule[..n][..k] == schedule[..k];
    }
  }

  lemma StandsOneMore(w: World, schedule: seq<Action>, from: nat, s: Snapshot)
    requires from < |schedule|
    ensures var n := |schedule| - 1;
            Stands(w, schedule, from, s)
            <==> Stands(w, schedule[..n], from, s) && !Discards(Run(w, schedule[..n]), schedule[n], s)
  {
    hide Step, Writes, Discards, Run;
    var n := |schedule| - 1;
    forall k: nat | k < n ensures DiscardedAt(w, schedule, k, s) <==> DiscardedAt(w, schedule[..n], k, s) {
      assert schedule[..n][..k] == schedule[..k];
    }
    assert DiscardedAt(w, schedule, n, s) <==> Discards(Run(w, schedule[..n]), schedule[n], s);
  }

  // ---- what a recycle and an open leave there ----

  /** A recycle up to the save of the next binding, and up to the save of the image. */
  function ToRebind(id: string, reply: Reply): seq<Action> {
    HeadSteps(id, Recycle, reply)
    + [Attempt(id, true), Attempt(id, true), Destroy(id, DestroyDone), Publish(id), Save(id, Saved)]
  }

  function ToImage(id: string, reply: Reply, ide: bool): seq<Action> {
    ToRebind(id, reply) + [PutImage(id, ide), Save(id, Saved)]
  }

  lemma SavedNow(w: World, schedule: seq<Action>, id: string, x: View)
    requires Sees(w, schedule, Run(w, schedule), id, x) && (x.pc.OpenSave? || x.pc.RebindSave? || x.pc.ImageSave?)
    ensures var v := Run(w, schedule + [Save(id, Saved)]); v.disk == {v.mem}
  {
    hide Run;
    RunOne(w, schedule, Save(id, Saved));
  }

  /** A recycle that goes well up to the save of the next binding. */
  lemma Rebinds(w: World, id: string, reply: Reply) returns (v: World, x: View)
    requires Closable(w, id) && FlushRecord(w.mem.records[id], reply) && w.mem.records[id].generation < MAX_GENERATION
    ensures Sees(w, ToRebind(id, reply), v, id, x) && v.disk == {v.mem}
    ensures x.pc.ImagePut? && x.verb == Recycle && x.rec == Rebound(w.mem.records[id])
    ensures x.mem == Put(Mark(w.mem, id, Recycling, None), x.rec) && x.live == w.live - {w.mem.records[id].Container()}
  {
    hide Run, Sees, FlushRecord, Mark, Refusal, Put, Rebound, HeadSteps;
    var schedule: seq<Action>;
    schedule, v, x := Head(w, id, Recycle, reply);
    schedule, v, x := Attempts(w, schedule, v, id, x);
    schedule, v, x := Attempts(w, schedule, v, id, x);
    schedule, v, x := Destroys(w, schedule, v, id, x);
    schedule, v, x := Publishes(w, schedule, v, id, x);
    SeesRun(w, schedule, v, id, x);
    SavedNow(w, schedule, id, x);
    schedule, v, x := Saves(w, schedule, v, id, x);
    SeesRun(w, schedule, v, id, x);
    assert schedule == ToRebind(id, reply);
  }

  /** The next binding of a recycle is saved with the lifecycle the record had when the recycle began. A restart between
      that save and the next one reads an active session although its old container is gone and it has no new one. */
  lemma RecycleLosesItsMark(w: World, id: string, reply: Reply)
    requires Inv(w) && Closable(w, id) && FlushRecord(w.mem.records[id], reply)
    requires w.mem.records[id].generation < MAX_GENERATION && w.mem.records[id].lifecycle.Active?
    ensures var v := Run(w, ToRebind(id, reply)); var u := Run(w, ToRebind(id, reply) + [Crash(v.mem)]);
            && v.disk == {v.mem} && id in u.mem.records && u.mem.records[id].lifecycle.Active?
            && !u.mem.records[id].runtimeOwned && u.mem.records[id].Container() !in u.live
            && w.mem.records[id].Container() !in u.live
  {
    hide Run, Sees, FlushRecord, Mark, Refusal, Inv, Put, Rebound, Imaged, ToRebind;
    var r := w.mem.records[id];
    NextIsFree(w, id);
    ReboundNames(r);
    var v, x := Rebinds(w, id, reply);
    ReboundFields(r, false, x);
    SeesRun(w, ToRebind(id, reply), v, id, x);
    Reads(w, ToRebind(id, reply), v, id, x, Mark(w.mem, id, Recycling, None));
  }

  /** From the image on it reads an interrupted one. */
  lemma RecycleIsInterrupted(w: World, id: string, reply: Reply, ide: bool)
    requires Closable(w, id) && FlushRecord(w.mem.records[id], reply) && w.mem.records[id].generation < MAX_GENERATION
    ensures var v := Run(w, ToImage(id, reply, ide)); var u := Run(w, ToImage(id, reply, ide) + [Crash(v.mem)]);
            && v.disk == {v.mem} && id in u.mem.records && u.mem.records[id].lifecycle.Failed?
            && u.mem.records[id].error == Some(Interrupted)
  {
    hide Run, Sees, FlushRecord, Mark, Refusal, Put, Rebound, Imaged, ToRebind;
    ReboundNames(w.mem.records[id]);
    var v, x := Rebinds(w, id, reply);
    ReboundFields(w.mem.records[id], ide, x);
    var m := x.mem;
    var schedule := ToRebind(id, reply);
    schedule, v, x := PutsImage(w, schedule, v, id, x, ide);
    SeesRun(w, schedule, v, id, x);
    SavedNow(w, schedule, id, x);
    schedule, v, x := Saves(w, schedule, v, id, x);
    SeesRun(w, schedule, v, id, x);
    assert schedule == ToImage(id, reply, ide);
    Reads(w, schedule, v, id, x, m);
  }

  /** An open is on record, as being created under its own name and branch, before it does anything else; a restart from
      there on reads an interrupted one. */
  lemma OpenIsOnRecord(w: World, id: string, project: string, allowOrphan: bool)
    requires id !in w.mem.records && id !in w.tasks && id !in w.used && SessionBranch(id) !in w.seen
    requires project !in w.mirrors && (!allowOrphan ==> DebtsFor(w.mem, project) == [])
    ensures var schedule := [BeginOpen(id, project, allowOrphan), LockMirror(id), Publish(id), Save(id, Saved)];
            var v := Run(w, schedule); var u := Run(w, schedule + [Crash(v.mem)]);
            && v.disk == {v.mem} && v.live == w.live && id in v.mem.records && v.mem == Put(w.mem, v.mem.records[id])
            && v.mem.records[id] == Record(id, project, "session/" + id, false, true,
                                           Some(Binding(SessionVm(id, 1), 1, None)), Creating, 1, None, false, false)
            && id in u.mem.records && u.mem.records[id].lifecycle.Failed?
            && u.mem.records[id].error == Some(Interrupted)
  {
    hide Run, Sees;
    var x := View(Open(allowOrphan), OpenWait, FreshRecord(id, project), false, w.mem, w.live);
    var schedule: seq<Action>;
    var v: World;
    schedule, v := BeginsOpen(w, id, project, allowOrphan);
    schedule, v, x := Locks(w, schedule, v, id, x);
    schedule, v, x := Publishes(w, schedule, v, id, x);
    SeesRun(w, schedule, v, id, x);
    SavedNow(w, schedule, id, x);
    schedule, v, x := Saves(w, schedule, v, id, x);
    SeesRun(w, schedule, v, id, x);
    assert schedule == [BeginOpen(id, project, allowOrphan), LockMirror(id), Publish(id), Save(id, Saved)];
    Reads(w, schedule, v, id, x, w.mem);
  }

  lemma SeesRun(w: World, schedule: seq<Action>, v: World, id: string, x: View)
    requires Sees(w, schedule, v, id, x)
    ensures v == Run(w, schedule) && v.mem == x.mem && v.live == x.live
  {
  }

  /** What a restart from the last save reads of a record that a verb has just put. */
  lemma Reads(w: World, schedule: seq<Action>, v: World, id: string, x: View, s: Snapshot)
    requires Sees(w, schedule, v, id, x) && v.disk == {v.mem} && x.rec.id == id && x.rec.binding.Some?
    requires x.mem == Put(s, x.rec)
    ensures var u := Run(w, schedule + [Crash(v.mem)]);
            && u.live == v.live == x.live && id in u.mem.records
            && (x.rec.lifecycle.Active? ==> u.mem.records[id] == x.rec)
            && (x.rec.lifecycle.Recycling? || x.rec.lifecycle.Creating? ==>
                  u.mem.records[id].lifecycle.Failed? && u.mem.records[id].error == Some(Interrupted))
  {
    hide Run;
    RunOne(w, schedule, Crash(v.mem));
    RestartMarks(v, v.mem, id);
  }

  lemma ReboundFields(r: Record, ide: bool, x: View)
    requires x.rec == Rebound(r) && x.verb == Recycle
    ensures x.rec.binding.Some? && !Rebound(r).runtimeOwned && Rebound(r).lifecycle == r.lifecycle
    ensures Imaged(x, ide).lifecycle.Recycling? && Imaged(x, ide).binding.Some? && Imaged(x, ide).id == r.id
  {
  }
}
