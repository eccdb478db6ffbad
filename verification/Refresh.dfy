/** Bounded refreshes of project mirrors (sigiledd/src/ecosystem.rs): two permits, one mirror lock per project, a
    worker that owns both until it is done, callers that give up, are cancelled, or report an unconfirmed end. */
module Refresh {
  import opened Wrappers

  const PERMITS: nat := 2

  datatype RefreshError =
    | RepositoryUnavailable | ManifestInvalid | PersistFailed | Interrupted | DeadlineExceeded | RefreshBusy
    | RepositoryLocked | TerminationUnconfirmed

  /** The part of a descriptor that a successful read replaces. */
  datatype Projection = Projection(declaration: string, app: Option<string>, jobs: seq<string>,
                                   revision: Option<string>)

  datatype Descriptor = Descriptor(projection: Projection, desired: Option<string>, error: Option<RefreshError>,
                                   failures: nat)

  /** What the reader brings back. */
  datatype Read = Good(manifest: Projection) | Bad(error: RefreshError, revision: Option<string>)

  predicate ReaderError(e: RefreshError) {
    e == RepositoryUnavailable || e == ManifestInvalid || e == DeadlineExceeded || e == RepositoryLocked
  }

  /** `Registry::failed`. A busy retry must not conceal a quarantined owner. */
  function Failed(d: Descriptor, revision: Option<string>, error: RefreshError): Descriptor {
    if error == RefreshBusy && d.error == Some(TerminationUnconfirmed) then d
    else d.(desired := if revision.Some? then revision else d.desired, error := Some(error), failures := d.failures + 1)
  }

  /** `Registry::observe`. */
  function Observed(d: Descriptor, manifest: Projection): Descriptor {
    Descriptor(manifest, manifest.revision, None, 0)
  }

  datatype Worker =
    | Reading(project: string)
    | Completed(project: string, result: Option<RefreshError>)
    | Gone(result: Option<RefreshError>)

  predicate Alive(w: Worker) { !w.Gone? }

  datatype Caller =
    | WaitingMirror(project: string)
    | WaitingPermit(project: string)
    | Refusing(project: string, locked: bool)
    | Refused(project: string, locked: bool)
    | Awaiting(worker: nat)
    | Returned(error: Option<RefreshError>)
    | Cancelled

  /** The call owns the mirror lock of its project. */
  predicate Owns(c: Caller) { c.WaitingPermit? || (c.Refusing? && c.locked) || (c.Refused? && c.locked) }

  // ---- counting ----

  function AliveCount(ws: seq<Worker>): nat {
    if ws == [] then 0 else AliveCount(ws[..|ws| - 1]) + if Alive(ws[|ws| - 1]) then 1 else 0
  }

  lemma {:induction false} AliveUpdate(ws: seq<Worker>, i: nat, w: Worker)
    requires i < |ws|
    ensures AliveCount(ws[i := w]) + (if Alive(ws[i]) then 1 else 0) == AliveCount(ws) + if Alive(w) then 1 else 0
  {
    var vs := ws[i := w];
    if i < |ws| - 1 {
      assert vs[..|vs| - 1] == ws[..|ws| - 1][i := w];
      AliveUpdate(ws[..|ws| - 1], i, w);
    } else {
      assert vs[..|vs| - 1] == ws[..|ws| - 1];
    }
  }

  lemma AliveAppend(ws: seq<Worker>, w: Worker)
    ensures AliveCount(ws + [w]) == AliveCount(ws) + if Alive(w) then 1 else 0
  {
    assert (ws + [w])[..|ws|] == ws;
  }

  // ---- what must stay true ----

  /** One holder per locked mirror: a call, a worker, or somebody outside this module. */
  ghost predicate Exclusive(workers: seq<Worker>, callers: seq<Caller>, held: set<string>, outside: set<string>) {
    && (forall i :: 0 <= i < |workers| && Alive(workers[i]) ==>
          workers[i].project in held && workers[i].project !in outside)
    && (forall i :: 0 <= i < |callers| && Owns(callers[i]) ==>
          callers[i].project in held && callers[i].project !in outside)
    && (forall i, j :: 0 <= i < j < |workers| && Alive(workers[i]) && Alive(workers[j]) ==>
          workers[i].project != workers[j].project)
    && (forall i, j :: 0 <= i < j < |callers| && Owns(callers[i]) && Owns(callers[j]) ==>
          callers[i].project != callers[j].project)
    && (forall i, j :: 0 <= i < |workers| && 0 <= j < |callers| && Alive(workers[i]) && Owns(callers[j])
          ==> workers[i].project != callers[j].project)
    && (forall i :: 0 <= i < |callers| && callers[i].Awaiting? ==> callers[i].worker < |workers|)
    && outside <= held
  }

  /** An unconfirmed end is shown only while a worker still reads in that mirror; what an earlier process saved may
      be shown until something newer is known. */
  ghost predicate Truthful(descriptors: map<string, Descriptor>, workers: seq<Worker>, inherited: set<string>) {
    forall p :: p in descriptors && descriptors[p].error == Some(TerminationUnconfirmed) ==>
                  p in inherited || Worker.Reading(p) in workers
  }

  /** A worker that may still be at work in its mirror is shown as such. */
  ghost predicate Quarantine(descriptors: map<string, Descriptor>, workers: seq<Worker>, quarantined: set<nat>) {
    forall t :: t in quarantined ==>
      && t < |workers| && workers[t].Reading? && workers[t].project in descriptors
      && descriptors[workers[t].project].error == Some(TerminationUnconfirmed)
  }

  /** The workers that are not about this project. */
  ghost function Others(workers: seq<Worker>, quarantined: set<nat>, p: string): set<nat> {
    set t | t in quarantined && t < |workers| && workers[t] != Worker.Reading(p)
  }

  lemma QuarantinePut(descriptors: map<string, Descriptor>, workers: seq<Worker>, quarantined: set<nat>, p: string,
                      d: Descriptor)
    requires Quarantine(descriptors, workers, quarantined)
    ensures Quarantine(descriptors[p := d], workers, Others(workers, quarantined, p))
    ensures p !in descriptors ==> Others(workers, quarantined, p) == quarantined
    ensures d.error == Some(TerminationUnconfirmed)
            || (p in descriptors && descriptors[p].error != Some(TerminationUnconfirmed)) ==>
              Quarantine(descriptors[p := d], workers, quarantined)
  {
  }

  lemma InRange(descriptors: map<string, Descriptor>, workers: seq<Worker>, quarantined: set<nat>)
    requires Quarantine(descriptors, workers, quarantined)
    ensures forall t :: t in quarantined ==> t < |workers|
  {
  }

  lemma QuarantineMove(descriptors: map<string, Descriptor>, workers: seq<Worker>, quarantined: set<nat>, w: nat,
                       after: Worker)
    requires Quarantine(descriptors, workers, quarantined) && w < |workers| && w !in quarantined
    ensures Quarantine(descriptors, workers[w := after], quarantined)
  {
  }

  /** Only one worker is at work in a mirror. */
  lemma OnlyReader(workers: seq<Worker>, callers: seq<Caller>, held: set<string>, outside: set<string>, w: nat,
                   quarantined: set<nat>)
    requires Exclusive(workers, callers, held, outside) && w < |workers| && workers[w].Reading?
    requires forall t :: t in quarantined ==> t < |workers|
    ensures Others(workers, quarantined, workers[w].project) == quarantined - {w}
  {
    forall t | t in quarantined && t != w ensures workers[t] != workers[w] {
      var a, b := if t < w then t else w, if t < w then w else t;
      assert Alive(workers[a]) && Alive(workers[b]) ==> workers[a].project != workers[b].project;
    }
  }

  ghost predicate SameProjections(a: map<string, Descriptor>, b: map<string, Descriptor>) {
    forall p :: p in a ==> p in b && b[p].projection == a[p].projection
  }

  /** What the project shows once `shown` was published over the saved descriptors. */
  function Latest(saved: map<string, Descriptor>, shown: seq<(string, Projection)>, p: string): Option<Projection> {
    if shown == [] then (if p in saved then Some(saved[p].projection) else None)
    else
      var last := shown[|shown| - 1];
      if last.0 == p then Some(last.1) else Latest(saved, shown[..|shown| - 1], p)
  }

  function Projected(descriptors: map<string, Descriptor>, p: string): Option<Projection> {
    if p in descriptors then Some(descriptors[p].projection) else None
  }

  /** Every project shows the last thing published for it. */
  ghost predicate Current(saved: map<string, Descriptor>, shown: seq<(string, Projection)>,
                          descriptors: map<string, Descriptor>) {
    forall p :: Projected(descriptors, p) == Latest(saved, shown, p)
  }

  lemma StillCurrent(saved: map<string, Descriptor>, shown: seq<(string, Projection)>, a: map<string, Descriptor>,
                     b: map<string, Descriptor>)
    requires Current(saved, shown, a) && SameProjections(a, b) && a.Keys == b.Keys
    ensures Current(saved, shown, b)
  {
    forall p ensures Projected(b, p) == Latest(saved, shown, p) { assert Projected(b, p) == Projected(a, p); }
  }

  lemma PublishCurrent(saved: map<string, Descriptor>, shown: seq<(string, Projection)>, a: map<string, Descriptor>,
                       p: string, d: Descriptor)
    requires Current(saved, shown, a)
    ensures Current(saved, shown + [(p, d.projection)], a[p := d])
  {
    var more := shown + [(p, d.projection)];
    assert more[..|more| - 1] == shown;
    forall q ensures Projected(a[p := d], q) == Latest(saved, more, q) {
      assert Projected(a, q) == Latest(saved, shown, q);
    }
  }

  class Pool {
    ghost const saved: map<string, Descriptor>
    var free: nat
    var held: set<string>
    var outside: set<string>
    var workers: seq<Worker>
    var callers: seq<Caller>
    var descriptors: map<string, Descriptor>
    ghost var inherited: set<string>
    /** The workers whose end was reported as unconfirmed and not concealed since. */
    ghost var quarantined: set<nat>
    /** What was published in this process: at a registration, and by a worker that read well. */
    ghost var shown: seq<(string, Projection)>

    ghost predicate Valid()
      reads this
    {
      && free + AliveCount(workers) == PERMITS
      && Exclusive(workers, callers, held, outside)
      && Truthful(descriptors, workers, inherited)
      && Current(saved, shown, descriptors)
      && Quarantine(descriptors, workers, quarantined)
    }

    /** A process starts with whatever descriptors were saved. */
    constructor (saved: map<string, Descriptor>)
      ensures Valid() && descriptors == saved && free == PERMITS && this.saved == saved && shown == []
      ensures quarantined == {}
      ensures forall p :: p in inherited ==> p in saved && saved[p].error == Some(TerminationUnconfirmed)
    {
      free, held, outside, workers, callers, descriptors := PERMITS, {}, {}, [], [], saved;
      this.saved, shown := saved, [];
      inherited := set p | p in saved && saved[p].error == Some(TerminationUnconfirmed);
      quarantined := {};
    }

    /** `Registry::failed` for one project. */
    method Fail(p: string, revision: Option<string>, error: RefreshError)
      requires Valid() && (error == TerminationUnconfirmed ==> Worker.Reading(p) in workers)
      modifies this`descriptors, this`inherited, this`quarantined
      ensures Valid() && SameProjections(old(descriptors), descriptors) && inherited <= old(inherited)
      // nothing but a stranger's failure conceals a worker that may still be at work
      ensures quarantined == if error == RefreshBusy || error == TerminationUnconfirmed then old(quarantined)
                             else Others(workers, old(quarantined), p)
      ensures p in old(descriptors) ==>
                p in descriptors && descriptors == old(descriptors)[p := Failed(old(descriptors)[p], revision, error)]
      ensures p !in old(descriptors) ==> descriptors == old(descriptors)
      ensures p in old(descriptors)
              && (error != RefreshBusy || old(descriptors)[p].error != Some(TerminationUnconfirmed)) ==>
                && descriptors[p].error == Some(error) && descriptors[p].failures == old(descriptors)[p].failures + 1
                && descriptors[p].desired == if revision.Some? then revision else old(descriptors)[p].desired
      ensures p in descriptors && error != RefreshBusy && error != TerminationUnconfirmed ==> p !in inherited
      ensures inherited <= old(inherited)
    {
      hide Exclusive, Current, Quarantine, Others;
      if p in descriptors {
        QuarantinePut(descriptors, workers, quarantined, p, Failed(descriptors[p], revision, error));
      } else {
        QuarantinePut(descriptors, workers, quarantined, p, Descriptor(Projection("", None, [], None), None, None, 0));
      }
      if error != RefreshBusy && error != TerminationUnconfirmed { quarantined := Others(workers, quarantined, p); }
      if p in descriptors {
        StillCurrent(saved, shown, descriptors, descriptors[p := Failed(descriptors[p], revision, error)]);
        descriptors := descriptors[p := Failed(descriptors[p], revision, error)];
        if descriptors[p].error != Some(TerminationUnconfirmed) { inherited := inherited - {p}; }
      }
    }

    ghost method ShownWorkers()
      requires Valid()
      ensures forall t :: t in quarantined ==> t < |workers|
    {
    }

    method Ask(p: string)
      requires Valid()
      modifies this`callers
      ensures Valid() && callers == old(callers) + [WaitingMirror(p)]
    {
      callers := callers + [WaitingMirror(p)];
    }

    /** The mirror lock within the waiting budget, or not. */
    method GetMirror(i: nat, inTime: bool)
      requires Valid() && i < |callers| && callers[i].WaitingMirror?
      modifies this`callers, this`held
      ensures Valid()
      ensures callers == old(callers)[i := if inTime && old(callers)[i].project !in old(held)
                                           then WaitingPermit(old(callers)[i].project)
                                           else Refusing(old(callers)[i].project, false)]
    {
      hide Truthful, Current;
      var p := callers[i].project;
      if inTime && p !in held {
        held, callers := held + {p}, callers[i := WaitingPermit(p)];
      } else {
        callers := callers[i := Refusing(p, false)];
      }
    }

    /** A permit within the budget starts a worker that takes over lock and permit. */
    method GetPermit(i: nat, inTime: bool)
      requires Valid() && i < |callers| && callers[i].WaitingPermit?
      modifies this`callers, this`free, this`workers
      ensures Valid()
      ensures if inTime && old(free) > 0
              then free == old(free) - 1 && workers == old(workers) + [Worker.Reading(old(callers)[i].project)]
                   && callers == old(callers)[i := Awaiting(|old(workers)|)]
              else free == old(free) && workers == old(workers)
                   && callers == old(callers)[i := Refusing(old(callers)[i].project, true)]
    {
      hide Truthful, Exclusive, Current;
      var p := callers[i].project;
      if inTime && free > 0 {
        Handover(workers, callers, held, outside, i);
        AliveAppend(workers, Worker.Reading(p));
        MoreWorkers(descriptors, workers, Worker.Reading(p), inherited);
        free, callers, workers := free - 1, callers[i := Awaiting(|workers|)], workers + [Worker.Reading(p)];
      } else {
        SameOwner(workers, callers, held, outside, i, Refusing(p, true));
        callers := callers[i := Refusing(p, true)];
      }
    }

    /** `failed_attempt`, first half: note the refusal, but report a quarantined owner as such. */
    method Refuse(i: nat)
      requires Valid() && i < |callers| && callers[i].Refusing?
      modifies this`callers, this`descriptors, this`inherited, this`held, this`quarantined
      ensures Valid() && SameProjections(old(descriptors), descriptors) && inherited <= old(inherited)
      ensures quarantined == old(quarantined)
      ensures var p := old(callers)[i].project;
              callers == old(callers)[i := if p in descriptors && descriptors[p].error == Some(TerminationUnconfirmed)
                                           then Returned(Some(TerminationUnconfirmed))
                                           else Refused(p, old(callers)[i].locked)]
      // the owner that is reported is still at work
      ensures (exists t ::
                 t in quarantined && t < |workers| && workers[t] == Worker.Reading(old(callers)[i].project)) ==>
                callers[i] == Returned(Some(TerminationUnconfirmed))
      ensures var p := old(callers)[i].project;
              p in old(descriptors) ==>
                && p in descriptors
                && descriptors[p].error == if old(descriptors)[p].error == Some(TerminationUnconfirmed)
                                           then Some(TerminationUnconfirmed) else Some(RefreshBusy)
    {
      hide Truthful, Exclusive, Current, Others;
      var c := callers[i];
      Fail(c.project, None, RefreshBusy);
      if c.project in descriptors && descriptors[c.project].error == Some(TerminationUnconfirmed) {
        LetGo(workers, callers, held, outside, i, Returned(Some(TerminationUnconfirmed)));
        if c.locked { held := held - {c.project}; }
        callers := callers[i := Returned(Some(TerminationUnconfirmed))];
      } else {
        SameOwner(workers, callers, held, outside, i, Refused(c.project, c.locked));
        callers := callers[i := Refused(c.project, c.locked)];
      }
    }

    /** `failed_attempt`, second half: save, and say so if that failed; the mirror lock goes with the call. */
    method EndRefusal(i: nat, stored: bool)
      requires Valid() && i < |callers| && callers[i].Refused?
      modifies this`callers, this`descriptors, this`inherited, this`held, this`quarantined
      ensures Valid() && SameProjections(old(descriptors), descriptors) && inherited <= old(inherited)
      ensures quarantined == if stored then old(quarantined)
                             else Others(workers, old(quarantined), old(callers)[i].project)
      ensures callers == old(callers)[i := Returned(Some(if stored then RefreshBusy else PersistFailed))]
      ensures !stored && old(callers)[i].project in old(descriptors) ==>
                old(callers)[i].project in descriptors
                && descriptors[old(callers)[i].project].error == Some(PersistFailed)
      ensures stored ==> descriptors == old(descriptors)
      ensures held == if old(callers)[i].locked then old(held) - {old(callers)[i].project} else old(held)
    {
      hide Truthful, Exclusive, Current, Quarantine, Others;
      var c := callers[i];
      if !stored { Fail(c.project, None, PersistFailed); }
      LetGo(workers, callers, held, outside, i, Returned(Some(if stored then RefreshBusy else PersistFailed)));
      if c.locked { held := held - {c.project}; }
      callers := callers[i := Returned(Some(if stored then RefreshBusy else PersistFailed))];
    }

    /** The client goes away: the call is dropped where it stands, a worker it started is not. */
    method Cancel(i: nat)
      requires Valid() && i < |callers|
      modifies this`callers, this`held
      ensures Valid() && callers == old(callers)[i := Cancelled]
      ensures held == if Owns(old(callers)[i]) then old(held) - {old(callers)[i].project} else old(held)
    {
      hide Truthful, Exclusive, Current;
      LetGo(workers, callers, held, outside, i, Cancelled);
      if Owns(callers[i]) { held := held - {callers[i].project}; }
      callers := callers[i := Cancelled];
    }

    /** What the worker read, or could not read, becomes what the project shows. The answer says whether the save
        failed. An unregistered project changes nothing, so there is nothing to save. */
    method Show(w: nat, read: Read, stored: bool) returns (unsaved: bool)
      requires Valid() && w < |workers| && workers[w].Reading? && (read.Bad? ==> ReaderError(read.error))
      modifies this`descriptors, this`inherited, this`shown, this`quarantined
      ensures Valid() && quarantined == old(quarantined) - {w} && inherited <= old(inherited)
      ensures unsaved == (!stored && workers[w].project in old(descriptors))
      ensures forall p :: p in old(descriptors) && (p != workers[w].project || read.Bad?) ==>
                            p in descriptors && descriptors[p].projection == old(descriptors)[p].projection
      ensures shown == old(shown) + if read.Good? && workers[w].project in old(descriptors)
                                    then [(workers[w].project, read.manifest)] else []
      ensures var p := workers[w].project;
              if p in old(descriptors) then
                && p in descriptors && descriptors[p].error != Some(TerminationUnconfirmed)
                && (read.Good? ==>
                      && descriptors[p].projection == read.manifest && descriptors[p].desired == read.manifest.revision
                      && (stored ==> descriptors[p].error.None? && descriptors[p].failures == 0))
                && (read.Bad? && stored ==> descriptors[p].error == Some(read.error))
                && (!stored ==> descriptors[p].error == Some(PersistFailed))
              else descriptors == old(descriptors)
    {
      hide Exclusive, Current, Quarantine, Others;
      var p := workers[w].project;
      unsaved := !stored && p in descriptors;
      InRange(descriptors, workers, quarantined);
      OnlyReader(workers, callers, held, outside, w, quarantined);
      if p in descriptors {
        var d := match read
                 case Good(manifest) => Observed(descriptors[p], manifest)
                 case Bad(error, revision) => Failed(descriptors[p], revision, error);
        if unsaved { d := Failed(d, None, PersistFailed); }
        if read.Good? {
          PublishCurrent(saved, shown, descriptors, p, d);
          shown := shown + [(p, d.projection)];
        } else {
          StillCurrent(saved, shown, descriptors, descriptors[p := d]);
        }
        QuarantinePut(descriptors, workers, quarantined, p, d);
        descriptors, inherited := descriptors[p := d], inherited - {p};
      } else {
        QuarantinePut(descriptors, workers, quarantined, p, Descriptor(Projection("", None, [], None), None, None, 0));
      }
      quarantined := quarantined - {w};
    }

    /** The worker publishes its result and sets the completion flag, in one critical section. */
    method Finish(w: nat, read: Read, stored: bool)
      requires Valid() && w < |workers| && workers[w].Reading? && (read.Bad? ==> ReaderError(read.error))
      modifies this`workers, this`descriptors, this`inherited, this`shown, this`quarantined
      ensures quarantined == old(quarantined) - {w}
      ensures Valid() && |workers| == |old(workers)| && workers[w].Completed? && inherited <= old(inherited)
      ensures forall p :: p in old(descriptors) && (p != old(workers)[w].project || read.Bad?) ==>
                            p in descriptors && descriptors[p].projection == old(descriptors)[p].projection
      ensures shown == old(shown) + if read.Good? && old(workers)[w].project in old(descriptors)
                                    then [(old(workers)[w].project, read.manifest)] else []
      ensures var p := old(workers)[w].project;
              p in old(descriptors) ==>
                p in descriptors && descriptors[p].error != Some(TerminationUnconfirmed)
                && (read.Good? ==>
                      && descriptors[p].projection == read.manifest && descriptors[p].desired == read.manifest.revision
                      && (stored ==> descriptors[p].error.None? && descriptors[p].failures == 0))
                && (read.Bad? && stored ==> descriptors[p].error == Some(read.error))
                && (!stored ==> descriptors[p].error == Some(PersistFailed))
      ensures workers == old(workers)[w := Completed(old(workers)[w].project,
                                                     if !stored && old(workers)[w].project in old(descriptors)
                                                     then Some(PersistFailed)
                                                     else if read.Good? then None else Some(read.error))]
    {
      hide Exclusive, Current, Quarantine;
      var p := workers[w].project;
      var unsaved := Show(w, read, stored);
      var result := if unsaved then Some(PersistFailed) else if read.Good? then None else Some(read.error);
      AliveUpdate(workers, w, Completed(p, result));
      OtherReaders(workers, w, Completed(p, result));
      SameHolders(workers, callers, held, outside, w, Completed(p, result));
      QuarantineMove(descriptors, workers, quarantined, w, Completed(p, result));
      workers := workers[w := Completed(p, result)];
    }

    /** Lock and permit go back. */
    method Release(w: nat)
      requires Valid() && w < |workers| && workers[w].Completed?
      modifies this`workers, this`free, this`held
      ensures Valid() && free == old(free) + 1 && held == old(held) - {old(workers)[w].project}
      ensures workers == old(workers)[w := Gone(old(workers)[w].result)]
    {
      var gone := Gone(workers[w].result);
      AliveUpdate(workers, w, gone);
      OtherReaders(workers, w, gone);
      held, free, workers := held - {workers[w].project}, free + 1, workers[w := gone];
    }

    /** The call's own deadline. Whether the worker is done is decided under the completion lock. */
    method Timeout(i: nat)
      requires Valid() && i < |callers| && callers[i].Awaiting?
      modifies this`callers, this`descriptors, this`inherited, this`quarantined
      ensures Valid() && SameProjections(old(descriptors), descriptors) && inherited <= old(inherited)
      ensures var w := old(callers)[i].worker;
              quarantined == old(quarantined) + if workers[w].Reading? && workers[w].project in descriptors
                                                then {w} else {}
      ensures if workers[old(callers)[i].worker].Reading?
              then callers == old(callers)[i := Returned(Some(TerminationUnconfirmed))]
              else callers == old(callers) && descriptors == old(descriptors)
    {
      hide Truthful, Current;
      var w := callers[i].worker;
      if workers[w].Reading? {
        assert workers[w] == Worker.Reading(workers[w].project);
        Fail(workers[w].project, None, TerminationUnconfirmed);
        if workers[w].project in descriptors { quarantined := quarantined + {w}; }
        callers := callers[i := Returned(Some(TerminationUnconfirmed))];
      }
    }

    /** The result reaches a call that is still waiting. */
    method Deliver(i: nat)
      requires Valid() && i < |callers| && callers[i].Awaiting? && workers[callers[i].worker].Gone?
      modifies this`callers
      ensures Valid() && callers == old(callers)[i := Returned(workers[old(callers)[i].worker].result)]
    {
      var result := Returned(workers[callers[i].worker].result);
      hide Truthful, Exclusive, Current;
      LetGo(workers, callers, held, outside, i, result);
      callers := callers[i := result];
    }

    method Register(p: string, fallback: Projection)
      requires Valid() && p !in descriptors
      modifies this`descriptors, this`shown
      ensures Valid() && SameProjections(old(descriptors), descriptors) && inherited <= old(inherited)
      ensures descriptors == old(descriptors)[p := Descriptor(fallback, None, None, 0)]
              && shown == old(shown) + [(p, fallback)]
    {
      hide Exclusive, Current;
      PublishCurrent(saved, shown, descriptors, p, Descriptor(fallback, None, None, 0));
      shown := shown + [(p, fallback)];
      descriptors := descriptors[p := Descriptor(fallback, None, None, 0)];
    }

    /** Other code takes and leaves mirror locks too. */
    method TakeOutside(p: string)
      requires Valid() && p !in held
      modifies this`held, this`outside
      ensures Valid() && held == old(held) + {p}
    {
      hide Truthful, Current;
      held, outside := held + {p}, outside + {p};
    }

    method DropOutside(p: string)
      requires Valid() && p in outside
      modifies this`held, this`outside
      ensures Valid() && held == old(held) - {p}
    {
      hide Truthful, Current;
      held, outside := held - {p}, outside - {p};
    }
  }

  lemma MoreWorkers(descriptors: map<string, Descriptor>, workers: seq<Worker>, w: Worker, inherited: set<string>)
    requires Truthful(descriptors, workers, inherited)
    ensures Truthful(descriptors, workers + [w], inherited)
  {
  }

  lemma OtherReaders(workers: seq<Worker>, w: nat, after: Worker)
    requires w < |workers|
    ensures forall p :: Worker.Reading(p) in workers && Worker.Reading(p) != workers[w] ==>
              Worker.Reading(p) in workers[w := after]
  {
    forall p | Worker.Reading(p) in workers && Worker.Reading(p) != workers[w]
      ensures Worker.Reading(p) in workers[w := after] {
      var i :| 0 <= i < |workers| && workers[i] == Worker.Reading(p);
      assert workers[w := after][i] == Worker.Reading(p);
    }
  }

  lemma SameHolders(workers: seq<Worker>, callers: seq<Caller>, held: set<string>, outside: set<string>, w: nat,
                    after: Worker)
    requires Exclusive(workers, callers, held, outside) && w < |workers| && Alive(workers[w]) && Alive(after)
    requires after.project == workers[w].project
    ensures Exclusive(workers[w := after], callers, held, outside)
  {
  }

  /** The call keeps owning the lock, or keeps not owning it. */
  lemma SameOwner(workers: seq<Worker>, callers: seq<Caller>, held: set<string>, outside: set<string>, i: nat,
                  c: Caller)
    requires Exclusive(workers, callers, held, outside) && i < |callers| && !c.Awaiting? && Owns(c) == Owns(callers[i])
    requires Owns(c) ==> c.project == callers[i].project
    ensures Exclusive(workers, callers[i := c], held, outside)
  {
  }

  /** The call ends, and the lock it may have owned goes with it. */
  lemma LetGo(workers: seq<Worker>, callers: seq<Caller>, held: set<string>, outside: set<string>, i: nat, c: Caller)
    requires Exclusive(workers, callers, held, outside) && i < |callers| && !c.Awaiting? && !Owns(c)
    ensures Exclusive(workers, callers[i := c], if Owns(callers[i]) then held - {callers[i].project} else held, outside)
  {
  }

  /** The lock passes from the call to a new worker. */
  lemma Handover(workers: seq<Worker>, callers: seq<Caller>, held: set<string>, outside: set<string>, i: nat)
    requires Exclusive(workers, callers, held, outside) && i < |callers| && callers[i].WaitingPermit?
    ensures Exclusive(workers + [Worker.Reading(callers[i].project)], callers[i := Awaiting(|workers|)], held, outside)
  {
    var p := callers[i].project;
    assert Owns(callers[i]);
    assert forall k :: 0 <= k < |callers| && k != i && Owns(callers[k]) ==> callers[k].project != p;
  }

  // ---- runs ----

  datatype Event =
    | Ask(project: string)
    | Register(project: string, fallback: Projection)
    | Advance(call: nat, ok: bool)
    | GiveUp(call: nat)
    | Cancel(call: nat)
    | Finish(worker: nat, read: Read, saved: bool)
    | Release(worker: nat)
    | Take(project: string)
    | Drop(project: string)

  /** What a run promises at any moment. */
  ghost predicate Promised(w: Pool)
    reads w
  {
    && w.free + AliveCount(w.workers) == PERMITS
    && (forall i, j :: 0 <= i < j < |w.workers| && Alive(w.workers[i]) && Alive(w.workers[j]) ==>
                         w.workers[i].project != w.workers[j].project)
    && (forall p ::
          p in w.descriptors && w.descriptors[p].error == Some(TerminationUnconfirmed) && p !in w.inherited ==>
            p in w.held && Worker.Reading(p) in w.workers)
    && Current(w.saved, w.shown, w.descriptors)
  }

  /** Any interleaving of callers, workers, deadlines, cancellations, failing saves and other users of the locks. */
  method Run(w: Pool, events: seq<Event>) returns (ghost concealed: set<string>)
    requires w.Valid()
    modifies w
    ensures w.Valid() && Promised(w) && w.inherited <= old(w.inherited)
    // a worker reported as unconfirmed stays shown as such until it ends, unless a refused call could not be saved
    ensures |old(w.workers)| <= |w.workers|
    ensures forall t :: t in old(w.quarantined) && w.workers[t].Reading? ==>
              t in w.quarantined || w.workers[t].project in concealed
    ensures (forall e :: e in events ==> !(e.Advance? && !e.ok)) ==> concealed == {}
    ensures (forall e :: e in events ==> !(e.Finish? && e.read.Good?)) ==>
              SameProjections(old(w.descriptors), w.descriptors)
  {
    hide Exclusive, Truthful, Current;
    concealed := {};
    ghost var ws := w.workers;
    w.ShownWorkers();
    for k := 0 to |events|
      invariant w.Valid() && w.inherited <= old(w.inherited) && Later(ws, w.workers)
      invariant forall t :: t in old(w.quarantined) && w.workers[t].Reading? ==>
                  t in w.quarantined || w.workers[t].project in concealed
      invariant (forall e :: e in events[..k] ==> !(e.Advance? && !e.ok)) ==> concealed == {}
      invariant (forall e :: e in events[..k] ==> !(e.Finish? && e.read.Good?)) ==>
                  SameProjections(old(w.descriptors), w.descriptors)
    {
      assert events[..k + 1] == events[..k] + [events[k]];
      ghost var more := One(w, events[k]);
      concealed := concealed + more;
    }
    assert events[..|events|] == events;
    Promises(w);
  }

  /** Workers are only added, and keep their project while they read. */
  ghost predicate Later(a: seq<Worker>, b: seq<Worker>) {
    |a| <= |b| && forall t :: 0 <= t < |a| && b[t].Reading? ==> a[t] == b[t]
  }

  method One(w: Pool, e: Event) returns (ghost concealed: set<string>)
    requires w.Valid()
    modifies w
    ensures w.Valid() && w.inherited <= old(w.inherited) && Later(old(w.workers), w.workers)
    ensures forall t :: t in old(w.quarantined) && t < |old(w.workers)| && w.workers[t].Reading? ==>
              t in w.quarantined || w.workers[t].project in concealed
    ensures !(e.Advance? && !e.ok) ==> concealed == {}
    ensures !(e.Finish? && e.read.Good?) ==> SameProjections(old(w.descriptors), w.descriptors)
  {
    hide Truthful, Current, Quarantine;
    concealed := {};
    match e
    case Ask(p) => w.Ask(p);
    case Register(p, fallback) => if p !in w.descriptors { w.Register(p, fallback); }
    case Advance(i, ok) =>
      if i < |w.callers| {
        match w.callers[i]
        case WaitingMirror(_) => w.GetMirror(i, ok);
        case WaitingPermit(_) => w.GetPermit(i, ok);
        case Refusing(_, _) => w.Refuse(i);
        case Refused(p, _) =>
          w.EndRefusal(i, ok);
          if !ok { concealed := {p}; }
        case Awaiting(t) => if w.workers[t].Gone? { w.Deliver(i); }
        case _ =>
      }
    case GiveUp(i) => if i < |w.callers| && w.callers[i].Awaiting? { w.Timeout(i); }
    case Cancel(i) => if i < |w.callers| { w.Cancel(i); }
    case Finish(t, read, saved) =>
      if t < |w.workers| && w.workers[t].Reading? && (read.Bad? ==> ReaderError(read.error)) {
        w.Finish(t, read, saved);
      }
    case Release(t) => if t < |w.workers| && w.workers[t].Completed? { w.Release(t); }
    case Take(p) => if p !in w.held { w.TakeOutside(p); }
    case Drop(p) => if p in w.outside { w.DropOutside(p); }
  }

  /** A refresh can read well and fail in its save: the call reports that nothing was kept, and the project shows the
      new reading all the same. */
  method UnsavedRead(w: Pool, p: string, manifest: Projection)
    requires w.Valid() && w.free > 0 && p !in w.held && p in w.descriptors
    modifies w
    ensures w.Valid() && w.callers != [] && w.callers[|w.callers| - 1] == Returned(Some(PersistFailed))
    ensures p in w.descriptors && w.descriptors[p].projection == manifest
            && w.descriptors[p].error == Some(PersistFailed)
  {
    hide Truthful, Exclusive, Current;
    var i, t := |w.callers|, |w.workers|;
    w.Ask(p);
    w.GetMirror(i, true);
    w.GetPermit(i, true);
    w.Finish(t, Good(manifest), false);
    w.Release(t);
    w.Deliver(i);
  }

  /** The exception, run: two calls for one project. The first one's worker does not end in time and is reported as
      unconfirmed; the second one, refused before that, cannot be saved and its failure conceals the report. */
  method ConcealedWorker(w: Pool, p: string)
    requires w.Valid() && w.free > 0 && p !in w.held && p in w.descriptors
    requires w.descriptors[p].error != Some(TerminationUnconfirmed)
    modifies w
    ensures w.Valid() && Worker.Reading(p) in w.workers && p in w.descriptors
    ensures w.descriptors[p].error == Some(PersistFailed)
    ensures |w.callers| == |old(w.callers)| + 2
            && w.callers[|old(w.callers)|] == Returned(Some(TerminationUnconfirmed))
            && w.callers[|old(w.callers)| + 1] == Returned(Some(PersistFailed))
  {
    hide Truthful, Exclusive, Current, Quarantine, Others;
    var i, t := |w.callers|, |w.workers|;
    w.Ask(p);
    w.GetMirror(i, true);
    w.GetPermit(i, true);
    w.Ask(p);
    w.GetMirror(i + 1, false);
    w.Refuse(i + 1);
    w.Timeout(i);
    w.EndRefusal(i + 1, false);
    assert w.workers[t] == Worker.Reading(p);
  }

  lemma Promises(w: Pool)
    requires w.Valid()
    ensures Promised(w)
  {
    forall p | p in w.descriptors && w.descriptors[p].error == Some(TerminationUnconfirmed) && p !in w.inherited
      ensures p in w.held && Worker.Reading(p) in w.workers
    {
      var i :| 0 <= i < |w.workers| && w.workers[i] == Worker.Reading(p);
      assert Alive(w.workers[i]);
    }
  }
}
