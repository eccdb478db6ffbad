/** The extension, the network and the helper together: when the helper calls the editor idle, it was. */
module Custody {
  import opened Wrappers
  import opened TerminalActivity
  import opened ObserverProtocol
  import opened Extension

  datatype Event =
    | Tick
    | Appear(terminal: nat, shell: bool, job: Option<nat>)
    | Vanish(index: nat)
    | Integrate(terminal: nat)
    | Begin(terminal: nat, execution: nat)
    | Finish(terminal: nat, reported: bool)
    | RepeatStart(handle: Option<nat>, terminal: nat)
    | RepeatEnd(execution: nat, terminal: nat)
    | ReportClose(terminal: nat)
    | Deliver(index: nat, now: nat)
    | Edit(now: nat)

  /** Every observation among the messages is one the extension built. */
  ghost predicate Genuine(ms: seq<Message>, sent: seq<Sent>) {
    && (forall i :: 0 <= i < |ms| && ms[i].Noted? ==> ms[i].event == "edit")
    && (forall i :: 0 <= i < |ms| && ms[i].Seen? ==> exists j :: 0 <= j < |sent| && sent[j].o == ms[i].o)
  }

  /** The newest observation that arrived was built when no listed terminal was running anything. */
  ghost predicate NewestWasQuiet(ms: seq<Message>, sent: seq<Sent>) {
    exists k: nat :: Highest(ms, k) && 0 < Number(ms[k].o) <= |sent|
                  && sent[Number(ms[k].o) - 1] == Sent(ms[k].o, true)
  }

  lemma GenuineIsOneObserver(instance: string, sent: seq<Sent>, ms: seq<Message>)
    requires Instance(instance) && Log(instance, sent) && Genuine(ms, sent)
    ensures OneObserver(ms, instance)
    ensures forall i :: 0 <= i < |ms| && Counts(ms[i]) ==>
                          0 < Number(ms[i].o) <= |sent| && sent[Number(ms[i].o) - 1].o == ms[i].o
  {
    hide Numbered, Number, Admissible, Clear;
    forall i | 0 <= i < |ms| && Counts(ms[i])
      ensures 0 < Number(ms[i].o) <= |sent| && sent[Number(ms[i].o) - 1].o == ms[i].o
    {
      var j :| 0 <= j < |sent| && sent[j].o == ms[i].o;
      assert Faithful(instance, sent[j], j + 1);
    }
    forall i | 0 <= i < |ms| && ms[i].Seen? ensures ms[i].o.observer == instance {
      var j :| 0 <= j < |sent| && sent[j].o == ms[i].o;
      assert Faithful(instance, sent[j], j + 1);
    }
  }

  /** Under loss, repeats and reordering of what the extension sent: ready and not busy means that nothing was
      running when the extension built the newest observation received. */
  lemma IdleMeansQuiet(base: State, instance: string, sent: seq<Sent>, ms: seq<Message>, clock: seq<nat>, late: bool)
    requires Instance(instance) && Log(instance, sent) && Genuine(ms, sent) && |clock| == |ms|
    ensures var s := Heard(Required(base), ms, clock);
            Said(s, late) == Ready && !BusyIf(s, late) ==> NewestWasQuiet(ms, sent)
  {
    hide Numbered, Number, Admissible, Overflow, V3, Log, Instance, Genuine, OneObserver;
    var s := Heard(Required(base), ms, clock);
    GenuineIsOneObserver(instance, sent, ms);
    Settled(base, ms, clock, instance);
    if Said(s, late) == Ready && !BusyIf(s, late) {
      var k: nat :| Highest(ms, k) && Reflects(s, ms[k].o, base);
      var o := ms[k].o;
      NothingNamed(o.executions);
      assert Clear(o);
      AtNumber(instance, sent, Number(o));
    }
  }

  lemma AtNumber(instance: string, sent: seq<Sent>, n: nat)
    requires Log(instance, sent) && 0 < n <= |sent|
    ensures Clear(sent[n - 1].o) ==> sent[n - 1].quiet
  {
    assert Faithful(instance, sent[n - 1], n - 1 + 1);
  }

  lemma NothingNamed(q: seq<string>)
    ensures Names(q) == {} ==> q == []
  {
    if q != [] { assert q[0] in Names(q); }
  }

  /** One interval of custody: any interleaving of what the editor does, what its terminals do and what the network
      delivers, then one look at the verdict. */
  method Watch(w: Watcher, a: Activity, events: seq<Event>, now: nat)
    returns (word: Word, busy: bool, ghost heard: seq<Message>)
    requires w.Valid()
    modifies w, a
    ensures w.Valid() && Genuine(heard, w.sent) && old(w.sent) <= w.sent
    ensures word == Ready && !busy ==> NewestWasQuiet(heard, w.sent)
  {
    hide Genuine, Covered, Numbering, Ledger, Tied, OneEach, Distinct, Log, Instance, Quiet;
    ghost var base := a.Abs();
    ghost var clock: seq<nat> := [];
    heard := [];
    a.RequireObservation();
    NoneGenuine(w.sent);
    for i := 0 to |events|
      invariant w.Valid() && Genuine(heard, w.sent) && old(w.sent) <= w.sent
      invariant |clock| == |heard| && a.Abs() == Heard(Required(base), heard, clock)
    {
      match events[i]
      case Deliver(index, at) =>
        if index < |w.sent| {
          var accepted := a.Observe(w.sent[index].o, at);
          MoreGenuine(heard, Seen(w.sent[index].o), w.sent, index);
          HeardOne(Required(base), heard, clock, Seen(w.sent[index].o), at);
          heard, clock := heard + [Seen(w.sent[index].o)], clock + [at];
        }
      case Edit(at) =>
        var known := a.ReportExecution("edit", None, at);
        MoreGenuine(heard, Noted("edit", None), w.sent, 0);
        HeardOne(Required(base), heard, clock, Noted("edit", None), at);
        heard, clock := heard + [Noted("edit", None)], clock + [at];
      case _ =>
        ghost var before := w.sent;
        Live(w, events[i]);
        StillGenuine(heard, before, w.sent);
    }
    word := a.ObservationWord(now);
    busy := a.Busy(now);
    IdleMeansQuiet(base, w.instance, w.sent, heard, clock, TooOld(a.Abs(), now));
  }

  /** The other way round: once the extension has seen every listed terminal at its prompt and records no command, one
      snapshot that arrives makes the helper say ready and idle, for ten seconds. */
  method QuietIsSeen(w: Watcher, a: Activity, at: nat, now: nat) returns (word: Word, busy: bool)
    requires w.Valid() && w.Room(0) && w.supported && |w.open| <= TERMINAL_LIMIT && !w.terminalOverflow
    requires w.executionOverflow == {} && !w.capacityCustodyLost && w.active == []
    requires forall t :: t in w.open ==> t in w.integrated && t !in w.unobserved
    requires a.required && !a.conflict && !a.uncertain && (a.observer.Some? ==> a.observer.value == w.instance)
    requires a.sequence <= |w.sent| && at <= now < at + 10
    modifies w, a
    ensures w.Valid() && word == Ready && !busy && a.last == old(a.last)
  {
    hide Covered, Numbering, Ledger, Tied, OneEach, Distinct, Instance, Quiet, Admissible, Numbered, Number, V3,
        Overflow;
    var o := w.Observe(None);
    NewestFits(w.instance, w.sent);
    assert ExecutionNames(w.instance, w.active) == [];
    assert AllIntegrated(o);
    NoNames();
    var accepted := a.Observe(o, at);
    word := a.ObservationWord(now);
    busy := a.Busy(now);
  }

  lemma NewestFits(instance: string, sent: seq<Sent>)
    requires Log(instance, sent) && sent != []
    ensures var o := sent[|sent| - 1].o; Numbered(o) && Number(o) == |sent| && o.observer == instance && Admissible(o)
  {
    assert Faithful(instance, sent[|sent| - 1], |sent| - 1 + 1);
  }

  lemma NoNames()
    ensures Names([]) == {}
  {
  }

  datatype Interval = Interval(events: seq<Event>, now: nat)

  datatype Verdict = Verdict(word: Word, busy: bool)

  /** Custody begins and ends any number of times; what the editor sends outlives it. Every verdict is right about the
      newest observation of its own interval; between intervals nothing is required and nothing counts as running. */
  method Custodies(w: Watcher, a: Activity, intervals: seq<Interval>)
    returns (verdicts: seq<Verdict>, ghost heard: seq<seq<Message>>)
    requires w.Valid()
    modifies w, a
    ensures w.Valid() && |verdicts| == |heard| == |intervals|
    ensures forall i :: 0 <= i < |intervals| && verdicts[i] == Verdict(Ready, false) ==>
              NewestWasQuiet(heard[i], w.sent)
    ensures intervals != [] ==> !a.Abs().required && a.Abs().commands == {}
  {
    hide NewestWasQuiet, Genuine;
    verdicts, heard := [], [];
    for i := 0 to |intervals|
      invariant w.Valid() && |verdicts| == |heard| == i
      invariant forall k :: 0 <= k < i && verdicts[k] == Verdict(Ready, false) ==> NewestWasQuiet(heard[k], w.sent)
      invariant i > 0 ==> !a.Abs().required && a.Abs().commands == {}
    {
      ghost var before := w.sent;
      ghost var ms: seq<Message>;
      var word, busy;
      word, busy, ms := Watch(w, a, intervals[i].events, intervals[i].now);
      forall k | 0 <= k < i && verdicts[k] == Verdict(Ready, false) ensures NewestWasQuiet(heard[k], w.sent) {
        StillQuiet(heard[k], before, w.sent);
      }
      verdicts, heard := verdicts + [Verdict(word, busy)], heard + [ms];
      a.Stop();
    }
  }

  lemma StillQuiet(ms: seq<Message>, before: seq<Sent>, after: seq<Sent>)
    requires NewestWasQuiet(ms, before) && before <= after
    ensures NewestWasQuiet(ms, after)
  {
    var k: nat :| Highest(ms, k) && 0 < Number(ms[k].o) <= |before|
                  && before[Number(ms[k].o) - 1] == Sent(ms[k].o, true);
    assert after[Number(ms[k].o) - 1] == before[Number(ms[k].o) - 1];
  }

  /** One event of the editor or its terminals, when it can happen. */
  method Live(w: Watcher, e: Event)
    requires w.Valid()
    modifies w
    ensures w.Valid() && old(w.sent) <= w.sent
  {
    hide Numbering, Ledger, Tied, OneEach, Distinct, Log, Instance, Quiet;
    if !w.Room(1) { return; }
    match e
    case Tick => var o := w.Observe(None);
    case Appear(t, shell, job) =>
      if t !in w.seen && t !in w.running && (job.None? || (!shell && job.value !in w.begun)) {
        w.Appear(t, shell, job);
      }
    case Vanish(index) =>
      if index < |w.open| { w.Vanish(index); }
    case Integrate(t) =>
      if t in w.open && t !in w.running { w.Integrate(t); }
    case Begin(t, x) =>
      if t in w.open && t !in w.running && x !in w.begun { w.Begin(t, x); }
    case Finish(t, reported) =>
      if t in w.running { w.Finish(t, w.running[t], reported); }
    case RepeatStart(handle, t) =>
      if (handle.None?
          || (handle.value in w.begun && forall u :: u in w.running && w.running[u] == handle.value ==> u == t))
         && (t !in w.open || t !in w.running || handle == Some(w.running[t])) {
        w.Started(handle, t);
      }
    case RepeatEnd(x, t) =>
      if x !in w.running.Values && (t !in w.open || t !in w.running) { w.Ended(x, t); }
    case ReportClose(t) =>
      if t !in w.open { w.Closed(t); }
    case _ =>
  }

  lemma NoneGenuine(sent: seq<Sent>)
    ensures Genuine([], sent)
  {
  }

  lemma StillGenuine(ms: seq<Message>, before: seq<Sent>, after: seq<Sent>)
    requires Genuine(ms, before) && before <= after
    ensures Genuine(ms, after)
  {
    forall i | 0 <= i < |ms| && ms[i].Seen? ensures exists j :: 0 <= j < |after| && after[j].o == ms[i].o {
      var j :| 0 <= j < |before| && before[j].o == ms[i].o;
      assert after[j].o == ms[i].o;
    }
  }

  lemma MoreGenuine(ms: seq<Message>, m: Message, sent: seq<Sent>, j: nat)
    requires Genuine(ms, sent) && (m.Seen? ==> j < |sent| && sent[j].o == m.o) && (m.Noted? ==> m.event == "edit")
    ensures Genuine(ms + [m], sent)
  {
  }

  lemma HeardOne(s: State, ms: seq<Message>, clock: seq<nat>, m: Message, now: nat)
    requires |clock| == |ms|
    ensures Heard(s, ms + [m], clock + [now]) == Received(Heard(s, ms, clock), m, now)
  {
    assert (ms + [m])[..|ms|] == ms && (clock + [now])[..|ms|] == clock;
  }
}
