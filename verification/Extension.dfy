/** The editor extension that reports terminals (ide-agent/activity/extension.js), together with the editor window
    it watches. Terminals and executions are objects in the source, so they are plain references here. */
module Extension {
  import opened Wrappers
  import opened Text
  import opened TerminalActivity

  const SAFE_INTEGERS: nat := 0x20_0000_0000_0000

  datatype Entry = Entry(execution: nat, number: nat, terminal: nat)

  /** A snapshot, and whether no listed terminal was running a command when it was built. */
  datatype Sent = Sent(o: Observation, quiet: bool)

  // ---- names ----

  predicate Instance(s: string) { |s| <= 64 && "v3:" <= s && forall k :: 0 <= k < |s| ==> IdChar(s[k]) }

  function TerminalName(instance: string, n: nat): string { instance + ":terminal:" + Decimal(n) }

  function ExecutionName(instance: string, n: nat): string { instance + ":" + Decimal(n) }

  lemma DecimalShort(n: nat)
    requires n <= SAFE_INTEGERS
    ensures |Decimal(n)| <= 16 && forall k :: 0 <= k < |Decimal(n)| ==> IdChar(Decimal(n)[k])
  {
    assert Pow10(8) == 100000000 by { assert Pow10(4) == 10000; }
    assert Pow10(16) == 10000000000000000 by { assert Pow10(12) == 1000000000000; }
    DecimalLength(n, 16);
    DecimalDigits(n);
  }

  lemma NamesAreIds(instance: string, n: nat)
    requires Instance(instance) && n <= SAFE_INTEGERS
    ensures Id(instance) && Id(TerminalName(instance, n)) && Id(ExecutionName(instance, n))
    ensures TerminalName(instance, n) != OVERFLOW_ID
  {
    DecimalShort(n);
    assert instance[0] == 'v';
    assert TerminalName(instance, n)[0] == 'v';
  }

  lemma NamesDiffer(instance: string, m: nat, n: nat)
    requires m != n
    ensures TerminalName(instance, m) != TerminalName(instance, n)
            && ExecutionName(instance, m) != ExecutionName(instance, n)
  {
    var long, short := instance + ":terminal:", instance + ":";
    assert TerminalName(instance, m)[|long|..] == Decimal(m) && TerminalName(instance, n)[|long|..] == Decimal(n);
    assert ExecutionName(instance, m)[|short|..] == Decimal(m) && ExecutionName(instance, n)[|short|..] == Decimal(n);
    if Decimal(m) == Decimal(n) { DecimalInjective(m, n); }
  }

  lemma NumberOf(n: nat)
    requires 0 < n <= SAFE_INTEGERS
    ensures ParseU64(Decimal(n)) == Some(n)
  {
    ParseDecimal(n);
  }

  // ---- what the books must satisfy ----

  ghost predicate Distinct(q: seq<nat>) { forall i, j :: 0 <= i < j < |q| ==> q[i] != q[j] }

  /** Numbers handed out once each. */
  ghost predicate Numbering(m: map<nat, nat>, count: nat) {
    && (forall t :: t in m ==> 0 < m[t] <= count)
    && (forall t, u :: t in m && u in m && m[t] == m[u] ==> t == u)
  }

  function Recorded(active: seq<Entry>): set<nat> { set a | a in active :: a.execution }

  ghost predicate Ledger(active: seq<Entry>, executions: map<nat, nat>) {
    && |active| <= EXECUTION_LIMIT
    && (forall i, j :: 0 <= i < j < |active| ==> active[i].execution != active[j].execution)
    && (forall i :: 0 <= i < |active| ==>
          active[i].execution in executions && executions[active[i].execution] == active[i].number)
  }

  /** A recorded execution that is still running runs in the terminal it is recorded for. */
  ghost predicate Tied(active: seq<Entry>, running: map<nat, nat>) {
    forall a, t :: a in active && t in running && running[t] == a.execution ==> a.terminal == t
  }

  ghost predicate OneEach(running: map<nat, nat>) {
    forall t, u :: t in running && u in running && running[t] == running[u] ==> t == u
  }

  predicate Quiet(open: seq<nat>, running: map<nat, nat>) { forall t :: t in open ==> t !in running }

  ghost predicate Tracked(active: seq<Entry>, execution: nat, terminal: nat) {
    exists a :: a in active && a.execution == execution && a.terminal == terminal
  }

  /** Everything running in a listed terminal outside `except` keeps the helper from concluding that it is idle. */
  ghost predicate Covered(open: seq<nat>, running: map<nat, nat>, shown: set<nat>, active: seq<Entry>,
                          overflow: set<nat>, blind: bool, except: set<nat>) {
    blind || forall t :: t in open && t in running && t !in except ==>
                           t !in shown || t in overflow || Tracked(active, running[t], t)
  }

  predicate Clear(o: Observation) { Complete(o) && AllIntegrated(o) && o.executions == [] }

  ghost predicate Faithful(instance: string, s: Sent, n: nat) {
    && Numbered(s.o) && Number(s.o) == n && s.o.observer == instance && Admissible(s.o)
    && (Clear(s.o) ==> s.quiet)
  }

  ghost predicate Log(instance: string, sent: seq<Sent>) {
    forall i :: 0 <= i < |sent| ==> Faithful(instance, sent[i], i + 1)
  }

  /** Coming back under the limit does not show that the listed terminals are idle. */
  function Doubted(open: seq<nat>, overflowed: bool): set<nat> {
    if overflowed && |open| <= TERMINAL_LIMIT then set t | t in open else {}
  }

  function Kept(active: seq<Entry>, keep: Entry -> bool): (kept: seq<Entry>)
    ensures forall a :: a in kept <==> a in active && keep(a)
  {
    if active == [] then []
    else
      var init, last := Kept(active[..|active| - 1], keep), active[|active| - 1];
      if keep(last) then init + [last] else init
  }

  function Other(execution: nat): Entry -> bool { (a: Entry) => a.execution != execution }

  function Elsewhere(terminal: nat): Entry -> bool { (a: Entry) => a.terminal != terminal }

  lemma {:induction false} KeptLedger(active: seq<Entry>, keep: Entry -> bool, executions: map<nat, nat>,
                                      running: map<nat, nat>)
    requires Ledger(active, executions) && Tied(active, running)
    ensures var kept := Kept(active, keep);
            && Ledger(kept, executions) && Tied(kept, running)
            && (forall a :: a in kept <==> a in active && keep(a))
            && Recorded(kept) <= Recorded(active) && |kept| <= |active|
  {
    if active != [] {
      var init, last := active[..|active| - 1], active[|active| - 1];
      assert forall a :: a in active <==> a in init || a == last;
      KeptLedger(init, keep, executions, running);
      forall a | a in Kept(init, keep) ensures a.execution != last.execution {
        var i :| 0 <= i < |init| && init[i] == a;
        assert active[i] == a;
      }
    }
  }

  lemma StillTracked(open: seq<nat>, running: map<nat, nat>, before: set<nat>, after: set<nat>, active: seq<Entry>,
                     kept: seq<Entry>, overflow: set<nat>, less: set<nat>, blind: bool)
    requires Covered(open, running, before, active, overflow, blind, {})
    requires forall t :: t in open && t in running ==> (t in after ==> t in before) && (t in overflow ==> t in less)
    requires forall a, t :: a in active && t in open && t in running && a.terminal == t && a.execution == running[t] ==>
               a in kept
    ensures Covered(open, running, after, kept, less, blind, {})
  {
    forall t | t in open && t in running && Tracked(active, running[t], t) ensures Tracked(kept, running[t], t) {
      var a :| a in active && a.execution == running[t] && a.terminal == t;
      assert a in kept;
    }
  }

  function ExecutionNames(instance: string, active: seq<Entry>): (names: seq<string>)
    ensures |names| == |active|
    ensures forall i :: 0 <= i < |active| ==> names[i] == ExecutionName(instance, active[i].number)
  {
    seq(|active|, i requires 0 <= i < |active| => ExecutionName(instance, active[i].number))
  }

  lemma NamesFit(instance: string, active: seq<Entry>, executions: map<nat, nat>, count: nat)
    requires Instance(instance) && Ledger(active, executions) && Numbering(executions, count) && count < SAFE_INTEGERS
    ensures var names := ExecutionNames(instance, active);
            && |names| <= EXECUTION_LIMIT
            && (forall i :: 0 <= i < |names| ==> Id(names[i]))
            && (forall i, j :: 0 <= i < j < |names| ==> names[i] != names[j])
  {
    hide Id, ExecutionName, TerminalName, Instance;
    var names := ExecutionNames(instance, active);
    forall i | 0 <= i < |names| ensures Id(names[i]) {
      NamesAreIds(instance, active[i].number);
    }
    forall i, j | 0 <= i < j < |names| ensures names[i] != names[j] {
      NamesDiffer(instance, active[i].number, active[j].number);
    }
  }

  lemma OverflowPacket(o: Observation, n: nat)
    requires Instance(o.observer) && 0 < n <= SAFE_INTEGERS && o.sequence == Decimal(n)
    requires o.terminals == [Terminal(OVERFLOW_ID, false)] && o.executions == [] && o.event == None
    ensures Numbered(o) && Number(o) == n && V3(o) && Admissible(o) && !Complete(o)
  {
    NumberOf(n);
    NamesAreIds(o.observer, n);
    assert o.terminals[0].id == OVERFLOW_ID;
  }

  lemma PlainPacket(o: Observation, n: nat)
    requires Instance(o.observer) && 0 < n <= SAFE_INTEGERS && o.sequence == Decimal(n)
    requires |o.terminals| <= TERMINAL_LIMIT && |o.executions| <= EXECUTION_LIMIT
    requires forall i :: 0 <= i < |o.terminals| ==> Id(o.terminals[i].id) && o.terminals[i].id != OVERFLOW_ID
    requires forall i :: 0 <= i < |o.executions| ==> Id(o.executions[i])
    requires forall i, j :: 0 <= i < j < |o.terminals| ==> o.terminals[i].id != o.terminals[j].id
    requires forall i, j :: 0 <= i < j < |o.executions| ==> o.executions[i] != o.executions[j]
    requires o.event.None? || o.event.value == "command_start" || o.event.value == "command_end"
    ensures Numbered(o) && Number(o) == n && V3(o) && Admissible(o) && Complete(o)
  {
    hide Id, Decimal, ParseU64;
    NumberOf(n);
    NamesAreIds(o.observer, n);
  }

  lemma UnavailableName()
    ensures Id("api-unavailable") && "api-unavailable" != OVERFLOW_ID
  {
    assert OVERFLOW_ID[0] != "api-unavailable"[0];
  }

  /** With nothing recorded and every listed terminal shown as integrated, nothing can be running. */
  lemma ClearMeansQuiet(o: Observation, open: seq<nat>, running: map<nat, nat>, integrated: set<nat>,
                        unobserved: set<nat>, active: seq<Entry>)
    requires Covered(open, running, integrated - unobserved, active, {}, false, {}) && active == [] && AllIntegrated(o)
    requires |o.terminals| == |open|
    requires forall i :: 0 <= i < |open| ==>
               (o.terminals[i].integrated <==> open[i] in integrated && open[i] !in unobserved)
    ensures Quiet(open, running)
  {
  }

  lemma CoveredAnyway(open: seq<nat>, running: map<nat, nat>, shown: set<nat>, active: seq<Entry>, overflow: set<nat>)
    ensures Covered(open, running, shown, active, overflow, true, {})
    ensures (forall t :: t in open ==> t !in shown) ==>
              forall blind :: Covered(open, running, shown, active, overflow, blind, {})
  {
  }

  lemma Listed(open: seq<nat>, terminal: nat)
    requires Distinct(open) && terminal !in open
    ensures Distinct(open + [terminal])
  {
  }

  lemma NextNumber(m: map<nat, nat>, count: nat, key: nat)
    requires Numbering(m, count) && key !in m
    ensures Numbering(m[key := count + 1], count + 1)
  {
  }

  lemma Entered(active: seq<Entry>, before: map<nat, nat>, after: map<nat, nat>, running: map<nat, nat>, a: Entry)
    requires Ledger(active, before) && Tied(active, running) && |active| < EXECUTION_LIMIT && !Has(active, a.execution)
    requires a.execution in after && after[a.execution] == a.number
    requires forall x :: x in before ==> x in after && after[x] == before[x]
    requires forall t :: t in running && running[t] == a.execution ==> t == a.terminal
    ensures Ledger(active + [a], after) && Tied(active + [a], running)
    ensures Recorded(active + [a]) == Recorded(active) + {a.execution}
  {
  }

  lemma StillCovered(open: seq<nat>, running: map<nat, nat>, before: set<nat>, after: set<nat>, active: seq<Entry>,
                     overflow: set<nat>, blind: bool, a: Entry)
    requires Covered(open, running, before, active, overflow, blind, {a.terminal}) && after <= before + {a.terminal}
    requires a.terminal in open && a.terminal in running ==> running[a.terminal] == a.execution
    ensures Covered(open, running, after, active + [a], overflow, blind, {})
  {
    assert a in active + [a];
    forall t | t in running && Tracked(active, running[t], t) ensures Tracked(active + [a], running[t], t) {
      var b :| b in active && b.execution == running[t] && b.terminal == t;
      assert b in active + [a];
    }
  }

  /** A fresh execution is tied to nothing else. */
  lemma Begun(execution: nat, terminal: nat, active: seq<Entry>, running: map<nat, nat>)
    requires execution !in running.Values && execution !in Recorded(active) && terminal !in running
    requires Tied(active, running) && OneEach(running)
    ensures Tied(active, running[terminal := execution]) && OneEach(running[terminal := execution])
  {
    forall a | a in active ensures a.execution != execution {
      assert a.execution in Recorded(active);
    }
  }

  lemma FaithfulOf(instance: string, s: Sent, n: nat)
    requires Numbered(s.o) && Number(s.o) == n && s.o.observer == instance && Admissible(s.o)
             && (Clear(s.o) ==> s.quiet)
    ensures Faithful(instance, s, n)
  {
  }

  lemma LogGrows(instance: string, sent: seq<Sent>, s: Sent)
    requires Log(instance, sent) && Faithful(instance, s, |sent| + 1)
    ensures Log(instance, sent + [s])
  {
    hide Faithful;
  }

  // ---- the object ----

  class Watcher {
    const instance: string
    const supported: bool
    // the editor window
    var open: seq<nat>
    var integrated: set<nat>
    // what its terminals really do, which the extension cannot read
    var running: map<nat, nat>
    var seen: set<nat>
    var begun: set<nat>
    // the extension
    var terminals: map<nat, nat>
    var executions: map<nat, nat>
    var active: seq<Entry>
    var unobserved: set<nat>
    var executionOverflow: set<nat>
    var capacityCustodyLost: bool
    var terminalOverflow: bool
    var terminalSequence: nat
    var sequence: nat
    var observationSequence: nat
    // the wire
    var sent: seq<Sent>

    ghost predicate Books()
      reads this
    {
      && Instance(instance) && Distinct(open) && OneEach(running)
      && Numbering(terminals, terminalSequence) && Numbering(executions, sequence)
      && Ledger(active, executions) && Tied(active, running)
      && observationSequence == |sent| && Log(instance, sent)
      && (forall t :: t in open ==> t in seen) && running.Values <= begun && Recorded(active) <= begun
    }

    ghost predicate Safe(except: set<nat>)
      reads this
    {
      Covered(open, running, integrated - unobserved, active, executionOverflow,
              !supported || terminalOverflow || capacityCustodyLost, except)
    }

    ghost predicate Valid()
      reads this
    {
      Books() && Safe({})
    }

    /** Counters stay in the range where the source's numbers are exact. */
    predicate Room(executions: nat)
      reads this
    {
      && terminalSequence + |open| < SAFE_INTEGERS && sequence + executions < SAFE_INTEGERS
      && observationSequence < SAFE_INTEGERS
    }

    method Observe(event: Option<string>) returns (o: Observation)
      requires Books() && Room(0)
      requires Safe({}) || |open| > TERMINAL_LIMIT
      requires event.None? || event.value == "command_start" || event.value == "command_end"
      modifies this`terminalOverflow, this`unobserved, this`terminals, this`terminalSequence,
               this`observationSequence, this`sent
      ensures Valid()
      ensures sent == old(sent) + [Sent(o, Quiet(open, running))]
      ensures terminalOverflow == (|open| > TERMINAL_LIMIT)
      ensures unobserved == old(unobserved) + Doubted(open, old(terminalOverflow))
      ensures Complete(o) <==> !(terminalOverflow || executionOverflow != {} || capacityCustodyLost)
      ensures Complete(o) ==> o.executions == ExecutionNames(instance, active)
      ensures o.event == if Complete(o) then event else None
      ensures Complete(o) && supported ==>
                |o.terminals| == |open| && forall i :: 0 <= i < |open| ==>
                  (o.terminals[i].integrated <==> open[i] in integrated && open[i] !in unobserved)
      ensures terminalSequence <= old(terminalSequence) + |open|
    {
      hide Faithful, Complete, ExecutionNames, Numbering, Ledger, Tied, Instance, Log, OneEach, Quiet, Distinct,
          Recorded, Covered;
      CoveredAnyway(open, running, integrated - unobserved, active, executionOverflow);
      CoveredAnyway(open, running, integrated - (unobserved + set t | t in open), active, executionOverflow);
      if |open| > TERMINAL_LIMIT {
        terminalOverflow := true;
      } else if terminalOverflow {
        terminalOverflow := false;
        unobserved := unobserved + set t | t in open;
      }
      o := Build(event);
      LogGrows(instance, sent, Sent(o, Quiet(open, running)));
      sent := sent + [Sent(o, Quiet(open, running))];
    }

    method Build(event: Option<string>) returns (o: Observation)
      requires Valid() && Room(0) && terminalOverflow == (|open| > TERMINAL_LIMIT)
      requires event.None? || event.value == "command_start" || event.value == "command_end"
      modifies this`terminals, this`terminalSequence, this`observationSequence
      ensures Numbering(terminals, terminalSequence) && observationSequence == old(observationSequence) + 1
      ensures Faithful(instance, Sent(o, Quiet(open, running)), observationSequence)
      ensures Complete(o) <==> !(terminalOverflow || executionOverflow != {} || capacityCustodyLost)
      ensures Complete(o) ==> o.executions == ExecutionNames(instance, active)
      ensures o.event == if Complete(o) then event else None
      ensures Complete(o) && supported ==>
                |o.terminals| == |open| && forall i :: 0 <= i < |open| ==>
                  (o.terminals[i].integrated <==> open[i] in integrated && open[i] !in unobserved)
      ensures terminalSequence <= old(terminalSequence) + |open|
    {
      hide Faithful, Complete, Admissible, V3, Numbered, Number, Id, Decimal, Instance, Numbering, ExecutionNames,
          Ledger, Tied, Log, OneEach, Quiet, Covered;
      var overflow := terminalOverflow || |executionOverflow| > 0 || capacityCustodyLost;
      observationSequence := observationSequence + 1;
      var n := observationSequence;
      if overflow {
        o := Observation(instance, Decimal(n), [Terminal(OVERFLOW_ID, false)], [], None);
        OverflowPacket(o, n);
        assert Clear(o) ==> Complete(o);
      } else {
        var listed := [Terminal("api-unavailable", false)];
        if supported { listed := List(); } else { UnavailableName(); }
        NamesFit(instance, active, executions, sequence);
        o := Observation(instance, Decimal(n), listed, ExecutionNames(instance, active), event);
        PlainPacket(o, n);
        assert !supported ==> o.terminals[0] == Terminal("api-unavailable", false);
        if Clear(o) {
          assert executionOverflow == {} && |active| == 0;
          ClearMeansQuiet(o, open, running, integrated, unobserved, active);
        }
      }
      FaithfulOf(instance, Sent(o, Quiet(open, running)), n);
    }

    /** The terminals as the snapshot shows them; a terminal seen for the first time gets the next number. */
    method List() returns (listed: seq<Terminal>)
      requires Instance(instance) && Distinct(open) && Numbering(terminals, terminalSequence)
      requires terminalSequence + |open| < SAFE_INTEGERS
      modifies this`terminals, this`terminalSequence
      ensures Numbering(terminals, terminalSequence)
      ensures old(terminalSequence) <= terminalSequence <= old(terminalSequence) + |open|
      ensures |listed| == |open|
      ensures forall i :: 0 <= i < |open| ==>
                (listed[i].integrated <==> open[i] in integrated && open[i] !in unobserved)
      ensures forall i :: 0 <= i < |open| ==> Id(listed[i].id) && listed[i].id != OVERFLOW_ID
      ensures forall i, j :: 0 <= i < j < |open| ==> listed[i].id != listed[j].id
    {
      hide Id, Instance, TerminalName;
      listed := [];
      for i := 0 to |open|
        invariant Numbering(terminals, terminalSequence)
        invariant old(terminalSequence) <= terminalSequence <= old(terminalSequence) + i
        invariant |listed| == i
        invariant forall k :: 0 <= k < i ==> open[k] in terminals
        invariant forall k :: 0 <= k < i ==>
                    listed[k] == Terminal(TerminalName(instance, terminals[open[k]]), open[k] in integrated
                                          && open[k] !in unobserved)
      {
        if open[i] !in terminals {
          terminalSequence := terminalSequence + 1;
          terminals := terminals[open[i] := terminalSequence];
        }
        listed := listed + [Terminal(TerminalName(instance, terminals[open[i]]), open[i] in integrated
                                     && open[i] !in unobserved)];
      }
      forall i | 0 <= i < |open| ensures Id(listed[i].id) && listed[i].id != OVERFLOW_ID {
        NamesAreIds(instance, terminals[open[i]]);
      }
      forall i, j | 0 <= i < j < |open| ensures listed[i].id != listed[j].id {
        NamesDiffer(instance, terminals[open[i]], terminals[open[j]]);
      }
    }

    /** The constructor is the activation; commands may already run in the terminals it finds. */
    constructor (instance: string, supported: bool, open: seq<nat>, integrated: set<nat>, running: map<nat, nat>)
      requires Instance(instance) && Distinct(open) && OneEach(running) && |open| < SAFE_INTEGERS - 1
      ensures Valid() && this.open == open && this.running == running && |sent| == 1
      ensures sent[0].quiet == Quiet(open, running)
    {
      hide Covered, Faithful, Numbered;
      this.instance, this.supported, this.open, this.integrated, this.running := instance, supported, open,
          integrated, running;
      terminals, executions, active := map[], map[], [];
      executionOverflow, capacityCustodyLost := {}, false;
      terminalOverflow := |open| > TERMINAL_LIMIT;
      unobserved := if |open| > TERMINAL_LIMIT then {} else set t | t in open;
      terminalSequence, sequence, observationSequence := 0, 0, 0;
      seen, begun, sent := (set t | t in open), running.Values, [];
      new;
      CoveredAnyway(open, running, integrated - unobserved, active, executionOverflow);
      var o := Observe(None);
    }

    /** A terminal reports that a command started. */
    method Started(execution: Option<nat>, terminal: nat)
      requires Books() && Safe({terminal}) && Room(1)
      requires execution.Some? ==>
                 execution.value in begun && forall t :: t in running && running[t] == execution.value ==>
                 t == terminal
      requires terminal in open && terminal in running ==> execution == Some(running[terminal])
      modifies this`terminalOverflow, this`unobserved, this`terminals, this`terminalSequence, this`observationSequence,
               this`sent, this`active, this`executions, this`sequence, this`executionOverflow, this`capacityCustodyLost
      ensures Valid()
      ensures |sent| == |old(sent)| + 1 && old(sent) <= sent
      ensures terminalSequence <= old(terminalSequence) + |open| && sequence <= old(sequence) + 1
      ensures if Recordable(execution, terminal, open, old(active)) && |old(active)| < EXECUTION_LIMIT
              then execution.value in executions
                   && active == old(active) + [Entry(execution.value, executions[execution.value], terminal)]
              else active == old(active)
      ensures if Recordable(execution, terminal, open, old(active)) && |old(active)| >= EXECUTION_LIMIT
              then terminal in executionOverflow || capacityCustodyLost
              else executionOverflow == old(executionOverflow) && capacityCustodyLost == old(capacityCustodyLost)
      ensures unobserved == Doubted(open, old(terminalOverflow))
                            + if Recordable(execution, terminal, open, old(active)) && |old(active)| < EXECUTION_LIMIT
                              then old(unobserved) - {terminal} else old(unobserved)
    {
      hide Doubted, Faithful, Numbering, Ledger, Log, OneEach, Distinct, Recorded, Quiet, Instance, Complete,
          ExecutionNames;
      if |open| > TERMINAL_LIMIT || terminal !in open || execution.None? || Has(active, execution.value) {
        var o := Observe(None);
        return;
      }
      if |active| >= EXECUTION_LIMIT {
        Forgo(terminal);
        var o := Observe(None);
        return;
      }
      Record(execution.value, terminal);
      var o := Observe(Some("command_start"));
    }

    /** A start that the extension has no room to record: the terminal is remembered, or custody is given up. */
    method Forgo(terminal: nat)
      requires Books() && Safe({terminal})
      modifies this`executionOverflow, this`capacityCustodyLost
      ensures Valid()
      ensures terminal in executionOverflow || capacityCustodyLost
      ensures old(executionOverflow) <= executionOverflow <= old(executionOverflow) + {terminal}
      ensures capacityCustodyLost == (old(capacityCustodyLost)
                                      || (terminal !in old(executionOverflow)
                                          && |old(executionOverflow)| >= TERMINAL_LIMIT))
    {
      hide Faithful, Numbering, Ledger, Log, OneEach, Distinct, Recorded, Tied, Tracked, Instance;
      if terminal !in executionOverflow {
        if |executionOverflow| < TERMINAL_LIMIT {
          executionOverflow := executionOverflow + {terminal};
        } else {
          capacityCustodyLost := true;
        }
      }
    }

    method Record(e: nat, terminal: nat)
      requires Books() && Safe({terminal}) && !Has(active, e) && |active| < EXECUTION_LIMIT && e in begun
      requires forall t :: t in running && running[t] == e ==> t == terminal
      requires terminal in open && terminal in running ==> running[terminal] == e
      modifies this`unobserved, this`executions, this`sequence, this`active
      ensures Valid() && sequence <= old(sequence) + 1 && unobserved == old(unobserved) - {terminal}
      ensures e in executions && active == old(active) + [Entry(e, executions[e], terminal)]
    {
      hide Faithful, Log, OneEach, Distinct, Instance, Numbering, Ledger, Tied, Recorded, Covered, Has;
      unobserved := unobserved - {terminal};
      if e !in executions {
        NextNumber(executions, sequence, e);
        sequence := sequence + 1;
        executions := executions[e := sequence];
      }
      Entered(active, old(executions), executions, running, Entry(e, executions[e], terminal));
      StillCovered(open, running, integrated - old(unobserved), integrated - unobserved, active, executionOverflow,
                   !supported || terminalOverflow || capacityCustodyLost, Entry(e, executions[e], terminal));
      active := active + [Entry(e, executions[e], terminal)];
    }

    /** A terminal reports that a command ended. */
    method Ended(execution: nat, terminal: nat)
      requires Valid() && Room(0)
      requires execution !in running.Values && (terminal in open ==> terminal !in running)
      modifies this`terminalOverflow, this`unobserved, this`terminals, this`terminalSequence, this`observationSequence,
               this`sent, this`active
      ensures Valid() && |sent| == |old(sent)| + 1 && old(sent) <= sent
      ensures active == Kept(old(active), Other(execution))
      ensures terminalSequence <= old(terminalSequence) + |open|
      ensures unobserved == old(unobserved) - {terminal} + Doubted(open, old(terminalOverflow))
      ensures Complete(sent[|sent| - 1].o) ==>
                sent[|sent| - 1].o.event == if Has(old(active), execution) || terminal in old(unobserved)
                                            then Some("command_end") else None
    {
      hide Faithful, Numbering, Ledger, Tied, Log, OneEach, Distinct, Recorded, Quiet, Instance, Complete,
          ExecutionNames, Covered, Kept;
      var keep := Other(execution);
      var ended, resolved := Has(active, execution), terminal in unobserved;
      KeptLedger(active, keep, executions, running);
      StillTracked(open, running, integrated - unobserved, integrated - (unobserved - {terminal}), active,
                   Kept(active, keep),
                   executionOverflow, executionOverflow, !supported || terminalOverflow || capacityCustodyLost);
      active := Kept(active, keep);
      unobserved := unobserved - {terminal};
      var o := Observe(if ended || resolved then Some("command_end") else None);
    }

    /** The editor reports that a terminal was closed; it has already left the list. */
    method Closed(terminal: nat)
      requires Valid() && Room(0) && terminal !in open
      modifies this`terminalOverflow, this`unobserved, this`terminals, this`terminalSequence, this`observationSequence,
               this`sent, this`active, this`executionOverflow
      ensures Valid() && |sent| == |old(sent)| + 1 && old(sent) <= sent
      ensures active == Kept(old(active), Elsewhere(terminal))
      ensures executionOverflow == old(executionOverflow) - {terminal}
      ensures terminalSequence <= old(terminalSequence) + |open|
    {
      hide Faithful, Numbering, Ledger, Tied, Log, OneEach, Distinct, Recorded, Quiet, Instance, Complete,
          ExecutionNames, Covered, Kept;
      var kept := Discard(terminal);
      KeptLedger(active, Elsewhere(terminal), executions, running);
      StillTracked(open, running, integrated - unobserved, integrated - (unobserved - {terminal}), active, kept,
                   executionOverflow, executionOverflow - {terminal}, !supported || terminalOverflow
                   || capacityCustodyLost);
      unobserved := unobserved - {terminal};
      executionOverflow := executionOverflow - {terminal};
      active := kept;
      var o := Observe(None);
    }

    method Discard(terminal: nat) returns (kept: seq<Entry>)
      ensures kept == Kept(active, Elsewhere(terminal))
    {
      kept := [];
      for i := 0 to |active|
        invariant kept == Kept(active[..i], Elsewhere(terminal))
      {
        assert active[..i + 1][..i] == active[..i];
        if active[i].terminal != terminal { kept := kept + [active[i]]; }
      }
      assert active[..|active|] == active;
    }

    // ---- what the editor and its terminals may do ----

    /** A new terminal is listed; one without integration may already be busy. */
    method Appear(terminal: nat, shell: bool, job: Option<nat>)
      requires Valid() && terminal !in seen && terminal !in running && (job.Some? ==> !shell && job.value !in begun)
      modifies this`open, this`integrated, this`running, this`seen, this`begun
      ensures Valid() && open == old(open) + [terminal]
      ensures running == if job.Some? then old(running)[terminal := job.value] else old(running)
      ensures integrated == if shell then old(integrated) + {terminal} else old(integrated) - {terminal}
    {
      hide Faithful, Numbering, Ledger, Log, Instance, Tracked, Recorded;
      assert terminal !in open;
      Listed(open, terminal);
      hide Distinct;
      open := open + [terminal];
      seen := seen + {terminal};
      integrated := if shell then integrated + {terminal} else integrated - {terminal};
      if job.Some? {
        Begun(job.value, terminal, active, running);
        running := running[terminal := job.value];
        begun := begun + {job.value};
      }
    }

    /** A terminal leaves the list, and its command ends with it. */
    method Vanish(index: nat)
      requires Valid() && index < |open|
      modifies this`open, this`running
      ensures Valid() && open == old(open)[..index] + old(open)[index + 1..]
      ensures running == old(running) - {old(open)[index]}
    {
      hide Faithful, Numbering, Ledger, Log, Instance, Tracked;
      var terminal := open[index];
      running := running - {terminal};
      open := open[..index] + open[index + 1..];
      assert forall t :: t in open ==> t in old(open);
    }

    /** Shell integration turns on only at a prompt. */
    method Integrate(terminal: nat)
      requires Valid() && terminal in open && terminal !in running
      modifies this`integrated
      ensures Valid() && integrated == old(integrated) + {terminal}
    {
      hide Faithful, Numbering, Ledger, Log, Instance, Tracked, Tied, OneEach, Distinct;
      integrated := integrated + {terminal};
    }

    /** A command starts. Only an integrated terminal tells the extension. */
    method Begin(terminal: nat, execution: nat)
      requires Valid() && Room(1) && terminal in open && terminal !in running && execution !in begun
      modifies this
      ensures Valid() && old(sent) <= sent && running == old(running)[terminal := execution]
      ensures open == old(open) && terminalSequence <= old(terminalSequence) + |open|
      ensures |sent| == |old(sent)| + if terminal in old(integrated) then 1 else 0
    {
      hide Faithful, Numbering, Ledger, Log, Instance, Tracked, Distinct, Quiet, Complete;
      Begun(execution, terminal, active, running);
      running := running[terminal := execution];
      begun := begun + {execution};
      if terminal in integrated { Started(Some(execution), terminal); }
    }

    /** A command ends; the report of it may be lost. */
    method Finish(terminal: nat, execution: nat, reported: bool)
      requires Valid() && Room(0) && terminal in running && running[terminal] == execution
      modifies this
      ensures Valid() && old(sent) <= sent && running == old(running) - {terminal}
    {
      hide Faithful, Numbering, Ledger, Log, Instance, Tracked, Distinct, Quiet, Complete;
      running := running - {terminal};
      if reported { Ended(execution, terminal); }
    }
  }

  predicate Has(active: seq<Entry>, execution: nat) {
    exists i :: 0 <= i < |active| && active[i].execution == execution
  }

  predicate Recordable(execution: Option<nat>, terminal: nat, open: seq<nat>, active: seq<Entry>) {
    |open| <= TERMINAL_LIMIT && terminal in open && execution.Some? && !Has(active, execution.value)
  }
}
