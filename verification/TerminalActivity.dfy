/** The helper's terminal bookkeeping (ide-agent/src/activity.rs): which numbered observations it accepts,
    and what it concludes from them. */
module TerminalActivity {
  import opened Wrappers
  import opened Text

  const TERMINAL_LIMIT: nat := 256
  const EXECUTION_LIMIT: nat := 4096
  const STALE_AFTER: nat := 10
  const OVERFLOW_ID := "observation-overflow"

  datatype Terminal = Terminal(id: string, integrated: bool)

  datatype Observation = Observation(
    observer: string, sequence: string, terminals: seq<Terminal>, executions: seq<string>, event: Option<string>)

  datatype Word = NotRequired | Conflict | Incomplete | Missing | Stale | Unsupported | Ready

  /** `observedAt` and `last` are readings of an abstract clock in seconds. */
  datatype State = State(
    last: nat, commands: set<string>, uncertain: bool, required: bool, observer: Option<string>, sequence: nat,
    observedAt: Option<nat>, unsupported: bool, conflict: bool, incomplete: bool)

  // ---- meaning ----

  predicate IdChar(c: char) { 'a' <= c <= 'z' || 'A' <= c <= 'Z' || '0' <= c <= '9' || c == '-' || c == ':' }

  predicate Id(s: string) { 0 < |s| <= 128 && forall k :: 0 <= k < |s| ==> IdChar(s[k]) }

  /** The packet carries a canonical positive number and a usable observer name. */
  predicate Numbered(o: Observation) {
    && ParseU64(o.sequence).Some?
    && Decimal(ParseU64(o.sequence).value) == o.sequence
    && ParseU64(o.sequence).value > 0
    && Id(o.observer)
  }

  function Number(o: Observation): nat
    requires Numbered(o)
  {
    ParseU64(o.sequence).value
  }

  predicate V3(o: Observation) { "v3:" <= o.observer }

  /** The helper's completeness check. */
  predicate Admissible(o: Observation) {
    && |o.terminals| <= TERMINAL_LIMIT && |o.executions| <= EXECUTION_LIMIT
    && (forall i :: 0 <= i < |o.terminals| ==> Id(o.terminals[i].id))
    && (forall i :: 0 <= i < |o.executions| ==> Id(o.executions[i]))
    && (o.event.None? || o.event.value == "command_start" || o.event.value == "command_end")
    && (forall i, j :: 0 <= i < j < |o.terminals| ==> o.terminals[i].id != o.terminals[j].id)
    && (forall i, j :: 0 <= i < j < |o.executions| ==> o.executions[i] != o.executions[j])
  }

  predicate Overflow(o: Observation) { exists i :: 0 <= i < |o.terminals| && o.terminals[i].id == OVERFLOW_ID }

  /** A packet that lets the helper replace what it knows. */
  predicate Complete(o: Observation) { V3(o) && Admissible(o) && !Overflow(o) }

  predicate AllIntegrated(o: Observation) { forall i :: 0 <= i < |o.terminals| ==> o.terminals[i].integrated }

  function Names(q: seq<string>): set<string> { set e | e in q }

  predicate Foreign(s: State, o: Observation) { s.observer.Some? && s.observer.value != o.observer }

  /** The effect of one packet. */
  ghost function Observed(s: State, o: Observation, now: nat): State {
    if !Numbered(o) then s
    else if Foreign(s, o) then s.(conflict := true)
    else if s.conflict || Number(o) <= s.sequence then s
    else
      Incorporated(s.(observer := Some(o.observer), sequence := Number(o)), o, now)
  }

  ghost function Incorporated(s: State, o: Observation, now: nat): State {
    if !Complete(o) then s.(incomplete := true)
    else s.(incomplete := false, observedAt := Some(now), unsupported := !AllIntegrated(o),
            commands := Names(o.executions), last := if o.event.Some? then now else s.last)
  }

  /** The reply to one packet. */
  predicate Accepted(s: State, o: Observation) {
    Numbered(o) && !Foreign(s, o) && !s.conflict && Number(o) > s.sequence && V3(o) && Admissible(o)
  }

  function Required(s: State): State {
    s.(required := true, observer := None, observedAt := None, sequence := 0, conflict := false, incomplete := false)
  }

  function Stopped(s: State): State { s.(required := false, commands := {}) }

  /** What the helper says, given whether its last accepted observation is too old. */
  function Said(s: State, late: bool): Word {
    if !s.required then NotRequired
    else if s.conflict then Conflict
    else if s.incomplete then Incomplete
    else if s.observedAt.None? then Missing
    else if late then Stale
    else if s.unsupported then Unsupported
    else Ready
  }

  predicate TooOld(s: State, now: nat) { s.observedAt.Some? && now >= s.observedAt.value + STALE_AFTER }

  predicate BusyIf(s: State, late: bool) {
    s.uncertain || s.commands != {} || (Said(s, late) != Ready && Said(s, late) != NotRequired)
  }

  // ---- the object ----

  class Activity {
    var last: nat
    var commands: set<string>
    var uncertain: bool
    var required: bool
    var observer: Option<string>
    var sequence: nat
    var observedAt: Option<nat>
    var unsupported: bool
    var conflict: bool
    var incomplete: bool

    function Abs(): State
      reads this
    {
      State(last, commands, uncertain, required, observer, sequence, observedAt, unsupported, conflict, incomplete)
    }

    constructor (now: nat)
      ensures Abs() == State(now, {}, false, false, None, 0, None, false, false, false)
    {
      last, commands, uncertain, required := now, {}, false, false;
      observer, sequence, observedAt := None, 0, None;
      unsupported, conflict, incomplete := false, false, false;
    }

    method RequireObservation()
      modifies this
      ensures Abs() == Required(old(Abs()))
    {
      required, observer, observedAt, sequence := true, None, None, 0;
      conflict, incomplete := false, false;
    }

    method Stop()
      modifies this
      ensures Abs() == Stopped(old(Abs()))
    {
      required, commands := false, {};
    }

    method ObservationWord(now: nat) returns (w: Word)
      ensures w == Said(Abs(), TooOld(Abs(), now))
    {
      if !required { return NotRequired; }
      if conflict { return Conflict; }
      if incomplete { return Incomplete; }
      if observedAt.None? { return Missing; }
      if now >= observedAt.value + STALE_AFTER { return Stale; }
      if unsupported { return Unsupported; }
      return Ready;
    }

    method Busy(now: nat) returns (b: bool)
      ensures b == BusyIf(Abs(), TooOld(Abs(), now))
    {
      var w := ObservationWord(now);
      b := uncertain || commands != {} || (w != Ready && w != NotRequired);
    }

    /** Seconds since the lease was last renewed. */
    method IdleSecs(now: nat) returns (idle: nat)
      ensures last + idle == if now > last then now else last
    {
      return if now > last then now - last else 0;
    }

    /** Returns whether the packet was accepted. */
    method Observe(o: Observation, now: nat) returns (accepted: bool)
      modifies this
      ensures Abs() == Observed(old(Abs()), o, now)
      ensures accepted <==> Accepted(old(Abs()), o)
    {
      hide Id, Decimal, ParseU64, Incorporated, V3, Admissible;
      var number := ParseU64(o.sequence);
      if number.None? { return false; }
      if Decimal(number.value) != o.sequence || number.value == 0 || !Id(o.observer) { return false; }
      if observer.Some? && observer.value != o.observer {
        conflict := true;
        return false;
      }
      if conflict || number.value <= sequence { return false; }
      observer := Some(o.observer);
      sequence := number.value;
      accepted := Incorporate(o, now);
    }

    /** The part of `Observe` after the observer and its watermark are settled. */
    method Incorporate(o: Observation, now: nat) returns (accepted: bool)
      modifies this
      ensures Abs() == Incorporated(old(Abs()), o, now)
      ensures accepted <==> V3(o) && Admissible(o)
    {
      hide Admissible, Names;
      if !("v3:" <= o.observer) {
        incomplete := true;
        return false;
      }
      var admissible := CheckAdmissible(o);
      if !admissible {
        incomplete := true;
        return false;
      }
      if exists i :: 0 <= i < |o.terminals| && o.terminals[i].id == OVERFLOW_ID {
        incomplete := true;
        return true;
      }
      incomplete := false;
      observedAt := Some(now);
      unsupported := exists i :: 0 <= i < |o.terminals| && !o.terminals[i].integrated;
      commands := Names(o.executions);
      if o.event.Some? { last := now; }
      return true;
    }

    /** Single events: edits, saves and selections renew the lease, command events keep the command set. */
    method ReportExecution(event: string, id: Option<string>, now: nat) returns (known: bool)
      modifies this
      ensures Abs() == Reported(old(Abs()), event, id, now)
      ensures known <==> event == "edit" || event == "save" || event == "selection"
                         || ((event == "command_start" || event == "command_end") && id.Some? && Id(id.value))
    {
      if event != "command_start" && event != "command_end" {
        if event == "edit" || event == "save" || event == "selection" {
          last := now;
          return true;
        }
        return false;
      }
      if id.None? || !Id(id.value) { return false; }
      if event == "command_start" {
        last := now;
        if |commands| >= EXECUTION_LIMIT { uncertain := true; } else { commands := commands + {id.value}; }
      } else if id.value in commands {
        commands := commands - {id.value};
        last := now;
      }
      return true;
    }
  }

  /** The bounds, the identifiers and the two hash sets of the source's condition. */
  method CheckAdmissible(o: Observation) returns (ok: bool)
    ensures ok <==> Admissible(o)
  {
    var terminals := set t | t in o.terminals :: t.id;
    var executions := Names(o.executions);
    DistinctIds(o.terminals);
    DistinctNames(o.executions);
    ok := !(|o.terminals| > TERMINAL_LIMIT || |o.executions| > EXECUTION_LIMIT
            || (exists i :: 0 <= i < |o.terminals| && !Id(o.terminals[i].id))
            || (exists i :: 0 <= i < |o.executions| && !Id(o.executions[i]))
            || !(o.event.None? || o.event.value == "command_start" || o.event.value == "command_end")
            || |terminals| != |o.terminals| || |executions| != |o.executions|);
  }

  function Reported(s: State, event: string, id: Option<string>, now: nat): State {
    if event != "command_start" && event != "command_end" then
      if event == "edit" || event == "save" || event == "selection" then s.(last := now) else s
    else if id.None? || !Id(id.value) then s
    else if event == "command_start" then
      if |s.commands| >= EXECUTION_LIMIT then s.(last := now, uncertain := true)
      else s.(last := now, commands := s.commands + {id.value})
    else if id.value in s.commands then s.(last := now, commands := s.commands - {id.value})
    else s
  }

  // ---- a set as large as the list means no repeats ----

  lemma {:induction false} DistinctNames(q: seq<string>)
    ensures |Names(q)| <= |q|
    ensures |Names(q)| == |q| <==> forall i, j :: 0 <= i < j < |q| ==> q[i] != q[j]
  {
    if q != [] {
      var init, last := q[..|q| - 1], q[|q| - 1];
      DistinctNames(init);
      var before := Names(init);
      assert Names(q) == before + {last};
      if last in before {
        var i :| 0 <= i < |init| && init[i] == last;
        assert q[i] == q[|q| - 1];
        assert before + {last} == before;
      } else {
        assert forall i :: 0 <= i < |init| ==> init[i] in before;
        assert forall i, j :: 0 <= i < j < |init| ==> (init[i] != init[j] <==> q[i] != q[j]);
      }
    }
  }

  lemma DistinctIds(q: seq<Terminal>)
    ensures |set t | t in q :: t.id| == |q| <==> forall i, j :: 0 <= i < j < |q| ==> q[i].id != q[j].id
  {
    var names := seq(|q|, i requires 0 <= i < |q| => q[i].id);
    DistinctNames(names);
    assert forall i, j :: 0 <= i < j < |q| ==> (names[i] == names[j] <==> q[i].id == q[j].id);
    assert (set t | t in q :: t.id) == Names(names) by {
      forall t | t in q ensures t.id in names {
        var i :| 0 <= i < |q| && q[i] == t;
        assert names[i] == t.id;
      }
      forall e | e in names ensures exists t :: t in q && t.id == e {
        var i :| 0 <= i < |names| && names[i] == e;
        assert q[i] in q;
      }
    }
  }
}
