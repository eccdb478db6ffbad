/** What the helper concludes from a stream of messages that the network may lose, repeat and reorder. */
module ObserverProtocol {
  import opened Wrappers
  import opened Text
  import opened TerminalActivity

  datatype Message = Seen(o: Observation) | Noted(event: string, id: Option<string>)

  ghost function Received(s: State, m: Message, now: nat): State {
    match m
    case Seen(o) => Observed(s, o, now)
    case Noted(event, id) => Reported(s, event, id, now)
  }

  /** The state after a stream of messages, with the clock read at each of them. */
  ghost function Heard(s: State, ms: seq<Message>, clock: seq<nat>): State
    requires |clock| == |ms|
  {
    if ms == [] then s
    else
      var n := |ms| - 1;
      Received(Heard(s, ms[..n], clock[..n]), ms[n], clock[n])
  }

  /** Observations of one v3 observer, where a number names one observation, mixed with editor activity. */
  ghost predicate OneObserver(ms: seq<Message>, observer: string) {
    && "v3:" <= observer
    && (forall i :: 0 <= i < |ms| && ms[i].Seen? ==> ms[i].o.observer == observer)
    && (forall i :: 0 <= i < |ms| && ms[i].Noted? ==> ms[i].event != "command_start" && ms[i].event != "command_end")
    && (forall i, j ::
          0 <= i < |ms| && 0 <= j < |ms| && Counts(ms[i]) && Counts(ms[j]) && Number(ms[i].o) == Number(ms[j].o) ==>
            ms[i].o == ms[j].o)
  }

  predicate Counts(m: Message) { m.Seen? && Numbered(m.o) }

  ghost predicate Highest(ms: seq<Message>, k: nat) {
    && k < |ms| && Counts(ms[k])
    && forall i :: 0 <= i < |ms| && Counts(ms[i]) ==> Number(ms[i].o) <= Number(ms[k].o)
  }

  /** `s` knows exactly what `o` said, and still carries the certainty of `base`. */
  ghost predicate Reflects(s: State, o: Observation, base: State)
    requires Numbered(o)
  {
    && s.required && !s.conflict && s.uncertain == base.uncertain
    && s.observer == Some(o.observer) && s.sequence == Number(o)
    && (if Complete(o)
        then !s.incomplete && s.observedAt.Some? && s.unsupported == !AllIntegrated(o)
        && s.commands == Names(o.executions)
        else s.incomplete)
  }

  ghost predicate Untouched(s: State, base: State) {
    s == base.(last := s.last)
  }

  lemma FirstPacket(s: State, m: Message, now: nat, base: State)
    requires Untouched(s, Required(base)) && (m.Noted? ==> m.event != "command_start" && m.event != "command_end")
    requires m.Seen? ==> V3(m.o)
    ensures if Counts(m) then Reflects(Received(s, m, now), m.o, base)
            else Untouched(Received(s, m, now), Required(base))
  {
    hide Id, Decimal, ParseU64, Admissible, Names, AllIntegrated, Overflow;
  }

  lemma LaterPacket(s: State, o: Observation, m: Message, now: nat, base: State)
    requires Numbered(o) && Reflects(s, o, base)
             && (m.Noted? ==> m.event != "command_start" && m.event != "command_end")
    requires m.Seen? ==> V3(m.o) && m.o.observer == o.observer
    ensures Reflects(Received(s, m, now), if Counts(m) && Number(m.o) > Number(o) then m.o else o, base)
  {
    hide Id, Decimal, ParseU64, Admissible, Names, AllIntegrated, Overflow;
  }

  lemma {:induction false} Settled(base: State, ms: seq<Message>, clock: seq<nat>, observer: string)
    requires |clock| == |ms| && OneObserver(ms, observer)
    ensures var s := Heard(Required(base), ms, clock);
            || (Untouched(s, Required(base)) && forall i :: 0 <= i < |ms| ==> !Counts(ms[i]))
            || exists k: nat :: Highest(ms, k) && Reflects(s, ms[k].o, base)
  {
    hide Numbered, Number, Reflects, Untouched, Received, OneObserver, Required;
    if ms == [] {
      assert Untouched(Required(base), Required(base)) by { Same(Required(base)); }
    } else {
      var n := |ms| - 1;
      var init := ms[..n];
      Prefix(ms, observer);
      Settled(base, init, clock[..n], observer);
      var before := Heard(Required(base), init, clock[..n]);
      if Untouched(before, Required(base)) && forall i :: 0 <= i < n ==> !Counts(init[i]) {
        FirstPacket(before, ms[n], clock[n], base);
        if Counts(ms[n]) { assert Highest(ms, n); }
      } else {
        var k: nat :| Highest(init, k) && Reflects(before, init[k].o, base);
        assert ms[k] == init[k];
        LaterPacket(before, ms[k].o, ms[n], clock[n], base);
        if Counts(ms[n]) && Number(ms[n].o) > Number(ms[k].o) {
          assert Highest(ms, n);
        } else {
          assert Highest(ms, k);
        }
      }
    }
  }

  lemma Prefix(ms: seq<Message>, observer: string)
    requires ms != [] && OneObserver(ms, observer)
    ensures OneObserver(ms[..|ms| - 1], observer)
    ensures forall i :: 0 <= i < |ms| && ms[i].Seen? ==> ms[i].o.observer == observer
    ensures var m := ms[|ms| - 1];
            && (m.Seen? ==> V3(m.o))
            && (m.Noted? ==> m.event != "command_start" && m.event != "command_end")
  {
    hide Numbered, Number;
  }

  lemma Same(s: State)
    ensures Untouched(s, s)
  {
  }

  /** Any delivery of one observer's packets, in any order, with losses and repeats, leaves the verdict that its
      highest-numbered packet alone would leave. */
  lemma HighestDecides(base: State, ms: seq<Message>, clock: seq<nat>, observer: string, k: nat, at: nat, late: bool)
    requires |clock| == |ms| && OneObserver(ms, observer) && Highest(ms, k)
    ensures var s, t := Heard(Required(base), ms, clock), Observed(Required(base), ms[k].o, at);
            Said(s, late) == Said(t, late) && BusyIf(s, late) == BusyIf(t, late)
  {
    Settled(base, ms, clock, observer);
    var s := Heard(Required(base), ms, clock);
    var j: nat :| Highest(ms, j) && Reflects(s, ms[j].o, base);
    assert ms[j].o == ms[k].o;
    assert Reflects(Observed(Required(base), ms[k].o, at), ms[k].o, base) by {
      hide Id, Decimal, ParseU64, Admissible, Names, AllIntegrated, Overflow;
    }
  }

  /** With no usable packet at all the helper keeps saying that it has seen nothing. */
  lemma NothingHeard(base: State, ms: seq<Message>, clock: seq<nat>, observer: string, late: bool)
    requires |clock| == |ms| && OneObserver(ms, observer) && forall i :: 0 <= i < |ms| ==> !Counts(ms[i])
    ensures Said(Heard(Required(base), ms, clock), late) == Missing && BusyIf(Heard(Required(base), ms, clock), late)
  {
    Settled(base, ms, clock, observer);
  }

  /** One well-formed packet from a second observer settles the verdict, whatever either observer sends after it. */
  lemma {:induction false} SecondObserverSticks(
      s: State, o: Observation, at: nat, ms: seq<Message>, clock: seq<nat>, late: bool)
    requires s.required && s.observer.Some? && Numbered(o) && o.observer != s.observer.value && |clock| == |ms|
    ensures var t := Heard(Observed(s, o, at), ms, clock);
            t.required && t.conflict && t.observer == s.observer && Said(t, late) == Conflict && BusyIf(t, late)
  {
    hide Id, Decimal, ParseU64;
    if ms != [] {
      var n := |ms| - 1;
      SecondObserverSticks(s, o, at, ms[..n], clock[..n], late);
    }
  }

  /** Only a new `require_observation`, or the end of custody, discharges the conflict. */
  lemma ConflictCause(s: State, m: Message, now: nat)
    ensures Received(s, m, now).conflict
            <==> (s.conflict || (m.Seen? && Numbered(m.o) && s.observer.Some? && s.observer.value != m.o.observer))
    ensures s.observer.Some? ==> Received(s, m, now).observer == s.observer
  {
    hide Id, Decimal, ParseU64;
  }
}
