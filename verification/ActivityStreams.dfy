/** What a stream of messages leaves in the helper's bookkeeping, field by field: each field is what the latest message
    that speaks about it says (ide-agent/src/activity.rs). Nothing is assumed of the stream. */
module ActivityStreams {
  import opened Wrappers
  import opened Text
  import opened TerminalActivity
  import opened ObserverProtocol

  predicate Editing(m: Message) { m.Noted? && (m.event == "edit" || m.event == "save" || m.event == "selection") }

  predicate Starts(m: Message) { m.Noted? && m.event == "command_start" && m.id.Some? && Id(m.id.value) }

  predicate Ends(m: Message) { m.Noted? && m.event == "command_end" && m.id.Some? && Id(m.id.value) }

  /** A packet that the helper accepts and that exceeds no capacity. */
  predicate Taken(s: State, m: Message) { m.Seen? && Accepted(s, m.o) && !Overflow(m.o) }

  /** The message is work of the user: an edit, save or selection, a start, the end of a known command, or a snapshot
      sent because of one. */
  predicate Renews(s: State, m: Message) {
    || Editing(m) || Starts(m) || (Ends(m) && m.id.value in s.commands)
    || (Taken(s, m) && m.o.event.Some?)
  }

  /** The state when message `k` arrives. */
  ghost function Before(s: State, ms: seq<Message>, clock: seq<nat>, k: nat): State
    requires |clock| == |ms| && k <= |ms|
  {
    Heard(s, ms[..k], clock[..k])
  }

  lemma OneMore(s: State, ms: seq<Message>, clock: seq<nat>, k: nat)
    requires |clock| == |ms| && k < |ms|
    ensures Before(s, ms, clock, k + 1) == Received(Before(s, ms, clock, k), ms[k], clock[k])
  {
    assert ms[..k + 1][..k] == ms[..k] && clock[..k + 1][..k] == clock[..k];
  }

  lemma AtEnd(s: State, ms: seq<Message>, clock: seq<nat>)
    requires |clock| == |ms|
    ensures Before(s, ms, clock, |ms|) == Heard(s, ms, clock)
  {
    assert ms[..|ms|] == ms && clock[..|ms|] == clock;
  }

  // ---- the idle clock ----

  lemma RenewedOnce(s: State, m: Message, now: nat)
    ensures Received(s, m, now).last == if Renews(s, m) then now else s.last
  {
    hide Id, Decimal, ParseU64, Admissible, Names, AllIntegrated, Overflow;
  }

  /** The latest of the first `n` messages that renewed the lease, if any did. */
  ghost predicate Latest(s: State, ms: seq<Message>, clock: seq<nat>, n: nat, k: int)
    requires |clock| == |ms| && n <= |ms|
  {
    && -1 <= k < n && (k >= 0 ==> Renews(Before(s, ms, clock, k), ms[k]))
    && forall i :: k < i < n ==> !Renews(Before(s, ms, clock, i), ms[i])
  }

  /** The lease dates from the latest work of the user, or from the start. Periodic snapshots, refused packets and
      unknown events never renew it. */
  lemma IdleClock(s: State, ms: seq<Message>, clock: seq<nat>) returns (k: int)
    requires |clock| == |ms|
    ensures Latest(s, ms, clock, |ms|, k)
    ensures Heard(s, ms, clock).last == if k < 0 then s.last else clock[k]
  {
    hide Heard, Renews, Received;
    k := -1;
    assert Before(s, ms, clock, 0) == s by { NoneYet(s, ms, clock); }
    for n := 0 to |ms|
      invariant Latest(s, ms, clock, n, k)
      invariant Before(s, ms, clock, n).last == if k < 0 then s.last else clock[k]
    {
      OneMore(s, ms, clock, n);
      RenewedOnce(Before(s, ms, clock, n), ms[n], clock[n]);
      if Renews(Before(s, ms, clock, n), ms[n]) { k := n; }
    }
    AtEnd(s, ms, clock);
  }

  lemma NoneYet(s: State, ms: seq<Message>, clock: seq<nat>)
    requires |clock| == |ms|
    ensures Before(s, ms, clock, 0) == s
  {
  }

  // ---- the age of the observation ----

  lemma TakenOnce(s: State, m: Message, now: nat)
    ensures Received(s, m, now).observedAt == if Taken(s, m) then Some(now) else s.observedAt
  {
    hide Id, Decimal, ParseU64, Admissible, Names, AllIntegrated, Overflow;
  }

  ghost predicate LatestTaken(s: State, ms: seq<Message>, clock: seq<nat>, n: nat, k: int)
    requires |clock| == |ms| && n <= |ms|
  {
    && -1 <= k < n && (k >= 0 ==> Taken(Before(s, ms, clock, k), ms[k]))
    && forall i :: k < i < n ==> !Taken(Before(s, ms, clock, i), ms[i])
  }

  /** The observation is as old as the latest packet that was taken; nothing else makes it younger. */
  lemma ObservationClock(s: State, ms: seq<Message>, clock: seq<nat>) returns (k: int)
    requires |clock| == |ms|
    ensures LatestTaken(s, ms, clock, |ms|, k)
    ensures Heard(s, ms, clock).observedAt == if k < 0 then s.observedAt else Some(clock[k])
  {
    hide Heard, Taken, Received;
    k := -1;
    NoneYet(s, ms, clock);
    for n := 0 to |ms|
      invariant LatestTaken(s, ms, clock, n, k)
      invariant Before(s, ms, clock, n).observedAt == if k < 0 then s.observedAt else Some(clock[k])
    {
      OneMore(s, ms, clock, n);
      TakenOnce(Before(s, ms, clock, n), ms[n], clock[n]);
      if Taken(Before(s, ms, clock, n), ms[n]) { k := n; }
    }
    AtEnd(s, ms, clock);
  }

  // ---- the known commands ----

  /** The message settles whether `e` runs: a snapshot that was taken settles it for all commands. */
  predicate Speaks(s: State, m: Message, e: string) { Taken(s, m) || ((Starts(m) || Ends(m)) && m.id.value == e) }

  predicate Says(m: Message, e: string) { if m.Seen? then e in m.o.executions else m.event == "command_start" }

  /** A start beyond capacity is not recorded; the helper is uncertain from then on. */
  predicate Overruns(s: State, m: Message) { Starts(m) && |s.commands| >= EXECUTION_LIMIT }

  lemma CertainOnce(s: State, m: Message, now: nat)
    ensures Received(s, m, now).uncertain <==> s.uncertain || Overruns(s, m)
  {
    hide Id, Decimal, ParseU64, Admissible, AllIntegrated, Overflow, Names;
  }

  lemma SaidOnce(s: State, m: Message, now: nat, e: string)
    ensures !Overruns(s, m) ==>
              (e in Received(s, m, now).commands <==> if Speaks(s, m, e) then Says(m, e) else e in s.commands)
  {
    hide Id, Decimal, ParseU64, Admissible, AllIntegrated, Overflow;
  }

  ghost predicate LatestWord(s: State, ms: seq<Message>, clock: seq<nat>, n: nat, k: int, e: string)
    requires |clock| == |ms| && n <= |ms|
  {
    && -1 <= k < n && (k >= 0 ==> Speaks(Before(s, ms, clock, k), ms[k], e))
    && forall i :: k < i < n ==> !Speaks(Before(s, ms, clock, i), ms[i], e)
  }

  /** While capacity is never exceeded, a command counts as running exactly if the latest message about it says so. */
  lemma KnownCommands(s: State, ms: seq<Message>, clock: seq<nat>, e: string) returns (k: int)
    requires |clock| == |ms| && !Heard(s, ms, clock).uncertain
    ensures LatestWord(s, ms, clock, |ms|, k, e)
    ensures e in Heard(s, ms, clock).commands <==> if k < 0 then e in s.commands else Says(ms[k], e)
  {
    hide Heard, Speaks, Says, Overruns, Received;
    k := -1;
    NoneYet(s, ms, clock);
    AtEnd(s, ms, clock);
    Certain(s, ms, clock);
    for n := 0 to |ms|
      invariant LatestWord(s, ms, clock, n, k, e)
      invariant e in Before(s, ms, clock, n).commands <==> if k < 0 then e in s.commands else Says(ms[k], e)
    {
      OneMore(s, ms, clock, n);
      SaidOnce(Before(s, ms, clock, n), ms[n], clock[n], e);
      if Speaks(Before(s, ms, clock, n), ms[n], e) { k := n; }
    }
  }

  /** The helper is uncertain exactly if it was before, or if some start met a full set. */
  lemma Certain(s: State, ms: seq<Message>, clock: seq<nat>)
    requires |clock| == |ms|
    ensures Heard(s, ms, clock).uncertain
            <==> s.uncertain || exists i :: 0 <= i < |ms| && Overruns(Before(s, ms, clock, i), ms[i])
  {
    hide Heard, Overruns, Received;
    NoneYet(s, ms, clock);
    AtEnd(s, ms, clock);
    for n := 0 to |ms|
      invariant Before(s, ms, clock, n).uncertain
                <==> s.uncertain || exists i :: 0 <= i < n && Overruns(Before(s, ms, clock, i), ms[i])
    {
      OneMore(s, ms, clock, n);
      CertainOnce(Before(s, ms, clock, n), ms[n], clock[n]);
    }
  }

  // ---- which packets are accepted ----

  /** Every packet that counts came from the same observer, and this one has a higher number than those before it. */
  ghost predicate Newest(ms: seq<Message>, k: nat)
    requires k < |ms|
  {
    Counts(ms[k]) && forall i :: 0 <= i < k && Counts(ms[i]) ==>
      ms[i].o.observer == ms[k].o.observer && Number(ms[i].o) < Number(ms[k].o)
      && forall j :: 0 <= j < k && Counts(ms[j]) ==> ms[j].o.observer == ms[i].o.observer
  }

  ghost predicate Several(ms: seq<Message>, n: nat)
    requires n <= |ms|
  {
    exists i, j :: 0 <= i < j < n && Counts(ms[i]) && Counts(ms[j]) && ms[i].o.observer != ms[j].o.observer
  }

  /** What the first `n` messages leave of observer, conflict and watermark. */
  ghost predicate Marked(s: State, ms: seq<Message>, n: nat)
    requires n <= |ms|
  {
    && (s.conflict <==> Several(ms, n))
    && (s.observer.None? ==> s.sequence == 0 && forall i :: 0 <= i < n ==> !Counts(ms[i]))
    && (s.observer.Some? && !s.conflict ==>
          && (exists i :: 0 <= i < n && Counts(ms[i]) && Number(ms[i].o) == s.sequence)
          && forall i :: 0 <= i < n && Counts(ms[i]) ==>
               ms[i].o.observer == s.observer.value && Number(ms[i].o) <= s.sequence)
    && (s.observer.Some? ==> exists i :: 0 <= i < n && Counts(ms[i]) && ms[i].o.observer == s.observer.value)
  }

  /** What one message does to the three fields. */
  lemma Stamped(s: State, m: Message, now: nat)
    ensures var t := Received(s, m, now);
            if Counts(m) && !Foreign(s, m.o) && !s.conflict && Number(m.o) > s.sequence
            then t.observer == Some(m.o.observer) && !t.conflict && t.sequence == Number(m.o)
            else && t.observer == s.observer && t.sequence == s.sequence
                 && (t.conflict <==> s.conflict || (Counts(m) && Foreign(s, m.o)))
    ensures Counts(m) ==> Number(m.o) > 0
  {
    hide Id, Decimal, ParseU64, Admissible, Names, AllIntegrated, Overflow, V3;
  }

  lemma MarkedOnce(s: State, ms: seq<Message>, n: nat, now: nat)
    requires n < |ms| && Marked(s, ms, n)
    ensures Marked(Received(s, ms[n], now), ms, n + 1)
  {
    hide Numbered, Number, Received;
    Stamped(s, ms[n], now);
  }

  lemma AcceptedOnce(s: State, ms: seq<Message>, n: nat)
    requires n < |ms| && Marked(s, ms, n) && ms[n].Seen?
    ensures Accepted(s, ms[n].o) <==> Newest(ms, n) && V3(ms[n].o) && Admissible(ms[n].o)
  {
    hide Id, Decimal, ParseU64, Admissible, V3;
  }

  /** From the start of custody, exactly those packets are accepted that are admissible and newer than everything before
      them, as long as a single observer was heard. */
  lemma AcceptedPackets(base: State, ms: seq<Message>, clock: seq<nat>, k: nat)
    requires |clock| == |ms| && k < |ms| && ms[k].Seen?
    ensures Accepted(Before(Required(base), ms, clock, k), ms[k].o)
            <==> Newest(ms, k) && V3(ms[k].o) && Admissible(ms[k].o)
  {
    hide Heard, Received, Accepted, Newest, V3, Admissible, Marked;
    var s := Required(base);
    NoneYet(s, ms, clock);
    assert Marked(s, ms, 0) by { Unmarked(base, ms); }
    for n := 0 to k
      invariant Marked(Before(s, ms, clock, n), ms, n)
    {
      OneMore(s, ms, clock, n);
      MarkedOnce(Before(s, ms, clock, n), ms, n, clock[n]);
    }
    AcceptedOnce(Before(s, ms, clock, k), ms, k);
  }

  lemma Unmarked(base: State, ms: seq<Message>)
    ensures Marked(Required(base), ms, 0)
  {
  }

  // ---- when the helper is ready ----

  /** Of the first `n` messages this one decides: no packet that counts has a higher number, none with this number came
      before it, and all are of one observer. */
  ghost predicate Decides(ms: seq<Message>, n: nat, k: nat)
    requires n <= |ms|
  {
    && k < n && Newest(ms, k)
    && forall i :: 0 <= i < n && Counts(ms[i]) ==>
         ms[i].o.observer == ms[k].o.observer && Number(ms[i].o) <= Number(ms[k].o)
  }

  /** What one message does to the verdict. */
  lemma Judged(s: State, m: Message, now: nat)
    ensures var t := Received(s, m, now);
            && t.required == s.required
            && if Counts(m) && !Foreign(s, m.o) && !s.conflict && Number(m.o) > s.sequence
               then && t.incomplete == !Complete(m.o)
                    && (Complete(m.o) ==> t.observedAt == Some(now) && t.unsupported == !AllIntegrated(m.o))
               else t.incomplete == s.incomplete && t.observedAt == s.observedAt && t.unsupported == s.unsupported
  {
    hide Id, Decimal, ParseU64, Admissible, Names, AllIntegrated, Overflow;
  }

  /** The state knows what the deciding packet said, unless two observers were heard. */
  ghost predicate Standing(s: State, ms: seq<Message>, clock: seq<nat>, n: nat, k: int)
    requires |clock| == |ms| && n <= |ms|
  {
    && Marked(s, ms, n) && s.required && -1 <= k < n
    && (!s.conflict && k < 0 ==> s.observer.None? && s.observedAt.None? && !s.incomplete)
    && (!s.conflict && k >= 0 ==>
          && s.observer.Some? && Decides(ms, n, k) && s.incomplete == !Complete(ms[k].o)
          && (Complete(ms[k].o) ==> s.observedAt == Some(clock[k]) && s.unsupported == !AllIntegrated(ms[k].o)))
  }

  lemma StandsOn(s: State, ms: seq<Message>, clock: seq<nat>, n: nat, k: int) returns (j: int)
    requires |clock| == |ms| && n < |ms| && Standing(s, ms, clock, n, k)
    ensures Standing(Received(s, ms[n], clock[n]), ms, clock, n + 1, j)
  {
    hide Numbered, Number, Received, Complete, AllIntegrated;
    MarkedOnce(s, ms, n, clock[n]);
    Stamped(s, ms[n], clock[n]);
    Judged(s, ms[n], clock[n]);
    j := if Counts(ms[n]) && !Foreign(s, ms[n].o) && !s.conflict && Number(ms[n].o) > s.sequence then n else k;
  }

  /** From the start of custody, whatever is lost, repeated or reordered, the helper says exactly this: conflict if
      packets that count are of two observers, missing if none counts, and otherwise what the packet with the highest
      number calls for: incomplete if it is not complete, else stale ten seconds after it first arrived, else
      unsupported if it shows a terminal that is not integrated, else ready. */
  lemma WordMeans(base: State, ms: seq<Message>, clock: seq<nat>, now: nat)
    requires |clock| == |ms|
    ensures var t := Heard(Required(base), ms, clock); var w := Said(t, TooOld(t, now));
            && (w == Conflict <==> Several(ms, |ms|))
            && (w == Missing <==> forall i :: 0 <= i < |ms| ==> !Counts(ms[i]))
            && (w == Incomplete <==> exists k: nat :: Decides(ms, |ms|, k) && !Complete(ms[k].o))
            && (w == Stale <==> exists k: nat :: Decides(ms, |ms|, k) && Complete(ms[k].o) && now >= clock[k] + 10)
            && (w == Unsupported <==>
                  exists k: nat :: Decides(ms, |ms|, k) && Complete(ms[k].o) && now < clock[k] + 10
                                   && !AllIntegrated(ms[k].o))
            && (w == Ready <==>
                  exists k: nat :: Decides(ms, |ms|, k) && Complete(ms[k].o) && now < clock[k] + 10
                                   && AllIntegrated(ms[k].o))
  {
    hide Heard, Received, Newest, Complete, AllIntegrated, Numbered, Number;
    var s := Required(base);
    NoneYet(s, ms, clock);
    var k := -1;
    assert Standing(s, ms, clock, 0, k) by { Unmarked(base, ms); }
    for n := 0 to |ms|
      invariant Standing(Before(s, ms, clock, n), ms, clock, n, k)
    {
      OneMore(s, ms, clock, n);
      k := StandsOn(Before(s, ms, clock, n), ms, clock, n, k);
    }
    AtEnd(s, ms, clock);
    OnlyOne(ms, k);
    if Several(ms, |ms|) { NoneDecides(ms); }
  }

  lemma OnlyOne(ms: seq<Message>, k: int)
    ensures forall i: nat :: 0 <= k && Decides(ms, |ms|, k) && Decides(ms, |ms|, i) ==> i == k
    ensures (forall i :: 0 <= i < |ms| ==> !Counts(ms[i])) ==> forall i: nat :: !Decides(ms, |ms|, i)
    ensures 0 <= k && Decides(ms, |ms|, k) ==> Counts(ms[k])
  {
    hide Numbered, Number;
  }

  lemma NoneDecides(ms: seq<Message>)
    requires Several(ms, |ms|)
    ensures forall k: nat :: !Decides(ms, |ms|, k)
  {
    hide Numbered, Number, Newest;
  }
}
