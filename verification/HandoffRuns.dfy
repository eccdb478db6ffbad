/** Handoffs over whole runs: many calls, many operations, other writers in between, and recovery. */
module HandoffRuns {
  import opened Outcomes
  import opened Wrappers
  import opened Workspace
  import opened HandoffRequest
  import opened HandoffBooks
  import opened HandoffRecovery
  import opened Handoff

  datatype Call = Call(request: Request, mode: Mode)

  /** All acts of one operation that name a commit name the same one. */
  ghost predicate Agree(acts: seq<Act>) {
    forall i, k :: 0 <= i < |acts| && 0 <= k < |acts| && Operation(acts[i]) == Operation(acts[k])
                   && HandoffBooks.Names(acts[i]).Some? && HandoffBooks.Names(acts[k]).Some?
          ==> HandoffBooks.Names(acts[i]) == HandoffBooks.Names(acts[k])
  }

  ghost predicate AllGrown(a: map<string, Journal>, b: map<string, Journal>) {
    forall op :: op in a ==> op in b && Grown(a[op], b[op])
  }

  /** Any calls for any operations, each failing or dying anywhere, with other writers acting all along. */
  method Campaign(w: Checkout, calls: seq<Call>)
    requires Sound(w)
    modifies w`site, w`trace, w`failures, w`acts, w`journals
    ensures Sound(w) && old(w.acts) <= w.acts && AllGrown(old(w.journals), w.journals)
    ensures Agree(w.acts)
  {
    hide Sound, Later, OnlyBy, Grown, Resumable, Unharmed, Landed;
    ghost var js0, a0 := w.journals, w.acts;
    StillGrown(js0);
    for i := 0 to |calls|
      invariant Sound(w) && a0 <= w.acts && AllGrown(js0, w.journals)
    {
      ghost var js1, a1 := w.journals, w.acts;
      var o := Apply(w, calls[i].request, calls[i].mode);
      GrownLater(js0, js1, w.journals, calls[i].request.operation);
      assert a1 <= w.acts by { ActsStay(a1, w.acts, calls[i].request.operation); }
    }
    AllAgree(w);
  }

  lemma StillGrown(js: map<string, Journal>)
    ensures AllGrown(js, js)
  {
  }

  lemma GrownLater(a: map<string, Journal>, b: map<string, Journal>, c: map<string, Journal>, op: string)
    requires AllGrown(a, b) && Later(b, c, op)
    ensures AllGrown(a, c)
  {
  }

  lemma ActsStay(a: seq<Act>, b: seq<Act>, op: string)
    requires OnlyBy(a, b, op)
    ensures a <= b
  {
  }

  lemma AllAgree(w: Checkout)
    requires Sound(w)
    ensures Agree(w.acts)
  {
    hide Books, Operation;
    var acts := w.acts;
    forall i, k | 0 <= i < |acts| && 0 <= k < |acts| && Operation(acts[i]) == Operation(acts[k])
                  && HandoffBooks.Names(acts[i]).Some? && HandoffBooks.Names(acts[k]).Some?
      ensures HandoffBooks.Names(acts[i]) == HandoffBooks.Names(acts[k])
    {
      OneCommit(w.site.graph, w.journals, acts, w.branch, i, k);
    }
  }

  /** Recovery: after any number of undisturbed attempts that failed or died wherever they liked, one more attempt
      that does not fail finishes, unless an attempt died holding the index lock or left a bundle file cut short. */
  method Recover(w: Checkout, r: Request, tries: nat) returns (o: Outcome<Receipt>, ghost before: Site)
    requires Sound(w) && Ready(w, r) && Refusal(r) == None
    modifies w`site, w`trace, w`failures, w`acts, w`journals
    ensures Sound(w) && Ready(w, r) && old(w.acts) <= w.acts
    ensures Unharmed(before, r) ==> o.Fine? && Landing(w, o.value) && Receipted(w, r, o.value)
    ensures r.operation in old(w.journals) && old(w.journals)[r.operation].commit.Some? && o.Fine? ==>
              o.value.sha == old(w.journals)[r.operation].commit.value
  {
    hide Sound, Later, OnlyBy, Grown, Resumable, Unharmed, Landed, Refusal;
    ghost var js0, a0 := w.journals, w.acts;
    StillGrown(js0);
    for i := 0 to tries
      invariant Sound(w) && Ready(w, r) && a0 <= w.acts && AllGrown(js0, w.journals)
    {
      ghost var js1, a1 := w.journals, w.acts;
      var attempt := Apply(w, r, Mode(false, false, false, true));
      GrownLater(js0, js1, w.journals, r.operation);
      ActsStay(a1, w.acts, r.operation);
    }
    before := w.site;
    ghost var js1, a1 := w.journals, w.acts;
    o := Apply(w, r, Mode(false, false, false, false));
    GrownLater(js0, js1, w.journals, r.operation);
    ActsStay(a1, w.acts, r.operation);
    if r.operation in js0 { SameCommit(js0[r.operation], w.journals[r.operation]); }
  }

  lemma SameCommit(a: Journal, b: Journal)
    requires Grown(a, b)
    ensures a.commit.Some? ==> b.commit == a.commit
  {
  }
}
