/** The session index of sigiledd/src/overview.rs: one counting pass that has to agree with the
    pairwise scan `binding_safe` makes. */
module Overview {
  import opened Wrappers
  import opened Sessions

  // ---- what the index must say ----

  /** Lexicographic order of strings, as the sort by session id uses. */
  predicate Before(a: string, b: string) {
    if b == "" then false
    else if a == "" then true
    else a[0] < b[0] || (a[0] == b[0] && Before(a[1..], b[1..]))
  }

  predicate Ascending(list: seq<Record>) {
    forall i, j :: 0 <= i < j < |list| ==> Before(list[i].id, list[j].id)
  }

  /** `list` is the store sorted by session id. */
  ghost predicate Listing(s: Snapshot, list: seq<Record>) {
    && (forall id :: id in s.records ==> s.records[id].id == id)
    && (forall id :: id in s.records ==> s.records[id] in list)
    && (forall r :: r in list ==> r.id in s.records && s.records[r.id] == r)
    && Ascending(list)
  }

  /** The pairwise scan: some other token-holding record names the same container. */
  ghost predicate OtherOwner(s: Snapshot, r: Record) {
    exists id ::
      id in s.records && s.records[id].id != r.id && s.records[id].token && s.records[id].Container() == r.Container()
  }

  ghost predicate NeedsAttention(s: Snapshot, r: Record) {
    r.lifecycle == Failed || r.error.Some? || !r.runtimeOwned || OtherOwner(s, r)
  }

  ghost function OfProject(list: seq<Record>, project: string): (r: seq<Record>)
    ensures forall x :: x in r <==> x in list && x.project == project
  {
    if list == [] then []
    else OfProject(list[..|list| - 1], project) + if list[|list| - 1].project == project then [list[|list| - 1]] else []
  }

  ghost function AttentionOf(s: Snapshot, list: seq<Record>, project: string): (ids: seq<string>)
    ensures forall x :: x in list && x.project == project && NeedsAttention(s, x) ==> x.id in ids
    ensures forall id :: id in ids ==>
              exists x :: x in list && x.project == project && NeedsAttention(s, x) && x.id == id
  {
    if list == [] then []
    else
      var last := list[|list| - 1];
      AttentionOf(s, list[..|list| - 1], project) + if last.project == project && NeedsAttention(s, last)
                                                    then [last.id] else []
  }

  // ---- the counting pass ----

  function Count(list: seq<Record>, c: Container): nat {
    if list == [] then 0
    else Count(list[..|list| - 1], c) + if list[|list| - 1].token && list[|list| - 1].Container() == c then 1 else 0
  }

  lemma {:induction false} CountZero(list: seq<Record>, c: Container)
    ensures Count(list, c) == 0 <==> forall i :: 0 <= i < |list| ==> !(list[i].token && list[i].Container() == c)
  {
    if list != [] {
      CountZero(list[..|list| - 1], c);
      assert forall i :: 0 <= i < |list| - 1 ==> list[i] == list[..|list| - 1][i];
    }
  }

  /** Taking one token-holding record out lowers the count of its container by one. */
  lemma {:induction false} CountWithout(list: seq<Record>, c: Container, k: nat)
    requires k < |list|
    ensures Count(list, c) == Count(list[..k] + list[k + 1..], c) + if list[k].token && list[k].Container() == c
                                                                    then 1 else 0
  {
    var init := list[..|list| - 1];
    var rest := list[..k] + list[k + 1..];
    if k == |list| - 1 {
      assert rest == init;
    } else {
      CountWithout(init, c, k);
      assert init[..k] + init[k + 1..] == rest[..|rest| - 1];
    }
  }

  /** The list without its k-th record holds the other records of the store. */
  lemma Others(s: Snapshot, list: seq<Record>, k: nat)
    requires Listing(s, list) && k < |list|
    ensures forall r :: r in list[..k] + list[k + 1..] <==> r in list && r.id != list[k].id
  {
    var rest := list[..k] + list[k + 1..];
    forall i | 0 <= i < |rest| ensures rest[i] in list && rest[i].id != list[k].id {
      var j := if i < k then i else i + 1;
      assert rest[i] == list[j];
      Irreflexive(list[k].id);
    }
    forall r | r in list && r.id != list[k].id ensures r in rest {
      var j :| 0 <= j < |list| && list[j] == r;
      assert rest[if j < k then j else j - 1] == r;
    }
  }

  /** The count says whether somebody else claims the container. */
  lemma CountFindsOtherOwner(s: Snapshot, list: seq<Record>, r: Record)
    requires Listing(s, list) && r in list
    ensures Count(list, r.Container()) > (if r.token then 1 else 0) <==> OtherOwner(s, r)
  {
    var c := r.Container();
    var k :| 0 <= k < |list| && list[k] == r;
    var rest := list[..k] + list[k + 1..];
    CountWithout(list, c, k);
    CountZero(rest, c);
    Others(s, list, k);
    if Count(rest, c) > 0 {
      var i :| 0 <= i < |rest| && rest[i].token && rest[i].Container() == c;
      assert rest[i] in rest;
    }
    if OtherOwner(s, r) {
      var id :| id in s.records && s.records[id].id != r.id && s.records[id].token && s.records[id].Container() == c;
      assert s.records[id] in rest;
    }
  }

  lemma {:induction false} Irreflexive(a: string)
    ensures !Before(a, a)
  {
    if a != "" { Irreflexive(a[1..]); }
  }

  function Row<T>(m: map<string, seq<T>>, key: string): seq<T> {
    if key in m then m[key] else []
  }

  function Pushed<T>(m: map<string, seq<T>>, key: string, x: T): (r: map<string, seq<T>>)
    ensures forall k :: Row(r, k) == Row(m, k) + if k == key then [x] else []
  {
    m[key := Row(m, key) + [x]]
  }

  datatype Index = Index(projects: map<string, seq<Record>>, attention: map<string, seq<string>>, total: nat)

  method CountOwners(list: seq<Record>) returns (owners: map<Container, nat>)
    ensures forall c :: (if c in owners then owners[c] else 0) == Count(list, c)
  {
    owners := map[];
    for i := 0 to |list|
      invariant forall c :: (if c in owners then owners[c] else 0) == Count(list[..i], c)
    {
      var r := list[i];
      assert list[..i + 1][..i] == list[..i];
      if r.token {
        owners := owners[r.Container() := (if r.Container() in owners then owners[r.Container()] else 0) + 1];
      }
    }
    assert list[..|list|] == list;
  }

  /** What one more record adds to the rows. */
  lemma NextRecord(s: Snapshot, list: seq<Record>, i: nat, p: string)
    requires i < |list|
    ensures OfProject(list[..i + 1], p) == OfProject(list[..i], p) + if list[i].project == p then [list[i]] else []
    ensures AttentionOf(s, list[..i + 1], p)
         == AttentionOf(s, list[..i], p) + if list[i].project == p && NeedsAttention(s, list[i]) then [list[i].id]
                                           else []
  {
    assert list[..i + 1][..i] == list[..i];
  }

  /** The test the index makes on the counts. */
  method Flag(ghost s: Snapshot, ghost list: seq<Record>, owners: map<Container, nat>, r: Record) returns (flag: bool)
    requires Listing(s, list) && r in list
    requires forall c :: (if c in owners then owners[c] else 0) == Count(list, c)
    ensures flag <==> NeedsAttention(s, r)
  {
    var claims := if r.Container() in owners then owners[r.Container()] else 0;
    var otherOwner := claims > if r.token then 1 else 0;
    CountFindsOtherOwner(s, list, r);
    flag := r.lifecycle == Failed || r.error.Some? || !r.runtimeOwned || otherOwner;
  }

  /** `SessionIndex::capture`: count claims per container, then file every record under its project. */
  method Capture(ghost s: Snapshot, list: seq<Record>) returns (index: Index)
    requires Listing(s, list)
    ensures index.total == |list|
    ensures forall p :: Row(index.projects, p) == OfProject(list, p)
    ensures forall p :: Row(index.attention, p) == AttentionOf(s, list, p)
  {
    hide OfProject, AttentionOf, Listing, NeedsAttention, Pushed, Row, Count;
    var owners := CountOwners(list);
    var projects: map<string, seq<Record>> := map[];
    var attention: map<string, seq<string>> := map[];
    EmptyRows(s);
    for i := 0 to |list|
      invariant forall p :: Row(projects, p) == OfProject(list[..i], p)
      invariant forall p :: Row(attention, p) == AttentionOf(s, list[..i], p)
    {
      var r := list[i];
      forall p { NextRecord(s, list, i, p); }
      var flag := Flag(s, list, owners, r);
      if flag {
        attention := Pushed(attention, r.project, r.id);
      }
      projects := Pushed(projects, r.project, r);
    }
    assert list[..|list|] == list;
    index := Index(projects, attention, |list|);
  }

  lemma EmptyRows(s: Snapshot)
    ensures forall p :: Row<Record>(map[], p) == OfProject([], p)
    ensures forall p :: Row<string>(map[], p) == AttentionOf(s, [], p)
  {
  }

  /** A session that close, recycle and reap refuse for its binding is never missing from the attention list. */
  lemma RefusedNeedsAttention(s: Snapshot, list: seq<Record>, r: Record)
    requires Listing(s, list) && r in list && !BindingSafe(s, r)
    ensures r.id in AttentionOf(s, list, r.project)
  {
    if r.error != Some(LegacyOwnershipAmbiguous) {
      assert OtherOwner(s, r);
    }
  }

  /** The attention list of a project holds exactly its sessions that failed, carry an error, do not own their runtime,
      or whose container another token holder names too. */
  lemma AttentionMeans(s: Snapshot, list: seq<Record>, project: string, id: string)
    requires Listing(s, list)
    ensures id in AttentionOf(s, list, project)
            <==> && id in s.records && s.records[id].project == project
                 && (s.records[id].lifecycle.Failed? || s.records[id].error.Some? || !s.records[id].runtimeOwned
                     || !ClaimFree(s, s.records[id]))
  {
    if id in s.records { assert s.records[id] in list; }
  }

  lemma AscendingMore(q: seq<Record>, last: Record)
    requires Ascending(q) && forall r :: r in q ==> Before(r.id, last.id)
    ensures Ascending(q + [last])
  {
    hide Before;
    var all := q + [last];
    forall i, j | 0 <= i < j < |all| ensures Before(all[i].id, all[j].id) {
      assert all[i] == q[i] && q[i] in q;
    }
  }

  /** Each project list keeps the order of the sorted store. */
  lemma {:induction false} ProjectSorted(list: seq<Record>, project: string)
    requires Ascending(list)
    ensures Ascending(OfProject(list, project))
  {
    hide Before;
    if list != [] {
      var init, last := list[..|list| - 1], list[|list| - 1];
      ProjectSorted(init, project);
      forall r | r in OfProject(init, project) ensures Before(r.id, last.id) {
        var k :| 0 <= k < |init| && init[k] == r;
        assert list[k] == r;
      }
      AscendingMore(OfProject(init, project), last);
    }
  }
}
