/** The in-memory store: methods that update the two maps in place, each proved against its function in Sessions. */
module SessionStore {
  import opened Wrappers
  import opened Sessions

  class SessionState {
    var records: map<string, Record>
    var debts: map<string, seq<MergeDebt>>

    function State(): Snapshot
      reads this
    {
      Snapshot(records, debts)
    }

    method PutRecord(r: Record)
      modifies this
      ensures State() == Put(old(State()), r)
    {
      records := records[r.id := r];
    }

    method MarkRecord(id: string, lifecycle: Lifecycle, error: Option<Failure>)
      modifies this
      ensures State() == Mark(old(State()), id, lifecycle, error)
    {
      if id in records {
        records := records[id := records[id].(lifecycle := lifecycle, error := error)];
      }
    }

    method RemoveRecord(id: string)
      modifies this
      ensures State() == Remove(old(State()), id)
    {
      records := records - {id};
    }

    /** `retain` drops every debt on the branch, `push` appends the new one. */
    method AddDebt(project: string, d: MergeDebt)
      modifies this
      ensures State() == PushDebt(old(State()), project, d)
    {
      var queue := if project in debts then debts[project] else [];
      var kept := Retain(queue, d.branch);
      debts := debts[project := kept + [d]];
    }

    method DropDebt(project: string, branch: string)
      modifies this
      ensures State() == ClearDebt(old(State()), project, branch)
    {
      if project in debts {
        var kept := Retain(debts[project], branch);
        debts := debts[project := kept];
      }
    }

    /** Two passes, as in the source: count the unbound token holders of each project, then rewrite every record. */
    method Hydrate(newDebts: map<string, seq<MergeDebt>>, loaded: map<string, Record>)
      modifies this
      ensures State() == Hydrated(Snapshot(loaded, newDebts))
    {
      var legacy := CountLegacy(loaded);
      var rewritten: map<string, Record> := map[];
      var todo := loaded.Keys;
      while todo != {}
        invariant todo <= loaded.Keys && rewritten.Keys == loaded.Keys - todo
        invariant forall id :: id in rewritten ==> rewritten[id] == HydratedRecord(loaded, id)
        decreases |todo|
      {
        var id :| id in todo;
        var r := Rewrite(loaded, legacy, id);
        rewritten := rewritten[id := r];
        todo := todo - {id};
      }
      debts := newDebts;
      records := rewritten;
    }

    /** Looks at the other records one by one. */
    method CheckBinding(r: Record) returns (safe: bool)
      ensures safe <==> BindingSafe(State(), r)
    {
      if r.error == Some(LegacyOwnershipAmbiguous) {
        return false;
      }
      var todo := records.Keys;
      while todo != {}
        invariant todo <= records.Keys
        invariant forall o :: o in records.Keys - todo && records[o].id != r.id && records[o].token ==>
                                records[o].Container() != r.Container()
        decreases |todo|
      {
        var o :| o in todo;
        if records[o].id != r.id && records[o].token && records[o].Container() == r.Container() {
          return false;
        }
        todo := todo - {o};
      }
      return true;
    }
  }

  /** One record on its way in. */
  method Rewrite(loaded: map<string, Record>, legacy: map<string, nat>, id: string) returns (r: Record)
    requires id in loaded && forall p :: Tally(legacy, p) == |Claims(loaded, loaded.Keys, p)|
    ensures r == HydratedRecord(loaded, id)
  {
    r := loaded[id];
    if r.binding.None? && r.token { ManyClaims(loaded, id); }
    if r.binding.None? && r.token && Tally(legacy, r.project) > 1 {
      r := r.(lifecycle := Failed, error := Some(LegacyOwnershipAmbiguous));
    } else if r.lifecycle == Creating || r.lifecycle == Closing || r.lifecycle == Recycling {
      r := r.(lifecycle := Failed, error := Some(Interrupted));
    }
  }

  method Retain(q: seq<MergeDebt>, branch: string) returns (kept: seq<MergeDebt>)
    ensures kept == Without(q, branch)
  {
    kept := [];
    var i := 0;
    while i < |q|
      invariant 0 <= i <= |q|
      invariant Without(q, branch) == kept + Without(q[i..], branch)
    {
      assert q[i..][1..] == q[i + 1..];
      if q[i].branch != branch {
        kept := kept + [q[i]];
      }
      i := i + 1;
    }
  }

  /** The ids of the unbound token holders of a project. */
  ghost function Claims(loaded: map<string, Record>, ids: set<string>, project: string): set<string>
    requires ids <= loaded.Keys
  {
    set id | id in ids && LegacyClaim(loaded[id]) && loaded[id].project == project
  }

  function Tally(m: map<string, nat>, project: string): nat {
    if project in m then m[project] else 0
  }

  method CountLegacy(loaded: map<string, Record>) returns (legacy: map<string, nat>)
    ensures forall p :: Tally(legacy, p) == |Claims(loaded, loaded.Keys, p)|
  {
    legacy := map[];
    var todo := loaded.Keys;
    ghost var done: set<string> := {};
    while todo != {}
      invariant todo + done == loaded.Keys && todo !! done
      invariant forall p :: Tally(legacy, p) == |Claims(loaded, done, p)|
      decreases |todo|
    {
      var id :| id in todo;
      ghost var before := legacy;
      if loaded[id].binding.None? && loaded[id].token {
        legacy := legacy[loaded[id].project := Tally(legacy, loaded[id].project) + 1];
      }
      forall p ensures Tally(legacy, p) == |Claims(loaded, done + {id}, p)| {
        ClaimsGrow(loaded, done, id, p);
        assert Tally(before, p) == |Claims(loaded, done, p)|;
      }
      todo, done := todo - {id}, done + {id};
    }
    assert done == loaded.Keys;
  }

  lemma ClaimsGrow(loaded: map<string, Record>, done: set<string>, id: string, project: string)
    requires id in loaded && done <= loaded.Keys && id !in done
    ensures |Claims(loaded, done + {id}, project)|
         == |Claims(loaded, done, project)| + if LegacyClaim(loaded[id]) && loaded[id].project == project then 1 else 0
  {
    var old1 := Claims(loaded, done, project);
    assert Claims(loaded, done + {id}, project)
        == old1 + if LegacyClaim(loaded[id]) && loaded[id].project == project then {id} else {};
  }

  /** More than one claim is what makes a claim ambiguous. */
  lemma ManyClaims(loaded: map<string, Record>, id: string)
    requires id in loaded && LegacyClaim(loaded[id])
    ensures |Claims(loaded, loaded.Keys, loaded[id].project)| > 1 <==> Ambiguous(loaded, id)
  {
    var claims := Claims(loaded, loaded.Keys, loaded[id].project);
    var others := claims - {id};
    assert claims == others + {id};
    if others != {} {
      var other :| other in others;
    }
    if Ambiguous(loaded, id) {
      var other :| other in loaded && other != id && LegacyClaim(loaded[other])
                   && loaded[other].project == loaded[id].project;
      assert other in others;
    }
  }
}
