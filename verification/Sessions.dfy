/** The session store of sigiledd/src/sessions.rs: the values it keeps, the meaning of
    each update as a function on a snapshot, and the class whose methods perform the
    updates in place. The lifecycle machine in LifecycleMachine.dfy uses the same functions. */
module Sessions {
  import opened Wrappers

  /** A runtime name: the pre-2.5 alias of a project, or the name of one generation of one session. */
  datatype Container = LegacyVm(project: string) | SessionVm(id: string, generation: nat)

  datatype IdeBinding = IdeBinding(generation: nat, started: bool)

  datatype Binding = Binding(container: Container, generation: nat, ide: Option<IdeBinding>)

  datatype Lifecycle = Creating | Active | Recycling | Closing | Failed

  datatype Failure =
    | LegacyOwnershipAmbiguous | Interrupted | PersistFailed | MirrorFailed | CreateFailed | BootFailed
    | FlushFailed | FetchFailed | MergeFailed | PushFailed | CleanupFailed | RuntimeNotOwned | GenerationExhausted

  /** `token` says whether the record keeps custody of a token; its value is never looked at. */
  datatype Record = Record(
    id: string, project: string, branch: string, stale: bool, token: bool, binding: Option<Binding>,
    lifecycle: Lifecycle, generation: nat, error: Option<Failure>, runtimeOwned: bool, handoffPending: bool)
  {
    function Container(): Container {
      if binding.Some? then binding.value.container else LegacyVm(project)
    }

    predicate IdeStarted() {
      binding.Some? && binding.value.ide.Some? && binding.value.ide.value.started
    }
  }

  /** `filedBy` is history: the session whose close filed the debt. No decision reads it. */
  datatype MergeDebt = MergeDebt(branch: string, filedBy: string)

  /** What one save writes and one restart reads back. */
  datatype Snapshot = Snapshot(records: map<string, Record>, debts: map<string, seq<MergeDebt>>)

  const MAX_GENERATION: nat := 0xFFFF_FFFF_FFFF_FFFF

  function SessionBranch(id: string): string { "session/" + id }

  function DebtsFor(s: Snapshot, project: string): seq<MergeDebt> {
    if project in s.debts then s.debts[project] else []
  }

  // ---- updates ----

  function Put(s: Snapshot, r: Record): Snapshot { s.(records := s.records[r.id := r]) }

  function Mark(s: Snapshot, id: string, lifecycle: Lifecycle, error: Option<Failure>): Snapshot {
    if id in s.records then s.(records := s.records[id := s.records[id].(lifecycle := lifecycle, error := error)])
    else s
  }

  function Remove(s: Snapshot, id: string): Snapshot { s.(records := s.records - {id}) }

  /** The queue without the debts on one branch, in the same order. */
  function Without(q: seq<MergeDebt>, branch: string): (r: seq<MergeDebt>)
    ensures forall d :: d in r <==> d in q && d.branch != branch
  {
    if q == [] then []
    else if q[0].branch == branch then Without(q[1..], branch)
    else [q[0]] + Without(q[1..], branch)
  }

  function PushDebt(s: Snapshot, project: string, d: MergeDebt): Snapshot {
    s.(debts := s.debts[project := Without(DebtsFor(s, project), d.branch) + [d]])
  }

  function ClearDebt(s: Snapshot, project: string, branch: string): Snapshot {
    if project in s.debts then s.(debts := s.debts[project := Without(s.debts[project], branch)]) else s
  }

  predicate LegacyClaim(r: Record) { r.binding.None? && r.token }

  /** Two token-holding records without a binding claim the same project alias. */
  ghost predicate Ambiguous(records: map<string, Record>, id: string)
    requires id in records
  {
    && LegacyClaim(records[id])
    && exists other ::
         other in records && other != id && LegacyClaim(records[other]) && records[other].project == records[id].project
  }

  ghost function HydratedRecord(records: map<string, Record>, id: string): Record
    requires id in records
  {
    var r := records[id];
    if Ambiguous(records, id) then r.(lifecycle := Failed, error := Some(LegacyOwnershipAmbiguous))
    else if r.lifecycle == Creating || r.lifecycle == Closing || r.lifecycle == Recycling
    then r.(lifecycle := Failed, error := Some(Interrupted))
    else r
  }

  ghost function Hydrated(s: Snapshot): Snapshot {
    s.(records := map id | id in s.records :: HydratedRecord(s.records, id))
  }

  /** No other token-holding record names the container of `r`. */
  ghost predicate ClaimFree(s: Snapshot, r: Record) {
    forall other :: other in s.records && s.records[other].id != r.id && s.records[other].token
      ==> s.records[other].Container() != r.Container()
  }

  ghost predicate BindingSafe(s: Snapshot, r: Record) {
    r.error != Some(LegacyOwnershipAmbiguous) && ClaimFree(s, r)
  }

  // ---- orphan branches ----

  ghost predicate Owned(s: Snapshot, project: string, branch: string) {
    exists id :: id in s.records && s.records[id].project == project && s.records[id].branch == branch
  }

  ghost predicate InDebt(s: Snapshot, project: string, branch: string) {
    exists d :: d in DebtsFor(s, project) && d.branch == branch
  }

  ghost predicate Adoptable(s: Snapshot, project: string, branch: string) {
    !InDebt(s, project, branch) && !Owned(s, project, branch)
  }

  ghost predicate FirstAdoptable(s: Snapshot, project: string, names: seq<string>, k: int) {
    0 <= k < |names| && Adoptable(s, project, names[k]) && forall j :: 0 <= j < k ==> !Adoptable(s, project, names[j])
  }

  /** `find_orphan` on the sorted session branch names of the mirror. */
  ghost function FindOrphan(s: Snapshot, project: string, names: seq<string>): (r: Option<string>)
    ensures r.Some? ==> exists k :: FirstAdoptable(s, project, names, k) && names[k] == r.value
    ensures r.None? ==> forall b :: b in names ==> !Adoptable(s, project, b)
  {
    if names == [] then None
    else if Adoptable(s, project, names[0]) then
      assert FirstAdoptable(s, project, names, 0);
      Some(names[0])
    else
      var rest := FindOrphan(s, project, names[1..]);
      assert rest.Some? ==> exists k :: FirstAdoptable(s, project, names, k) && names[k] == rest.value by {
        if rest.Some? {
          var k :| FirstAdoptable(s, project, names[1..], k) && names[1..][k] == rest.value;
          assert forall j :: 0 < j < |names| ==> names[j] == names[1..][j - 1];
          assert FirstAdoptable(s, project, names, k + 1);
        }
      }
      rest
  }
}
