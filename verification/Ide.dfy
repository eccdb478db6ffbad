/** What sigiledd asks of a workspace before it may be destroyed (sigiledd/src/ide.rs):
    an agent flush, or for an IDE-started workspace a finish by the helper. */
module Ide {
  import opened Wrappers
  import opened Sessions

  /** A status reply that passed the allow-list; `observation` is the helper's own word. */
  datatype Status = Status(generation: nat, contract: string, observation: string, busy: Option<bool>, idleSecs: nat)

  datatype Finish = Finish(state: string, generation: Option<nat>, dirty: Option<bool>, sha: Option<string>)

  /** What the workspace answered. `None` is an unreachable peer or a reply that was not understood. */
  datatype Reply = AgentExit(code: Option<int>) | Helper(status: Option<Status>, finish: Option<Finish>)

  predicate ObservationAuthority(s: Status) {
    s.contract == "terminal-observation-v4" && (s.observation == "ready" || s.observation == "not_required")
  }

  predicate HexDigit(c: char) { '0' <= c <= '9' || 'a' <= c <= 'f' || 'A' <= c <= 'F' }

  predicate Sha(s: Option<string>) {
    s.Some? && (|s.value| == 40 || |s.value| == 64) && forall k :: 0 <= k < |s.value| ==> HexDigit(s.value[k])
  }

  /** `safe_response` for the finish path. */
  predicate SafeFinish(f: Finish, generation: nat) {
    f.state == "finished" && f.generation == Some(generation) && f.dirty == Some(false) && Sha(f.sha)
  }

  /** `request` for the finish path: the status gate, then the finish itself. */
  predicate RequestFinish(r: Record, reply: Reply)
    requires r.binding.Some? && r.binding.value.ide.Some?
  {
    if r.binding.value.ide.value.generation != r.generation then false
    else match reply
      case Helper(Some(status), Some(finish)) =>
        status.generation == r.generation && ObservationAuthority(status) && status.busy == Some(false)
        && SafeFinish(finish, r.generation)
      case _ => false
  }

  predicate FlushRecord(r: Record, reply: Reply) {
    if r.handoffPending then false
    else if r.IdeStarted() then RequestFinish(r, reply)
    else reply == AgentExit(Some(0))
  }

  /** `idle_record`: how long a workspace has been idle, if that can be told at all. */
  function IdleRecord(r: Record, agentIdle: nat, status: Option<Status>): (idle: Option<nat>) {
    if !r.IdeStarted() then Some(agentIdle)
    else if r.binding.value.ide.value.generation != r.generation || status.None?
            || status.value.generation != r.generation || !ObservationAuthority(status.value) then None
    else match status.value.busy
      case None => None
      case Some(true) => Some(0)
      case Some(false) => Some(if agentIdle < status.value.idleSecs then agentIdle else status.value.idleSecs)
  }

  /** What must be known before work is thrown away: an IDE-started workspace, bound for exactly this generation, said
      with authority that nothing runs in its terminals and then answered a clean finish of this generation that names
      the pushed commit; any other one committed and pushed with exit code 0. */
  ghost predicate WorkSafe(r: Record, reply: Reply) {
    !r.handoffPending &&
    if r.IdeStarted() then
      reply.Helper? && r.binding.value.ide.value.generation == r.generation
      && reply.status.Some? && reply.status.value.generation == r.generation && reply.status.value.busy == Some(false)
      && ObservationAuthority(reply.status.value)
      && reply.finish.Some? && reply.finish.value.state == "finished"
      && reply.finish.value.generation == Some(r.generation) && reply.finish.value.dirty == Some(false)
      && Sha(reply.finish.value.sha)
    else reply == AgentExit(Some(0))
  }
}
