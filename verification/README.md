# Verification of the session, workspace and custody protocols

SIGIL runs disposable workspaces for projects. A daemon (`sigiledd`) opens, closes, recycles and reaps sessions,
merges their branches, keeps project mirrors fresh, creates projects from templates and enrolls accepted documents in
Memory. A helper inside each workspace (`ide-agent`) watches terminals, writes handoff commits and saves work. This
project models the protocols in which work could be lost or two owners could meet, and proves what they promise over
whole runs: with crashes between any two steps, saves that fail before or after they replaced the file, replies lost
after the effect, and other writers acting all along.

| module | what it models |
|---|---|
| `Sessions`, `SessionStore`, `LifecycleStore` | the session store: updates as functions on a snapshot, the object that makes them in place, and the object along the steps of the lifecycle |
| `Ide` | what a workspace must answer before it may be destroyed |
| `LifecycleMachine`, `LifecycleInvariant`, `LifecycleSteps`, `LifecycleSafety`, `LifecyclePublication`, `LifecycleProgress` | open, close, recycle and reap as interleaved steps; safety over every schedule, what a close has published before it destroys, and completion when every answer is good |
| `LifecycleFailures`, `LifecycleRestart`, `LifecycleNotes`, `LifecycleLocks` | what a verb that fails leaves on record, what a restart may load and says of it, what a saved note on a handoff or an IDE start protects, and who holds a project's merge lock |
| `Naming` | names of session containers |
| `Overview` | the session index and the scan it replaces |
| `CommitGraph`, `Merge`, `Closes` | the close-time merge on a commit graph, and many closes against one origin |
| `Text`, `TerminalActivity`, `ObserverProtocol`, `ActivityStreams`, `Extension`, `Custody` | terminal observation: the helper, what any stream of messages leaves in it, the editor extension, and both over a network that loses, repeats and reorders |
| `Workspace`, `Trace` | a workspace that others write to, and what the sequence of its states says about one call |
| `HandoffRequest`, `HandoffBooks`, `HandoffRecovery`, `Handoff`, `HandoffRuns` | the handoff journal and its recovery from any failure point |
| `Checkpoint` | checkpoints of a workspace that others write to |
| `Enrollments` | enrollment of accepted documents in Memory |
| `Refresh`, `Repair` | bounded refreshes of project mirrors and round-robin repair |
| `Templates` | project creation from a template |
| `Dates` | the importer's timestamp |

The daemon's state file is modelled by the set of snapshots a restart could still load: a successful save leaves one,
a failed one may leave the old and the new. A step of a call touches shared state once; between two steps anything the
source allows may happen. A call that dies leaves everything outside the process as it is. In the imperative models
the environment is a method that may set the outside state to anything its contract allows; it is called before every
step. The workspace keeps a ghost trace of its states around every step, so that a contract can say what a call looked
at and what its own steps turned into what: a look is a state of the trace since the call began, and an effect of the
helper is two neighbours in it. The workspace and the creation of a project count the steps that failed, so that a
contract can say that a success met none.

Findings that shaped the statements:

- An enrollment revision can name two commits: a revision that was not saved is lost in a restart and its number is
  given out again. Snapshots posted to Memory are not affected. `Enrollments.RevisionReused` gives the exact
  condition.
- `fail` can replace the uncertain state of an enrollment (`sigiledd/src/enrollment.rs:273-281`), so that state is not
  claimed to last.
- An unconfirmed end of a refresh survives in the saved descriptor: after a restart it is shown without any worker.
  `Refresh.Run` speaks of the ends this process has noted itself.
- A recycle saves its next binding with the lifecycle that the record had before (`sigiledd/src/sessions.rs:783-801`).
  A restart between that save and the next one reads an active session that has lost its old container and has no new
  one, instead of an interrupted recycle (`LifecycleRestart.RecycleLosesItsMark`); `LifecycleRestart.RestartMarks`
  says exactly what a restart marks. Such a session owns no runtime, so it is on the attention list
  (`Overview.AttentionMeans`) and a later verb refuses it.
- A call that is refused because a worker is busy, and cannot be saved, notes that failure of the save over the report
  that the worker's end is unconfirmed (`sigiledd/src/ecosystem.rs:203-222`), although the worker still reads
  (`Refresh.ConcealedWorker`). Nothing else conceals that report (`Refresh.Run`).
- A refresh can read well and fail in its save: it returns `PersistFailed`, and the project shows the new reading all
  the same (`Refresh.UnsavedRead`). What is shown changes exactly with a good read (`Refresh.Pool.Finish`).
- Publishing a template lists the refs of the destination and pushes only if there are none, but the push itself
  demands no more than the absence of master (`sigiledd/src/template_snapshot.rs:354-368`). A branch or tag written in
  between leaves a destination that is not empty, and it is pushed to (`Templates.PushOntoForeignTag`); the call then
  fails its verification while that ref stands. `Templates.EmptyAtPush` gives the exact condition.
- In the same way nobody looks at the marker of a destination again before it is written to: a repository whose marker
  was taken away after the look is pushed to all the same (`Templates.PushToUnmarked`). `Templates.MarkedAtWrite`
  gives the exact condition.
- A handoff compares the tree of the user's index first and reads its bytes later
  (`ide-agent/src/handoff.rs:306-320`). What is staged in between becomes part of the bytes it expects to find, and
  when an operation is resumed that already has its commit, the new index replaces it (`Handoff.StagedInBetween`); the
  files in the workspace stay. If nobody stages between the two looks, the index replaced was at the base or at the
  commit (`Handoff.CheckIndex`).
- The last act of a close deletes the session branch at origin whatever it is by then
  (`sigiledd/src/sessions.rs:686-690`): what somebody pushed to it after the fetch is lost (`Closes.DeletedUnmerged`).
  The head that was fetched is always in master first (`Closes.Project.Close`).
- The importer's timestamp checks month and day only for their widest ranges and hour, minute and second not at all: a
  day its month does not have and 25 o'clock are read as some later time. `Dates.ReadAsAnother` gives the exact
  condition for fields written with digits alone. A sign is accepted too, and an hour of -1 is read as an earlier time
  (`Dates.SignedHour`).
- The alias of a project can be the name of a session's container (`sigiledd/src/runtime.rs:96-106`), namely for one
  project name per session and generation below 1000 (`Naming.AliasClash`).
- A handoff attempt that dies holding the index lock, or stops in the middle of a bundle file, needs a hand; every
  other interrupted attempt is finished by a retry (`HandoffRuns.Recover`).

Run `dafny verify dfyconfig.toml`. Proofs hide definitions they do not need (`hide`), which keeps each of them small.

## Model

| member | source | states |
|---|---|---|
| `LifecycleSafety.ContainersAreAlwaysNamed` | sigiledd/src/sessions.rs:438-577 | Over every schedule of open, close, recycle, reap, failing saves and crashes: each live session container is named by its record in memory and in every snapshot a restart could load; an active record that owns its runtime names a live container; no two records of a project share a branch; a branch has at most one debt, and nobody but the filer owns it meanwhile |
| `LifecycleSafety.DestroyOnlySafeWork` | sigiledd/src/sessions.rs:609-684 | Whenever a verb destroys a container, no other token-holding record names it, the record owns its runtime, the same session created it, and within the same hold of the session lock this very record was flushed with a reply that passes the whole gate of status, observation authority and clean finish, or with exit code 0, and for close and recycle its branch was fetched after that |
| `LifecycleSafety.AdoptedBranchIsFree` | sigiledd/src/sessions.rs:464-473 | A branch found for adoption is, until the record is put, in no debt and on no record of the project |
| `LifecyclePublication.CloseIsPublished` | sigiledd/src/sessions.rs:640-684 | Before a close destroys a container, over every schedule: its branch is in debt in memory and in every snapshot a restart could load, or within the same hold of the session lock the branch was fetched and after that a push of the merge was accepted |
| `LifecycleSteps.KeepsStep` | sigiledd/src/sessions.rs:366-892 | Every single step of every verb, with every outcome of saves, creates, destroys and merges, keeps the invariant the three safety results rest on |
| `LifecycleSteps.KeepsDestroy` | sigiledd/src/sessions.rs:680-684 | A destroy that succeeds, is refused, or loses its reply after the effect keeps the invariant |
| `LifecycleSteps.KeepsAllocate` | sigiledd/src/runtime.rs:470-543 | A create that is refused, undone, leaked or successful keeps the invariant: whatever runs is already named on disk |
| `LifecycleSteps.KeepsSave` | sigiledd/src/store.rs:96-150 | A save that succeeds, fails before or fails after replacing the file keeps the invariant for every snapshot a restart could load |
| `LifecycleSteps.KeepsCrash` | sigiledd/src/sessions.rs:202-231 | A crash between any two steps, followed by hydration of any loadable snapshot, keeps the invariant |
| `LifecycleSteps.KeepsBegin` | sigiledd/src/reaper.rs:96-125 | The checks made before close, recycle and reap start leave only records that own their runtime and claim their container alone |
| `LifecycleSteps.FlushIsSafe` | sigiledd/src/ide.rs:502-521 | A flush passes exactly if no handoff is pending and the reply is, for an IDE-started workspace, a status of this generation that is not busy and has observation authority, and a clean finish of exactly this generation that names a commit; exit code 0 for any other |
| `LifecycleSteps.FlushedTask` | sigiledd/src/ide.rs:100-119 | After a flush that passed the status gate and the finish, the log justifies destroying this record |
| `LifecycleSteps.FoundTask` | sigiledd/src/sessions.rs:304-330 | The branch picked from any list of refs is adoptable at that moment |
| `LifecycleProgress.CloseCompletes` | sigiledd/src/sessions.rs:615-703 | The steps of this close alone, in order and each with a good answer (CloseSteps), end with record and container gone, exactly that on disk, no merge lock held, the branch out of the debt queue, or filed last when the merge conflicted, and no other session changed |
| `LifecycleProgress.RecycleCompletes` | sigiledd/src/sessions.rs:731-891 | The steps of this recycle alone, in order and each with a good answer (RecycleSteps), end with exactly the stated record: active, without an error, bound to the container of the next generation, which runs in place of the old one, its branch kept; no merge lock is held |
| `LifecycleProgress.OpenCompletes` | sigiledd/src/sessions.rs:416-577 | The steps of this open alone, in order and each with a good answer (OpenSteps), end with exactly the stated record: active with its own container, without adoption on its own branch, provided the project has no debts; with adoption, debts or not, on the first branch of the mirror that is in no debt and on no record, or on its own if there is none; no merge lock is held and no other session changed |
| `LifecycleProgress.ReapCompletes` | sigiledd/src/reaper.rs:88-157 | The steps of this reap alone, in order and each with a good answer (ReapSteps), end with record and container gone and that on disk, without the mirror or its lock and without touching a debt; its branch is then adoptable exactly if it is in no debt |
| `LifecycleProgress.Boots` | sigiledd/src/sessions.rs:499-576 | Image, save, create, own, save, boot, activate, save, in this order (BootSteps): the tail that open and recycle share leads to a running, saved, active record |
| `LifecycleFailures.FailureIsRecorded` | sigiledd/src/sessions.rs:276-280 | In every reachable state, whatever answer makes a verb fail (a refused flush, a mirror, fetch, image, merge, push, create, destroy or save that is not to be had): after its last two steps the record is marked failed with exactly the error of that answer and is otherwise unchanged, no lock is left, and a good save has put it on disk; steps of others may come in between |
| `LifecycleFailures.RefusalIsRecorded` | sigiledd/src/sessions.rs:609-614 | The same for a close, recycle or reap that is refused at once: for an ambiguous claim, a runtime it does not own, or exhausted generations |
| `LifecycleFailures.FirstStep` | sigiledd/src/reaper.rs:96-131 | The first step of a close, recycle or reap does nothing at all unless the session is known, free, without a pending handoff and of the expected generation, and for a reap active and known to have been idle long enough; then it is a refusal exactly on the three grounds |
| `LifecycleFailures.AnnouncedFirst` | sigiledd/src/sessions.rs:615-623 | Before a verb asks its workspace for anything, the record says closing or recycling, without an error, in memory and on disk |
| `LifecycleFailures.DebtRefusesOpen` | sigiledd/src/sessions.rs:406-415 | An open without adoption that meets a debt of its project changes nothing |
| `LifecycleFailures.FailureIsListed` | sigiledd/src/overview.rs:66-75 | A session that a failed verb leaves behind is on the attention list of its project |
| `LifecycleFailures.UnlistedIsUsable` | sigiledd/src/overview.rs:66-75 | In every reachable state a session that is not on the attention list has not failed, owns its runtime, is refused by no verb if it holds a token, and, when active and bound, has a live container |
| `LifecycleRestart.RestartMarks` | sigiledd/src/sessions.rs:202-231 | After a restart from any loadable snapshot every record is active or failed: rival unbound claims fail as ambiguous, unfinished verbs as interrupted, everything else is as it was saved |
| `LifecycleRestart.Loadable` | sigiledd/src/store.rs:96-150 | After any schedule a restart can load exactly what was loadable at its start or what memory held at a save, good or failed after the replacement, unless something else was saved for good, or loaded, after that |
| `LifecycleRestart.RecycleLosesItsMark` | sigiledd/src/sessions.rs:783-801 | A recycle saves its next binding with the lifecycle the record had before: a restart between that save and the next reads an active session whose old container is gone and which has no new one |
| `LifecycleRestart.RecycleIsInterrupted` | sigiledd/src/sessions.rs:820-826 | After the save of the image a restart reads an interrupted recycle |
| `LifecycleRestart.OpenIsOnRecord` | sigiledd/src/sessions.rs:416-440 | Before an open does anything else it is on record as being created under its own name and branch, and a restart reads it as interrupted |
| `LifecycleLocks.BootsWithoutLock` | sigiledd/src/sessions.rs:480-576 | In every reachable state a session whose image, container or workspace is being made does not hold the merge lock of its project |
| `LifecycleNotes.NoteIsRecorded` | sigiledd/src/ide.rs:303-316 | Once its save went well, a note on the IDE start or the handoff is in memory and on disk, and the record is otherwise unchanged, whatever others did in between |
| `LifecycleNotes.PendingHandoffHolds` | sigiledd/src/browser/research/handoff.rs:311-316 | A pending handoff that was noted and saved protects its workspace over every later schedule, restarts included, until a note withdraws it: the session stays on record in its generation, only notes work on it, its container stays, and no verb destroys anything of it |
| `LifecycleNotes.StartedNeedsFinish` | sigiledd/src/ide.rs:305-316 | A workspace whose IDE start was noted and saved is never again taken for an ordinary one: over every later schedule, restarts included, its generation is destroyed only after a clean finish of its helper in the same hold of the session lock |
| `Naming.NamesApart` | sigiledd/src/runtime.rs:96-100 | A session container name determines session and generation |
| `Naming.NameFits` | sigiledd/src/runtime.rs:96-100 | A session container name has at most 59 characters |
| `Naming.AliasClash` | sigiledd/src/runtime.rs:96-106 | A valid project name whose alias is the name of a session container exists exactly while the generation has at most three digits |
| `SessionStore.SessionState.AddDebt` | sigiledd/src/sessions.rs:167-172 | A pushed debt is the last of its queue and the only one on its branch |
| `SessionStore.SessionState.DropDebt` | sigiledd/src/sessions.rs:173-177 | Clearing drops every debt on the branch and keeps the order of the others |
| `SessionStore.SessionState.Hydrate` | sigiledd/src/sessions.rs:202-231 | The counting pass over the records marks exactly those whose unbound claim on a project is not the only one, and interrupts unfinished verbs, as the pairwise definition says |
| `SessionStore.SessionState.CheckBinding` | sigiledd/src/sessions.rs:253-261 | The scan accepts exactly the records that are not marked ambiguous and whose container no other token holder names |
| `SessionStore.ManyClaims` | sigiledd/src/sessions.rs:207-221 | A count above one on the project is the same as another record with an unbound claim on it |
| `LifecycleStore.Follow` | sigiledd/src/sessions.rs:160-261 | The object updated in place by put, mark, remove, the debt queue and hydration is, after every step of the lifecycle machine, the store of the machine |
| `LifecycleStore.FollowRun` | sigiledd/src/sessions.rs:366-892 | The same along any run of the machine, crashes included |
| `LifecycleStore.Refuses` | sigiledd/src/sessions.rs:253-261 | The scan of the store and the ownership flags give the refusal on which the machine begins a verb |
| `Overview.CountFindsOtherOwner` | sigiledd/src/overview.rs:51-64 | The claim count exceeds the record's own claim exactly when another token-holding record names the same container |
| `Overview.Capture` | sigiledd/src/overview.rs:48-79 | One counting pass files every record under its project and lists for attention exactly the records the pairwise scan would |
| `Overview.AttentionMeans` | sigiledd/src/overview.rs:66-75 | The attention list of a project holds exactly its sessions that failed, carry an error, do not own their runtime, or whose container another token holder names |
| `Overview.ProjectSorted` | sigiledd/src/overview.rs:49-82 | Each project list keeps the session-id order of the store |
| `Overview.RefusedNeedsAttention` | sigiledd/src/sessions.rs:253-261 | A session whose binding is refused never misses the attention list of its project |
| `Merge.Repository.CloseMerge` | sigiledd/src/merge.rs:78-136 | For any best common ancestor: the outcome is decided by containment either way; a merge commit has the two heads as parents and the tree git fused; a clean answer gives a merge and a conflict a debt, which leaves master alone; git is reported as failed exactly if a command this close needs failed, and then master has moved only if an earlier command moved it |
| `Merge.Repository.CloseAgain` | sigiledd/src/merge.rs:78-92 | After a non-debt outcome a second close is a fast-forward to the same commit, whatever git answers the second time; after any first outcome master has only moved to descendants |
| `Merge.Bases` | sigiledd/src/merge.rs:81-88 | The two equality tests on the merge base decide containment either way |
| `Merge.ContainedBase` | sigiledd/src/merge.rs:81-86 | A head that master contains is a best common ancestor of the two |
| `Closes.Project.Close` | sigiledd/src/sessions.rs:624-692 | A close reported as merged pushed what the fetched head and master came to: the one that contains the other, or the commit on both with the tree git fused; a branch is deleted at origin only after that, and then master contains the deleted head if it is the one that was fetched; with good answers and nobody writing elsewhere the close is a success, or a debt exactly on a conflict, and deletes the branch |
| `Closes.WorkArrives` | sigiledd/src/merge.rs:78-108 | What a close publishes has, path by path, whatever only one side changed since the base as that side has it, provided git fuses path by path when it has to fuse |
| `Closes.Project.Push` | sigiledd/src/runtime.rs:258-280 | A push takes effect only as a fast-forward, and its reply may be lost after the effect |
| `Closes.Project.EnsureMirror` | sigiledd/src/runtime.rs:131-150 | A refreshed mirror has origin's master, otherwise its old one |
| `Closes.Project.Serve` | sigiledd/src/sessions.rs:624-692 | Over any closes, retries and writers elsewhere, each close with git answers of its own: origin master has only moved to descendants, and it contains the head of every close that reported success |
| `Closes.DeletedUnmerged` | sigiledd/src/sessions.rs:624-690 | A run in which a head pushed to the branch after the fetch is deleted with it, and is contained neither in master nor in any branch |
| `Closes.ChainMoves` | sigiledd/src/runtime.rs:258-280 | Moving to a descendant keeps every earlier value and every reported head contained |
| `CommitGraph.AncTrans` | sigiledd/src/merge.rs:78-136 | Containment of commits is transitive |
| `TerminalActivity.Activity.ObservationWord` | ide-agent/src/activity.rs:43-63 | The word follows the order not required, conflict, incomplete, missing, stale, unsupported, ready |
| `TerminalActivity.Activity.Busy` | ide-agent/src/activity.rs:175-179 | Busy unless nothing is known to run and the word is ready or not required |
| `TerminalActivity.Activity.Observe` | ide-agent/src/activity.rs:64-136 | One packet has exactly the specified effect and is accepted exactly when numbered, newer, from the one v3 observer and complete |
| `TerminalActivity.Activity.ReportExecution` | ide-agent/src/activity.rs:137-171 | Edits, saves and selections renew the lease; command events keep the command set; unknown ends change nothing; only the five known events, command events with a valid identifier, are answered as known |
| `TerminalActivity.CheckAdmissible` | ide-agent/src/activity.rs:97-113 | The bounds, identifiers and set sizes accept exactly the packets without repeats |
| `TerminalActivity.DistinctNames` | ide-agent/src/activity.rs:105-112 | A set as large as the list means that the list has no repeats |
| `ObserverProtocol.HighestDecides` | ide-agent/src/activity.rs:64-136 | Any delivery of one observer's packets, with losses, repeats and reordering, gives the verdict of its highest-numbered packet alone |
| `ObserverProtocol.NothingHeard` | ide-agent/src/activity.rs:43-63 | Without any usable packet the word is missing and the state busy |
| `ObserverProtocol.SecondObserverSticks` | ide-agent/src/activity.rs:77-82 | One well-formed packet of a second observer makes the state conflicting and busy whatever arrives after it |
| `ObserverProtocol.ConflictCause` | ide-agent/src/activity.rs:77-85 | A message turns the state conflicting exactly when it is a numbered packet of another observer |
| `ActivityStreams.IdleClock` | ide-agent/src/activity.rs:64-174 | After any stream the lease dates from the latest edit, save, selection, command start, end of a known command, or accepted complete packet sent because of a command, or from the start; periodic snapshots, refused packets and unknown events never renew it |
| `ActivityStreams.ObservationClock` | ide-agent/src/activity.rs:130-130 | The observation is as old as the latest packet that was accepted and complete |
| `ActivityStreams.KnownCommands` | ide-agent/src/activity.rs:131-131 | While capacity is never exceeded, a command counts as running exactly if the latest message about it says so, a complete snapshot being about all commands |
| `ActivityStreams.Certain` | ide-agent/src/activity.rs:157-160 | The helper is uncertain exactly if it was before or some start met a full set |
| `ActivityStreams.AcceptedPackets` | ide-agent/src/activity.rs:64-136 | From the start of custody exactly those packets are accepted that are admissible, of a v3 observer and newer than all before them, as long as a single observer was heard |
| `ActivityStreams.WordMeans` | ide-agent/src/activity.rs:43-63 | From the start of custody, under loss, repeats and reordering, each word has its exact meaning: conflict for two observers, missing for none, and otherwise what the highest-numbered packet calls for, with its age and completeness |
| `Extension.Watcher.Observe` | ide-agent/activity/extension.js:54-71 | Each snapshot is numbered one higher, admissible, complete exactly when no capacity was exceeded, shows a terminal as integrated only if it is and was observed, and lists the recorded executions in order |
| `Extension.Watcher.List` | ide-agent/activity/extension.js:23-67 | Every listed terminal gets a valid identifier of its own |
| `Extension.Watcher.constructor` | ide-agent/activity/extension.js:14-21 | At activation every terminal counts as unobserved, or overflow is declared, and a first snapshot is sent |
| `Extension.Watcher.Started` | ide-agent/activity/extension.js:72-78 | A start is recorded, or the terminal or all custody is given up, or an overflow is declared; in each case nothing that runs in a listed terminal looks idle |
| `Extension.Watcher.Forgo` | ide-agent/activity/extension.js:76-76 | A start beyond capacity is remembered by terminal, or custody is lost for good |
| `Extension.Watcher.Ended` | ide-agent/activity/extension.js:79-79 | An end removes exactly its execution and reports a command end only if it changed something |
| `Extension.Watcher.Closed` | ide-agent/activity/extension.js:82-82 | A closed terminal takes its recorded executions and its overflow mark with it |
| `Extension.NamesFit` | ide-agent/activity/extension.js:25-29 | Execution identifiers are valid and distinct |
| `Extension.ClearMeansQuiet` | ide-agent/activity/extension.js:64-67 | A snapshot that shows every terminal integrated and no execution was built when no listed terminal ran anything |
| `Custody.IdleMeansQuiet` | ide-agent/activity/extension.js:54-83 | Ready and not busy, under loss, repeats and reordering, means that nothing ran in any listed terminal when the extension built the newest snapshot received |
| `Custody.QuietIsSeen` | ide-agent/activity/extension.js:54-88 | The other way round: once every listed terminal was observed at its prompt and no command is recorded, one snapshot that arrives makes the helper say ready and idle for ten seconds, without renewing the lease |
| `Custody.Watch` | ide-agent/src/activity.rs:64-179 | The same for the helper object and the extension object together, over any interleaving of editor events, terminal events, deliveries and edits |
| `Custody.Custodies` | ide-agent/src/activity.rs:39-179 | Custody begins and ends any number of times while the extension runs on: each verdict of ready and idle is right about the newest snapshot received in its own interval, and after an end nothing is required and nothing counts as running |
| `Text.ParseDecimal` | ide-agent/src/activity.rs:71-74 | A number written by the extension is read back by the helper as itself |
| `Text.DecimalInjective` | ide-agent/activity/extension.js:23-29 | Distinct counters give distinct identifiers |
| `HandoffRequest.LandsInFolder` | ide-agent/src/handoff.rs:54-85 | An accepted request names two different files directly inside the folder of its slug |
| `HandoffRequest.AcceptedExactly` | ide-agent/src/handoff.rs:54-85 | Accepted are exactly the requests with three identifiers, a generation written as a machine number, and two differently named small Markdown files directly in the folder of the slug |
| `HandoffRequest.ExactlyTwo` | ide-agent/src/handoff.rs:336-362 | The built tree is the base tree with exactly the two requested files set to the requested bytes |
| `Handoff.Save` | ide-agent/src/handoff.rs:86-102 | A journal save leaves the old or the new journal; success means the new one |
| `Handoff.Place` | ide-agent/src/handoff.rs:136-183 | A bundle file is created only where nothing is, with the requested bytes or a prefix of them |
| `Handoff.WriteBundle` | ide-agent/src/handoff.rs:136-186 | Nothing that exists is overwritten; in an undisturbed workspace absent or complete files become complete |
| `Handoff.VerifyFiles` | ide-agent/src/handoff.rs:187-219 | Success in an undisturbed workspace means that both files are regular and hold the requested bytes |
| `Handoff.Enlist` | ide-agent/src/handoff.rs:274-305 | Another payload under a known operation is refused and changes no journal; a journal is new only after a state of this call had a clean status and states of this call had each target absent; it then holds the validated head as base and no commit |
| `Handoff.CheckTree` | ide-agent/src/handoff.rs:306-316 | Success means that a state of this call had the index at the tree of the base or of the journaled commit |
| `Handoff.CheckIndex` | ide-agent/src/handoff.rs:306-320 | The index tree was the base's or the commit's at one state of this call, and its bytes were the remembered ones at a state of this call; if nobody staged or unstaged anything meanwhile, the remembered index is at the base or at the commit |
| `Handoff.StagedInBetween` | ide-agent/src/handoff.rs:306-422 | For any index at the base or at the commit and any path in neither: a trace in which the path is staged between the look at the tree and the look at the bytes, the helper takes the lock and finds the bytes unchanged, and the new index replaces the one with the staged path |
| `Handoff.BuildTree` | ide-agent/src/handoff.rs:332-362 | The private index ends at the base tree with the two files |
| `Handoff.CommitTree` | ide-agent/src/handoff.rs:363-373 | The commit has the built tree and the base as its only parent |
| `Handoff.Seal` | ide-agent/src/handoff.rs:332-381 | The commit is journaled only after states of this call showed both files whole, HEAD at the base and the index as remembered; the journal then holds that commit and nothing else changed in it |
| `Handoff.UpdateRef` | ide-agent/src/handoff.rs:414-421 | The branch moves only by compare-and-set from the base to the journaled commit |
| `Handoff.Swap` | ide-agent/src/handoff.rs:402-422 | Branch and index both end at the commit, or the workspace stays resumable |
| `Handoff.LookAgain` | ide-agent/src/handoff.rs:398-408 | The looks under the lock: success means that the index was the remembered one, both files were whole, the branch was checked out and HEAD was at the base or at the commit, each at a state of this call |
| `Handoff.Land` | ide-agent/src/handoff.rs:383-426 | The lock is taken only at a state without one, and no branch moves in a call unless it was taken and every look under it succeeded; a lock held by anyone stops the undisturbed call and stays; an error gives back the lock; with writers that respect the lock, the index replaced is the remembered one and the new one has the tree of the commit |
| `Handoff.Send` | ide-agent/src/handoff.rs:428-437 | At most one push, of the journaled commit by value, and at that state of the call the remote branch was an ancestor of it; the journal says pushed only after such a push |
| `Handoff.Answer` | ide-agent/src/handoff.rs:438-454 | The receipt names the journaled commit; not dirty means that states of this call had a clean status, HEAD at the commit and both files whole, and dirty, when no look failed, that some state of this call had not |
| `Handoff.Apply` | ide-agent/src/handoff.rs:264-455 | One call with every failure, death and interleaving: only the journaled commit is ever moved to or pushed; another payload changes nothing; a new journal, a new commit and a receipt each rest on the looks of this very call; a resumable workspace stays resumable, and finishes when nobody disturbs it and nothing fails |
| `HandoffBooks.OneCommit` | ide-agent/src/handoff.rs:264-455 | All moves, pushes and receipts of one operation name one commit, whose only parent is the base and whose tree is the base tree with the two files |
| `HandoffRuns.Campaign` | ide-agent/src/handoff.rs:264-455 | Over any calls for any operations, cut short anywhere, with other writers all along: journals only fill in what was open, and each operation has one commit |
| `HandoffRuns.Recover` | ide-agent/src/handoff.rs:281-305 | After any undisturbed attempts that failed or died anywhere, one more attempt lands branch, remote and index at the commit, unless an attempt left the index lock or a torn bundle file |
| `HandoffRecovery.ResumeBound` | ide-agent/src/handoff.rs:264-330 | A resumable workspace without a lock passes every check of a call |
| `HandoffRecovery.ResumePush` | ide-agent/src/handoff.rs:428-437 | In a resumable workspace the push is a fast-forward or already done |
| `HandoffRecovery.CommitClean` | ide-agent/src/handoff.rs:438-440 | With branch and index at the commit and both files complete nothing is dirty |
| `Workspace.Checkout.Validate` | ide-agent/src/durable.rs:67-89 | Success means that HEAD was the answer at the last look; undisturbed it succeeds exactly for the session branch, the trusted remote and no Git lock |
| `Checkpoint.Commit` | ide-agent/src/durable.rs:97-116 | The checkpoint commit is a child of the validated head, its tree was staged as everything tracked or not ignored at a state of this call and was the index at a later one, and HEAD was the validated head after it |
| `Checkpoint.Stage` | ide-agent/src/durable.rs:97-101 | At one state of the call everything that is tracked or not ignored was staged as it was, and HEAD is still the validated head afterwards |
| `Checkpoint.Save` | ide-agent/src/durable.rs:97-126 | If the branch moves, it was at the validated head at one state of the call and at the new child of that head in the very next one, and the tree of the child was staged in this call; an undisturbed call without failures moves it |
| `Checkpoint.SavedClean` | ide-agent/src/durable.rs:97-126 | In a workspace of regular files that nobody else writes to, the commit leaves nothing dirty |
| `Checkpoint.Publish` | ide-agent/src/durable.rs:127-148 | A push of the call took the remote branch from an ancestor to the returned commit; for a clean finish a later state of this call had a clean status, and HEAD was that commit at that instant |
| `Checkpoint.CheckpointMode` | ide-agent/src/durable.rs:90-152 | The same in any of the modes; a success met no failing step; undisturbed, the workspace ends as stated (committed if anything was dirty, and pushed), and without failures the call succeeds exactly if the checkout is bound and unlocked and the remote branch is behind it |
| `Checkpoint.CheckpointClean` | ide-agent/src/durable.rs:93-152 | If a commit is returned and others only move the branch forward, the remote was moved to it from an ancestor within the call, at another state it was HEAD with every file that is not ignored equal to its tree, and the last HEAD contains the first; undisturbed and without failures it succeeds exactly for a bound, unlocked checkout ahead of its remote branch |
| `Checkpoint.Pinned` | ide-agent/src/durable.rs:139-147 | HEAD that is the same before and after, and only moved forward, was the same in between |
| `Checkpoint.CleanMeans` | ide-agent/src/durable.rs:142-144 | A clean status means that every file of the commit is there unchanged and everything else is ignored |
| `Enrollments.Intent.Register` | sigiledd/src/project.rs:97-110 | A registration gives a project an intent under a fresh owner at revision 0, and leaves an existing intent alone |
| `Enrollments.Intent.Observe` | sigiledd/src/enrollment.rs:63-84 | In one process the revision never goes back and grows with every change of commit; the snapshot goes with the old commit; uncertain persistence freezes the intent |
| `Enrollments.Intent.Begin` | sigiledd/src/enrollment.rs:316-351 | A call goes on only with an enabled, certain intent and a token, and holds the merge lock from then on |
| `Enrollments.Intent.Collect` | sigiledd/src/enrollment.rs:192-257 | A snapshot is recorded only for the desired commit, with the current owner and revision |
| `Enrollments.Intent.Store` | sigiledd/src/enrollment.rs:360-381 | The call goes on to Memory only after the save of exactly its snapshot |
| `Enrollments.Intent.Fail` | sigiledd/src/enrollment.rs:273-281 | A failure counts only for the revision it belongs to, and may replace uncertain persistence |
| `Enrollments.Intent.Post` | sigiledd/src/enrollment.rs:400-421 | Whatever is posted was saved before |
| `Enrollments.Intent.Receive` | sigiledd/src/enrollment.rs:422-462 | A late reply changes nothing unless its revision is still current |
| `Enrollments.Intent.Separate` | sigiledd/src/enrollment.rs:583-606 | A separate namespace is granted exactly for a conflict that was never confirmed and another name than the current one; then revision grows, the snapshot goes, the commit stays, and the intent waits for authorization and its save |
| `Enrollments.Intent.Validate` | sigiledd/src/enrollment.rs:480-505 | An intent is confirmed exactly for the index, owner, revision, commit and digest of the stored snapshot, while the project is bound to the same repository and master is that commit; owner, revision and desired commit are then the current ones |
| `Enrollments.Intent.Restart` | sigiledd/src/main.rs:95-104 | A restart resumes from any state a save left behind, with exactly the unfinished phases awaiting authorization |
| `Enrollments.Reconcile` | sigiledd/src/enrollment.rs:302-469 | One whole reconcile call: the intent ends in the phase the answers call for, or as uncertain when the last save fails; Memory is called only with the stored snapshot of the desired commit, a confirmation names exactly that, and afterwards a separate namespace is to be had exactly after a conflict, as long as nothing was ever confirmed |
| `Enrollments.ObservedKeeps` | sigiledd/src/enrollment.rs:63-84 | An observation keeps every promise about memory, disk and saved snapshots, and what it says of revision and commit |
| `Enrollments.OneCommitPerPostedRevision` | sigiledd/src/enrollment.rs:360-421 | Across restarts, snapshots saved under one owner and revision have one commit |
| `Enrollments.Run` | sigiledd/src/enrollment.rs:302-469 | Over any interleaving of registrations, refreshes, closes, reconcile calls, late replies, failing saves and restarts: posted snapshots of one revision have one commit, and indexed implies that the confirmed revision and commit are the current ones |
| `Enrollments.RevisionReused` | sigiledd/src/enrollment.rs:63-84 | An unsaved revision number can come to name another commit after a restart, exactly when the restart loads a lower, unfrozen revision or that revision for another commit |
| `Enrollments.ReusedRevisionExample` | sigiledd/src/enrollment.rs:63-84 | A run: a saved registration, a commit observed but not saved, a restart, and another commit under the same owner and revision 1 |
| `Refresh.Pool.Fail` | sigiledd/src/ecosystem.rs:120-140 | A failure keeps what was last read; a busy retry does not conceal a quarantined owner, any other failure of the project does |
| `Refresh.Pool.GetPermit` | sigiledd/src/ecosystem.rs:253-271 | A permit turns the call into a worker that owns permit and mirror; without one the call is refused and still owns the mirror |
| `Refresh.Pool.Refuse` | sigiledd/src/ecosystem.rs:203-222 | A refused call reports a quarantined owner as such, and is then not counted as busy |
| `Refresh.Pool.Cancel` | sigiledd/src/ecosystem.rs:264-323 | A cancelled call gives up the lock it owns; the worker it started keeps permit and mirror |
| `Refresh.Pool.Finish` | sigiledd/src/ecosystem.rs:264-296 | A worker publishes success or failure in one section: what the project shows changes exactly with a good read, even if the save then fails, and no unconfirmed end is shown for it afterwards |
| `Refresh.Pool.Timeout` | sigiledd/src/ecosystem.rs:297-322 | Only a worker that is not done makes the call report an unconfirmed end |
| `Refresh.Pool.Release` | sigiledd/src/ecosystem.rs:264-296 | Permit and mirror go back together |
| `Refresh.Run` | sigiledd/src/ecosystem.rs:201-345 | Over any interleaving: free permits and workers add up to two, no mirror has two workers, an unconfirmed end of this process is shown only while its worker holds mirror and permit and, unless a refused call could not be saved, for as long as it does, and every project shows the declaration, app, jobs and revision of its last good read, or those it was registered or saved with |
| `Refresh.UnsavedRead` | sigiledd/src/ecosystem.rs:275-291 | A refresh that reads well and fails in its save returns the failed save, and the project shows the new reading |
| `Refresh.ConcealedWorker` | sigiledd/src/ecosystem.rs:203-222 | A run in which a refused call that cannot be saved conceals a worker reported as unconfirmed, while it still reads |
| `Refresh.Handover` | sigiledd/src/ecosystem.rs:264-271 | The mirror lock passes from the call to exactly one worker |
| `Repair.RepairBatch` | sigiledd/src/ecosystem.rs:348-370 | A batch considers up to sixteen names, each the next registered one after the cursor, and the cursor ends at the last; up to sixteen projects are all considered |
| `Repair.NextSkipsNone` | sigiledd/src/ecosystem.rs:349-355 | No registered name lies between the cursor and the next turn |
| `Repair.TurnProgress` | sigiledd/src/ecosystem.rs:348-370 | A turn either reaches the project or leaves fewer names ahead of it, even as projects are added |
| `Repair.Batches` | sigiledd/src/ecosystem.rs:348-380 | While projects are only added, every registered one is considered within as many batches of sixteen as cover all names; for a fixed set of n that is n/16 rounded up |
| `Templates.Creation.Choose` | sigiledd/src/templates.rs:391-454 | A recorded intent is reused only for the same selection and never resolves the ref again; a new operation resolves it once, in a source that looked eligible in this call and listed the ref at that commit |
| `Templates.Creation.Prepare` | sigiledd/src/templates.rs:455-491 | Every attempt looks at the source again and prepares the recorded root commit, or stops; when it goes on, the intent with its commit is in memory and is the only state a restart could load |
| `Templates.Creation.Obtain` | sigiledd/src/templates.rs:492-563 | Success means that this call saw the destination as private and carrying the marker of the operation, and that it is the only one on disk; once a destination is recorded nothing is created and no other one is taken |
| `Templates.Creation.Establish` | sigiledd/src/templates.rs:530-537 | Success means that this call created the repository it returns under a free name; the reply may be lost after the effect |
| `Templates.Creation.PushCommit` | sigiledd/src/template_snapshot.rs:362-368 | A push comes right after an empty listing and takes effect only where there is no master; success means that the commit was pushed, and the reply may be lost |
| `Templates.Creation.Publish` | sigiledd/src/template_snapshot.rs:347-373 | Success means that a listing made during this call showed the commit as the only ref; a push is made only right after a listing that was empty; undisturbed and without failures it succeeds for a destination that is empty or already lists exactly the commit, such as after a lost reply |
| `Templates.Creation.Deliver` | sigiledd/src/templates.rs:564-576 | Success means that the very repository that carried the marker listed the commit as its only ref |
| `Templates.Creation.Equip` | sigiledd/src/templates.rs:577-598 | Success means that this repository was shown with master as its default branch, changed only if it was another, and that a deploy key was installed |
| `Templates.Creation.Finish` | sigiledd/src/templates.rs:599-646 | Completion is recorded only after verification and equipment, with a runtime only after the name was checked out at the commit in this call, and taken back in memory when the save fails |
| `Templates.Creation.Create` | sigiledd/src/templates.rs:377-649 | One call cut short anywhere: a success met no failing step and means that the marked and recorded destination listed the recorded commit as its only ref, was equipped and, with a runtime, checked out at it; a conflicting selection changes nothing; a retry keeps operation, commit and destination, resolves nothing, and creates nothing once a destination is recorded; every write comes after a marked look of the same call; undisturbed and without failures the call succeeds exactly if the circumstances at its start are promising, apart from a stranger that carries its number |
| `Templates.StoryClean` | sigiledd/src/templates.rs:377-649 | Over the whole history of a name, others included: all looks, creations, pushes and writes are of one operation and all pushes of one commit; a creation comes right after an answer that nothing was there, and never once a destination was on record; a push comes right after an empty listing and never over a master; every write comes after a marked look and the record of that very repository, and goes to it unless somebody removed it in between |
| `Templates.WriteToMarked` | sigiledd/src/templates.rs:547-563 | The repository written to is the one that was shown private and with the marker and was then recorded, unless it was removed in between |
| `Templates.MarkedAtWrite` | sigiledd/src/templates.rs:547-598 | At the write that repository is private and carries the marker exactly when whatever took either away since the look was made good again |
| `Templates.PushToUnmarked` | sigiledd/src/templates.rs:547-576 | A log in which the marker is taken away between the look and the push, and the push is taken by a repository the code would have refused |
| `Templates.CreationsApart` | sigiledd/src/templates.rs:492-537 | The provider's part: between two creations under one name somebody removed the first repository |
| `Templates.CreatedBeforeRecord` | sigiledd/src/templates.rs:492-537 | The daemon's part: a repository is created only right after an answer that nothing was under the name, and never once a destination of the operation has reached the state file |
| `Templates.EmptyAtPush` | sigiledd/src/template_snapshot.rs:354-368 | The destination is empty at the push exactly when everything that others put there since the empty listing was taken away again; if nothing is taken away, exactly when nobody wrote a ref |
| `Templates.PushOntoForeignTag` | sigiledd/src/template_snapshot.rs:354-368 | A log in which a tag is written between the empty listing and the push, and the push is taken by a destination the code would have refused |
| `Templates.Run` | sigiledd/src/templates.rs:377-649 | The same for any calls with restarts from whatever a save left behind; for every record of completion on disk, the marked and recorded destination listed the recorded commit as its only ref and was equipped |
| `Templates.Recover` | sigiledd/src/templates.rs:377-649 | One request, tried any number of times with requests, saves and replies failing and the process dying anywhere, and nobody else acting: one more attempt in which nothing fails completes it, if the start was hopeful: an eligible source with the ref, the prepared commit, and a destination that is absent or the marked one and empty or at the commit |
| `Templates.HopeStays` | sigiledd/src/templates.rs:391-576 | Whatever an attempt leaves at the provider, in memory and on disk, every state a restart may load is still one from which the request can be carried through |
| `Templates.FreshStart` | sigiledd/src/templates.rs:391-454 | A free name with an eligible source that has the ref is such a start |
| `Dates.EpochOfRealStamp` | sigiledd/src/import.rs:206-229 | For every real date and time from 1970 to 9999 the answer is the day count reached by stepping the Gregorian calendar, times 86400, plus the time of day |
| `Dates.ReadsFields` | sigiledd/src/import.rs:206-229 | For any unsigned digits in the six fields the answer is their seconds on the day count, unless the month is not one of twelve, the day not one of thirty-one, or the seconds fall before 1970 |
| `Dates.Unreadable` | sigiledd/src/import.rs:206-229 | A text shorter than 19 characters, or with anything but a digit at the end of a field, is no timestamp |
| `Dates.DayOfNumber` | sigiledd/src/import.rs:206-229 | Every real date from 1970 on is the calendar day the arithmetic numbers it |
| `Dates.NumberOfDay` | sigiledd/src/import.rs:206-229 | The n-th calendar day has number n |
| `Dates.EpochRises` | sigiledd/src/import.rs:206-229 | The answer is strictly increasing in year, month, day, hour, minute and second |
| `Dates.ReadAsAnother` | sigiledd/src/import.rs:206-229 | With unsigned fields, month 1 to 12 and day 1 to 31, a stamp is read as some other, real stamp exactly when its day, hour, minute or second does not exist and its seconds fall between 1970 and the end of 9999 |
| `Dates.RunsOver` | sigiledd/src/import.rs:206-229 | A day beyond the end of its month is numbered as the day of the next month it runs into |
| `Dates.ThirtyFirstOfFebruary` | sigiledd/src/import.rs:206-229 | The 31st of February 2026 is read as the 3rd of March |
| `Dates.TwentyFiveOClock` | sigiledd/src/import.rs:206-229 | 25 o'clock on the 1st of January 2026 is read as 1 o'clock on the 2nd |
| `Dates.SignedHour` | sigiledd/src/import.rs:206-229 | An hour written as -1 is read as the last hour of the day before |

## Left out

- Authorization, tokens, HTTP routing, headers, JSON shapes and browser views: only the decisions they carry are kept.
- Docker, SSH, Git and the provider's API: abstract operations (create fails if the name exists, push is fast-forward
  only, update-ref is compare-and-set, rename is atomic, a merge base is a best common ancestor).
- The development mode without a runtime: the lifecycle is modelled with a runtime configured, so the branch-only
  close and open are not covered.
- The lifecycle verbs are steps over one world value rather than methods, because any two of them interleave;
  `SessionStore` has the in-place form of every store update they make.
- A verb's request to Docker or Git is one step; what a request does halfway is covered only as far as its outcomes
  (refused, undone, leaked, reply lost) say.
- `find_orphan` reads refs, debts and records in one step; its caller holds the project's merge lock throughout.
- A save reads debts and records one after the other (`sigiledd/src/main.rs:70-86`), while other handlers run up to
  their own next save; here it reads both at once.
- Browser allocations, events, approvals, apps and job runs in the state file.
- The merge debt package (conflicted files, commit messages, dates): a debt keeps its branch and the two heads.
- `changed_paths` and the close hint built from it.
- The lock recovery of mirrors in `sigiledd/src/runtime.rs` (`with_refresh_lock_recovery`).
- Elapsed time is a number supplied by the caller; stale observations are a parameter of the observer results.
- The extension is modelled with one instance per custody, at most one command per terminal, starts reported at once
  by integrated terminals that are listed, ends reported in order per terminal or lost, and shell integration that
  turns on only at a prompt. Counters stay below 2^53, where the script's numbers are exact.
- Events for edits, saves and selections are sent at most every three seconds; the model lets any of them through.
- Handoff: the walk through directory descriptors is one step that may fail; links, directories and other special
  files are one kind of node, which never equals a file; file modes are not kept.
- Handoff: writing a created bundle file through its open descriptor is one step that may stop after any prefix.
- Handoff: the loss of written but unsynced data in a power failure; a death of the process keeps what was written.
- Handoff: Git's refresh of cached file times in the index during `status`, which can make one retry report a changed
  workspace.
- Handoff.Land: which index is replaced is stated for writers that leave the index and its lock alone while the lock
  is held (`Mode.polite`), as Git does; a program that ignores the lock can be overwritten.
- Handoff acceptance after a close (`accept_handoff`) and research receipts.
- Checkpoints: a tree holds regular files only; links are not staged, so a workspace with one that is not ignored
  counts as never clean.
- Closes.WorkArrives: for a merge that git made it assumes that git fused path by path; a rename that git follows to
  another path is not covered. The tree on master is git's in any case (`Closes.Project.Close`).
- Enrollment: retry times, attempt counts, error texts, storage limits beyond their yes or no, and the overflow of the
  revision at 2^63.
- Enrollment: which documents are selected and their digests; a snapshot keeps owner, revision, commit and one digest.
- Refresh: panics of a worker, and times of attempts and retries.
- Repair: whether a considered project is due or its mirror is free; a considered project is one whose turn came.
- Templates: the contents of the prepared tree, and that preparing the same intent twice gives the same commit
  (`sigiledd/src/template_snapshot.rs:320-337`). Preparation may answer any commit on each attempt; that all attempts
  publish the recorded one is proved from the check against the record.
- Templates.CreatedBeforeRecord: while no destination has reached the state file, a repository that somebody removes
  is created again, as in the code; `Templates.CreationsApart` says that there is then a removal in between.
- Templates.Recover: the provider creates the repository as it was asked to (private, with the marker) when nobody
  else acts, and the ref that the request names stands in the source.
- Templates: names already registered without an intent, the image build, events, and the project record.
- Templates: with a runtime, the checkout is compared with the commit in one step; without one it is not compared, as
  in the code.
- The lifecycle keeps project aliases and session containers apart as values: it assumes that no project is called
  `s-<id>-g<generation>` for an existing session (`Naming.AliasClash` says when it could be).
- Dates.EpochOfRealStamp: the text after the seconds is not read, so any suffix stands for the zero offset the
  importer assumes.
- LifecycleSafety.ContainersAreAlwaysNamed: starts from a snapshot whose records have no bindings yet, or from an
  empty one; session ids are never reused.
