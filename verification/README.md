# Foreman session engine: a model in Dafny, with proofs

Foreman runs coding agents in sandboxes. Each task becomes a session that a
control plane moves through a fixed transition table; a coordinator provisions
a sandbox, executes the agent, watches it with heartbeats, retries it after a
crash, holds it for human approval when a policy says so, and cleans up; after
a restart a recovery loop decides what becomes of the sessions it finds in the
store. This project models that engine as a step system and proves what every
interleaving of its goroutines keeps, over any number of sessions, crashes,
lost store writes and restarts. Around it stand the in-memory event bus, the
Docker log decoder, approval policies, backoff arithmetic, the heartbeat
detector and the checkpoint references.

`dafny verify dfyconfig.toml` checks the whole project.

## How the model is laid out

* `Lifecycle` holds statuses, the transition table and the lifecycle events.
* `Plane` is the control plane and its sessions table as one value. Store
  writes may be lost, so the rows can lag behind memory. The classes `Store`
  (module `StateStore`) and `ControlPlane` are the same things as the source
  writes them, objects whose methods update maps and rows, and their methods
  are proved to do to their state what `Plane` says.
* `Engine` is the step system. A thread is a goroutine: a call of `SubmitTask`
  or `ResumeSession`, or a run of `runAgent` (with `handleCrash` and
  `waitForApproval` inside it, and its heartbeat monitor beside it). Every
  point at which another goroutine can get in between has a program counter of
  its own, and `StepRun` is split as the code is: up to RUNNING, execution,
  crash, decision, end. Outcomes of the sandbox, the store and the bus are left open by a
  `Choice`. A run of the engine (`IsRun`) is any finite sequence of enabled
  actions from the empty system: submissions, steps, ticks, answers,
  cancellations, shutdown, process restarts and passes of the recovery loop.
* `Ownership`, `History`, `Chains`, `Retries`, `Sandboxes`, `ApprovalGate`,
  `CrashSignal` and `Admission` prove the whole-run theorems about it.
  `Witnesses` and `Scenarios` build runs that show bounds are met and side
  conditions needed.
* `Outcomes` and `Calls` read off, from the outcomes of the calls a run or a
  submission has made, how it ends and how it leaves its session. What these
  outcomes are is taken from the actions of a run of the engine, not from what
  its steps record; `Outcomes.HistoryIsTrue` shows that what they record is the
  same.
* `Saves` is the engine with its checkpoints: the baseline save of `runAgent`
  and the crash save of `handleCrash` go on in steps while everything else
  does. Leaving the saves out gives exactly the runs of the engine.
* `Coordinator` is the class with the shared fields, each critical section
  proved to do what the engine's step does; `Bootstrap` is the recovery loop,
  proved to make the passes of the engine.
* `Policies`, `Backoff`, `Heartbeat`, `Checkpoints`, `Subjects`, `MemoryBus`,
  `DockerLogs` and `DockerSandbox` are the supporting parts.

Side conditions are flags of `Engine.Env`. `hasStore || uniqueIds` says that
one id never gets two sessions in one process: the primary key sees to it, or
in memory-only mode the clients do. `busOk` says that Publish returns nil, as
`MemoryBus` does. `destroyOk` says that Destroy and the reaping of orphans
succeed. A theorem that does not name a flag holds without it: the approval
gate, sandbox conservation, the finality of durable outcomes, the crash
signal, the admission bound, the bound on retries and the order of checkpoint
references need none of them.

## What the proofs brought to light

* The comment on `matchSubject` (internal/eventbus/memory.go:65) says ">"
  matches one or more tokens; the code also lets it match none. The model
  follows the code, and `Subjects.DiffersFromNats` says exactly when the two
  readings part.
* `active` and the unfinished runs agree only until a crash retry: the retry
  goroutine is never registered, so `Drain` can report 0 while one is at work
  (`Scenarios.RetryEscapesDrain`). In memory-only mode the resubmission of a
  task id breaks the agreement too (`Scenarios.ResubmissionHidesARun`).
* A publish that fails on the transition to RUNNING or APPROVAL ends the run
  after its status has changed, and strands the session there
  (`Scenarios.FailedPublishStrandsASession`). `Chains.ChainsEndExactly` says
  for each session of each run that this and cancellation during backoff are
  the only ways in which a launched session is left unfinished.
* A cancel closure of the memory bus can remove another subscriber's handler;
  `MemoryBus.CancelRemovesOwn` gives the exact condition under which it does
  not.
* The recovery loop ignores every error of its transitions, so its result does
  not depend on the bus or on the store keeping its writes.
* Bootstrap takes 90 seconds as its default age limit
  (internal/core/builder.go:128) where the coordinator takes 60
  (internal/coordinator/coordinator.go:103).
* The set of session ids that Bootstrap hands to the reaper never protects a
  container, because containers are named after sandboxes
  (`DockerSandbox.ReaperSparesNothing`).

## Model

| member | source | states |
|---|---|---|
| Lifecycle.ClosureIsMayFollow | internal/controlplane/session.go:35-41 | Which status can ever be reached from which: the transitive closure of the transition table equals a closed form (nothing leaves a terminal status or re-enters CREATED, ALLOCATING follows only CREATED, CANCELLING leads only to an end). Both directions |
| Lifecycle.TransitionTable | internal/controlplane/session.go:35-41 | The allowed transitions are these thirteen pairs and no others |
| Lifecycle.Route | internal/controlplane/session.go:35-41 | A concrete walk through the table for every pair the closed form admits |
| Lifecycle.TerminalEndsWalk | internal/controlplane/session.go:35-41 | A terminal status can only be the last one a session holds |
| Lifecycle.WalkPrecedes | internal/controlplane/session.go:35-41 | Any two statuses a session holds one after the other, however far apart, are related by the closure |
| Lifecycle.PublishedNames | internal/controlplane/session.go:144-160 | What is published on entering each of the seven statuses, in the words of the wire: session.created, session.allocating, session.running, session.approval, session.cancelling, session.completed, session.failed |
| Lifecycle.EventNamesTheStatus | internal/schemas/event.go:8-16 | The event of a transition is "session." and the lower-case name of the status it leads to |
| Lifecycle.EventsDetermineHistory | internal/controlplane/session.go:144-166 | The published events determine the history of statuses: no two histories publish the same |
| Plane.RunTracks | internal/controlplane/session.go:70-199 | In every interleaving of control-plane calls by any clients over any number of processes, a session's statuses form a walk through the table that ends in the present one, and the durable status is one of them |
| Plane.DurableStatusAdvances | internal/controlplane/session.go:107-167 | Across lost writes and restarts the successive durable statuses follow the closure of the table, and a row never disappears |
| Plane.DurableTerminalIsFinal | internal/controlplane/session.go:81-98 | A durable COMPLETED or FAILED never changes again, not by a transition, a restart, a resubmission of the id or a lost write |
| Plane.DurableTerminalBindsMemory | internal/controlplane/session.go:118-142 | A session durably finished is finished in memory with the same outcome |
| Plane.StoreLagsMemory | internal/controlplane/session.go:133-142 | Within a process the durable status is one memory has held, and the statuses held since form a walk from it to the present one |
| Plane.TransitionTakesEffect | internal/controlplane/session.go:107-167 | An accepted transition changes memory, publishes one event if the bus takes it, and, if its write lands, changes the row; no other session is touched, and one that is not accepted changes nothing |
| Plane.LandedWritesTakeEffect | internal/controlplane/session.go:137-142 | Whenever the last write of a session's status landed, the row says what memory says, however many writes were lost before |
| Plane.DuplicateCreateIsNoop | internal/controlplane/session.go:81-98 | With a store, resubmitting the id of a session in memory is refused and changes neither memory nor rows |
| Plane.CreateIsFresh | internal/controlplane/session.go:81-98 | With a store, a creation that succeeds never replaces a session in memory |
| Plane.ReloadSkipsTerminal | internal/controlplane/session.go:174-193 | Recovery loads exactly the rows that are not terminal, with their status |
| Plane.EventsAreHistory | internal/controlplane/session.go:249-263 | Used in order by one owner on a bus whose Publish returns nil, the events published for a session are its history of statuses, in order |
| StateStore.Store.CreateSession | internal/statestore/postgres.go:125-139 | The insert adds exactly the new row; a duplicate key always fails and leaves the row that was there; a write that lands may still report an error |
| StateStore.Store.UpdateSessionStatus | internal/statestore/postgres.go:163-173 | Changes the status and time of one row and nothing else, or reports an error and changes nothing |
| StateStore.Store.ListNonTerminalSessions | internal/statestore/postgres.go:175-209 | Every non-terminal row exactly once, no terminal row, newest first; nothing when the database cannot be read |
| StateStore.Store.SaveCheckpoint | internal/statestore/postgres.go:234-252 | Appends one checkpoint under an id above all ids in the table, also when the call then fails |
| StateStore.Store.LastCheckpoint | internal/statestore/postgres.go:254-274 | One pass over the table finds the greatest checkpoint of the session by step number and then id |
| StateStore.Store.UpdateCheckpointRef | internal/statestore/postgres.go:276-286 | Changes the reference of one row; fails on a missing row |
| ControlPlane.ControlPlane.CreateSession | internal/controlplane/session.go:70-105 | A failed insert prevents the memory write, a failed publish is reported after it; the whole new session, the whole new row and the published events are stated |
| ControlPlane.ControlPlane.IsAllowed | internal/controlplane/session.go:118-131 | The scan accepts exactly the table's successors |
| ControlPlane.ControlPlane.Transition | internal/controlplane/session.go:107-167 | A forbidden or unknown move changes nothing and fails; an allowed one changes status and time in memory for good, status and time of the row exactly if the write lands, publishes the event of the new status, and fails only if the publish does; every other session and row is as it was |
| ControlPlane.ControlPlane.Recover | internal/controlplane/session.go:174-199 | Memory becomes exactly the non-terminal rows, each with every field of its row, no agent, no checkpoint reference and no event; an unreadable store changes nothing |
| ControlPlane.ControlPlane.LoadedStatuses | internal/controlplane/session.go:183-192 | Loading the listed rows gives the statuses of all non-terminal rows |
| ControlPlane.ControlPlane.SaveCheckpoint | internal/controlplane/session.go:203-240 | For each point of failure, exactly which of the checkpoint row, the durable reference and the one in memory have changed; the whole is a save of the step system of Checkpoints |
| Ownership.PlaneStep | internal/coordinator/coordinator.go:213-288 | Every step of the engine is at most one call of the control plane |
| Ownership.EngineRunsThePlane | internal/coordinator/coordinator.go:213-288 | Every run of the engine is, point for point, a run of the control plane, so whatever holds of all runs of the one holds of all runs of the other |
| Ownership.DurableAdvances | internal/controlplane/session.go:107-167 | In every run of the engine a durable status only advances through the closure of the table |
| Ownership.DurableOutcomeIsFinal | internal/controlplane/session.go:174-193 | In every run of the engine, across crashes, restarts, resubmissions and lost writes, a durable COMPLETED or FAILED stays what it is |
| Ownership.DurableLagsMemory | internal/controlplane/session.go:133-142 | In every state of a run with a store the durable status is one memory has held, and the statuses held since form a walk from it to the present one |
| Ownership.StoreKeepsUp | internal/controlplane/session.go:137-142 | In every run whose store keeps every write, each row says in every state what memory says |
| Ownership.AlwaysSingleOwner | internal/coordinator/coordinator.go:212-288 | With a store, or with ids never resubmitted, no reachable state has two owners of one session among submissions, resumptions, runs, retries and the recovery loop |
| Ownership.EventsFollowHistory | internal/controlplane/session.go:249-263 | On the memory bus the session events a process publishes are exactly each session's history, in order, in every reachable state; Lifecycle.PublishedNames gives their names |
| Chains.StepRunFits | internal/coordinator/coordinator.go:292-596 | Whether or not its events are published, each point of the program finds its session in the statuses it expects, and a run that lets go of its session has ended it, stranded it, handed it over or was cancelled |
| Chains.AlwaysAccounted | internal/coordinator/coordinator.go:292-596 | In every reachable state each session in memory is owned, awaiting recovery, finished, stranded, cancelled in backoff, or was refused before its launch, whatever the bus does |
| Chains.ChainsEndExactly | internal/coordinator/coordinator.go:461-467 | A launched chain of runs with no goroutine left is unfinished if and only if it was cancelled during backoff or its transition to RUNNING or APPROVAL went through without its event being published; no assumption on the bus |
| Chains.ChainsEndTerminal | internal/coordinator/coordinator.go:787-801 | With a bus whose Publish returns nil, a launched chain with no goroutine left is COMPLETED or FAILED if and only if it was not cancelled during backoff, which leaves RUNNING |
| Outcomes.RunEndsAsTold | internal/coordinator/coordinator.go:292-596 | How every run ends, read off the outcomes of its calls alone: it hands over if and only if it slept through a backoff, is abandoned if and only if its context was done first, and otherwise its session is COMPLETED, FAILED or unfinished if and only if, respectively, the agent exited 0 unsignalled with a timely grant where a policy covers its output; a preparation, the agent, the approval or the last retry failed; an event was refused |
| Outcomes.OneEnding | internal/coordinator/coordinator.go:292-596 | These endings exclude one another for every sequence of outcomes the program can meet |
| Outcomes.CancelledInBackoffStaysRunning | internal/coordinator/coordinator.go:787-791 | A run whose context is done during its backoff leaves its session RUNNING and without owner until the process restarts, after its sandbox has been destroyed |
| Outcomes.RetryTakesOver | internal/coordinator/coordinator.go:793-800 | A run that slept through its backoff is followed by the next run of its chain, from the start, without a sandbox, and cancelled if and only if it was itself; status, sandboxes and active are as they were |
| Outcomes.CancelledForGood | internal/coordinator/coordinator.go:280-285 | A run's context is cancelled by its cancellation and nothing else, and stays cancelled |
| Scenarios.CancelledBackoffAbandons | internal/coordinator/coordinator.go:787-791 | That exception occurs: after any number of crashes up to the limit some run ends so, with nothing left running |
| Calls.CallsReturnAsTold | internal/coordinator/coordinator.go:212-288 | How every submission and resumption returns, read off the outcomes of its calls: it has launched and registered a run if and only if the tools were resolved, failed the session if and only if they were not, left it ALLOCATING if and only if that event was refused, and left it as it was if and only if its announcement or admission was refused |
| Calls.RecoveryPass | internal/core/builder.go:130-165 | A pass over a recovered row hands a recent RUNNING session to a resumption, leaves a CREATED one, moves an APPROVAL one to CANCELLING for another pass, and fails every other; only what is resumed has an owner afterwards |
| Calls.RestartStartsOver | internal/core/builder.go:73-109 | A restart keeps the rows and nothing else: memory is the unfinished rows, no goroutine, no active session and no crash count is left, the coordinator accepts, and every sandbox not destroyed is an orphan |
| Calls.NothingIsExcluded | internal/coordinator/coordinator.go:431-596 | The theorems are about every outcome: each call of a run can come back in every way it can in the code, a reply is taken exactly if there is one, and a wait or a backoff is cut short exactly if the context is cancelled |
| Calls.AnythingMayHappen | internal/coordinator/coordinator.go:210-288 | And about every environment: submissions, answers either way, cancellations, heartbeats, shutdown, restarts and recovered rows of any age are possible whenever they are in the code |
| Chains.NothingStuck | internal/core/builder.go:126-165 | Once recovery has dealt with a session it is never left unowned in CANCELLING, and unowned it is unfinished only if it was never launched, cancelled in backoff, or stranded by a refused event, which a bus that does not fail excludes |
| Retries.StepLowersRank | internal/coordinator/coordinator.go:748-801 | Every step of a chain, also the one that hands over to a retry, lowers a measure led by the attempts that are left |
| Retries.NeverStuck | internal/coordinator/coordinator.go:292-596 | An unfinished run always has a step it can take |
| Retries.ChainsAreFinite | internal/coordinator/coordinator.go:748-801 | Within a process the runs of one session take at most 14 * maxRetries + 13 steps in all, however they interleave with everything else |
| Retries.RetriesAreBounded | internal/coordinator/coordinator.go:768-801 | In every reachable state a chain is in at most its (maxRetries + 1)-th run and has slept less than the geometric budget plus maxRetries jitters; no assumption on owners, bus or store |
| Retries.RunsPerProcess | internal/coordinator/coordinator.go:748-801 | A session gets at most maxRetries + 1 runs per process, and the run that owns it is the last one started |
| Retries.RetriesWaitTheirTurn | internal/coordinator/coordinator.go:768-801 | With one owner per session, the n-th run of a chain was preceded by n - 1 counted crashes and by the backoff of each, slept through to the end: the time waited is bounded below and above by the series |
| Scenarios.RetriesAreUsedUp | internal/coordinator/coordinator.go:748-801 | For every limit there is a run in which a session gets exactly maxRetries + 1 agent runs, is then FAILED, and has nothing left running: the bound is met |
| Backoff.Duration | internal/coordinator/coordinator.go:735-742 | The delay is within one unit below and one jitter above base * multiplier^(attempt - 1), and never negative |
| Backoff.Clamp | internal/coordinator/coordinator.go:105-116 | Each configured value is kept if it is positive, and replaced by five seconds, two, or one second if it is not |
| Backoff.WaitStaysInBudget | internal/coordinator/coordinator.go:778-801 | One more backoff, after any subset of the earlier attempts, stays below the budget of the attempts used |
| Backoff.BudgetMonotone | internal/coordinator/coordinator.go:735-742 | The budget is never negative and grows with the attempts |
| Backoff.BackoffGrows | internal/coordinator/coordinator.go:737-739 | The first retry waits for the base delay before jitter, and each further one multiplies it |
| Backoff.SeriesIsGeometric | internal/coordinator/coordinator.go:735-742 | The exponential part of the budget is a geometric series in closed form |
| Sandboxes.AlwaysConserved | internal/coordinator/coordinator.go:431-596 | In every reachable state each thread's sandbox is its own, and each sandbox is held by its run, destroyed once, or left behind by a dead process |
| Sandboxes.DestroyedExactlyOnce | internal/coordinator/coordinator.go:431-596 | Each successful Provision gets exactly one Destroy call on every path of runAgent and handleCrash, and never a second one |
| Sandboxes.DestroyPrecedesRetry | internal/coordinator/coordinator.go:765-801 | The dead sandbox has had its Destroy call before the retry is decided on or launched |
| Sandboxes.DestroyRemoves | internal/coordinator/coordinator.go:852-856 | Each cleanup makes the sandbox's first Destroy call, and the container goes exactly if it succeeds |
| Sandboxes.LiveWhileHeld | internal/coordinator/coordinator.go:431-596 | A held sandbox has a live container, and when Destroy and reaping succeed no other has |
| Sandboxes.OneLiveSandbox | internal/coordinator/coordinator.go:765-801 | With one owner per session and Destroys that succeed, no session ever has two live sandboxes |
| ApprovalGate.CompletionsAreCleared | internal/coordinator/coordinator.go:558-592 | Over all histories, every recorded completion was cleared by what the history records of its run, and every session COMPLETED in memory or durably has one behind it; Outcomes.HistoryIsTrue ties the records to the actions |
| ApprovalGate.CompletedByLatest | internal/coordinator/coordinator.go:590-592 | With one owner per session, the completing run is the last one started for the session |
| ApprovalGate.CompletedSessionsWereCleared | internal/coordinator/coordinator.go:558-592 | For each session COMPLETED in memory or durably there is the recorded completion: exit code 0, no policy covering the tool calls or a first answer that was a grant before giving up, and with one owner per session no later run started |
| Outcomes.CompletedSessionsPassedTheGate | internal/coordinator/coordinator.go:517-592 | The gate in terms of what happened: a session COMPLETED in memory or durably was completed by a run whose Execute returned, at an earlier step, exit code 0; and if a policy covers the output it returned, the first answer action to that run was a grant and the run took it before any timeout or cancellation; across crashes, retries, restarts, lost writes and any owners |
| Outcomes.HistoryIsTrue | internal/coordinator/coordinator.go:517-536 | For every run, the history records as its result what Execute returned, as its first answer the first that was given, giving up exactly if the wait ended otherwise, and a plain failure exactly if Execute failed with no error in the channel |
| History.LastStartedIsNewest | internal/coordinator/coordinator.go:793-800 | What the history calls the run of a session started last is at least as new as every run of it there has been |
| ApprovalGate.StepAccountable | internal/core/builder.go:153-158 | No step but a run's own completion, in particular no recovery pass and no call, makes a session COMPLETED |
| Scenarios.EveryOutputCanComplete | internal/coordinator/coordinator.go:559-592 | The gate opens: for every agent output, covered by a policy or not, there is a run of the engine that exits 0 with it and leaves the session COMPLETED with nothing running |
| CrashSignal.AlwaysSignalled | internal/coordinator/coordinator.go:654-660 | In every interleaving the monitor has sent before it cancels, and the error stays in the channel until the run polls it |
| CrashSignal.NoLostCrashSignal | internal/coordinator/coordinator.go:519-536 | If the monitor cut the execution, the run takes the crash path whatever Execute returned |
| CrashSignal.CutRunsNeverFailPlainly | internal/coordinator/coordinator.go:532-536 | In no history does a run cut off by its monitor end on the plain execute-failed path |
| CrashSignal.CutExactly | internal/coordinator/coordinator.go:643-669 | The monitor cancels its run's execution exactly with the second beat after the first that ended maxFailures consecutive failures, and one that quit without cancelling was stopped while it watched, before any such failures |
| CrashSignal.CrashPathExactly | internal/coordinator/coordinator.go:519-536 | When Execute is back the run takes the crash path if and only if its monitor has sent, whether or not it has cancelled yet |
| Scenarios.CutRunsCrash | internal/coordinator/coordinator.go:643-669 | For every maxFailures some run has that many failed heartbeats, is cut off by its monitor, and takes the crash path |
| CrashSignal.MonitorDetects | internal/coordinator/coordinator.go:643-669 | Fed with any heartbeats, and with the end of its context at any point or at none, the monitor thread of the engine goes on to send exactly if some tick before that end closes maxFailures consecutive failures, and otherwise quits exactly if its context is done |
| Heartbeat.MaxFailures | internal/coordinator/coordinator.go:633-637 | When timeout >= interval > 0, maxFailures * interval lies in (timeout - interval, timeout]; for any shorter timeout, also a negative one, it is three |
| Heartbeat.Monitor | internal/coordinator/coordinator.go:643-669 | The loop declares a crash at the first tick that ends maxFailures consecutive failures, and none exactly if there is no such tick |
| Admission.StepLoad | internal/coordinator/coordinator.go:226-252 | Within a process only an admitted limit check raises active plus pending, and nothing starts accepting again |
| Admission.AdmissionBound | internal/coordinator/coordinator.go:260-283 | If never more than k calls are between check and registration, active plus pending is at most maxConcurrent - 1 + k in every reachable state |
| Admission.SerialAdmissionsRespectLimit | internal/coordinator/coordinator.go:260-283 | Serial admissions keep the limit exactly |
| Witnesses.AdmissionBoundIsTight | internal/coordinator/coordinator.go:260-283 | For every limit and every k some run meets that bound, so concurrent admissions do exceed the limit |
| Admission.LoadOnlyShrinksAfterStop | internal/coordinator/coordinator.go:150-154 | After StopAccepting, active plus pending never grows for the rest of the process |
| Admission.NothingAdmittedAfterStop | internal/coordinator/coordinator.go:150-154 | From the step that stops accepting on, no limit check admits anything until the process restarts, and active plus pending never exceeds what it was |
| Admission.Drain | internal/coordinator/coordinator.go:167-181 | Reports 0 exactly if some poll saw no active session, stops at the first such poll, and otherwise reports the last one; polled beside a run of the engine, a report of 0 after StopAccepting with no call pending means active is empty from that poll on |
| Admission.DrainedStaysEmpty | internal/core/builder.go:604-621 | An empty active, after StopAccepting and with no call pending, stays empty for the rest of the process |
| Admission.ActiveMeansUnfinished | internal/coordinator/coordinator.go:293-297 | Every key of active belongs to a run of that session that has not finished |
| Admission.ActiveIsFirstRuns | internal/coordinator/coordinator.go:793-800 | With one owner per session, an unfinished run that has not handed over is in active if and only if it is the first of its chain |
| Admission.RetriesAreNotCounted | internal/coordinator/coordinator.go:799-800 | Once the run before it is gone, an unfinished retry is not in active |
| Scenarios.RetryEscapesDrain | internal/coordinator/coordinator.go:799-800 | After any number of crashes up to the limit, a run of the engine has a retry at work while active is empty |
| Scenarios.ResubmissionHidesARun | internal/coordinator/coordinator.go:212-218 | Without a store, for every limit, resubmitting a task id can give its session two owners and hides one of the two runs from active |
| Scenarios.FailedPublishStrandsASession | internal/coordinator/coordinator.go:461-467 | If Publish can fail, some run leaves a launched session RUNNING with no goroutine and no cancellation, so the second exception of ChainsEndExactly does happen |
| Coordinator.EnvOf | internal/coordinator/coordinator.go:99-145 | A coordinator made from any settings meets the assumptions of the engine theorems, monitors exactly if the interval is positive, with the number of failures of its timeout, and keeps patterns and policies |
| Coordinator.Clamp | internal/coordinator/coordinator.go:99-119 | Each configured value is kept if usable, and replaced by one run, three retries, sixty seconds or no monitoring if not |
| Coordinator.Coordinator.MayStart | internal/coordinator/coordinator.go:226-235 | The critical section answers as the engine's admission check does; Register, Unregister and StopAccepting leave the shared fields as the engine's steps do |
| Coordinator.Coordinator.CountCrash | internal/coordinator/coordinator.go:749-752 | The count leaves the shared fields, and gives the attempt number, as the engine's crash step does |
| Bootstrap.RecoverOne | internal/core/builder.go:130-165 | What the loop's body does to the control plane are the engine's recovery passes, other sessions are untouched, a session is handed over exactly if it is RUNNING and its age within the limit, and exactly session.cancelling and session.failed, session.failed, or nothing is published |
| Bootstrap.HeartbeatTimeout | internal/core/builder.go:126-129 | The configured limit, or ninety seconds if it is not positive |
| Bootstrap.RecoverAll | internal/core/builder.go:130-165 | For any list of rows, whatever the bus and the store do, each session not handed over ends FAILED or unchanged CREATED, and each one handed over is RUNNING within the age limit when it is handed over |
| Bootstrap.Boot | internal/core/builder.go:76-165 | From any store, no row found in ALLOCATING, APPROVAL or CANCELLING stays non-terminal in memory, and the containers that the recovered ids do not protect are reaped; an unreadable store changes no row and reaps nothing |
| Bootstrap.DisposedAsEngine | internal/core/builder.go:126-165 | The engine hands a row over exactly if it is RUNNING and recent, and leaves alone only such rows and CREATED ones |
| Policies.CompileConfigs | internal/policy/policy.go:38-70 | Succeeds exactly if every regex compiles, then one policy per configuration in order; otherwise names the first bad rule and a bad field of it |
| Policies.CompileInputs | internal/policy/policy.go:57-65 | All field patterns, if all compile, in whatever order they are visited; otherwise one that does not |
| Policies.Matches | internal/policy/policy.go:80-95 | Matches exactly the calls the configuration covers, in whatever order the fields are visited |
| Policies.CheckPolicies | internal/coordinator/coordinator.go:912-931 | Finds exactly the covered pairs of call and guarding policy, in order; none exactly if no approval is needed |
| Policies.MatchesMeanApproval | internal/coordinator/coordinator.go:566-567 | The list of matches is non-empty exactly if some extracted call is covered by some guarding policy |
| Policies.MatchesInOrder | internal/coordinator/coordinator.go:917-930 | The matches are those of all covered pairs and no others, call by call and for each call policy by policy |
| Policies.FirstMatch | internal/coordinator/coordinator.go:566-574 | The first match, whose timeout bounds the wait, is that of the first covered call and of the first policy that guards it |
| Policies.CollectToolUses | internal/coordinator/coordinator.go:538-556 | Collects exactly the tool calls of the parsed lines, in output order |
| Policies.ExtractedInOrder | internal/coordinator/coordinator.go:541-556 | The extracted calls are those of all lines that carry one, in the order of the lines |
| Policies.DefaultTimeout | internal/policy/policy.go:72-78 | The configured timeout if positive, and five minutes otherwise |
| Checkpoints.Last | internal/statestore/postgres.go:254-274 | The query's answer is a checkpoint of the session that no other one follows by step and id; none exactly if there is no checkpoint |
| Checkpoints.ReferencesLag | internal/controlplane/session.go:203-240 | With one save of a session at a time, in every run with failed writes and restarts, the reference in memory <= the durable one <= the id LastCheckpoint returns |
| Checkpoints.SuccessfulSaveAligns | internal/controlplane/session.go:228-239 | With one save of a session at a time, a save that succeeds to the end leaves all three equal |
| Saves.EngineBehind | internal/coordinator/coordinator.go:469-480 | A run of the engine with its saves is, with the saves left out, a run of the engine, so every theorem about the engine holds while saves go on |
| Saves.EveryRunHasSaves | internal/coordinator/coordinator.go:469-480 | Every run of the engine is the engine's part of one with saves: the saves shut out nothing |
| Saves.CheckpointsLag | internal/coordinator/coordinator.go:754-763 | In every run of the engine with its baseline and crash saves, with no assumption on owners, bus or writes, the reference in memory <= the durable one <= the id LastCheckpoint returns |
| Saves.CheckpointsAlign | internal/controlplane/session.go:228-239 | In every such run a save that succeeds to the end leaves all three equal |
| Saves.EverySaveIsMade | internal/coordinator/coordinator.go:469-480 | With a store, a run is past the start of its execution only with its baseline save begun, and past its crash only with a crash save begun, and it begins no others |
| Saves.SavesComeFirst | internal/coordinator/coordinator.go:469-489 | The monitor beats beside an execution, and the execution comes back, only after the baseline save is over, and the Destroy call after a crash only after the crash save |
| Saves.RestartForgets | internal/controlplane/session.go:183-192 | A restart forgets the references in memory and whatever save was under way, and keeps the checkpoints and the durable references |
| Subjects.BuildSubject | internal/schemas/subject.go:5-17 | The loop joins the prefix and the parts with dots |
| Subjects.JoinSplit | internal/eventbus/memory.go:76-77 | Joining undoes splitting for every string, so splitting is injective |
| Subjects.SubjectRoundTrip | internal/schemas/subject.go:5-17 | Splitting a built subject gives the prefix and then the parts, when these are dot-free |
| Subjects.NoCrossTalk | internal/schemas/subject.go:5-17 | Two built subjects with dot-free, wildcard-free parts match if and only if the parts are equal |
| Subjects.SessionEventSubjectIsInjective | internal/schemas/subject.go:23-25 | The subject determines session and lifecycle event, even for session ids with dots |
| Subjects.FastPathsAreSound | internal/eventbus/memory.go:66-74 | Both fast paths agree with token-wise matching |
| Subjects.MatchSubject | internal/eventbus/memory.go:66-102 | For all strings the loop with its early returns is the recursive token-wise matcher |
| Subjects.DiffersFromNats | internal/eventbus/memory.go:63-83 | For patterns whose only ">" is last, the bus differs from the NATS reading exactly when ">" is left to match no token |
| Subjects.RestMatchesNothing | internal/eventbus/memory.go:80-83 | An instance: "foreman.>" receives what is published on "foreman" |
| MemoryBus.MemoryBus.Subscribe | internal/eventbus/memory.go:44-48 | Appends the handler to its subject's list and remembers that list's former length |
| MemoryBus.MemoryBus.Cancel | internal/eventbus/memory.go:49-56 | The splice takes the handler at the remembered index out of the list, and keeps every subscription in one place |
| MemoryBus.MemoryBus.Publish | internal/eventbus/memory.go:25-42 | Reaches exactly the handlers subscribed under a matching pattern, each once, in whatever order the patterns are visited |
| MemoryBus.FateIsReal | internal/eventbus/memory.go:44-56 | Following indices is following the handler: after any operations a handler that is still there sits as far below its remembered index as lower handlers were removed |
| MemoryBus.CancelRemovesOwn | internal/eventbus/memory.go:49-56 | A cancel closure removes exactly its own handler if and only if that is still present and no lower handler of the subject has been removed since |
| MemoryBus.CancelCanRemoveAnother | internal/eventbus/memory.go:49-56 | An instance where cancelling twice removes another subscriber |
| MemoryBus.NestingRestores | internal/eventbus/memory.go:44-57 | Well-nested subscribing and cancelling restores the handler list of every subject |
| DockerLogs.DecodeStream | internal/sandbox/docker.go:414-456 | The refilling loop emits what the recursive reading of the byte stream says |
| DockerLogs.ScanLines | internal/sandbox/docker.go:443-456 | The scanner loop gives the trimmed, non-empty lines up to the first line at the scanner's limit |
| DockerLogs.LinesOfPieces | internal/sandbox/docker.go:443-456 | For every chunk whose lines fit the scanner, the lines emitted are its pieces between newlines, trimmed, without the empty ones, an unterminated last one included |
| DockerLogs.LongLineEndsTheScan | internal/sandbox/docker.go:443-456 | A line at the scanner's limit ends the chunk: what comes before it is emitted, and nothing from it on |
| DockerLogs.StreamsAreLabelled | internal/sandbox/docker.go:438-441 | An event is labelled stderr if and only if its frame is of type 2 |
| DockerLogs.DecodeTruncated | internal/sandbox/docker.go:414-456 | On a stream cut off anywhere, exactly the lines of the complete frames are emitted |
| DockerLogs.DecodeInvertsFraming | internal/sandbox/docker.go:414-456 | The decoder inverts the framing of every frame sequence |
| DockerLogs.BigEndianRoundTrip | internal/sandbox/docker.go:428 | Every 32-bit size survives the header |
| DockerLogs.FrameLayout | internal/sandbox/docker.go:414-428 | A frame is its type, three zero bytes, the size with the most significant byte first, and the payload |
| DockerLogs.LinesRoundTrip | internal/sandbox/docker.go:414-456 | Whatever printable lines are written to the two streams in whatever chunks, the decoder emits those lines, in order, each labelled with its stream |
| DockerSandbox.DockerSandbox.Provision | internal/sandbox/docker.go:95-195 | A failed Provision leaves the map alone and a container behind only if its forced removal failed; a successful one adds one sandbox with a container of its own |
| DockerSandbox.DockerSandbox.Destroy | internal/sandbox/docker.go:542-557 | Succeeds exactly on a known sandbox whose container can be removed, and forgets it, so at most one call succeeds |
| DockerSandbox.Reap | internal/coordinator/coordinator.go:821-837 | Selects exactly the listed names with the prefix that are not protected |
| DockerSandbox.ReaperSparesNothing | internal/core/builder.go:104-109 | The session ids handed to the reaper protect no container: every orphan with the prefix is selected |

## Left out

- The Slack and Discord plugins, the HTTP server, the chat replies, the NATS bus, pgx and migrations, the Docker SDK, JWTs, GitHub, MCP, configuration parsing and the mock LLM: plumbing around the engine.
- JSON extraction of tool calls, `filepath.Match` and regular expressions: an output line is an optional tool call, and globs and regexes are uninterpreted.
- Environment variables, host name resolution, resource statistics and their alerts, audit entries: they do not affect the lifecycle.
- The agent name: neither the store nor `Recover` keeps it, so nothing is claimed about it across a restart.
- Go panics (an empty agent command) and sends on a closed or full response channel: answers after the first are recorded and have no effect.
- A store whose writes land after the call has returned: a write lands, or is lost, before the call is over. `Transition` is one atomic step, as it holds the session's lock throughout.
- Pointers to sessions: the session map holds values, so a `*Session` kept across a resubmission of its id is not modelled.
- Statuses outside the known seven in the sessions table.
- Widths: durations, counters, ids and failure counts are unbounded integers, the multiplier is a real, and float rounding is ignored.
- Saves: the baseline save is taken with the run at its execution, and the run and its monitor wait for it; the code starts the monitor after the save, which comes to the same.
- `ResumeSession` calls of the recovery loop run as threads of their own beside the loop, which allows more interleavings than the source.
- Failing database reads, other than the one of recovery.
- Bootstrap.RecoverAll: collects the sessions to resume instead of calling `ResumeSession`, so what it says of them is their state when they are handed over; what becomes of them is in Engine and Chains.
- Bootstrap.Boot: collects the sessions to resume in the same way, and selects the containers to reap without modelling the daemon's removal of them, which may fail.
- Admission.Drain: takes the successive values of ActiveCount as an argument, so the 100 ms poll interval and the clock are not modelled.
- Engine: the actual outcome of a race for `crashCh` between several senders is not modelled, because each run has one monitor and a channel of its own.
- Backoff.Duration: ignores float rounding and the overflow of a delay beyond 64 bits.
