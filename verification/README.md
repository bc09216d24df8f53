# Kesharon: a verified model of the daemon session and the stream to the desktop

Kesharon keeps its state in a daemon. Clients open a project and cancel such opens over a local
socket; a desktop host subscribes to the daemon's events, forwards them to its window, and a
reducer there rebuilds the project and the running request from what it is sent. This project
models that chain and proves what it promises, over every interleaving of threads.

## What is modelled

- **The daemon session** (`Session.dfy`, `Idempotency.dfy`, `Running.dfy`, `EventLog.dfy`,
  `Operations.dfy`, `Durability.dfy`, `Guarantees.dfy`, `Outcomes.dfy`, `RequestWindow.dfy`,
  `Restart.dfy`). Each locked section of
  `crates/kesharon-daemon/src/session.rs` is one step of a state machine; the unlocked part of an
  open is three steps (first look at the flag, inspection, second look), between which anything
  else may happen. Beside the fields of `SessionState` the model keeps the unbounded event log,
  every mutation ever remembered, every operation ever begun and every subscription ever made.
  `Reachable` is any state some run leads to, from any database recovery accepts.
- **The same session as an object** (`Daemon.dfy`, `SqliteRepository.dfy`): maps, queues, shared
  flags, a bounded channel and a repository updated in place, with the loops of the source. Every
  method is proved to do to the object exactly what the step of the same name does to the state
  machine, and to give the same answer. The caller supplies what a run of the machine takes for
  granted: `CheckAfter` is handed the next identifier, and does not ask that it be fresh.
- **Durable state** (`Tables.dfy`, `Storage.dfy`, `TaskStorage.dfy`): tables as rows in insertion
  order, two-statement saves of which either statement may fail, rows of tasks with their bounded
  integers, the choice of the active task, recovery.
- **Tasks and budgets** (`Domain.dfy`, `TaskLifecycle.dfy`).
- **The host's stream worker** (`StreamWorker.dfy`, `WorkerTurns.dfy`, `Host.dfy`): a step machine
  whose steps lie between the points where the cancel flag can change, the nested loops themselves
  as a class proved to send what the step machine sends, and the succession of workers of one host.
- **Daemon, transport and host together** (`EndToEnd.dfy`): the daemon may be restarted any number
  of times on any database, and the transport may lose, repeat, delay, reorder and mix messages,
  but not forge them.
- **The reducer** (`Workspace.dfy`, `WindowFields.dfy`, `HiddenOpen.dfy`), the last replica of the chain.
- **Bytes** (`Framing.dfy`, `Transfer.dfy`, `LaunchToken.dfy`): length-prefixed frames, the
  partial-read and partial-write loops, and the launch token.

## Notes on the model

- **The end of the sequence numbers.** When `sequence` reaches 2^64 - 1, `emit_locked` fails and
  the operation ends without a terminal event. The model follows that branch. `lost` collects the
  requests it happened to and `unpublished` says whether a project was saved but not shown; the
  agreement of session and log, and of session and database, is proved to hold if and only if
  nothing was lost or left unpublished, and neither can happen below the last number.
- **Fresh identifiers.** A new project's ID differs from every recorded or pending one
  (`Session.FreshId`), and a restarted daemon's stream ID from every earlier one
  (`EndToEnd.FreshStream`), as new UUIDs do.
- **Reused request IDs.** A request ID among the last 256 listed is neither listed again nor moved
  to the end, so the queue of listed IDs is, position by position and at every moment of a run, that
  of the last 256 remembered mutations exactly when a request ID comes again, if at all, more than
  256 remembered mutations later (`WindowIffSpaced`). (As sets the two may agree without that: where
  one ID is used throughout, for example.) `ReusedIdIsForgotten` is a run in which an ID comes again
  too soon and a fresh cancel answers NotFound of it. `FreshCancelOutcome` states what is always so.
- **The opening card.** The reducer closes its card on any terminal event. `OpeningCard` says
  exactly when that hides a request that is still running, `RunningOpenIsHidden` is a run in which
  it does, and `CardShowsTheOpen` says that it never does where no two opens overlap.
- **The worker's Reconnecting outside its inner loop** is sent under a condition that never holds:
  `OuterLossNeverSent`.
- **Recovered tasks are drafts.** `parse_task_row` does not read the stored state, so a recovered
  task has its id, goal, mode and budget, and is a draft without a plan (`TaskStorage.Recovered`).
  Token limits are read back only when all three are there, which the constructors guarantee.
- **Other spellings of a token.** `u8::from_str_radix` takes upper-case letters and a leading plus
  sign, so a token with a letter among its digits or a byte below 16 is accepted in spellings the
  host never prints, and only such a token is (`OthersIffAmbiguous`). `MatchesHex` states acceptance
  exactly.
- A snapshot lists its running requests in the arbitrary order of a hash map's keys; every
  statement about snapshots holds for every order. All operations are opens and all are running,
  so kind and status of an operation are not fields.
- The repository's inspection fails only with a repository error, as
  `crates/kesharon-daemon/src/repository.rs` does; inspection, identifiers, faults of statements,
  the transport's turns and what a worker observes are parameters.

## Model

| member | source | states |
|---|---|---|
| Guarantees.SessionIsItsLog | crates/kesharon-daemon/src/session.rs:262-402 | in every reachable state the sequence number is the length of the event log and the project is the fold of that log; project and running requests together are that fold if and only if no request was lost to exhausted sequence numbers |
| Guarantees.EventGrammar | crates/kesharon-daemon/src/session.rs:262-402 | the events of each request alternate Started and terminal and end in Started iff it is running (or was lost); Started minus terminal events is the number of such requests |
| Guarantees.EventsAreOperations | crates/kesharon-daemon/src/session.rs:262-402 | every event is one of the two events of some operation; a finished operation has its terminal event after its Started with none of its request's between, and the response remembered for its key says what that event says |
| Guarantees.SubscriptionsTileTheLog | crates/kesharon-daemon/src/session.rs:195-204 | every subscription ever made was fed exactly the gap-free run of the log after its snapshot, runs of different subscriptions do not overlap, the current one reaches the last event, no queue exceeds 64, and each snapshot has the project of the fold of the log up to its own sequence number, and its running requests too while none was lost |
| Guarantees.SubscriptionEnds | crates/kesharon-daemon/src/session.rs:473-493 | over any run a subscription is no longer fed at the end iff one step of the run replaced it or overflowed it with an event it could not take (64 undelivered messages, or no receiver) |
| Guarantees.EndedSubscriptionsKeep | crates/kesharon-daemon/src/session.rs:473-493 | from that step on, whatever happens, it holds exactly the messages it had then |
| Guarantees.AtMostOnce | crates/kesharon-daemon/src/session.rs:235-285 | two operations begun under one key: the first was finished and remembered before the second began, with at least 256 mutations between, the last 256 under pairwise distinct keys, and none of the 256 after the first under this key |
| Guarantees.BeginRefinesSearch | crates/kesharon-daemon/src/session.rs:239-269 | what a begin answers from its maps is what a search of the last 256 entries of the unbounded history and of the list of operations gives; a request that is answered at once changes nothing |
| Guarantees.RetryReplays | crates/kesharon-daemon/src/session.rs:239-244 | until 256 other mutations are remembered, a retry of a finished open gets the stored response under its own request ID, or a conflict if the path differs, and changes nothing |
| Guarantees.MutationsReplay | crates/kesharon-daemon/src/session.rs:404-429 | the same of every entry of the ledger, open or cancel: an open or a cancel under its key gets its stored response iff it is the same mutation, else a conflict, and changes nothing |
| Guarantees.AnswersNameTheirRequest | crates/kesharon-daemon/src/session.rs:228-453 | whatever is answered to an open or a cancel, replayed or not, carries the request ID of the one that asked; without a key it is the internal error and nothing changes |
| Idempotency.RememberKeepsInv | crates/kesharon-daemon/src/session.rs:496-528 | remembering a mutation under a key not yet remembered keeps map and queue equal to the last 256 entries of the history (keys, order, fingerprints, responses, no duplicates) and set and queue of request IDs equal to the last 256 listed |
| Idempotency.MapIsRecall | crates/kesharon-daemon/src/session.rs:239-244 | looking a key up in the bounded map is searching the last 256 entries of the unbounded history |
| Idempotency.AdmittedIffSpaced | crates/kesharon-daemon/src/session.rs:513-527 | the request IDs ever listed are those of the history, one by one, iff equal IDs lie more than 256 entries apart |
| Idempotency.QueuesAgreeIffSpaced | crates/kesharon-daemon/src/session.rs:496-528 | `completed_order` and `completed_request_order` name the same mutations position by position, after every entry, iff equal IDs lie more than 256 entries apart |
| RequestWindow.WindowIffSpaced | crates/kesharon-daemon/src/session.rs:496-528 | in every run, the request-ID queue is that of the last 256 remembered mutations at every moment iff equal IDs lie more than 256 remembered mutations apart |
| Idempotency.ReuseDoesNotRenew | crates/kesharon-daemon/src/session.rs:513-527 | an ID used again while it is the oldest listed is among the last 256 remembered and yet off the list after the next mutation |
| RequestWindow.ReusedIdIsForgotten | crates/kesharon-daemon/src/session.rs:430-452 | after one concrete run (256 cancels, one under the first one's request ID, one more) a fresh cancel of that ID answers NotFound, though it is among those of the last 256 remembered mutations |
| Daemon.CompletedLedger.Remember | crates/kesharon-daemon/src/session.rs:496-528 | the insertions and eviction loops turn map, set and queues into what the ledger function says |
| Daemon.CompletedLedger.EvictKeys | crates/kesharon-daemon/src/session.rs:518-522 | the loop removes exactly the oldest keys beyond 256 from queue and map |
| Daemon.CompletedLedger.EvictRequests | crates/kesharon-daemon/src/session.rs:523-527 | the same of the request IDs |
| Guarantees.RunningCorrespondence | crates/kesharon-daemon/src/session.rs:239-297 | running operations have distinct request IDs and keys, which are exactly the keys of `active` and of `in_flight`; no key in flight is remembered |
| Guarantees.CancelledEventsWereRequested | crates/kesharon-daemon/src/session.rs:322-324 | every OperationCancelled event belongs to an operation an accepted cancel named while it was running |
| Guarantees.AcceptedCancelsHit | crates/kesharon-daemon/src/session.rs:430-437 | every accepted cancel raised the flag of the operation that was running under the ID it named |
| Guarantees.CancelledInTime | crates/kesharon-application/src/lib.rs:70-92 | once a cancel is accepted before the check after the inspection, no continuation lets that operation save or publish a project, and a terminal event of its is never ProjectOpened |
| Guarantees.CancelRefinesSearch | crates/kesharon-daemon/src/session.rs:404-453 | what a cancel answers from its maps and sets is what a search of the history and of the list of operations gives; one under a key that is not fresh changes nothing, a fresh one is remembered and raises exactly the flag of the operation running under its target's ID |
| Guarantees.FreshCancelOutcome | crates/kesharon-daemon/src/session.rs:430-452 | a fresh cancel answers Accepted iff the target is running, else AlreadyFinished iff it is among the last 256 listed (the last 256 remembered, if equal request IDs lie more than 256 entries apart), else NotFound |
| Guarantees.ResultsAreExecutions | crates/kesharon-application/src/lib.rs:70-92 | in every run the result an open hands to its second section is one the use case returns for some readings of the flag that saw it raised only if it was; with the flag down it is that of an uncancelled execution |
| Outcomes.FoundOpenEnds | crates/kesharon-application/src/lib.rs:70-92 | in every run, an open whose repository found a directory ends by what its own second look at the flag saw and by what was found: cancelled; refused if identifier, name or root is blank; failed if a statement failed; else the event, the answer, the project shown and the saved one carry the given identifier, the found name and root, and no trust |
| Outcomes.RefusedOpenEnds | crates/kesharon-daemon/src/session.rs:530-553 | in every run, one the repository refused ends with the code and message of that refusal, and saves nothing |
| Outcomes.CancelledOpenEnds | crates/kesharon-application/src/lib.rs:75-77 | in every run, one that found its flag up at once ends with the cancelled event and answer, and saves nothing |
| Outcomes.EveryCourse | crates/kesharon-application/src/lib.rs:70-92 | in every run, an open that is ready to end has taken one of those three courses, look, inspection and second look in that order |
| Outcomes.FailureEnds | crates/kesharon-daemon/src/session.rs:530-553 | the code and message of every failure, in the event and in the answer; a failure saves nothing |
| Outcomes.ExhaustedEnds | crates/kesharon-daemon/src/session.rs:327-402 | with no sequence number left there is no event, the project shown stays, and the answer is the internal error |
| Guarantees.RestartRecovers | crates/kesharon-daemon/src/session.rs:121-156 | whichever statements failed, the database answers the published project iff no saved project went unpublished, and a session rebuilt from it then publishes the same project |
| Restart.RestartSucceeds | crates/kesharon-daemon/src/session.rs:121-156 | on a database made by any valid saves, any number of sessions one after another all start, and so does the next; it publishes the same project as the last of them iff that one left none unpublished, and holds the active task those saves left for it |
| Guarantees.TasksUntouched | crates/kesharon-daemon/src/session.rs:298-316 | no run of the session changes a task row or its recovered task |
| Operations.TerminalTells | crates/kesharon-daemon/src/session.rs:327-402 | terminal event and response tell the same project, error code and message, and cancellation is told only of cancelled results |
| Daemon.DaemonSession.WithStorage | crates/kesharon-daemon/src/session.rs:121-156 | the object is the state recovery leads to, or the error is recovery's |
| Daemon.DaemonSession.EmitLocked | crates/kesharon-daemon/src/session.rs:473-493 | counter, subscriber and channel change as the emission of the state machine says; false iff the sequence is exhausted |
| Daemon.Channel.TrySend | crates/kesharon-daemon/src/session.rs:483-491 | a message is appended iff the receiver is there and fewer than 64 messages wait |
| Daemon.DaemonSession.Replay | crates/kesharon-daemon/src/session.rs:239-256 | the shared checks answer as the state machine's |
| Daemon.DaemonSession.BeginOpen | crates/kesharon-daemon/src/session.rs:228-285 | new state and answer are those of `Session.Begin`; an operation that starts gets a flag of its own |
| Daemon.DaemonSession.Register | crates/kesharon-daemon/src/session.rs:262-283 | an operation is entered in both maps and announced, or both maps are as before |
| Daemon.DaemonSession.CheckBefore | crates/kesharon-application/src/lib.rs:75-77 | the first reading of the flag is the state machine's step |
| Daemon.DaemonSession.Inspected | crates/kesharon-application/src/lib.rs:78-78 | the repository's answer is the state machine's step |
| Daemon.DaemonSession.CheckAfter | crates/kesharon-application/src/lib.rs:79-91 | the second reading of the flag and the new project are the state machine's step |
| Daemon.DaemonSession.FinishOpen | crates/kesharon-daemon/src/session.rs:293-325 | new state and response are those of `Session.Finish`, whatever statement fails |
| Daemon.DaemonSession.Complete | crates/kesharon-daemon/src/session.rs:327-402 | event, response and published project of each of the three completions, and the internal error when the sequence is exhausted |
| Daemon.DaemonSession.Cancel | crates/kesharon-daemon/src/session.rs:404-453 | new state and response are those of `Session.Cancel` |
| Daemon.DaemonSession.Reach | crates/kesharon-daemon/src/session.rs:430-437 | exactly the flag of the operation running under the named ID is set |
| Daemon.DaemonSession.SnapshotLocked | crates/kesharon-daemon/src/session.rs:455-471 | the snapshot lists every running request exactly once and carries stream, sequence number and project |
| Daemon.DaemonSession.Subscribe | crates/kesharon-daemon/src/session.rs:195-204 | new state is that of `Session.Subscribe` for the order in which the snapshot lists the running requests |
| Storage.SaveThenLoad | crates/kesharon-daemon/src/storage.rs:79-153 | a save fails iff one of its statements does; afterwards the saved project is read back as it was unless the first failed, and every other ID reads as before |
| Storage.ProjectRows | crates/kesharon-daemon/src/storage.rs:79-153 | what a save writes to each column of a project's row, and when any row, whoever wrote it, can be read and as what |
| Storage.FailedSaveKeepsLastActive | crates/kesharon-daemon/src/storage.rs:79-174 | a failing save leaves the last active project alone iff its first statement failed, or its ID is not the recorded one, or it would not change that row |
| SqliteRepository.SqliteStateRepository.SaveProject | crates/kesharon-daemon/src/storage.rs:79-110 | the two statements, either failing, change the tables as the function says |
| SqliteRepository.SqliteStateRepository.SaveTask | crates/kesharon-daemon/src/storage.rs:176-268 | tables and answer are those of the function; a failure leaves the tables unchanged |
| Tables.UpsertRows | crates/kesharon-daemon/src/storage.rs:85-99 | an upsert changes only the named row, keeps its place, and appends an unknown one |
| TaskStorage.RowRoundTrip | crates/kesharon-daemon/src/storage.rs:438-509 | a valid task whose ceilings fit in 2^63 - 1 comes back from its row with id, goal, mode and every ceiling |
| TaskStorage.AnyRow | crates/kesharon-daemon/src/storage.rs:463-509 | any row of the tasks table, whoever wrote it: exactly when it can be read, and what each field is read as, token limits only when all three are there |
| TaskStorage.SavedRow | crates/kesharon-daemon/src/storage.rs:218-265 | what a save that succeeds writes to each column of the task's row |
| TaskStorage.SaveTaskOutcome | crates/kesharon-daemon/src/storage.rs:176-268 | after any saves, saving a task succeeds iff its ceilings are in range and there is a project to file it under; it then is the journal's next entry, and otherwise changes nothing |
| TaskStorage.ProjectsAreFinal | crates/kesharon-daemon/src/storage.rs:187-265 | a stored task stays in the tasks table under the project of its first save, whatever is saved afterwards |
| TaskStorage.TasksFollowJournal | crates/kesharon-daemon/src/storage.rs:220-265 | after any saves the tasks table has its rows in the order of first saves with the cells of last saves |
| TaskStorage.ActiveTaskOfAnyHistory | crates/kesharon-daemon/src/storage.rs:291-310 | after any saves the active task of a project is the latest-first-saved of its tasks whose last save was not terminal, if any, with id, goal, mode and budget of that save |
| TaskStorage.SavedTasksAreReadable | crates/kesharon-daemon/src/storage.rs:485-509 | after any saves of valid tasks every row can be read |
| TaskStorage.RecoversProject | crates/kesharon-application/src/lib.rs:127-134 | recovery answers the last active project, and fails only with it or with an unreadable task |
| Domain.BuiltIffValid | crates/kesharon-domain/src/budget.rs:14-46 | the budgets the constructors can make are exactly those with positive ceilings and all three token limits, positive, or none |
| Domain.BlankIffTrimmedAway | crates/kesharon-domain/src/project.rs:8-14 | a text counts as blank exactly when trimming leaves nothing of it |
| TaskLifecycle.EveryLife | crates/kesharon-domain/src/task.rs:154-236 | whatever actions and modes are asked of a new task in whatever order, the actions that succeed form a life (plan, one decision, work and review until accepted); state and plan are where that life ends, the mode is the one set last, and nothing else changes |
| TaskLifecycle.StateByLastAction | crates/kesharon-domain/src/task.rs:166-236 | after any calls on a new task its state is told by the last action that succeeded: completed iff accepted, cancelled iff rejected, and so on for every state |
| TaskLifecycle.AllowedActions | crates/kesharon-domain/src/task.rs:166-236 | the one state each action succeeds in, and the error with its state and name that it gets in any other |
| TaskLifecycle.ApprovedBeforeWork | crates/kesharon-domain/src/task.rs:166-236 | a task that is worked on, under review or completed holds the plan that was approved; no task ever reaches Failed |
| TaskLifecycle.TerminalIsFinal | crates/kesharon-domain/src/task.rs:154-236 | a terminal task refuses every action for good and only its mode can still be set; a task is active iff some action is still open to it |
| TaskLifecycle.Task.Transition | crates/kesharon-domain/src/task.rs:213-236 | the state changes iff it is the expected one and not terminal, with the matching error otherwise |
| TaskLifecycle.Task.RequestApproval | crates/kesharon-domain/src/task.rs:170-175 | plan and state change together, in the planning state only |
| TaskLifecycle.Task.Create | crates/kesharon-domain/src/task.rs:118-136 | a new task is a draft in plan mode without a plan; blank text is refused |
| StreamWorker.OutputLanguage | apps/desktop/src-tauri/src/lib.rs:503-664 | over any run the updates sent form a prefix of (Snapshot (Snapshot or next Event)* Reconnecting)* |
| WorkerTurns.OneReading | apps/desktop/src-tauri/src/lib.rs:585-663 | in any run with the flag down, a reading ends the inner loop with Reconnecting iff it failed, or timed out with the daemon not healthy, or brought an event that does not continue what was sent; every snapshot and every event that continues it is sent on; a timeout with a healthy daemon sends nothing and reads on |
| WorkerTurns.InnerGoesOn | apps/desktop/src-tauri/src/lib.rs:585-585 | between readings nothing is sent; the inner loop goes on iff the flag is down |
| WorkerTurns.ReadingInterrupted | apps/desktop/src-tauri/src/lib.rs:600-602 | what was read when the flag is seen up is not sent, and the inner loop ends |
| WorkerTurns.TurnWithoutClient | apps/desktop/src-tauri/src/lib.rs:508-532 | with the flag down and no client the worker sends nothing and tries again |
| WorkerTurns.TurnWithoutSubscription | apps/desktop/src-tauri/src/lib.rs:534-562 | nor does it when subscribing fails |
| WorkerTurns.TurnWithSubscription | apps/desktop/src-tauri/src/lib.rs:564-585 | once subscribed it sends just the snapshot it was given and starts reading, or stops if it cannot send |
| WorkerTurns.RunsOn | apps/desktop/src-tauri/src/lib.rs:508-664 | while its flag is down and what it sends arrives, the worker never stops |
| StreamWorker.LanguageByNeighbours | apps/desktop/src-tauri/src/lib.rs:503-664 | the automaton of that language accepts exactly the lists in which each event follows the message before it and each Reconnecting follows a message |
| StreamWorker.RaisedFlagStops | apps/desktop/src-tauri/src/lib.rs:508-664 | wherever a raised flag finds a worker, it sends at most one more update and stops within three steps |
| StreamWorker.OuterLossNeverSent | apps/desktop/src-tauri/src/lib.rs:517-562 | the Reconnecting of the outer loop is never sent |
| StreamWorker.WorkerLoop.Supervise | apps/desktop/src-tauri/src/lib.rs:503-664 | the nested loops send, over any observations, what the step machine sends |
| StreamWorker.WorkerLoop.Act | apps/desktop/src-tauri/src/lib.rs:604-662 | what was read leads the loops where the step machine goes |
| Host.OneFlagDown | apps/desktop/src-tauri/src/lib.rs:493-499 | after any calls at most one worker's flag is down, and it is the newest one's |
| Host.Supersession | apps/desktop/src-tauri/src/lib.rs:493-499 | a superseded worker sends at most one more update, whatever it and the others go on to do |
| EndToEnd.EndToEndAgreement | apps/desktop/src-tauri/src/lib.rs:568-632 | in every run of daemons, transport and host, whatever has been heard of what a worker forwarded, all of it or any beginning, folds to the project and running requests that the one daemon of that stream had, at some moment of the run, when it stood at that sequence number (the running requests unless by then one had been lost to exhausted sequence numbers) |
| Workspace.JoinedAgreement | apps/desktop/src/useWorkspace.ts:207-252 | the same of beginnings of several workers' updates heard one after another, as by a window that subscribes again |
| EndToEnd.WorldHolds | crates/kesharon-daemon/src/lib.rs:164-191 | every daemon, worker and forwarded message of every such run keeps its invariant |
| Workspace.ReducerShowsView | apps/desktop/src/useWorkspace.ts:55-252 | under any interleaving of stream updates with local actions other than PROJECT_OPENED, stream, sequence number and project shown are those of the updates |
| WindowFields.FieldsAreSaid | apps/desktop/src/useWorkspace.ts:55-252 | over any updates and any actions of the user, the connection, the error, the goal and the opening card with its request, path and status are told by the last happening that concerns each |
| Workspace.DesktopShowsDaemon | apps/desktop/src/useWorkspace.ts:55-252 | the whole chain, for a window that has processed any beginning of what a worker forwarded, and then of what the workers that took its place did: it shows the project some daemon had, at some moment of the run, at the very place of the very stream it names |
| Workspace.OpeningCard | apps/desktop/src/useWorkspace.ts:67-141 | on the stream alone the card names a running request; it is absent iff none runs or the last message was a terminal event |
| HiddenOpen.RunningOpenIsHidden | apps/desktop/src/useWorkspace.ts:114-132 | one concrete run of daemon, host and window after which the card is gone while an open the window was told of is running in the daemon |
| Workspace.CardShowsTheOpen | apps/desktop/src/useWorkspace.ts:67-141 | where no daemon ran two opens at once, the card of a window that has processed any beginning of the stream shows a request iff it is running at the place the window has reached |
| Framing.DecodesIffEncoded | crates/kesharon-protocol/src/lib.rs:343-420 | the framing of `decode_frame` accepts a byte string with a payload iff the framing of `encode_frame` makes it from that payload |
| Framing.FrameLayout | crates/kesharon-protocol/src/lib.rs:343-361 | a frame is its payload, of at most 8388608 bytes, behind four bytes that hold its length, the highest first |
| Framing.DecodeErrors | crates/kesharon-protocol/src/lib.rs:400-420 | which error a byte string that is no frame gets, with the length it declares and the one it has |
| Framing.FramesArePrefixFree | crates/kesharon-protocol/src/lib.rs:343-361 | what follows a frame cannot change where it ends |
| Framing.WireIsUnambiguous | crates/kesharon-protocol/src/lib.rs:343-420 | a list of payloads is all its concatenated frames can be read as |
| Transfer.Call | crates/kesharon-ipc/src/lib.rs:181-189 | an interrupted call and one that is not ready in time are made again, an expired deadline and any other error end the transfer, and what a call is ready to move is counted |
| Transfer.ReadExact | crates/kesharon-ipc/src/lib.rs:173-192 | however the bytes are chunked, the buffer is filled with exactly the next ones; the reading ends at the first call that is a cause to, and has then taken as much as the calls offered and was there |
| Transfer.WriteAll | crates/kesharon-ipc/src/lib.rs:194-213 | all bytes go out in order, or exactly as many as the calls offered to take and an error; the writing ends at the first call that is a cause to |
| Transfer.ReadFrame | apps/desktop/src-tauri/src/lib.rs:186-202 | prefix and body read are the payload of the frame that stood first, which is gone; an oversized prefix is refused |
| Transfer.ReadFrames | apps/desktop/src-tauri/src/lib.rs:186-202 | any list of payloads of at most 8 MiB written as frames is read back, complete or as its beginning, under any chunking |
| LaunchToken.PrintToken | apps/desktop/src-tauri/src/lib.rs:56-63 | the printed text spells the bytes it was printed from |
| LaunchToken.ParseHex | crates/kesharon-protocol/src/lib.rs:426-438 | a text parses iff it is 64 characters, each 0-9, A-F or a-f, or a plus sign in the first place of a pair; each byte is 16 times the first digit plus the second |
| LaunchToken.TokensRead | crates/kesharon-protocol/src/lib.rs:426-438 | exactly such texts stand for 32 bytes |
| LaunchToken.MatchesHex | crates/kesharon-protocol/src/lib.rs:440-451 | a candidate matches iff it is pairs of hex digits (a plus sign may come first in a pair) and each pair is worth the token's byte there |
| LaunchToken.PrintedTokenNamesOne | crates/kesharon-protocol/src/lib.rs:440-451 | a printed token is accepted for the bytes it was printed from and for no others |
| LaunchToken.PrintedIffPlain | crates/kesharon-protocol/src/lib.rs:426-451 | an accepted candidate is the printed token iff all its characters are 0 to 9 or a to f |
| LaunchToken.OtherSpelling | crates/kesharon-protocol/src/lib.rs:426-451 | for a token with a byte below 16 or a letter among its digits, a whole candidate that is accepted and is not the printed token: a plus sign for a leading zero, or an upper-case letter |
| LaunchToken.OthersIffAmbiguous | crates/kesharon-protocol/src/lib.rs:426-451 | candidates other than the printed token are accepted for exactly those tokens |

## Left out

- Poisoned mutexes, and the internal errors they lead to: no locked section of the model panics.
- Messages as JSON text: payloads are values.
- The type guards of the window (`packages/protocol/src/index.ts:225-260`): they reject a snapshot
  or an event with a sequence number above 2^53 - 1, which the daemon and the host do not, so past
  that number the real window shows nothing new and the model's window goes on.
- Sockets, named pipes, access control, the connection permits, process supervision and dialogs.
- The filesystem inspector: its answer is a parameter of the step that takes it.
- Timeouts, backoff and liveness: nothing says that a closed stream leads to a reconnect. A
  transfer that times out has lost the bytes it took, as in the source; `ReadExact` says so, and no
  claim is made about frames read after that.
- Health requests, and what a `ready` connection of the window carries of them.
- Daemon.DaemonSession.Receive and `Daemon.DaemonSession.Disconnect`: the receiving side of the
  subscription being fed only. A channel that is no longer fed belongs to its receiver, which the
  state machine follows and the object does not.
- Transfer.ReadFrames: one connection whose transport delivers bytes unchanged and in order.
- The worker's `expected_sequence + 1` at 2^64 - 1: `expected` is unbounded in the model, so no
  event matches after the last one, where the source would overflow.
- The reducer's PROJECT_OPENED and the request ID the window invents: optimistic local updates,
  not part of the replica. `CardShowsTheOpen` is about the stream alone for that reason.
- The contents of a plan: a plan is its step descriptions, whose checks for blank and empty ones
  are left out; a task's checkpoints too.
- Checkpoints, the unused idempotency table, the credential vault, restart budgets: little beyond
  what their bodies say.
- Error texts of SQLite and of domain errors; a foreign-key violation is one failing statement.
- Statements of `save_task` and of the loads that fail for reasons of their own: only the project
  save, whose partial failure matters, has faults.
- Hex parsing of strings that are not ASCII: the text of a token is its bytes, and slicing inside
  a character, where the source panics, is no match here.
