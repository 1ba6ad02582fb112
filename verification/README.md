# FDEX server: what its workers guarantee

FDEX's server runs Coding Agent tasks in several worker processes that share SQLite rows, file locks and long-lived
Codex Hosts. Any worker may hold a stale copy of a task, may lose a race between two transactions, and may die between
any two steps. These Dafny modules model the code that is written to keep whole-run guarantees anyway, and prove those
guarantees for every input, every interleaving and every run.

How the model is built:

- One SQLite transaction is one step. What the code does in two transactions is two steps, and everything else may
  happen between them.
- An operation that updates rows or fields is a method of a class with those fields. Its `ensures` gives the whole new
  state as a function of the old one; lemmas prove what runs of that function keep.
- What a state holds is also stated without those functions, from the calls as they were made: the last report, the
  first terminal save, the last tokens written. Such lemmas name only inputs and rows.
- Protocols with several participants are state machines whose steps are chosen freely by the environment. Where the
  code is a loop, the loop is a method too, and is proved to follow the machine or the function.
- Clocks, identifiers, answers of other processes, of GitHub, of AI upstreams and of the file system are inputs.

| modules | component |
|---|---|
| `RetryLedger`, `RetryChain`, `RetryChainInvariant`, `RetryChainSteps`, `RetryOutcome`, `RetryRecovery`, `RetryAdoption`, `RetryAcceptance`, `AgentLoop` | the durable retry chain: ledger, driver, crash and recovery |
| `AgentTasks`, `AgentTaskHistory`, `AgentTaskSaves`, `AgentTaskEvents` | the merge of stale task snapshots |
| `Interactions`, `InteractionRuns`, `InteractionScope`, `InteractionBroker` | exactly-once delivery of browser answers |
| `Utf8`, `ItemStore`, `ItemStoreRuns`, `ItemStoreCalls`, `NotificationBus`, `NotificationRuns` | the notification log, the delta accumulator and the writer queue |
| `CentralAuth`, `AuthSessions`, `AuthGrants`, `DeviceFlow`, `DeviceOutcome` | the login throttle, login sessions, the GitHub Device Flow |
| `HostStore`, `HostStoreRuns`, `AccountFence`, `AccountErasure`, `Failover`, `FailoverAnswers` | the control queue, the deletion fence and what a deletion leaves, stream failover |
| `Base64`, `Decimal`, `McpForm` | the MCP form decoder |
| `Common` | options, results and small sequence helpers |

What turned out different from what the code or its comments promise. In each case the code is modelled as it is, and
the named lemmas show where the promise fails and exactly when it holds:

- `close()` of the notification capture swallows the cancellation it receives while it awaits the writer. It then
  returns normally although accepted notifications may not have been written (`NotificationRuns.CancelledCloseCanLose`,
  `NotificationRuns.CancelledCloseIsCompleteExactly`).
- A failed write can leave a publisher waiting for good: when it waits on a full queue while `close()` joins the writer,
  `close()` forgets the writer first, and the publisher goes on to await its put alone
  (`NotificationRuns.WriterFailureCanStrandProducer`, `NotificationRuns.ProducerIsStrandedExactly`). Publishers that
  finish before `close()` are never stranded (`NotificationRuns.StrandedOnlyByClose`).
- A capture that is published to after a failed `close()` starts a new writer, which writes what was left in the queue
  behind the lost notice, so the log is no longer a prefix (`NotificationRuns.RestartedWriterSkipsLostNotice`,
  `NotificationRuns.DurableIsPrefixExactly`, `NotificationRuns.PrefixBreaksExactly`).
- A Host session is meant to leave no open interaction behind. A creation runs in a thread, and when its await is
  cancelled at the close of the Host, the thread may commit after the scope has exited: the row stays pending, a browser
  may answer it, and the encrypted answer stays (`InteractionScope.LateCreationOutlivesScope`,
  `InteractionScope.ScopeExitClosesSessionExactly`).
- `AgentTaskStore.save` inserts a missing row under no lock, so a worker that still holds a copy of a task can bring its
  row back after the account was deleted (`AccountErasure.StaleSaveOutlivesDeletion`,
  `AccountErasure.DeletedAccountsOwnNothingExactly`, `AccountErasure.DeletedStaysEmptyExactly`).
- A deletion that dies between the removal of the identity and the tombstone leaves neither, and a later creation for
  that account commits (`AccountErasure.CrashBeforeTombstoneLetsCreationCommit`). No other step loses the tombstone
  (`AccountErasure.TombstoneIsLostExactly`), and nothing but the tombstone stops creations for good
  (`AccountErasure.TombstoneStopsCreationsExactly`).
- `poll_device_flow` reads the clock before it opens the claiming transaction. Polls are five seconds apart in clock
  readings, but in real time each second of delay is a second less (`DeviceFlow.LateClaimShortensCadence`). Five real
  seconds are kept after a claim, in every continuation, if and only if its clock reading was no older than its interval
  less five seconds, or the flow expires before (`DeviceFlow.FiveRealSecondsExactly`).
- A `slow_down` computes the next poll time from the interval its poller read when it claimed, so with overlapping
  pollers a poll can come before the increased interval has passed (`DeviceFlow.OverlappingSlowDownIsNotObeyed`,
  `DeviceFlow.SlowDownBacksOffExactly`).
- A confirmed password reset ends every session of the user in its own transaction, but a login that has passed its
  password check before, or a registration that has inserted its user before, and that stores its session after, is not
  ended by it (`AuthSessions.ResetEndsEarlierSessionsExactly`). The same login or registration stores a session for a
  user who is disabled in between, which becomes good once the user is enabled again
  (`AuthSessions.DisablingShutsOutExactly`).
- A stream for an implicit image request with audio attached, when no image model is configured, ends without a
  `[DONE]` frame; no other stream does (`Failover.StreamEndsExactly`).
- Reconciling a thread repairs nothing unless the thread is marked running or compacting, so turns left in progress
  under a failed thread stay as they are (`HostStore.ReconcileRepairsExactly`).

## Model

| member | source | states |
|---|---|---|
| RetryLedger.CodexRetryChainStore.Queue | server/app/codex_retry_chain_store.py:165-215 | the upsert of an attempt: blank trigger fields keep the stored ones; a taken (root, index) is refused and changes nothing |
| RetryLedger.CodexRetryChainStore.MarkStart | server/app/codex_retry_chain_store.py:237-264 | the start: `started_at` only if still empty, and the transition that led here becomes started |
| RetryLedger.CodexRetryChainStore.Start | server/app/codex_retry_chain_store.py:217-264 | `record_started` is a blank queue followed by the start, or nothing when the queue is refused |
| RetryLedger.CodexRetryChainStore.Decide | server/app/codex_retry_chain_store.py:266-301 | an unguarded decision of one attempt; every other row stays |
| RetryLedger.CodexRetryChainStore.PlanRetry | server/app/codex_retry_chain_store.py:303-410 | decision and next-attempt plan in one transaction, with every refusal of wrong indices, owners and lineage |
| RetryLedger.CodexRetryChainStore.AdoptChild | server/app/codex_retry_chain_store.py:412-478 | the compatibility transition for a child that exists without a plan |
| RetryLedger.CodexRetryChainStore.Attach | server/app/codex_retry_chain_store.py:480-514 | the child of a transition is written once; the same child again is accepted, another is refused |
| RetryLedger.CodexRetryChainStore.Mark | server/app/codex_retry_chain_store.py:516-534 | only the state of one transition changes |
| RetryLedger.CallPreserves | server/app/codex_retry_chain_store.py:237-253 | no call forgets a row, a start time, a transition's child or its lineage |
| RetryLedger.AnyCallsKeepLedger | server/app/codex_retry_chain_store.py:80-98 | for any sequence of ledger calls with any arguments: one attempt per (root, index), one transition per next index, next = source + 1, and nothing once written is lost |
| RetryLedger.BlankQueueErasesNothing | server/app/codex_retry_chain_store.py:181-197 | a blank `record_queued` changes only lineage columns: trigger, exclusions, verdict and start stay |
| RetryLedger.QueuedContents | server/app/codex_retry_chain_store.py:165-215 | which queue calls are accepted, and every column of the row afterwards, for a new row and for an old one |
| RetryLedger.StartedContents | server/app/codex_retry_chain_store.py:237-264 | what the record of a start writes, on the attempt and on the transition that led to it |
| RetryLedger.DecisionContents | server/app/codex_retry_chain_store.py:266-301 | what a decision writes: state, verdict cut to its limits, time; no other row |
| RetryLedger.PlanContents | server/app/codex_retry_chain_store.py:303-410 | when a plan is accepted, and what it stores: the verdict on the source, and on the transition its texts, positive exclusions and backoff |
| RetryLedger.AttachedContents | server/app/codex_retry_chain_store.py:480-514 | when a child is attached, and to which transition |
| RetryChainSteps.StepKeeps | server/app/agent_loop.py:59-419 | every step of driving, crashing, recovering, adopting and interfering keeps the invariant of the chain |
| RetryChainSteps.InvAlways | server/app/agent_loop.py:59-419 | the invariant holds in every reachable state |
| RetryOutcome.RootOutcomeExactly | server/app/agent_loop.py:173-236 | in every run of driving, crashing and recovering in which nobody else ends the root: it has succeeded if and only if, while it was open and not canceled, the loop found a succeeded retry child or its own Host call succeeded; it has failed if and only if in the same way a failure came to it; it was canceled if and only if its cancellation was requested at that moment or its Host call ended canceled |
| RetryOutcome.ChildSuccessCompletesRoot | server/app/codex_retry_controller.py:399-427 | from the Host to the rows: a retry child whose Host call succeeds is `succeeded` with that verdict on record, and an open root succeeds with it, or ends canceled if that was asked for |
| RetryOutcome.CapturedFailureIsRetriable | server/app/agent_loop.py:185-215 | a captured failure comes to its decision with its attempt and the root still open |
| RetryOutcome.UncapturedFailureEndsChain | server/app/agent_loop.py:194-211 | a canceled attempt, and a child that failed without a capture, end the chain: the attempt is terminal and an open root has failed, or is canceled if that was asked for |
| RetryOutcome.RefusalEndsChain | server/app/agent_loop.py:216-241 | the same for a refused retry, with its verdict on record and no plan |
| RetryOutcome.CanceledChildEndsChain | server/app/agent_loop.py:293-314 | the same when the root was canceled during the backoff; the step of the chain is marked canceled |
| RetryOutcome.SourceIsEnded | server/app/agent_loop.py:256-262 | a retried child has failed, or is canceled if that was asked for, and a retried root is left open |
| RetryOutcome.ChildIsBorn | server/app/agent_loop.py:263-268 | the child's first durable row: waiting, automatic, the next index, and its parent |
| RetryOutcome.StartThenLaunch | server/app/agent_loop.py:103-121 | the start and its provider are on record before the Host is called |
| RetryOutcome.BlockedIsRecorded | server/app/agent_loop.py:70-101 | an attempt that is not ready, lost or locked elsewhere is blocked on record |
| RetryOutcome.BackoffCancelStopsChild | server/app/agent_loop.py:293-307 | a root canceled during the backoff: the child is canceled, and so is its verdict |
| RetryRecovery.WriteAhead | server/app/agent_loop.py:242-290 | in every reachable state a retry child has a durable transition of its parent that names its index, one more than its parent's and within the budget |
| RetryRecovery.LaunchedAtMostOnce | server/app/agent_loop.py:103-121 | over any run of driving, crashing and recovering a retry child reaches the Host at most once, and only with its start recorded |
| RetryRecovery.OneChain | server/app/codex_retry_chain_store.py:80-98 | in every reachable state the attempts of a root form one linear chain: going up from any attempt meets every attempt of lower index once and ends at the root |
| RetryRecovery.AncestorsAreAttempts | server/app/agent_loop.py:246-277 | the k-th parent of an attempt is an attempt whose index is smaller by k |
| RetryRecovery.PlanDecidesEntry | server/app/agent_loop.py:277-325 | from any point after the plan was written, whatever else is done to the chain, the driver can only enter index + 1 with the exclusions of the plan, on the child it holds |
| RetryRecovery.DecisionDecidesEntry | server/app/agent_loop.py:216-325 | the same from the decision on: what is entered next, if anything, is index + 1 without the positive provider ids that the decision excludes, and no other |
| RetryRecovery.AdoptionReloadsPlan | server/app/codex_retry_reconciler.py:253-417 | however statuses have changed since the crash, an accepted adoption reloads source, count, plan and child from the journal |
| RetryRecovery.AdoptionRefinesUninterruptedDriver | server/app/codex_retry_reconciler.py:253-417 | crash-recovery refinement: wherever the worker dies while it holds a plan, after any further crashes and status changes, and with anything done to the chain while either driver goes on, the attempt entered after adoption has the count, exclusions and child of the attempt the uninterrupted driver would have entered |
| RetryAdoption.LinksAlways | server/app/agent_loop.py:258-290 | in every reachable state a retry child has an audit row only after the transition of its parent names it, and a plan without a child is open |
| RetryAdoption.AdoptionAcceptedExactly | server/app/codex_retry_reconciler.py:253-417 | after a crash with a fresh plan and any further crashes and status changes, adoption is accepted if and only if the checks on side effects and time pass, the root runs uncancelled, the source may be retried and no second child claims the index |
| RetryAcceptance.AnyAdoptionExactly | server/app/codex_retry_reconciler.py:253-417 | in every reachable state without a driver and for every source, adoption is accepted if and only if the checks on side effects and time pass, its journal row is open and its child has no open plan of its own, the root runs uncancelled, the source may be retried and no second child claims the index |
| RetryAcceptance.NotesAlways | server/app/codex_retry_chain_store.py:237-264 | in every reachable state only attempts that have started have plans, and the plan of a queued child is open |
| RetryAcceptance.QueuedChildIsAdoptedExactly | server/app/codex_retry_reconciler.py:253-417 | whatever happened before, the plan behind a queued, unstarted child is adopted again if and only if those checks pass, the root runs uncancelled, the source may be retried and no second child claims the index |
| RetryAcceptance.CrashedBeforeStartIsAdoptedExactly | server/app/codex_retry_reconciler.py:253-417 | the same after a crash anywhere between the queueing of the child and the record of its start, and any further crashes and status changes |
| RetryAdoption.AdoptedPlanIsEntered | server/app/codex_retry_reconciler.py:253-417 | an accepted adoption is carried out, from wherever the plan was left: the driver enters the next index with the plan's exclusions, on the dead driver's child if there was one |
| RetryRecovery.RecoveryRefinesUninterruptedDriver | server/app/agent_loop.py:362-419 | after a crash between queueing and start, and any further crashes and status changes, `run_from_retry_child` accepts if and only if the child still waits and the root runs uncancelled, and then stands where the dead driver was about to enter |
| RetryAcceptance.AnyRecoveryExactly | server/app/agent_loop.py:362-419 | in every reachable state without a driver and for every task, `run_from_retry_child` accepts it if and only if it is a waiting retry child whose audit row is queued and the root runs uncancelled, and then enters it with its index and the exclusions it was queued with |
| RetryRecovery.RecoveredChildWasNeverLaunched | server/app/agent_loop.py:393-401 | whatever `run_from_retry_child` accepts has no start recorded and was never launched |
| AgentLoop.FdexAgentLoop.RunOneAttempt | server/app/agent_loop.py:59-153 | one attempt with its awaits extends a run of the state machine, launches at most once, and ends at the head of the loop or with the exception the source raises there |
| AgentLoop.FdexAgentLoop.PlanRetry | server/app/agent_loop.py:216-290 | decision, write-ahead plan, end of the source, child, attachment and queueing, in this order, as a run of the machine |
| AgentLoop.FdexAgentLoop.RunRetry | server/app/agent_loop.py:290-342 | backoff, cancellation, busy child and the child's own attempt, as a run of the machine |
| AgentLoop.FdexAgentLoop.DriveChain | server/app/agent_loop.py:173-342 | the loop terminates with measure budget - count, launches at most one attempt per remaining retry, and follows the machine. When it returns about a child, the root is terminal: an open root has succeeded if the loop found that child succeeded, and has failed if the chain ended with it, unless it was canceled. When it raises, the step it raised at is one that the source raises at |
| AgentLoop.FdexAgentLoop.Run | server/app/agent_loop.py:344-360 | a root that may not run is refused and nothing is touched; else a run of the machine with at most 1 + budget launches and the outcome that `DriveChain` gives |
| AgentLoop.FdexAgentLoop.RunFromRetryChild | server/app/agent_loop.py:362-419 | unless every recovery check holds nothing is touched; else a run of the machine with at most budget launches and the outcome that `DriveChain` gives |
| AgentLoop.FdexAgentLoop.FinalizeFailure | server/app/codex_retry_controller.py:430-454 | the attempt is closed before the root, and the root is terminal afterwards |
| AgentTasks.AgentTaskStore.Save | server/app/agent_tasks.py:270-395 | one save: refused snapshots change nothing, accepted ones are inserted or merged, other tasks are untouched |
| AgentTasks.MergeRow | server/app/agent_tasks.py:325-368 | the assignments of `save` compute the merge of the stored row and the snapshot |
| AgentTasks.MergeEvents | server/app/agent_tasks.py:252-268 | the loop with its seen set computes the last 300 of the order-preserving dedup of existing ++ incoming |
| AgentTasks.AgentTask.Emit | server/app/agent_runtime.py:66-72 | append, trim to 300, move the update time, persist the snapshot |
| AgentTaskHistory.RunIsFoldOfAccepted | server/app/agent_tasks.py:270-395 | after any calls of any workers the row of a task is the fold of its own accepted snapshots |
| AgentTaskHistory.PrepareEstablishes | server/app/agent_tasks.py:284-297 | what `save` accepts obeys the lineage rule and the length limits |
| Common.StripCutsSpace | server/app/agent_tasks.py:284-297 | stripping removes white space from both ends and nothing else |
| AgentTaskSaves.AcceptedInStoredForm | server/app/agent_tasks.py:284-323 | which snapshots `save` accepts, and the form in which each is stored: its own status; its own result, error, details, publication fields, worktree, files and events cut to their limits; its own flags and times |
| AgentTaskSaves.RowExistsExactly | server/app/agent_tasks.py:270-395 | over any calls a task has a row if and only if a save of it was accepted |
| AgentTaskSaves.FirstTerminalSaveWins | server/app/agent_tasks.py:355-359 | over any calls stored status, result and error are those handed to the first terminal save, or to the last save if none is terminal, cut to 200000 and 10000 characters |
| AgentTaskSaves.LastDetailsWin | server/app/agent_tasks.py:325-343 | prompt, project and repository are those handed to the last save |
| AgentTaskSaves.JoinedFields | server/app/agent_tasks.py:349-368 | changed files, cancel, pushed and update time are the union, or, or and maximum over what was handed to all saves |
| AgentTaskSaves.JoinsIgnoreSaveOrder | server/app/agent_tasks.py:349-368 | those four fields do not depend on the order of the saves |
| AgentTaskSaves.LineageIsFixed | server/app/agent_tasks.py:349-354 | identity, kind, logical root and index are those handed to the first save; publication fields and the parent are the last non-empty ones; the lineage rule always holds |
| AgentTaskSaves.WorktreeOfRun | server/app/agent_tasks.py:360-368 | while no save was terminal, the last worktree handed in; from then on the last one if every save gave one, and none otherwise |
| AgentTaskHistory.ReleasedWorktreeStaysReleased | server/app/agent_tasks.py:360-368 | a terminal row whose worktree is empty never gets one again, and keeps its outcome |
| AgentTaskEvents.DedupKeepsElements | server/app/agent_tasks.py:252-268 | dedup keeps exactly the elements, each once |
| AgentTaskEvents.DedupKeepsOrder | server/app/agent_tasks.py:252-268 | dedup keeps the order of first occurrences |
| AgentTaskEvents.SingleWriterShowsLastEvents | server/app/agent_runtime.py:66-72 | one writer with distinct events: the row always shows exactly the last 300 emitted |
| AgentTaskSaves.SingleWriterShowsItsEvents | server/app/agent_runtime.py:66-72 | the same told from the events themselves: each with its own kind and message, cut to 100 and 4000 characters, and its own time |
| AgentTaskEvents.MergeShape | server/app/agent_tasks.py:344-348 | a merged log is a duplicate-free suffix, at most 300 long, of the dedup of existing ++ incoming, and all of it when shorter |
| AgentTaskEvents.EventLogOfRun | server/app/agent_tasks.py:344-348 | over any run of saves the log is bounded, duplicate-free from the first merge on, and loses nothing while at most 300 distinct events exist |
| Utf8.RoundTrip | server/app/codex_item_store.py:74-84 | decoding the UTF-8 encoding of any text gives the text |
| Utf8.CutIsAlignedPrefix | server/app/codex_item_store.py:74-84 | decoding cut bytes with errors ignored gives the longest whole-character prefix that fits |
| Utf8.AlignedPrefixFits | server/app/codex_item_store.py:74-84 | that prefix fits the budget and is at most three bytes short of it |
| Utf8.AlignedPrefixIsLongest | server/app/codex_item_store.py:74-84 | every prefix that fits the budget is a prefix of it |
| Utf8.KnownEncodings | server/app/codex_item_store.py:74-84 | the bytes of one character of each width, as RFC 3629 has them |
| ItemStore.AppendRepresents | server/app/codex_item_store.py:74-84 | appending a delta to the stored text matches appending it to the true stream |
| ItemStore.OverflowKeepsBudget | server/app/codex_item_store.py:74-84 | after an overflow the kept prefix is within three bytes of the budget and later deltas do not move it |
| ItemStore.FdexLimitsAreValid | server/app/codex_item_store.py:74-84 | the truncation marker fits into the 1 MiB limit |
| ItemStore.CodexItemStore.RecordNotification | server/app/codex_item_store.py:194-336 | one notification: both tables afterwards, for every kind of notification |
| ItemStore.CodexItemStore.ListEvents | server/app/codex_item_store.py:338-358 | one page of a task's events behind the cursor, oldest first |
| ItemStoreRuns.StepText | server/app/codex_item_store.py:238-315 | a notification changes the text of an item by its own delta only; item and turn notifications leave it |
| ItemStoreCalls.AddsExactly | server/app/codex_item_store.py:58-71 | a call adds to an item exactly the first delta member present in its parameters, for the methods that carry one, and nothing otherwise |
| ItemStoreCalls.StreamIsUnique | server/app/codex_item_store.py:267-315 | the parameters of the calls determine one true stream for every item |
| ItemStoreCalls.TextRepresentsStream | server/app/codex_item_store.py:267-315 | for any calls about any items the stored text is the exact concatenation of the deltas in their parameters while that fits 1 MiB, and never exceeds 1 MiB |
| ItemStoreCalls.OverflowPrefixIsForever | server/app/codex_item_store.py:267-315 | after the first overflow the character-aligned prefix of that concatenation, at most three bytes short of the budget, is a prefix of the stored text forever |
| ItemStoreRuns.LogIsAppendOnly | server/app/codex_item_store.py:218-236 | over any run of notifications the event log only grows, one row per notification, with increasing numbers |
| ItemStoreCalls.LogHoldsCalls | server/app/codex_item_store.py:194-236 | the log has one row per call, in order, and each row says what its call said |
| ItemStoreCalls.StartedItem | server/app/codex_item_store.py:238-266 | the row of a started item, new or known; its text and every other item stay |
| ItemStoreCalls.CompletedItem | server/app/codex_item_store.py:238-266 | the row of a completed item, new or known; its text and every other item stay |
| ItemStoreCalls.DeltaItem | server/app/codex_item_store.py:267-315 | the row a delta makes for an item nobody announced, and that it changes only the text of a known one |
| ItemStoreCalls.EndedTurnOrphans | server/app/codex_item_store.py:316-336 | the end of a turn orphans exactly its items in progress |
| ItemStoreCalls.OtherCallsLeaveItems | server/app/codex_item_store.py:194-336 | any other call leaves the items as they are |
| ItemStoreRuns.PagingIsExact | server/app/codex_item_store.py:338-358 | reading by cursor while writers append skips nothing and repeats nothing |
| ItemStoreRuns.EmptyPageMeansComplete | server/app/codex_item_store.py:338-358 | an empty page means the reader has the whole log of the task |
| Interactions.RpcKeyIsInjective | server/app/codex_interaction_store.py:52-63 | no two accepted request ids share a key |
| Interactions.CodexInteractionStore.Create | server/app/codex_interaction_store.py:204-253 | a pending row under a fresh id, or the refusal that applies |
| Interactions.CodexInteractionStore.SubmitResponse | server/app/codex_interaction_store.py:286-318 | only a pending row of the owner takes an answer, encrypted |
| Interactions.CodexInteractionStore.ClaimResponse | server/app/codex_interaction_store.py:320-353 | only the creating host session takes an answered row; an undecryptable answer leaves the row as it was |
| Interactions.CodexInteractionStore.Terminalize | server/app/codex_interaction_store.py:355-368 | only open rows end, and lose their ciphertext |
| Interactions.CodexInteractionStore.InterruptHost | server/app/codex_interaction_store.py:370-381 | all open rows of the session end, no other row changes |
| Interactions.CodexInteractionStore.InterruptOrphans | server/app/codex_interaction_store.py:383-411 | open rows without a live thread end, no other row changes |
| InteractionRuns.CiphertextExactlyWhileAnswered | server/app/codex_interaction_store.py:286-411 | over any run the ciphertext is non-empty exactly in state `answered` |
| InteractionRuns.TerminalRowsAreFinal | server/app/codex_interaction_store.py:355-381 | a terminal row is never changed again |
| InteractionRuns.ResponsesAreDeliveredExactlyOnce | server/app/codex_interaction_store.py:286-353 | over all interleavings each interaction is delivered at most once, to the host session that created it, with the value submitted before |
| InteractionRuns.ClaimDeliversExactly | server/app/codex_interaction_store.py:320-353 | in every run, a claim delivers an answer if and only if its session created the interaction for this owner, exactly this answer was submitted under this key, and the row is still there and open |
| InteractionRuns.SubmissionIsAcceptedExactly | server/app/codex_interaction_store.py:286-318 | in every run, an answer is accepted if and only if it is not too long and the row is the owner's and pending; then that answer is what is stored |
| InteractionRuns.CreationIsAcceptedExactly | server/app/codex_interaction_store.py:204-253 | in every run, a request is created if and only if it is of a supported method, not too long, with a readable id that its session has not used; and the row it gets |
| InteractionRuns.EndedContents | server/app/codex_interaction_store.py:355-368 | an ended row has the given state and reason, no ciphertext, and its first response time |
| InteractionRuns.InterruptedContents | server/app/codex_interaction_store.py:370-411 | which rows the end of a session and a sweep end, and how |
| InteractionScope.ScopeExitClosesSessionExactly | server/app/codex_interaction_install.py:78-93 | in every run the exit of the scope leaves no row of its session pending or answered; none ever is again, whatever anybody does, if and only if no creation of the session that its own checks let through is still in flight in a thread |
| InteractionScope.SessionIsOverExactly | server/app/codex_interaction_install.py:78-93 | the same in every reachable state after the exit: closed for good if and only if closed now and nothing acceptable in flight |
| InteractionScope.SweepClosesSessionExactly | server/app/codex_interaction_store.py:383-411 | a sweep of orphans after the exit closes the session for good if and only if no open row of it has a live thread and nothing acceptable is in flight |
| InteractionScope.LateCreationOutlivesScope | server/app/codex_interactions.py:280-288 | for every acceptable creation, a run in which it lands after the exit: the ended session has a pending row, and an answer to it stays there encrypted |
| InteractionBroker.CodexInteractionBroker.Handle | server/app/codex_interactions.py:275-371 | for every interference, and a cancellation at any await but those that end the row: a returned response was delivered and the row is `responded`; after a denial the row is gone or in a terminal state other than `responded`, and nothing was delivered; after an exception the row is not open, or the call was abandoned with nothing delivered, and then says which creation is still in flight; a request that waits for a browser returns exactly what polling from its creation returns |
| InteractionBroker.CodexInteractionBroker.Poll | server/app/codex_interactions.py:313-371 | the polling loop keeps the row unconsumed until it delivers or denies, and expires it at the deadline, and returns exactly what its rounds come to |
| InteractionBroker.AnswerIsReturned | server/app/codex_interactions.py:313-371 | liveness: if the row is open when polling starts, the rounds up to some round are in time and undisturbed, and at the claim of that round an answer is stored under their key, however it came, polling returns exactly that answer |
| InteractionBroker.CodexInteractionBroker.End | server/app/codex_interactions.py:258-273 | terminalising leaves no open row, also when others act while the event is published |
| InteractionBroker.ForeignStepsLeaveUnconsumed | server/app/codex_interaction_store.py:320-353 | no other session's steps consume or re-own the row |
| NotificationBus.CodexNotificationCapture.PublishNotice | server/app/codex_notification_bus.py:39-73 | `publish` up to its wait: starts the writer, is refused at once after an error or when the writer has ended |
| NotificationBus.CodexNotificationCapture.PutItem | server/app/codex_notification_bus.py:52-57 | an item enters a queue that is not full, at its end |
| NotificationBus.CodexNotificationCapture.FinishPublish | server/app/codex_notification_bus.py:52-68 | the outcome a publisher sees when its wait ends |
| NotificationBus.CodexNotificationCapture.Run | server/app/codex_notification_bus.py:98-119 | the writer loop: in order, until the sentinel, an error or an empty queue |
| NotificationBus.CodexNotificationCapture.BeginClose | server/app/codex_notification_bus.py:75-89 | `close` up to its first wait |
| NotificationBus.CodexNotificationCapture.SentinelDone | server/app/codex_notification_bus.py:81-90 | the first wait of `close` is over: it goes on to join the writer, or ends with an exception when the writer was cancelled without an error |
| NotificationBus.CodexNotificationCapture.EndClose | server/app/codex_notification_bus.py:89-96 | the writer is forgotten and its error reported |
| NotificationBus.StepConserves | server/app/codex_notification_bus.py:39-119 | every step keeps: accepted = taken ++ being written ++ queued, and the queue within its bound |
| NotificationBus.InvAlways | server/app/codex_notification_bus.py:28-119 | conservation, order and the state of a close hold in every run |
| NotificationRuns.DurableIsPrefixExactly | server/app/codex_notification_bus.py:28-119 | in every run the queue never exceeds max(128, max_pending) and the records are accepted notifications in accepted order; they are a prefix, position by position, if and only if nothing was written after a lost notice, which holds for every capture whose writer is not started again after a close |
| NotificationRuns.PrefixBreaksExactly | server/app/codex_notification_bus.py:98-119 | the prefix breaks with a write that ends well although an earlier notice was lost, and only then |
| NotificationRuns.RestartedWriterSkipsLostNotice | server/app/codex_notification_bus.py:39-41 | a concrete run: failed write, close, new writer; the log holds the second notice and not the first |
| NotificationRuns.CompleteExactly | server/app/codex_notification_bus.py:98-119 | the records equal the accepted sequence if and only if nothing is queued, nothing is being written and no write failed |
| NotificationRuns.NormalCloseIsComplete | server/app/codex_notification_bus.py:75-96 | if publishers finish before `close`, the writer is not cancelled and `close` returns normally, nothing is lost |
| NotificationRuns.JoiningCloseCompletes | server/app/codex_notification_bus.py:75-119 | from every reachable state of a regular run with a joining close, a run of the writer and the close alone in which the store accepts every write ends with a normal return and everything written |
| NotificationRuns.CancelledCloseIsCompleteExactly | server/app/codex_notification_bus.py:89-96 | a close cancelled while it awaits the writer returns normally, and has lost nothing if and only if the queue held no notice and a write in progress landed |
| NotificationRuns.CancelledCloseCanLose | server/app/codex_notification_bus.py:89-96 | a concrete run of such a close that loses a notification |
| NotificationRuns.ProducerIsStrandedExactly | server/app/codex_notification_bus.py:39-68 | for every run and every waiting caller: it can finish, can put its item or waits for a writer that can step, if and only if it does not wait on a full queue with no writer, or with an ended writer that it does not watch |
| NotificationRuns.StrandedOnlyByClose | server/app/codex_notification_bus.py:75-96 | only a caller that overlaps a `close` can be stranded; publishers that finish before it never are |
| NotificationRuns.WriterFailureCanStrandProducer | server/app/codex_notification_bus.py:57-68 | a concrete run: full queue, joining close, waiting publisher, failed write; the publisher waits for good |
| NotificationRuns.CloseIsNotStranded | server/app/codex_notification_bus.py:75-96 | the same for `close` |
| NotificationRuns.CallersAreToldExactly | server/app/codex_notification_bus.py:52-96 | in every run a publisher is told that all is well if and only if its notice is in and the store has refused no write so far, and such a notice was accepted; a `close` that joined the writer raises if and only if a write was refused |
| NotificationRuns.PublishIsRefusedExactly | server/app/codex_notification_bus.py:39-49 | in every run a publication is refused at once if and only if a write was refused or the writer has ended |
| NotificationBus.SealedQueueDrains | server/app/codex_notification_bus.py:98-119 | a writer whose store accepts everything writes a queue that ends in the sentinel completely and ends |
| CentralAuth.FailureKeyIsInjective | server/app/central_auth.py:284-285 | keys tell addresses of one email apart, and emails without a bar from each other |
| CentralAuth.CentralAuthStore.LoginRetryAfter | server/app/central_auth.py:287-298 | the seconds left of the block of this key |
| CentralAuth.CentralAuthStore.RecordLoginFailure | server/app/central_auth.py:300-321 | the counter row after a failure, inside and outside its window; other keys stay |
| CentralAuth.CentralAuthStore.Login | server/app/central_auth.py:327-379 | the limiter is asked first; a wrong password counts, a right one clears the key; the result in each case |
| CentralAuth.CentralAuthStore.ForgetEmail | server/app/central_auth.py:598 | no counter row of the email is left under any key, and every other key reads as before |
| CentralAuth.ResetStartsAfresh | server/app/central_auth.py:588-599 | after any run of logins a reset of one email lets its next login at every address through and starts the throttle afresh for it, while other emails keep their counters and blocks |
| CentralAuth.CounterIsBounded | server/app/central_auth.py:300-321 | after any run of logins on many keys: checks so far, window start and block of one key obey the counting invariant |
| CentralAuth.ThrottleBound | server/app/central_auth.py:287-341 | from the first failure, at most (T/(W+1) + 1) * (M + W/B) wrong passwords of a key are checked in time T |
| CentralAuth.ThrottleBoundByWindow | server/app/central_auth.py:287-341 | hence at most (T/W + 1) * (M + W/B) |
| CentralAuth.LimitStartsBlock | server/app/central_auth.py:312-317 | within one window the first M wrong passwords are all checked, and the block starts exactly with the M-th |
| CentralAuth.BlockLastsExactly | server/app/central_auth.py:287-321 | that block refuses the key until B seconds after the M-th failure, and no longer |
| CentralAuth.SuccessStartsAfresh | server/app/central_auth.py:342-379 | after any run of logins a right password that is let through clears its key, and the throttle starts afresh for it; no other counter changes |
| AuthSessions.CentralAuthSessions.AuthenticateAccess | server/app/central_auth.py:410-420 | a session is returned exactly when some session grants the token: current, live, unexpired, user enabled |
| AuthSessions.CentralAuthSessions.FindRefresh | server/app/central_auth.py:422-433 | the same for refresh tokens |
| AuthSessions.CentralAuthSessions.StoreRefresh | server/app/central_auth.py:434-444 | new tokens and expiry on one row by id; revocation is left as it is |
| AuthSessions.CentralAuthSessions.IssueSession | server/app/central_auth.py:381-404 | a new row if the user exists, whether or not it is enabled |
| AuthSessions.CentralAuthSessions.RevokeAccess | server/app/central_auth.py:450-453 | the session with this access token is revoked, no other |
| AuthSessions.CentralAuthSessions.RevokeUserSessions | server/app/central_auth.py:455-466 | all sessions of the user but one are revoked, and how many were live |
| AuthSessions.CentralAuthSessions.RevokeSession | server/app/central_auth.py:468-480 | one live session of the user is revoked, or nothing happens |
| AuthSessions.CentralAuthSessions.SetUserEnabled | server/app/central_auth.py:482-497 | the flag, and on disabling the revocation of all sessions with it |
| AuthSessions.CentralAuthSessions.ConfirmReset | server/app/central_auth.py:588-598 | new password and revocation of all sessions at once |
| AuthSessions.InvAlways | server/app/central_auth.py:253-543 | over all interleavings of registrations, logins, refreshes, password changes and revocations tokens stay distinct and sessions belong to users |
| AuthSessions.TokensIdentifySessions | server/app/central_auth.py:381-448 | in every reachable state an access or refresh token is good for one session at most |
| AuthSessions.RevokedIsFinal | server/app/central_auth.py:422-480 | a revoked session grants nothing ever again, also when a refresh read it before and writes it after |
| AuthSessions.SpentIsFinal | server/app/central_auth.py:434-444 | a token that left its row is never good again |
| AuthSessions.RefreshSpendsOldTokens | server/app/central_auth.py:434-444 | a written refresh replaces both tokens, which are spent from then on |
| AuthSessions.LastRefreshWins | server/app/central_auth.py:422-448 | of two refreshes that read the same session, the tokens handed out by the first are spent once the second has written |
| AuthSessions.ResetEndsEarlierSessionsExactly | server/app/central_auth.py:588-598 | a reset ends every session that rests on an earlier password, in all continuations, if and only if no login and no registration of the user is between its first transaction and its session |
| AuthSessions.ChangeEndsOtherSessionsExactly | server/app/central_auth.py:526-543 | the last transaction of a password change does the same for all sessions but the kept one, which it leaves as it was |
| AuthSessions.SessionLivesExactly | server/app/central_auth.py:450-543 | in every run a session is alive at the end if and only if no call in it ended it: its revocation, that of its user but for a kept session, disabling, reset, deletion or the closing transaction of a password change |
| AuthGrants.TokenIsGoodExactly | server/app/central_auth.py:381-497 | after any run of any calls, a token is good for a session if and only if it is the one written last for it, its time has not passed, no call ended the session, and the last word on its user is that it is enabled; for access and refresh tokens |
| AuthSessions.NewPasswordEndsNothing | server/app/central_auth.py:533-538 | after the first transaction of a password change, in every interleaving, each earlier session lives until such a call, and until it is refreshed its tokens are granted exactly what they were granted before |
| AuthSessions.DisablingEndsSessions | server/app/central_auth.py:482-497 | a disabled user is granted nothing, and the sessions of that moment stay over when the user is enabled again |
| AuthSessions.DisablingShutsOutExactly | server/app/central_auth.py:482-497 | a disabled user is granted nothing until the next login, in all continuations and also when enabled again, if and only if no login and no registration of the user is between its first transaction and its session |
| DeviceFlow.AgentProjectStore.CheckStart | server/app/agent_projects_core.py:346-362 | the newest pending flow is reused if usable and closed otherwise |
| DeviceFlow.AgentProjectStore.Insert | server/app/agent_projects_core.py:373-408 | supersede what is pending, insert with clamped interval and expiry, keep the twenty newest |
| DeviceFlow.AgentProjectStore.ClaimPoll | server/app/agent_projects_core.py:459-488 | the claim transaction: expired, too early, gone, or granted with the next poll time moved |
| DeviceFlow.AgentProjectStore.Settle | server/app/agent_projects_core.py:504-538 | what each answer of GitHub writes |
| DeviceFlow.AgentProjectStore.PollDeviceFlow | server/app/agent_projects_core.py:442-539 | one poller alone, claim and answer |
| DeviceFlow.InvAlways | server/app/agent_projects_core.py:336-539 | the invariant of flows, pollers and claims holds in every interleaving |
| DeviceFlow.PendingFlows | server/app/agent_projects_core.py:371-408 | at most one pending flow per owner; a device code is stored exactly while its flow is pending; intervals in 5..300 |
| DeviceOutcome.FlowStandsExactly | server/app/agent_projects_core.py:346-538 | in every interleaving a flow stands as the last thing said about it: by GitHub's answer to a granted poll, by a clock past its end, by another client or a newer flow; pending if nothing was said; its connection is that of the last token |
| DeviceOutcome.PollIsGrantedExactly | server/app/agent_projects_core.py:459-488 | in every interleaving a poll is granted, with the interval of its row, if and only if the flow is the owner's and pending and its clock reading is neither too early nor past its end |
| DeviceFlow.PollCadence | server/app/agent_projects_core.py:459-488 | section 3.5 of RFC 8628: polls of one flow are granted for clock readings at least 5 seconds apart, and at least the interval in force apart unless a `slow_down` came in between, then at least 10 seconds after the earlier claim; claims are that interval less the age of the earlier reading apart, or 10 seconds |
| DeviceFlow.FiveRealSecondsExactly | server/app/agent_projects_core.py:446-488 | after any claim in any run, all later polls of the flow in all continuations are claimed at least 5 real seconds later if and only if no poll can be granted within them; on a flow that lives that long, if and only if the clock reading of the claim was at most the interval less 5 seconds old |
| DeviceFlow.LateClaimShortensCadence | server/app/agent_projects_core.py:446-488 | for every delay of 0 to 5 seconds a run in which exactly that delay is missing between two real polls |
| DeviceFlow.RunIsLater | server/app/agent_projects_core.py:507-518 | over any run intervals only grow and a flow that left `pending` never returns to it |
| DeviceFlow.NewFlowsAreClamped | server/app/agent_projects_core.py:371-401 | a flow starts pending with an interval in 5..60, a lifetime in 60..1800 seconds and its first poll one interval away |
| DeviceFlow.SlowDownBacksOffExactly | server/app/agent_projects_core.py:507-518 | in every reachable state a `slow_down` puts the next poll a whole increased interval away if and only if the interval of its poll is the stored one, or both are at the cap |
| DeviceFlow.StaleSlowDownAllowsEarlyPoll | server/app/agent_projects_core.py:507-518 | otherwise, for any such answer on a flow that is still open, a run in which a poll is granted before the increased interval has passed |
| DeviceFlow.OverlappingSlowDownIsNotObeyed | server/app/agent_projects_core.py:507-518 | a concrete run of two overlapping pollers and a third poll, 12 seconds after the second with 15 in force |
| DeviceFlow.SlowDownIsObeyed | server/app/agent_projects_core.py:507-518 | if each `slow_down` is written for a poll whose interval is up to date, every poll keeps the whole increased interval from every earlier one |
| Failover.PlanIsNestedOrder | server/app/client_ai.py:575-604 | the attempts are all configured ones, once each, ordered by provider, then model, then root |
| Failover.AttemptSays | server/app/client_ai.py:605-780 | an attempt contacts its upstream once and passes on its answer up to the end marker, unchanged |
| Failover.StreamTellsOneStory | server/app/client_ai.py:575-861 | all content comes from the first attempt that has any, before which none answers with content; attempts up to it are contacted in order and none after it; one closing pair, `done` exactly when that attempt does not fail, `error` otherwise |
| Failover.StreamEndsExactly | server/app/client_ai.py:520-861 | a stream ends once with its closing frames if and only if it is not an implicit image request with audio and no image model |
| Failover.ContentHasOneSource | server/app/client_ai.py:562-575 | a whole stream takes its content from the loops alone or from the specialised model alone |
| FailoverAnswers.LoopsShowWhatIsWritten | server/app/client_ai.py:575-861 | told from the upstreams' own lines: every letter of reasoning and content that the attempts up to the first answer wrote before their end marker is shown, in order, and no other; the stream closes with `done` for that attempt if and only if its connection did not break before an end marker and nothing raised afterwards |
| FailoverAnswers.StreamShowsWhatIsWritten | server/app/client_ai.py:520-861 | the same for a whole stream that reaches the loops |
| FailoverAnswers.LoopsAreUsedExactly | server/app/client_ai.py:560-575 | which requests reach the loops |
| FailoverAnswers.SpecialClosesExactly | server/app/client_ai.py:385-481 | any other stream that is closed says `done` if and only if the specialised model served it, and shows its text |
| Failover.Generator.FollowLines | server/app/client_ai.py:718-780 | the loop over event lines emits the frames of the lines up to the end marker and knows whether content was seen |
| Failover.Generator.Try | server/app/client_ai.py:604-846 | one attempt with its exceptions |
| Failover.Generator.TryProviders | server/app/client_ai.py:575-846 | the nested loops emit the frames of the plan up to the first answer |
| Failover.Generator.EmitSpecialized | server/app/client_ai.py:385-481 | the frames of the specialised router |
| Failover.Generator.Generate | server/app/client_ai.py:520-861 | the generator emits exactly the specified stream |
| AccountFence.StepKeeps | server/app/account_operations.py:173-212 | every step, also a crash or a save under no lock, keeps: one holder per account, and no tombstone for a creation past its check |
| AccountFence.NoCommitBehindTheFence | server/app/agent_runtime.py:294-312 | in every interleaving no task of an account is committed between the active check of its deletion and the release of that lock, and none after the tombstone |
| AccountErasure.DeletedAccountsOwnNothingExactly | server/app/agent_tasks.py:369-395 | in every reachable state a tombstoned account owns no task row if and only if no copy of a task was saved onto a missing row since the purge; a deletion past its check sees an active task only from such a save |
| AccountErasure.DeletedStaysEmptyExactly | server/app/account_cleanup.py:186-198 | a tombstoned account without rows stays without rows, whatever happens, if and only if no worker holds a copy of its tasks |
| AccountErasure.ActiveAppearsExactly | server/app/account_cleanup.py:186-192 | past the active check, a step makes the account active if and only if it saves an active copy onto a missing row |
| AccountErasure.StaleSaveOutlivesDeletion | server/app/agent_tasks.py:369-395 | a concrete run after which a deleted account owns a task row again |
| AccountErasure.CrashBeforeTombstoneLetsCreationCommit | server/app/auth_routes.py:335-343 | a deletion that dies between identity and tombstone leaves neither, and a later creation for that account commits |
| AccountErasure.TombstoneIsLostExactly | server/app/auth_routes.py:335-343 | in every reachable state a step leaves an account without identity, tombstone and a deletion about to write it if and only if it is the death of its deletion between the two |
| AccountErasure.TombstoneStopsCreationsExactly | server/app/agent_runtime.py:294-312 | in every reachable state no creation of an account can ever commit again if and only if its tombstone is there |
| AccountFence.OneHolder | server/app/account_operations.py:173-212 | at most one request is inside the critical section of an account |
| AccountFence.CreateAlone | server/app/agent_runtime.py:294-318 | an undisturbed creation commits if and only if the account is neither locked nor deleted and the creation itself is allowed |
| AccountFence.DeleteAlone | server/app/auth_routes.py:335-343 | an undisturbed deletion removes every task row and the identity of the account and writes its tombstone if and only if the account is not locked, none of its tasks is active and the deletion itself is allowed; otherwise nothing changes |
| AccountFence.AccountOperations.CreateTask | server/app/agent_runtime.py:294-312 | lock, tombstone check, first durable write, release |
| AccountFence.AccountOperations.SaveTask | server/app/agent_tasks.py:325-395 | a save of a copy: a terminal row stays terminal, a missing row is inserted, no lock and no tombstone is consulted |
| AccountFence.AccountOperations.DeleteAccount | server/app/auth_routes.py:335-343 | active check, purge, identity and tombstone under the lock, or nothing |
| HostStore.CodexHostStore.RecordTurnStarted | server/app/codex_host_store.py:384-440 | the turn is in progress and the thread runs it, or the thread is not the owner's |
| HostStore.CodexHostStore.RecordTurnCompleted | server/app/codex_host_store.py:442-476 | turn and thread status after completion, interruption or failure |
| HostStore.CodexHostStore.EnqueueControl | server/app/codex_host_store.py:500-532 | a pending control under the next id |
| HostStore.CodexHostStore.ClaimControls | server/app/codex_host_store.py:534-571 | the scan returns the first matching pending controls up to the limit, and marks exactly those |
| HostStore.CodexHostStore.FinishControl | server/app/codex_host_store.py:573-598 | a terminal state for a control of the owner; open states are refused |
| HostStore.CodexHostStore.ReconcileOrphanedThread | server/app/codex_host_guard.py:76-115 | the repair in place equals its specification |
| HostStore.CodexHostStore.SettleOrphanedControls | server/app/codex_host_guard.py:118-139 | the settlement, and how many controls it closed |
| HostStore.ScanTakesFirst | server/app/codex_host_store.py:553-562 | a claim returns matching ids in order, and any match left out comes after all of them and only because the limit is reached |
| HostStore.ClaimsAreExclusiveAndFifo | server/app/codex_host_store.py:534-571 | two claims anywhere in any run return different controls, and on one thread a later claim for no more actions returns only larger ids |
| HostStore.ClaimReturnsOldest | server/app/codex_host_store.py:553-562 | the oldest matching control comes first; any other is returned unless the limit is reached |
| HostStore.ReconcileRepairsExactly | server/app/codex_host_guard.py:76-115 | no turn in progress and no open control remain if and only if the thread was marked busy or had none; everything else is untouched |
| HostStore.SettledIsNeverClaimed | server/app/codex_host_guard.py:118-139 | settling leaves no control of the thread open, and in no later run does a claim on it return a control from before |
| HostStore.RepairsAreIdempotent | server/app/codex_host_guard.py:76-139 | repairing twice is repairing once |
| HostStoreRuns.ControlIsExactly | server/app/codex_host_store.py:500-598 | the fate of every control of every run: it is what was asked for under its id; the last report about it decides state, result and error; without one the repair that met it open: rejected if it was settled as a steer, failed otherwise; without that it is processing if a claim returned it, and pending if none did |
| HostStoreRuns.HostInvAlways | server/app/codex_host_store.py:384-476 | in every run turns and controls belong to the owner of their thread, and the turn a thread runs is in progress |
| HostStoreRuns.PutContents | server/app/codex_host_store.py:199-285 | a thread row is written by its owner alone; a new one runs nothing, an old one keeps its turns |
| HostStoreRuns.StartedContents | server/app/codex_host_store.py:384-440 | in every run, what a started turn leaves: in progress, on a running thread |
| HostStoreRuns.CompletedContents | server/app/codex_host_store.py:442-476 | in every run, what a completed turn leaves: its thread runs nothing and is idle, interrupted or failed if and only if the turn is |
| HostStoreRuns.ReconciledContents | server/app/codex_host_guard.py:76-115 | in every run, what reconciling leaves: a busy thread and its live turns interrupted, with their own error or the reason; anything else as it was |
| HostStoreRuns.EnqueuedContents | server/app/codex_host_store.py:500-532 | in every run, a control is queued behind all others on a thread of its owner, and refused elsewhere |
| HostStoreRuns.DeletedContents | server/app/codex_host_store.py:637-658 | in every run, an owner with a busy thread or an open control is kept; any other loses all rows, and nobody else loses any |
| Base64.RoundTrip64 | server/app/codex_mcp_elicitation.py:57-59 | unpadded base64url (section 5 of RFC 4648) decodes to the bytes it was made from |
| Base64.LettersAreTheStandards | server/app/codex_mcp_elicitation.py:57-59 | the letters of table 2 of RFC 4648, most significant bits first |
| McpForm.TokenIsInjective | server/app/codex_mcp_elicitation.py:57-59 | different fields have different tokens, none equal to the action's |
| McpForm.FormContentIsSound | server/app/codex_mcp_elicitation.py:382-417 | accepted content has required ⊆ keys ⊆ properties and every value satisfies its schema |
| McpForm.FormContentExactly | server/app/codex_mcp_elicitation.py:382-417 | which submissions are accepted, for every schema and every submission: the schema's own conditions, known tokens only, every field decodable or left out with a default or without need; each field then holds what was entered, its default, or nothing |
| McpForm.OptionsAreOffered | server/app/codex_mcp_elicitation.py:90-130 | the options of a field are the constants among its first two hundred entries |
| McpForm.SubmissionRoundTrip | server/app/codex_mcp_elicitation.py:382-417 | submitting any valid content under the field tokens gives back that content plus the declared defaults of absent fields |
| McpForm.FullSubmissionRoundTrip | server/app/codex_mcp_elicitation.py:382-417 | content that also covers every default comes back unchanged |
| McpForm.EntryDecodes | server/app/codex_mcp_elicitation.py:280-348 | the text entered for a valid value decodes to that value |
| McpForm.DefaultFromSatisfies | server/app/codex_mcp_elicitation.py:351-373 | a default that passes validation satisfies its schema |
| McpForm.OfferedAcceptSucceeds | server/app/codex_mcp_elicitation.py:204-277 | where accepting is offered, accepting with valid content succeeds |
| McpForm.ActionDecides | server/app/codex_mcp_elicitation.py:420-470 | what every submission comes to by the text of its action: declining and cancelling always succeed, accepting exactly for valid form content or a safe link outside the connector, anything else is refused |
| McpForm.BuildContent | server/app/codex_mcp_elicitation.py:382-417 | the field loop with its early errors computes the specified result |
| McpForm.CheckDefaults | server/app/codex_mcp_elicitation.py:376-379 | the loop decides whether all declared defaults are valid |
| Decimal.ParseRoundTrip | server/app/codex_mcp_elicitation.py:317-331 | reading the decimal text of an integer gives the integer |

## Left out

- AgentLoop.FdexAgentLoop.Run: a process death in the middle of the loop is a step of `RetryChain`, not of this method; interference by other workers happens at every await of the method.
- AgentLoop.FdexAgentLoop.RunOneAttempt: the exclusions are part of the driver's state; how the provider is selected under them is an input.
- RetryChain: one logical root and its lease; the reconciler's checks on time, side effects and the plan's decision code are inputs, and so are the verdicts of `decide_codex_retry` beyond its budget. When the reconciler refuses a journal it records a decision, marks the transition blocked and closes the chain; the model leaves such a chain alone. Nor does it have the projection of a child that is terminal already onto the root. A worker that is shut down ends between two steps, like one that dies; a write that its thread commits after the lease was released is not modelled.
- RetryRecovery.LaunchedAtMostOnce: not claimed for the logical root, which `run` accepts again while it is `running`.
- `chain_for_task` and `list_execution_lineage`: the read-only projection of the chain for the user interface.
- The adoption of retry children that predate the transition journal, apart from its ledger call.
- AgentTasks.AgentTaskStore.Save: statuses are a closed set, so the truncation of status text is not modelled; changed files are a set, so their order and the duplicates of a first save are not.
- AgentTaskStore.request_cancel, which reads and writes in two transactions, and the lineage migration of old tables.
- ItemStoreRuns.LogIsAppendOnly: the deletion of an owner's events and items is not among the steps of a run.
- InteractionBroker: a cancellation that strikes while a row is being ended; the thread that ends it goes on.
- ItemStore: JSON text is an opaque string of known length; the read-only item list is not modelled.
- Strip and lower-case follow the ASCII and Latin-1 characters; the Unicode white space and case tables are not modelled.
- Interactions: the cipher is an injective sealing under a key; key files and their rotation are not modelled.
- InteractionBroker.CodexInteractionBroker.Handle: the deadline is one input per round, and policy checks of approvals before the row exists are not modelled.
- NotificationBus: a write whose task is cancelled lands at once or never; one `close` at a time is active.
- CentralAuth: registration details, password hashing, reset codes, and the normalisation of email and address.
- AuthSessions: device names, addresses, risks and the event log; tokens are fresh values and their hashes injective.
- CentralAuth.ThrottleBound: concurrent logins of one key are outside the claim, since each may pass the check before another is recorded.
- DeviceFlow: expiry and polling use whole seconds; error texts and the saved GitHub connection are not modelled.
- Failover: closing an upstream response after the last frame does not raise, and the specialised audio router returns a result rather than raising.
- AccountFence: owners that are not central accounts take no lock and have no tombstone; writes of other stores under the same guard.
- HostStore.CodexHostStore.EnqueueControl: the ownership check and the insert are one step; a thread never changes its owner, and the foreign key refuses a thread that vanished in between.
- HostStore: thread metadata, task bindings, previews and time stamps.
- HostStoreRuns.DeletedContents: `delete_owner` counts active operations before it opens its transaction; the model has both in one step.
- HostStore.CodexHostStore.FinishControl: the source does not check who claimed the control or that it is being processed, and neither does the model.
- McpForm: floats are reals with the platform's reading and writing as inputs; formats are an input predicate; boolean numeric bounds in a schema are not modelled.
- Provider selection, health snapshots, leader leases, JSON-RPC transport, HTML and admin routes, plugins, exports and the file system.

Nothing was executed: these are statements about the model.
