# Verified model of the Global Inbox

This project models the message runtime of the agent daemon: the durable Inbox and its turns, the runtime that drives
it, the two operator-approval protocols, the bounded controllers around them, and the counting race of the runtime lab.
It is written for Dafny 4.11; `dafny verify dfyconfig.toml` checks all of it.

How it is laid out:

- `InboxModel` holds the tables and every transaction as a function from one table state to the next, with `Conflict`
  for a rollback, and runs of transactions. `RowLaws`, `NoticeLaws`, `TurnLaws` and `Freshness` prove what all runs keep.
  `InboxOrder` and `Pagination` treat the Inbox order and cursor pages. `InboxStore` has the store as a class whose
  methods change the tables in place and are proved against the transactions of `InboxModel`.
- `TurnRuntime` models the in-memory union, the daemon and adopted turns as events over the store; `RuntimeLaws` proves
  what every interleaving keeps, `TerminalLaws` when the provider's report on a run reaches its turn; `GlobalInbox` has
  the runtime as a class over a `Store`.
- `DmApproval` and `Invitation` are step machines over disk, memory and remote effects. The dictionary is changed in
  place, then saved or restored from its copy, and a crash may come between any two of these; the flows are classes
  that move only by such steps.
- `Planner`, `ContextControl` and `Wakes` are the FIFO planner, the context decisions, and the coalescer with its gates.
- `CountingRace` is the compare-with-head channel, for every number of agents and every interleaving.

What the proofs found, where the code and its documentation or the expected law part ways:

- A renoticed row blocks freshness again. The comment at `src/puffo_agent/agent/inbox_store.py:1003-1006` says it must
  not; the test at lines 1554-1567 refuses any pending row other than the candidate. `Freshness.RenoticedRowBlocks`
  gives the exact condition and `Freshness.RenoticeLowersBoundary` a run.
- A context rollover while the daemon plans overwrites the session of a turn adopted in the meantime, because the write
  takes no lock. That turn can then no longer settle as processed; worse, the provider's own report on it names the old
  session and is dropped, and `process_once` refuses to run while it is adopted, so it is never settled at all.
  `RuntimeLaws.AdoptedSettlesIffSessionHeld` is the exact condition, `RuntimeLaws.AdoptedTurnCutOff` a run that fails,
  `TerminalLaws.StrandedForever` what follows, and `RuntimeLaws.AdoptedTurnSettles` with
  `TerminalLaws.OwnReportReaches` shows that without such a rollover adopted turns settle as surely as daemon turns.
- A start announced while another run is adopted is held, and the held start then swallows the report on the adopted
  run. `TerminalLaws.OwnReportSettlesIffNothingHeld` is the exact condition, `TerminalLaws.HeldStartSwallowsReport` a run.
- One quiet resume does not always leave no decided record behind. If the process stops after the promotion and before
  the phase is saved, and the Inbox admits the promoted row first, the repeated promotion conflicts.
  `DmApproval.KeylessApprovals.ResumePendingApprovals` states exactly which records remain,
  `DmApproval.CrashThenAdmissionSticks` reaches one.
- Settling an orphaned adopted row, a second rollover under one key, and leaving the coalescer's wait through its inner
  comparison cannot happen: `RuntimeLaws.AdoptedKeepsBinding`, `ContextControl.ResolveContextPlan` and
  `Wakes.InboxCoalescer.SleepOrPull` show it.
- Group agreement and irrevocable decisions hold even if prompt ids were not unique.

## Model

| member | source | states |
|---|---|---|
| NoticeLaws.NoticeCacheAgrees | src/puffo_agent/agent/inbox_store.py:131-189 | In every state reachable from an empty store the cached notice record is the summary of the sets: the count is the number of pending rows, contributions lie among the pending rows and belong to the last accepting session, the delivered generation never exceeds the generation, and while anything is pending the two are equal exactly when every pending row is contributed |
| NoticeLaws.StepAgrees | src/puffo_agent/agent/inbox_store.py:131-189 | No transaction, committed or rolled back, breaks that agreement |
| NoticeLaws.RefreshAgrees | src/puffo_agent/agent/inbox_store.py:131-189 | Re-deriving the cache restores agreement whenever one transaction only adds or only removes pending rows |
| NoticeLaws.GenerationsMeanCaughtUp | src/puffo_agent/agent/inbox_store.py:225-254 | Over every run with pending rows: the generations are equal exactly when the last accepting session has no candidate left |
| NoticeLaws.ReturnedRowIsCandidate | src/puffo_agent/agent/inbox_store.py:1081-1115 | A row that goes from a turn back to the Inbox is a notice candidate for every session |
| NoticeLaws.CandidateUntilNamed | src/puffo_agent/agent/inbox_store.py:225-246 | An untold row stays a candidate for every session, over any run, until an accepted notice names it or it leaves the Inbox |
| TurnLaws.OwnershipHolds | src/puffo_agent/agent/inbox_store.py:863-957 | In every reachable state a row is in a turn exactly when it is a member of the active turn it names, ordinals are 0..n-1 in admission order without duplicates, and everything in or past a turn was shown and has a membership record |
| TurnLaws.StepSound | src/puffo_agent/agent/inbox_store.py:863-957 | Every transaction keeps that invariant |
| TurnLaws.AdmitIsAdmitted | src/puffo_agent/agent/inbox_store.py:863-957 | Admission appends the named ids with consecutive ordinals after the highest in use and moves exactly those pending rows into the turn |
| TurnLaws.CompleteEnds | src/puffo_agent/agent/inbox_store.py:991-1079 | Completion moves every member out of the turn in the step that ends it and touches no other row |
| TurnLaws.RequeueEnds | src/puffo_agent/agent/inbox_store.py:1126-1200 | Requeue moves every member out of the turn in the step that ends it, covered ones as processed, the others as pending |
| TurnLaws.CoverSettlesPresented | src/puffo_agent/agent/inbox_store.py:1245-1267 | A cover settles exactly the pending rows among its ids that were presented before, and changes no other row |
| TurnLaws.CoverSound | src/puffo_agent/agent/inbox_store.py:1202-1272 | A cover keeps the ownership invariant |
| TurnLaws.EndingEmptiesTurn | src/puffo_agent/agent/inbox_store.py:1126-1200 | Whatever transaction ends an active turn leaves each of its members pending or processed |
| TurnLaws.ProcessedIsAbsorbing | src/puffo_agent/agent/inbox_store.py:1139-1185 | No transaction takes a row out of PROCESSED or removes its visibility stamp |
| TurnLaws.HistoryHasAdmission | src/puffo_agent/agent/inbox_store.py:930-947 | A membership record exists only where the run contains a committed admission of that row |
| TurnLaws.NoUnreadMessageSettled | src/puffo_agent/agent/inbox_store.py:1245-1267 | Over every run a processed row was admitted by some earlier committed admission and carries a visibility stamp, including rows settled by covers |
| Freshness.BoundaryIsMonotone | src/puffo_agent/agent/inbox_store.py:1489-1569 | Along any run without a retreating step (this turn's requeue or renotice, a new baseline, an arrival at or below the boundary) the boundary never falls |
| Freshness.SafeStays | src/puffo_agent/agent/inbox_store.py:1489-1569 | One such step keeps every safe sequence safe |
| Freshness.AdmissibleStays | src/puffo_agent/agent/inbox_store.py:1554-1567 | Admits, completions, requeues, covers, quarantines and notices of other turns leave each admissible row admissible |
| Freshness.RenoticedRowBlocks | src/puffo_agent/agent/inbox_store.py:1554-1567 | A renoticed row, though it keeps its stamp, takes away exactly the sequences from its own upwards, unless it lies at or below the baseline or is the explicit candidate, when it takes nothing away; the comment at lines 1003-1006 says it never blocks |
| Freshness.RenoticeLowersBoundary | src/puffo_agent/agent/inbox_store.py:991-1079 | A concrete run in which one renotice takes the boundary from 7 to nothing, for every asking turn |
| Freshness.StepKeepsSeqsUnique | src/puffo_agent/agent/message_store.py:203-204 | Server sequences stay unique across all rows under every transaction |
| InboxStore.ScanIsBoundary | src/puffo_agent/agent/inbox_store.py:1533-1569 | Stopping the ascending scan at the first row that is above the candidate or inadmissible yields the largest safe sequence |
| InboxStore.Store.RefreshNoticeState | src/puffo_agent/agent/inbox_store.py:131-189 | The cache update equals the set-level recomputation and touches nothing else |
| InboxStore.Store.StoreReceipt | src/puffo_agent/agent/message_store.py:571-590 | A well-formed receipt with a new id and unused sequence is added and the cache refreshed; anything else changes nothing |
| InboxStore.Store.PromoteGatedReceipt | src/puffo_agent/agent/message_store.py:692-860 | Commits exactly for a gated, unqueued row with the expected sequence, is idempotent on a row still pending in its released shape, refuses every other; only the commit changes anything |
| InboxStore.Store.TombstoneGatedDm | src/puffo_agent/agent/message_store.py:1681-1767 | Commits exactly for a gated, unqueued row with the expected sequence, is idempotent on an already refused one, refuses every other; only the commit changes anything |
| InboxStore.Store.QuarantinePending | src/puffo_agent/agent/inbox_store.py:404-434 | Removes a pending row from the Inbox for good, and says whether it did |
| InboxStore.Store.GetNoticeCandidates | src/puffo_agent/agent/inbox_store.py:225-254 | Exactly the pending rows the session has not been told about, in Inbox order |
| InboxStore.Store.MarkNoticeDelivered | src/puffo_agent/agent/inbox_store.py:315-352 | Records the named rows, or every pending row when none are named, for the session and reports whether anything new was told; stale, foreign or duplicate claims change nothing |
| InboxStore.Store.RecordDelivery | src/puffo_agent/agent/inbox_store.py:256-313 | The delivery transaction itself: a new session discards the old one's evidence, the delivered generation is exact |
| InboxStore.Store.ReleaseNoticeDelivery | src/puffo_agent/agent/inbox_store.py:354-402 | Forgets exactly the named (or all) evidence of the accepting session, and reports whether any was there |
| InboxStore.Store.StartTurn | src/puffo_agent/agent/inbox_store.py:727-780 | Opens a turn and claims its notice in one transaction, or rolls both back |
| InboxStore.Store.FinalizeEmptyTurn | src/puffo_agent/agent/inbox_store.py:782-816 | Closes an active turn only when it has no member |
| InboxStore.Store.TransferTurnSession | src/puffo_agent/agent/inbox_store.py:818-861 | Moves an active turn from the expected owner to a named one |
| InboxStore.Store.AdmitMessages | src/puffo_agent/agent/inbox_store.py:711-725 | Admission commits the model transition or rolls back, and keeps the store consistent |
| InboxStore.Store.InsertMembers | src/puffo_agent/agent/inbox_store.py:930-935 | The insertion loop gives the admitted ids consecutive ordinals in order |
| InboxStore.Store.CompleteTurn | src/puffo_agent/agent/inbox_store.py:991-1079 | Exact-membership completion: commits only when the named ids are precisely the turn's members, all in turn |
| InboxStore.Store.MarkProcessed | src/puffo_agent/agent/inbox_store.py:959-989 | Plain completion of an exact, non-empty id list |
| InboxStore.Store.CompleteTurnWithRenotice | src/puffo_agent/agent/inbox_store.py:1300-1329 | Completion with a disjoint redelivery part |
| InboxStore.Store.CompleteTurnRenoticeUnrenotified | src/puffo_agent/agent/inbox_store.py:1331-1370 | Fallback completion redelivers exactly the members whose one redelivery is unspent |
| InboxStore.Store.RequeueMessages | src/puffo_agent/agent/inbox_store.py:1117-1200 | Requeue commits the model transition or rolls back, and keeps the store consistent |
| InboxStore.Store.AddMessageCovers | src/puffo_agent/agent/inbox_store.py:1202-1272 | Records covers for known ids, reports the unknown ones, settles the presented pending rows |
| InboxStore.Store.ReadInboxPage | src/puffo_agent/agent/inbox_store.py:520-585 | The first `limit` rows of the cursor's window in Inbox order under the snapshot's generation, with an exact remaining count and a cursor exactly when something remains; errors exactly on a bad limit, target or mismatching cursor |
| InboxStore.Store.SetContextBaseline | src/puffo_agent/agent/inbox_store.py:1461-1487 | Pins a channel's baseline, refusing a negative one |
| InboxStore.Store.GetModelVisibleThroughSeq | src/puffo_agent/agent/inbox_store.py:1489-1569 | Returns the largest safe sequence, or nothing exactly when no sequence is safe |
| InboxStore.StepConsistent | src/puffo_agent/agent/inbox_store.py:131-189 | Every transaction keeps cache agreement, turn ownership and sequence uniqueness together |
| RowLaws.KnownRowMoves | src/puffo_agent/agent/inbox_store.py:484-495 | Every transaction keeps a known row with its place and sequence, and only a promotion moves it in the Inbox order |
| RowLaws.NewRowIngested | src/puffo_agent/agent/message_store.py:571-590 | Only ingestion adds a row, and then exactly the one received |
| InboxOrder.KeyTrichotomy | src/puffo_agent/agent/inbox_store.py:484-495 | The Inbox order key is total on distinct rows |
| InboxOrder.KeyTransitive | src/puffo_agent/agent/inbox_store.py:484-495 | The Inbox order is transitive, down to the lexicographic id comparison |
| InboxOrder.InOrder | src/puffo_agent/agent/inbox_store.py:442-471 | Listing a selection gives each row once, strictly upwards in Inbox order |
| Pagination.ProjectInboxPage | src/puffo_agent/agent/global_inbox_admission.py:878-922 | Byte truncation returns the longest fitting prefix, again a page of the same window with an exact remaining count; refused exactly when the head alone is too large |
| Pagination.CutIsPage | src/puffo_agent/agent/global_inbox_admission.py:878-922 | Any proper prefix of a page, with its recomputed cursor and count, is a page |
| Pagination.StepKeepsBelow | src/puffo_agent/agent/inbox_store.py:520-585 | No transaction but an arrival or promotion at or below the pinned ceiling disturbs the snapshot below it |
| Pagination.PagesRepeatNothing | src/puffo_agent/agent/inbox_store.py:520-585 | Along every run whose arrivals sort above the ceiling, following cursors returns rows in the first snapshot's order, none twice, and ends within one page per row plus one |
| Pagination.OwedUntilReturned | src/puffo_agent/agent/inbox_store.py:520-585 | At every page a row of the first snapshot that stayed pending is returned already or still inside the cursor's range |
| Pagination.PagesLoseNothing | src/puffo_agent/agent/inbox_store.py:520-585 | Along every such run a row of the first snapshot that no transaction takes out of the pending rows before a page returned it has been returned when a page announces nothing more |
| RuntimeLaws.EveryInterleavingKeeps | src/puffo_agent/agent/global_inbox_runtime.py:829-927 | Under every interleaving of daemon, provider and background events the bound turn's in-memory ids are its durable members in order, and at most the bound turn is active |
| RuntimeLaws.ReactKeeps | src/puffo_agent/agent/global_inbox_runtime.py:829-927 | Each event keeps that invariant |
| RuntimeLaws.DaemonMirrorsDurableTurn | src/puffo_agent/agent/global_inbox_runtime.py:829-927 | A running daemon turn's ids and session equal the durable members and owner at every moment |
| RuntimeLaws.SettlingNeverConflicts | src/puffo_agent/agent/global_inbox_runtime.py:1257-1302 | A running daemon turn can always be completed and always be requeued without a lifecycle conflict, however cover reading went |
| RuntimeLaws.NoRowLeftInTurn | src/puffo_agent/agent/global_inbox_runtime.py:1383-1470 | Once a turn's exit ran, or nothing is bound, no row at all is in a turn |
| RuntimeLaws.DaemonStartsAlone | src/puffo_agent/agent/autonomous_turns.py:174-185 | A daemon turn starts only when no turn is adopted, bound or durably active |
| RuntimeLaws.AdoptionStartsAlone | src/puffo_agent/agent/autonomous_turns.py:139-172 | A provider run is adopted only when nothing is bound or durably active |
| RuntimeLaws.TurnsExclude | src/puffo_agent/agent/autonomous_turns.py:139-185 | At every moment of every interleaving, whatever opens a daemon or an adopted turn finds no turn bound, adopted or durably active |
| RuntimeLaws.AdoptedKeepsBinding | src/puffo_agent/agent/autonomous_turns.py:278-348 | An adopted turn never loses its binding, so the orphan settlement is unreachable after startup recovery |
| RuntimeLaws.AdoptedIsSettledOrNamed | src/puffo_agent/agent/autonomous_turns.py:239-276 | Each adopted durable run is, at every later moment, settled or still named |
| RuntimeLaws.AdoptedSettlesIffSessionHeld | src/puffo_agent/agent/autonomous_turns.py:350-399 | With or without redelivery and for every reading of covers, an adopted turn with rows completes exactly when its in-memory session is absent or the durable owner |
| RuntimeLaws.RolloverCutsAdoptedTurnOff | src/puffo_agent/agent/global_inbox_runtime.py:1166-1183 | A context rollover during planning overwrites the session of a turn adopted meanwhile, after which no reading of covers lets it settle as processed |
| RuntimeLaws.AdoptedTurnCutOff | src/puffo_agent/agent/global_inbox_runtime.py:1166-1183 | A concrete run from a fresh start ends in such a turn: a row arrives, the daemon plans, a run is adopted and reads the row, the daemon rolls over |
| RuntimeLaws.SessionHeldAlongRun | src/puffo_agent/agent/autonomous_turns.py:139-172 | Along every interleaving without a rollover while a turn is adopted, the running adopted turn is bound to its durable owner's session |
| RuntimeLaws.AdoptedTurnSettles | src/puffo_agent/agent/autonomous_turns.py:350-399 | Along every such interleaving a running adopted turn can be completed and requeued without conflict, however cover reading went |
| TerminalLaws.OwnReportSettlesIffNothingHeld | src/puffo_agent/agent/autonomous_turns.py:79-104 | While an adopted turn holds its owner's session, the provider's report on it closes it and frees the binding exactly when no other start is held |
| TerminalLaws.OwnReportReaches | src/puffo_agent/agent/autonomous_turns.py:79-104 | Along every interleaving without a rollover or an announcement while a turn is adopted, the report on that turn closes it and frees the binding |
| TerminalLaws.StrandedForever | src/puffo_agent/agent/autonomous_turns.py:81-85 | A turn bound to another session than its owner's stays adopted, active and unsettled through every run without a further rollover: its own reports are dropped and nothing retries |
| TerminalLaws.CutOffTurnIsStranded | src/puffo_agent/agent/global_inbox_runtime.py:1400-1402 | The run that rolls over while a turn is adopted ends in such a turn, whatever follows |
| TerminalLaws.HeldStartSwallowsReport | src/puffo_agent/agent/autonomous_turns.py:86-90 | A concrete run in which an announcement made while a turn is adopted swallows that turn's report |
| RuntimeLaws.TurnsOnlyGrow | src/puffo_agent/agent/autonomous_turns.py:239-276 | No event forgets a turn or reopens a closed one |
| RuntimeLaws.ForeignKeepsDaemon | src/puffo_agent/agent/global_inbox_runtime.py:1383-1470 | What others do never moves the daemon along, nor rebinds the turn it is running or finishing |
| RuntimeLaws.RecoveredStart | src/puffo_agent/agent/global_inbox_runtime.py:457-495 | With no active durable turn and nothing bound, the invariant holds to begin with |
| RuntimeLaws.SettlementReturns | src/puffo_agent/agent/global_inbox_covers.py:29-159 | A completion returns only rows whose single redelivery was unspent, and spends it |
| RuntimeLaws.RedeliveredAtMostOnce | src/puffo_agent/agent/global_inbox_covers.py:78-159 | Over every interleaving a row comes back by a successful completion at most once |
| GlobalInbox.GlobalInboxRuntime.RecoverOrphanedTurns | src/puffo_agent/agent/global_inbox_runtime.py:457-495 | Over any store left behind, recovery closes every active turn, counts them, leaves no row in a turn and establishes the runtime invariant |
| GlobalInbox.GlobalInboxRuntime.AdoptAutonomousTurn | src/puffo_agent/agent/autonomous_turns.py:139-172 | Adoption binds a new durable turn, or defers and changes nothing else |
| GlobalInbox.GlobalInboxRuntime.StartNoticeUnlessAutonomous | src/puffo_agent/agent/autonomous_turns.py:174-185 | The daemon's start yields to an adopted turn; on success memory holds the durable membership |
| GlobalInbox.GlobalInboxRuntime.BindProviderAdmission | src/puffo_agent/agent/global_inbox_runtime.py:879-927 | Binding moves durable ownership with the in-memory session and records the notice |
| GlobalInbox.GlobalInboxRuntime.AdmitInboxPage | src/puffo_agent/agent/global_inbox_admission.py:924-1002 | A page joins the turn it was read for and memory takes over the durable membership; a crossed turn or session changes nothing |
| GlobalInbox.GlobalInboxRuntime.AdmitVisibleRead | src/puffo_agent/agent/global_inbox_admission.py:673-743 | Of the rows made visible exactly the still pending, listed ones join the turn read for, and memory takes over the rows its owner sees; a crossed turn or session changes nothing |
| GlobalInbox.GlobalInboxRuntime.FinalizeActiveMessages | src/puffo_agent/agent/global_inbox_covers.py:78-159 | Reconciled, fallback or plain completion, exactly as the model's choice says |
| GlobalInbox.GlobalInboxRuntime.MarkActiveProcessed | src/puffo_agent/agent/global_inbox_covers.py:193-247 | A successful daemon turn always reaches its end state |
| GlobalInbox.GlobalInboxRuntime.RequeueActiveTurn | src/puffo_agent/agent/global_inbox_runtime.py:1257-1302 | A failed or cancelled daemon turn always reaches its end state |
| GlobalInbox.GlobalInboxRuntime.FinishProcess | src/puffo_agent/agent/global_inbox_runtime.py:1304-1334 | The exit unbinds the turn |
| GlobalInbox.GlobalInboxRuntime.ReplayDeferredStart | src/puffo_agent/agent/autonomous_turns.py:116-128 | A held announcement is adopted once nothing is bound |
| GlobalInbox.GlobalInboxRuntime.HandleTerminal | src/puffo_agent/agent/autonomous_turns.py:83-104 | A report that names another session or turn than the adopted one is dropped; otherwise it clears a held start it fits, or settles the adopted turn |
| GlobalInbox.GlobalInboxRuntime.RetrySettlement | src/puffo_agent/agent/global_inbox_runtime.py:1391-1399 | A later wake retries a failed settlement |
| GlobalInbox.GlobalInboxRuntime.Observe | src/puffo_agent/agent/autonomous_turns.py:46-104 | Any event of others leaves the runtime where the event model says, invariant kept |
| GlobalInbox.GlobalInboxRuntime.ProcessOnce | src/puffo_agent/agent/global_inbox_runtime.py:1383-1470 | Under arbitrary interference `process_once` returns to rest, and whenever it started a turn that turn is closed at the exit with no row in it; while a turn is adopted and no settlement is owed it does nothing at all |
| GlobalInbox.GlobalInboxRuntime.FinishAutonomousTurn | src/puffo_agent/agent/autonomous_turns.py:239-276 | Settlement releases the adopted turn, or keeps it named for a retry |
| DmApproval.MirrorAndGroupsHold | src/puffo_agent/agent/keyless_dm_approval_flow.py:127-137 | For every interleaving of in-place changes, saves, restores, replies, resumes and crashes at any point: outside a change memory equals disk, inside one the copy does, records of one operator and sender share prompt and decision, applied records are committed in the store |
| DmApproval.DoKeepsInv | src/puffo_agent/agent/keyless_dm_approval_flow.py:187-243 | Each step keeps that invariant |
| DmApproval.AckOnlyWhenCommitted | src/puffo_agent/agent/keyless_dm_approval_flow.py:430-536 | An envelope can be acknowledged only when its disk record is decided and applied and its store transition is committed |
| DmApproval.DecisionNeverFlips | src/puffo_agent/agent/keyless_dm_approval_flow.py:345-383 | A stored decision never changes, and its record leaves the disk only by being finished |
| DmApproval.DecisionStands | src/puffo_agent/agent/keyless_dm_approval_flow.py:345-383 | Over every run a stored decision stands, and applied stays applied, until the finished record is forgotten |
| DmApproval.NeverBothPromotedAndTombstoned | src/puffo_agent/agent/keyless_dm_approval_flow.py:472-536 | Over every run an envelope once released stays released and one once refused stays refused |
| DmApproval.ReapplyFailsOnceAdmitted | src/puffo_agent/agent/message_store.py:715-745 | A committed transition can be applied again exactly until the Inbox has admitted the row |
| DmApproval.ResumeFinishesUnlessStuck | src/puffo_agent/agent/keyless_dm_approval_flow.py:399-469 | A decided record whose transition is still appliable is acknowledged and gone after its resume steps, other receipts untouched |
| DmApproval.StuckUntilReceiptMoves | src/puffo_agent/agent/keyless_dm_approval_flow.py:430-469 | A decided record whose receipt refuses the transition stays on disk, unacknowledgeable, through every run that does not move that receipt |
| DmApproval.CrashThenAdmissionSticks | src/puffo_agent/agent/keyless_dm_approval_flow.py:430-469 | Such a record is reachable: crash between promotion and the saved phase, then admission of the row |
| DmApproval.KeylessApprovals.Take | src/puffo_agent/agent/keyless_dm_approval_flow.py:113-124 | The client changes only by enabled steps, each keeping the invariant |
| DmApproval.KeylessApprovals.PersistOrRestore | src/puffo_agent/agent/keyless_dm_approval_flow.py:127-137 | A change in place is on disk and in memory afterwards, or both are as before |
| DmApproval.KeylessApprovals.RecordGatedDm | src/puffo_agent/agent/keyless_dm_approval_flow.py:180-243 | A known envelope is left alone; a new one is enrolled under its own sender, operator and sequence, and only its group may change |
| DmApproval.KeylessApprovals.SendPrompt | src/puffo_agent/agent/keyless_dm_approval_flow.py:246-308 | Only the prompt identity of the group's records may change |
| DmApproval.KeylessApprovals.HandleOperatorReply | src/puffo_agent/agent/keyless_dm_approval_flow.py:332-383 | A consumed, uncontradicted reply is the durable decision of every surviving matched record; an unknown thread changes nothing |
| DmApproval.KeylessApprovals.FinalizeRecord | src/puffo_agent/agent/keyless_dm_approval_flow.py:430-469 | One record advances or stays resumable; a quiet call leaves it exactly when it is stuck |
| DmApproval.KeylessApprovals.ResumePendingApprovals | src/puffo_agent/agent/keyless_dm_approval_flow.py:399-427 | A quiet resume leaves exactly the undecided records and those whose receipt refuses the transition |
| Invitation.EveryRunKeeps | src/puffo_agent/agent/keyless_invitation_flow.py:470-478 | For all failures and crashes at any point: outside a change memory equals disk, inside one the copy does, records are well formed by phase, and all frames of one adoption carry the stored pair |
| Invitation.FramesAreStable | src/puffo_agent/agent/keyless_invitation_flow.py:362-426 | All decision frames between adoption and retirement carry one decision and one reference, the ones on disk |
| Invitation.PairOnDiskBeforeFrame | src/puffo_agent/agent/keyless_invitation_flow.py:362-426 | The pair is on disk before the first frame leaves |
| Invitation.ProgressIsMonotone | src/puffo_agent/agent/keyless_invitation_flow.py:231-266 | Between adoption and retirement phases only advance and a stored decision and reference never change |
| Invitation.TerminalForever | src/puffo_agent/agent/keyless_invitation_flow.py:312-348 | Over every run a terminal record and its frames stay as they are |
| Invitation.KeylessInvitationFlow.AdoptNewInvite | src/puffo_agent/agent/keyless_invitation_flow.py:231-266 | Adoption adds at most the new event and touches no other; only an auto-accepted invite is decided, as accept |
| Invitation.KeylessInvitationFlow.SendPrompt | src/puffo_agent/agent/keyless_invitation_flow.py:273-310 | Only an unsent record can change, and no frame is sent |
| Invitation.KeylessInvitationFlow.PersistOrRestore | src/puffo_agent/agent/keyless_invitation_flow.py:470-478 | A change in place is on disk and in memory afterwards, or memory is as before |
| Invitation.KeylessInvitationFlow.SendDecision | src/puffo_agent/agent/keyless_invitation_flow.py:362-426 | A decided record sends its stored pair once and turns terminal at most; an open or terminal one sends nothing |
| Invitation.KeylessInvitationFlow.DecideAndSend | src/puffo_agent/agent/keyless_invitation_flow.py:362-426 | A decision taken on an open record is saved with a fresh reference before anything is sent; a failed save sends nothing |
| Invitation.KeylessInvitationFlow.SaveDecision | src/puffo_agent/agent/keyless_invitation_flow.py:371-383 | Decision and fresh reference are stored together, or nothing changes |
| Invitation.KeylessInvitationFlow.DeliverFrame | src/puffo_agent/agent/keyless_invitation_flow.py:384-426 | Exactly one frame with the stored pair; the record turns terminal at most |
| Invitation.KeylessInvitationFlow.HandleOperatorReply | src/puffo_agent/agent/keyless_invitation_flow.py:312-348 | A consumed reply is a durable decision under that prompt: the reply's own yes or no when the record was open, the earlier one otherwise; an unconsumed one changes nothing |
| Invitation.KeylessInvitationFlow.Reconcile | src/puffo_agent/agent/keyless_invitation_flow.py:153-188 | Listed and terminal records are kept as they are; others are kept or retired, never altered |
| Invitation.KeylessInvitationFlow.Resume | src/puffo_agent/agent/keyless_invitation_flow.py:428-440 | Every decided record sends its stored pair exactly once more, and no other sends a frame |
| CountingRace.NumbersAreContiguous | scripts/message_runtime_lab.py:550-600 | For every set of agents and every interleaving of attempts the channel holds exactly 1, 2, 3, ... in order |
| CountingRace.DoKeepsInv | scripts/message_runtime_lab.py:654-707 | Each step keeps it, and no agent ever claims a future boundary |
| CountingRace.NextIsBoundary | scripts/message_runtime_lab.py:654-672 | However many messages an agent missed, the number it would send is its own boundary |
| CountingRace.AtomicChannel.SendMessage | scripts/message_runtime_lab.py:550-600 | The locked head comparison in both modes: future, held or committed, with exact counters; a current send whose number is the boundary keeps the numbering |
| CountingRace.AttemptOnce | scripts/message_runtime_lab.py:654-707 | In a round entered up to date an agent commits exactly when nobody has yet, and otherwise leaves it up to date |
| CountingRace.PlayRound | scripts/message_runtime_lab.py:795-822 | Whatever the order, one round commits exactly one attempt and holds all the others |
| CountingRace.RunCountingRounds | scripts/message_runtime_lab.py:795-848 | N agents commit exactly 1..N, every agent being a sender, in N(N+1)/2 attempts of which N(N-1)/2 are held |
| Planner.MakePlan | src/puffo_agent/agent/inbox_scheduler.py:87-166 | The batch is the longest deduplicated prefix within 50 messages, 32000 tokens and 96000 bytes, with its totals, targets and unfit head; an error exactly when an examined estimate is below zero |
| Planner.CutIsLongest | src/puffo_agent/agent/inbox_scheduler.py:109-137 | A prefix of the deduplicated input fits exactly when it is no longer than the batch |
| Planner.BatchIsDetermined | src/puffo_agent/agent/inbox_scheduler.py:87-166 | Those conditions leave exactly one batch |
| Planner.UnfitHeadExactly | src/puffo_agent/agent/inbox_scheduler.py:121-134 | An unfit head is reported exactly when the oldest message alone breaks a cap; otherwise the batch starts with it |
| Planner.FreshLaws | src/puffo_agent/agent/inbox_scheduler.py:94-100 | Deduplication keeps every id once, invents none and drops the excluded ones |
| Planner.FreshKeepsOldest | src/puffo_agent/agent/inbox_scheduler.py:94-100 | Of each id deduplication keeps the oldest row |
| Planner.RemainingTargets | src/puffo_agent/agent/global_inbox_runtime.py:748-767 | The summary lists the targets of exactly the rows left out, in first-seen order, and says whether any is left |
| Planner.TryBatch | src/puffo_agent/agent/global_inbox_runtime.py:724-784 | One pass accepts a FIFO prefix that fits with its wrapper, or shortens, or reports the unfit head, losing no acceptable prefix of distinct rows |
| Planner.PlanBoundedBatch | src/puffo_agent/agent/global_inbox_runtime.py:712-785 | Terminates absent arrivals with a FIFO prefix that fits including the wrapper, the longest such when ids are distinct; quarantines only rows that cannot fit alone |
| ContextControl.ContextController.Compact | src/puffo_agent/agent/context_controller.py:345-366 | The loop asks until one compaction completes or two failed, and accounts for each |
| ContextControl.ContextController.Decide | src/puffo_agent/agent/context_controller.py:328-403 | However many decisions came before, at most two compactions and one rollover were ever asked for per key; admit exactly at or below half the window; shrink strictly smaller and fitting; rollover only when even the minimum exceeds the target; degraded only when every control is used up |
| ContextControl.DecideOnce | src/puffo_agent/agent/global_inbox_runtime.py:1122-1189 | One pass: an admitted turn fits half the window, and going on uses up the compaction or the rollover, quarantines a row or gives a message back; a second rollover under one key cannot occur |
| ContextControl.ShrinkTurn | src/puffo_agent/agent/global_inbox_runtime.py:1154-1165 | Giving back one message leads to a strictly shorter prefix under the same key, without quarantining anything for a planner-made turn |
| ContextControl.ResolveContextPlan | src/puffo_agent/agent/global_inbox_runtime.py:1122-1189 | Ends with or without a budget by a lexicographic measure; an admitted turn fits half the window and is a prefix of the planned one; the control bounds hold throughout; the budget of 12 cannot run out on a planned turn of fewer than ten messages, a notice turn among them |
| Wakes.RequestsAreServed | src/puffo_agent/agent/inbox_scheduler.py:221-248 | Until a burst is released, the head deadline is no later than any request made so far asked for |
| Wakes.InboxCoalescer.Notify | src/puffo_agent/agent/inbox_scheduler.py:221-248 | The queue stays sorted, the wake is set, the head is no later than requested and never postponed |
| Wakes.InboxCoalescer.SleepOrPull | src/puffo_agent/agent/inbox_scheduler.py:250-264 | A sleep ends after its time or by a pull, and a pull means an earlier head |
| Wakes.InboxCoalescer.WaitForBurst | src/puffo_agent/agent/inbox_scheduler.py:266-281 | Ends; no burst before the deadline it consumes, none later than the one first waited for; the wake stays set exactly while deadlines remain |
| Wakes.RearmDelayIsBackoff | src/puffo_agent/agent/global_inbox_degraded.py:112-129 | Capping the exponent at six changes no delay: it is the doubling backoff capped at 300 s for every count |
| Wakes.BackoffLaws | src/puffo_agent/agent/global_inbox_degraded.py:55-58 | Backoffs never fall and stay between base and cap |
| Wakes.RecoveryGates.Degrade | src/puffo_agent/agent/global_inbox_degraded.py:50-61 | Sets the expiry and a wake no later than it, up to the clock's movement between its two readings |
| Wakes.RecoveryGates.ParkDrained | src/puffo_agent/agent/global_inbox_degraded.py:63-96 | A timed park leaves a wake no later than its hold; an untimed one asks for none |
| Wakes.RecoveryGates.NextBudgetParkHold | src/puffo_agent/agent/global_inbox_degraded.py:98-104 | The n-th consecutive hold is the doubling backoff between 300 s and 1800 s |
| Wakes.RecoveryGates.DrainedParkAllowsProcessing | src/puffo_agent/agent/global_inbox_degraded.py:148-163 | Opens exactly at expiry, or when the usage check clears; a timed refusal leaves a wake |
| Wakes.RecoveryGates.TryDegradedRecovery | src/puffo_agent/agent/global_inbox_degraded.py:165-180 | Opens exactly at expiry; a refusal leaves a wake no later than it |
| Wakes.RecoveryGates.NextNoProgressRearmDelay | src/puffo_agent/agent/global_inbox_degraded.py:112-129 | The delay is zero for the first no-progress turn and the capped doubling backoff after it |
| Wakes.RecoveryGates.NotifyWork | src/puffo_agent/agent/global_inbox_runtime.py:259-263 | New work opens the degraded gate and leaves a wake no later than now, or than the busy delay |
| Wakes.RecoveryGates.NoteTurnOutcome | src/puffo_agent/agent/global_inbox_runtime.py:1435-1439 | Success clears the budget and no-progress series, a turn without progress lengthens the latter |
| Wakes.RecoveryGates.WakeRemainingPending | src/puffo_agent/agent/global_inbox_degraded.py:131-146 | Unless degraded, rows the session was not told about get a wake no later than the re-arm delay |
| Wakes.RecoveryGates.MayProcess | src/puffo_agent/agent/global_inbox_runtime.py:1387-1390 | `process_once` passes exactly when both gates are due; any timed refusal leaves a wake no later than the expiry of the gate that refused |

## Left out

- SQLite itself, schema migrations, retention clean-up, sequence backfill and the legacy `store` path: a transaction is one atomic step, ingestion one step that adds a well-formed row.
- InboxStore.Store.StoreReceipt: does not model repeated or changed receipts for a known id beyond "nothing changes", because deduplication lives in the receipt layer.
- InboxStore.Store.TombstoneGatedDm: message bodies are not stored, so whether a row already holds the refusal text is a parameter.
- InboxStore.Store.PromoteGatedReceipt: the replaced message body and the reason text are not stored.
- InboxStore.Store.ReadInboxPage: takes the decoded cursor and the stripped target; base64 and JSON decoding of cursors are not part of this model.
- InboxStore.Store.AddMessageCovers: keeps which rows are covered, not the disposition text stored with each.
- Admission of held-send recovery: it takes no turn-state lock and is not among the events.
- Operator quarantine retry, crash-file recovery of the current turn, provider retries, status reporting and the event outbox: the invariant starts after startup recovery.
- Busy notices: their delivery is the notice transaction, their context decision is one `Decide` call.
- GlobalInbox.GlobalInboxRuntime.HandleTerminal: whether the provider's turn id fits the binding, and whether the report fits the held start, are parameters.
- GlobalInbox.GlobalInboxRuntime.AdmitInboxPage: provider turn ids are not kept, so whether they still fit is a parameter; routes, visible ids and proven boundaries of the union are left out, for visible reads as well.
- RuntimeLaws.EveryInterleavingKeeps: events are the locked sections and the unlocked writes between them; suspension inside a locked section is not modelled.
- DmApproval.KeylessApprovals.ResumePendingApprovals: the exact result is stated for a resume during which nobody else moves the receipts; every other interleaving is covered by the step laws.
- DmApproval.KeylessApprovals.HandleOperatorReply: takes the decision a reply was read as; text normalisation, authorship checks, legacy native entries and the filtering of malformed files on load are left out.
- Invitation.KeylessInvitationFlow.SendDecision: models the calls that name no decision; the one that names `accept` comes right after adoption and is `DecideAndSend`.
- Invitation.KeylessInvitationFlow.Reconcile: takes the validated invite list; field validation of server payloads is left out.
- CountingRace.AttemptOnce: the agents' stores and adapters are reduced to the rows they admitted.
- Planner.MakePlan: formatter and estimator are functions of the item, so an estimate that changes between calls, a non-string format or a non-integer estimate is not modelled; reason texts are an enumeration.
- Planner.PlanBoundedBatch: arrivals during planning are left out, and the longest-prefix clause needs distinct ids, as the store's rows have; with repeated ids the slice may give back more than one distinct message.
- ContextControl.ContextController.Decide: half of the window is exact integer division; floating-point rounding of windows above 2^53 is not modelled.
- ContextControl.ResolveContextPlan: planning keys are carried over as given, since an empty key never occurs.
- Wakes.RecoveryGates.Degrade: exact arithmetic on integer milliseconds; the Python float product overflows for exponents from 1024 on, so no claim of totality is made there.
- Wakes.RecoveryGates.MayProcess: both gates share one pair of clock readings.
- Transports, encryption, prompt texts, attachments, contact caches and the command line: no state of the kind proved about here.
