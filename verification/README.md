# Verified models of cdp-cli

These Dafny modules model the parts of cdp-cli that are hardest to get right and prove what the
program relies on them for. `dafny verify dfyconfig.toml` checks everything.

**Browserflow** (`Records`, `Histories`, `Journal`, `Protocol`, `DispatchSafety`, `TargetSafety`,
`Frames`, `RunTheorems`, `OutcomeSafety`, `Progress`, `ConcreteRuns`, `Worlds`, `Cleanup`, `Engine`,
`Acquisition`, `Input`, `Guarantees`). One irreversible browser action is protected by a write-ahead
journal. `Protocol` is a state machine over the durable record, the owner's memory, any number of
`Recover` calls with stale copies, the open pages and the inputs sent; a step is a section of the
engine between two points where somebody else can act, and a sequence of steps is an interleaving
with crashes and with saves that fail before or after they take effect. `DispatchSafety` and
`TargetSafety` are the two inductive invariants, `RunTheorems` what they mean for whole runs;
`OutcomeSafety` adds what the journal says about each dispatch, `Progress` when a lease method
succeeds; `ConcreteRuns` walks two runs step by step that show where an answer is wrong. `Worlds`,
`Cleanup`, `Engine` and `Acquisition` are the same code as classes and methods that update their
fields, each proved to move the machine by exactly its own steps while other processes act in
between; `Guarantees` carries the run theorems over to them.

**The CDP client** (`EventQueue`, `Calls`). Two machines over the sections of the client that no other
goroutine can split, and the client's buffer and tables as objects that carry the history of their steps.

**The managed browser** (`ProcessTree`, `Registry`, `Compaction`, `Reconcile`). A walk over a process
table with cycles, the registry's rows and generations, the compaction of its history, and the
reconciliation that leaves one browser running.

**Smaller parts** (`Readiness`, `Availability`, `ByteSize`). Time budgets, the wake-gap gate, and the
byte-size printer and parser.

Times are integers, in nanoseconds where a unit matters. A write to the journal or to a state file is
one locked step with a `Fault`: it lands, fails before taking effect, or fails after. The outside world
(pages, replies, clocks, other processes, which writes fail) is given to a method as a script, so a
method's contract holds for every behaviour of it.

Where the code and its documentation could be read differently, the code decides: a slot confirmed by a
postcondition, or never dispatched, cannot be followed by another action, because the validator refuses
any change of a recorded postcondition (internal/browserflow/record.go:218) and any archived action
without a dispatch (internal/browserflow/record.go:277). `RunTheorems.NextActionExactly` gives the exact
condition.

## Model

| member | source | states |
|---|---|---|
| `RunTheorems.InputAtMostOnce` | internal/browserflow/engine.go:583-642 | in every interleaving of the lease, recoveries, crashes and failing saves, each action slot gets at most one raw input and no more dispatcher calls than configured |
| `RunTheorems.InputNeverForgotten` | internal/browserflow/engine.go:602-636 | once input was sent in a slot, the journal is still pending there, or records one raw input, or has archived one; it never settles as "nothing sent" |
| `RunTheorems.JournalKeepsItsPast` | internal/browserflow/record.go:191-271 | from any point of any run to any later one: identities, target, session, conversation, fingerprint and postcondition are write-once, archived actions are only appended to, a performed dispatch stays performed |
| `RunTheorems.FenceStopsDispatch` | internal/browserflow/record.go:332-370 | once cleanup_pending, closed or failed is durable, no dispatcher call starts any more, the run stays fenced, and an unknown dispatch cannot be weakened by a late save |
| `RunTheorems.PhaseChangesAreBounded` | internal/browserflow/record.go:332-370 | with the configured two attempts and sixteen actions a run changes its durable phase a bounded number of times, in spite of the retry and next-action cycles |
| `RunTheorems.StepPays` | internal/browserflow/engine.go:583-781 | every step that changes the durable phase strictly lowers the measure (actions left, attempts left, phase rank), and no step raises it |
| `RunTheorems.PageAlwaysFindable` | internal/browserflow/engine.go:222-344 | in every reachable state, crashes included, an open page of the run is named by the journal or still at its marker address; close commands name no other page; a journal that says closed is right |
| `RunTheorems.PageLostExactly` | internal/browserflow/engine.go:346-396 | while the run's page is open, a Recover that starts now leaves it exactly when the journal says failed with target_create_failed and names no target, and that takes a page that appeared after a marker search gave up; in every other reachable state it goes after exactly that page |
| `RunTheorems.PageNeverForgotten` | internal/browserflow/engine.go:346-410 | so, if the page did not appear after a marker search gave up, a Recover that starts while it is open goes after exactly that page, or its search is a failure and not "nothing there" |
| `RunTheorems.NotRequiredExactly` | internal/browserflow/engine.go:358-396 | when a Recover answers that nothing needs cleaning, with an error or without, and no page came late, the answer is wrong exactly when it comes with an error and the journal it leaves names an open page, which is then the run's own |
| `RunTheorems.AllClearIsTrue` | internal/browserflow/engine.go:358-396 | so an answer without error is right: no page of the run is open |
| `RunTheorems.ClosedAnswerIsTrue` | internal/browserflow/engine.go:477-503 | a Recover that reports the target closed is right |
| `ConcreteRuns.LatePageIsForgotten` | internal/browserflow/engine.go:231-266 | the run itself: the create call times out, the reconcile window passes, the page appears, and Recover finds nothing to clean up |
| `ConcreteRuns.StaleVerdictIsWrong` | internal/browserflow/engine.go:375-396 | the run itself, with no crash, no failing storage and no late page: a Recover that loaded the record before the create call searches after the page has left its marker, cannot save its verdict, and answers not_required while the journal names the open page |
| `RunTheorems.NextActionAccepted` | internal/browserflow/record.go:273-330 | the validator lets a completed action be archived exactly when the condition a caller can check holds |
| `RunTheorems.NextActionExactly` | internal/browserflow/engine.go:706-752 | BeginNextAction succeeds, with journal and memory in agreement and a save that lands, if and only if the slot has no postcondition, was dispatched, its names pass, there is room and the clock has not gone back |
| `RunTheorems.PostconditionPinsSlot` | internal/browserflow/record.go:218-220 | a recorded postcondition keeps every later journal of the run in its action slot |
| `RunTheorems.StepReplaces` | internal/browserflow/journal.go:66-84 | each step leaves the journal alone or makes one replacement the validator accepts |
| `RunTheorems.FenceRefusesCall` | internal/browserflow/engine.go:602-611 | no dispatcher call starts against a fenced journal, whatever the lease remembers |
| `OutcomeSafety.JournalFitsPhase` | internal/browserflow/engine.go:586-781 | in every reachable state the recorded dispatch fits the phase: no terminal action, archived or not, is unknown; performed and acknowledged ones are performed without an open error or retry time; unknown ones have a retry time; nothing is recorded before the intent |
| `OutcomeSafety.RecoverNeverClaims` | internal/browserflow/engine.go:346-410 | no step of a Recover, in any run, makes the journal say that an action was performed when it did not, or take that back, or forget that one is unknown, or touch the archived actions |
| `OutcomeSafety.StepKeepsTold` | internal/browserflow/engine.go:168-781 | every step keeps the invariant behind it: journal, lease memory and every stale recovery copy fit their phases |
| `Progress.CallSucceedsExactly` | internal/browserflow/engine.go:533-781 | with lease and journal in agreement and a save that lands, each method of a lease changes the journal if and only if its phase and text guards hold and it does not give a second value to a field that is written once (for the next action: the condition of NextActionExactly) |
| `Progress.DispatchSucceeds` | internal/browserflow/record.go:191-271 | the validator always takes the intent of a ready lease, and every outcome its dispatcher may report |
| `Histories.TransitionIsLater` | internal/browserflow/record.go:191-271 | an accepted replacement keeps everything that must survive |
| `Histories.HistoryIsChain` | internal/browserflow/record.go:191-271 | every history of accepted replacements is a chain: any later record keeps what any earlier one fixed |
| `Histories.HistoryNeverGoesBack` | internal/browserflow/record.go:222-271 | (completed count, attempts, raw count) never decreases, and a slot that went from unknown to performed carries a conversation id or postcondition from then on |
| `Histories.MeasureDecreases` | internal/browserflow/record.go:332-370 | an accepted change of phase lowers the measure, provided prepared to action_pending costs an attempt |
| `DispatchSafety.StepKeepsSafe` | internal/browserflow/engine.go:583-642 | every step keeps the dispatch invariant, which relates lease memory, stale recovery copies, journal and input counts when saves may fail before or after taking effect |
| `DispatchSafety.RunKeepsSafe` | internal/browserflow/engine.go:583-642 | so every run keeps it |
| `DispatchSafety.BeginDispatchKeepsSafe` | internal/browserflow/engine.go:602-611 | persisting action_pending before the input keeps the dispatch invariant |
| `DispatchSafety.SettleDispatchKeepsSafe` | internal/browserflow/engine.go:613-636 | recording the dispatcher's report keeps it even when the save fails and memory runs ahead of the journal |
| `DispatchSafety.SaveEvidenceKeepsSafe` | internal/browserflow/engine.go:398-407 | a recovery that turns a pending action into an unknown one keeps it |
| `TargetSafety.StepKeepsPlaced` | internal/browserflow/engine.go:168-344 | every step keeps the target invariant: where the run's page may be and who knows its id |
| `TargetSafety.RunKeepsPlaced` | internal/browserflow/engine.go:168-410 | so every run keeps it |
| `TargetSafety.CleanKeepsPlaced` | internal/browserflow/engine.go:477-503 | each move of a cleanup keeps the target invariant, and sees the page gone only when it is |
| `Journal.SaveExtends` | internal/browserflow/journal.go:66-84 | a save leaves the cell as it was or replaces its record by one that keeps its past, whenever it fails |
| `Journal.FileJournal.Create` | internal/browserflow/journal.go:48-64 | creates only where nothing is, only a valid record; an existing record is untouched |
| `Journal.FileJournal.Save` | internal/browserflow/journal.go:66-84 | locked read, check and write; the report can be a failure after the write took effect |
| `Journal.FileJournal.Load` | internal/browserflow/journal.go:86-107 | returns the stored record only if it is readable and valid |
| `Worlds.World.Foreigner` | internal/browserflow/engine.go:346-410 | another process's step on the same journal and browser cannot reach this process's own state |
| `Worlds.World.Others` | internal/browserflow/engine.go:346-410 | neither can any number of them |
| `Frames.ForeignLeavesLocal` | internal/browserflow/engine.go:168-410 | the frame behind it: each process's own state is moved by its own steps alone |
| `Cleanup.WaitTargetGone` | internal/browserflow/engine.go:975-1004 | gone only if a listing did not show the page; exactly the outcome of watching the listings |
| `Cleanup.CloseExactTarget` | internal/browserflow/engine.go:852-960 | at most two close commands, naming this page only; gone only if the page is not open; nothing else of the process changes |
| `Cleanup.CloseOnce` | internal/browserflow/engine.go:875-943 | one close command for this id; a refusal counts as gone only when the page is not there |
| `Cleanup.SettleExactCleanup` | internal/browserflow/engine.go:477-503 | persist pending, close, persist the result; the final record keeps the dispatch, the raw inputs and everything else but phase, cleanup state and error class, an unknown dispatch keeping its error; a fully saved one is what the journal holds, and it is when nothing stands in the way |
| `Cleanup.FindMarkerTarget` | internal/browserflow/engine.go:417-456 | the page of the first listing that shows exactly one at the marker, a failure when a listing fails or shows several, and nothing exactly when every listing of the window shows none |
| `Cleanup.Recover` | internal/browserflow/engine.go:346-410 | the answer and the error state are those of the machine's recoverer; without an error the journal holds exactly the settled record, a pending action being unknown with one raw input and its error; it answers closed without error when a named page's cleanup meets no obstacle; an answer that nothing needs cleaning is wrong exactly when it comes with an error and the journal names an open page |
| `Cleanup.RecoverPage` | internal/browserflow/engine.go:398-410 | an ambiguous action is persisted as unknown before the cleanup, any other dispatch stays; a clean answer means that the journal says this target is closed and nothing else new, and comes whenever nothing stands in the way |
| `Cleanup.KeepEvidence` | internal/browserflow/engine.go:398-407 | the record of a pending action becomes unknown: one raw input, a retry time, and the error class of a restart |
| `Engine.Lease.BindInputFingerprint` | internal/browserflow/engine.go:533-562 | moves the machine by exactly its step; succeeds exactly while open and attached, with a fingerprint the validator passes, when the journal takes the record, which changes in the fingerprint alone |
| `Engine.Lease.MarkPrepared` | internal/browserflow/engine.go:564-581 | moves the machine by exactly its step, from attached to prepared, exactly when the journal takes it |
| `Engine.Lease.Dispatch` | internal/browserflow/engine.go:583-642 | calls the dispatcher exactly when the lease is ready and the journal takes the intent; then the dispatcher, other processes, and the outcome: performed, not performed or unknown, each with its phase, error class, raw count and retry time; a report that contradicts itself counts as unknown; memory keeps the observed record whether or not it was saved |
| `Engine.Lease.DispatchInput` | internal/browserflow/engine.go:583-642 | the same with the raw-input helpers: what reaches the page between intent and outcome is what the machine counts, one press at most and none for not_performed |
| `Engine.Lease.PressAndSettle` | internal/browserflow/engine.go:613-642 | the outcome kept in memory, field by field, is that of the presses really sent after the durable intent |
| `Engine.Lease.PersistIntent` | internal/browserflow/engine.go:586-611 | a dispatcher call is granted exactly when the lease is open, prepared, without raw input and with attempts left, and the journal takes action_pending with one attempt more |
| `Engine.Lease.Acknowledge` | internal/browserflow/engine.go:644-670 | moves the machine by exactly its step; the whole new record, an unknown dispatch becoming performed, exactly when the journal takes it |
| `Engine.Lease.ConfirmPostcondition` | internal/browserflow/engine.go:675-702 | moves the machine by exactly its step; the proof is recorded and the dispatch performed, exactly when the journal takes it |
| `Engine.Lease.BeginNextAction` | internal/browserflow/engine.go:706-752 | moves the machine by exactly its step; the finished action is archived field by field and a fresh one is in its place, exactly when the journal takes it |
| `Engine.Lease.MarkTerminal` | internal/browserflow/engine.go:754-781 | moves the machine by exactly its step, from prepared, performed or acknowledged, exactly when the journal takes it |
| `Engine.Lease.MarkIncomplete` | internal/browserflow/engine.go:758-781 | moves the machine by exactly its step, from those phases or unknown, exactly when the journal takes it |
| `Engine.Lease.Close` | internal/browserflow/engine.go:783-816 | closed exactly when the page was seen gone, with a record that says so and keeps what was dispatched; the input lock given back in any case, a second close changes nothing |
| `Engine.Lease.ReleaseInput` | internal/browserflow/engine.go:524-528 | gives the input lock back; idempotent |
| `Acquisition.Acquire` | internal/browserflow/engine.go:168-344 | either a valid lease on an attached page, with a record of exactly the request, the page and the session, or no owner and no lock; a lease only after favourable replies, and always when the request passes, no journal exists, nobody interferes, the saves land and the replies are favourable; an existing journal is untouched |
| `Acquisition.CheckBudget` | internal/browserflow/engine.go:193-203 | goes on exactly when the budget allows it and the journal takes budget_checked; otherwise offers the journal the failure of the check, or that it was over |
| `Acquisition.RecordIntent` | internal/browserflow/engine.go:205-221 | goes on exactly when the lock was given and the journal takes the intent; otherwise offers it that the lock was not to be had |
| `Acquisition.Intend` | internal/browserflow/engine.go:168-221 | from the request to the durable intent; always when nothing stands in the way |
| `Acquisition.PlannedIsPlain` | internal/browserflow/engine.go:172-184 | the first record is the request, with nothing created, dispatched or bound |
| `Acquisition.CreateTarget` | internal/browserflow/engine.go:222-267 | goes on exactly when the answer arrives, and then with the id of the run's own page; otherwise no owner is left, a page found at the marker has been asked to close, and a save that was reported is what the journal holds |
| `Acquisition.Reconcile` | internal/browserflow/engine.go:227-266 | a page found at the marker is asked to close and the journal is offered how that ended; otherwise target_create_failed or target_reconciliation_failed is offered, and the journal holds what that save left |
| `Acquisition.OwnTarget` | internal/browserflow/engine.go:268-299 | on success ownership is durable before attaching, and it succeeds when the first save is taken; on failure the page has been asked to close, whether it could not be kept or the journal could not be told twice |
| `Acquisition.AttachTarget` | internal/browserflow/engine.go:301-337 | succeeds exactly when a session is given and the journal takes the attached record, before anything navigates; on failure the page has been asked to close |
| `Acquisition.OpenInitialPage` | internal/browserflow/engine.go:328-344 | the attached page, if still open, is at the address the navigation landed on when it succeeds; when it fails it has been asked to close, and the record says how that ended |
| `Guarantees.NewWorld` | internal/browserflow/journal.go:48-64 | a fresh journal and browser in which every method keeps the run sound |
| `Guarantees.WorldIsSound` | internal/browserflow/engine.go:168-410 | in the state any method leaves behind: one input per slot at most and never forgotten by the file, no foreign page closed, a closed journal is right |
| `Guarantees.ClosedMeansClosed` | internal/browserflow/engine.go:346-410 | a Recover that answered closed has left the page closed |
| `Guarantees.RecoverSoundly` | internal/browserflow/engine.go:346-410 | in a sound run Recover's closed is always true, and its not_required is false exactly when it comes with an error and the journal names an open page |
| `Input.PressEnter` | internal/browserflow/input.go:33-49 | unknown exactly when the key down was not confirmed; key up is sent only after it |
| `Input.PressEnterOnSelector` | internal/browserflow/input.go:90-157 | nothing is sent unless the one control was focused; exact commands and outcome in every case |
| `Input.ClickPoint` | internal/browserflow/input.go:163-221 | commands stop at the first that is not confirmed; not_performed exactly when that is before the press |
| `Input.Perform` | internal/browserflow/input.go:33-221 | every helper keeps a dispatcher's promise: one press at most, and none when it reports not_performed |
| `EventQueue.NothingLostOrDoubled` | internal/cdp/client.go:363-457 | over every interleaving of arrivals, readers and drains: each event is in exactly one of buffer, deliveries and drops, and the counts add up |
| `EventQueue.SessionsAreFifo` | internal/cdp/client.go:363-440 | within a session deliveries follow the arrivals, and what is buffered comes after them |
| `EventQueue.DropsExactlyOnOverflow` | internal/cdp/client.go:442-457 | at any point of any run a step loses an event exactly when a named event arrives while five hundred are buffered, and then the oldest buffered one |
| `EventQueue.DroppedWasOldest` | internal/cdp/client.go:450-453 | every event ever lost was, when it went, the oldest of five hundred still undelivered |
| `EventQueue.LossIsOverflow` | internal/cdp/client.go:450-453 | events are lost oldest first: every lost one is older than every buffered one, and five hundred later ones have arrived |
| `EventQueue.SleepersAreWoken` | internal/cdp/client.go:401-457 | no lost wakeup: a sleeping reader for whom something is buffered holds a closed channel, and gets a matching event when it wakes |
| `EventQueue.ApplyKeeps` | internal/cdp/client.go:363-457 | every locked section keeps the queue's invariant |
| `EventQueue.EventBuffer.BufferEvent` | internal/cdp/client.go:442-457 | an unnamed event changes nothing; another is appended, and the oldest goes exactly when five hundred were there; the channel is replaced |
| `EventQueue.EventBuffer.PopEventOrWait` | internal/cdp/client.go:415-440 | the first event of the session asked for, or of any, and the rest in order without it; or nothing changes and the channel to sleep on is returned, when there is none |
| `EventQueue.EventBuffer.Remove` | internal/cdp/client.go:435-439 | shifting in place removes exactly one place |
| `EventQueue.EventBuffer.DrainEvents` | internal/cdp/client.go:363-372 | everything buffered, in order, and nothing stays |
| `EventQueue.EventBuffer.DrainSessionEvents` | internal/cdp/client.go:374-391 | every event returned is of the session, every one that stays is not, and each buffered one is in its part; in the order of the history's deliveries |
| `Calls.OwnReplyOnly` | internal/cdp/client.go:188-253 | callers, ids and reply channels being separate names, the message a caller returns carries the id that caller drew and answers no other caller's request, or it is the transport's error |
| `Calls.NamesAreNew` | internal/cdp/client.go:188-200 | two callers never share a command id, nor a reply channel |
| `Calls.DrawnIdIsNew` | internal/cdp/client.go:189 | the id a caller draws is larger than that of any other caller, past or present |
| `Calls.AtMostOneReply` | internal/cdp/client.go:296-321 | at most one message is ever put into a reply channel, late replies included |
| `Calls.LoopNeverBlocks` | internal/cdp/client.go:313-319 | the read loop always finds room in the channel it sends to, for a response and for the final error, and no channel is in the table twice |
| `Calls.NobodyWaitsForever` | internal/cdp/client.go:349-361 | after the failure of the transport the table stays empty for ever and every waiting caller has a message in its channel |
| `Calls.OneWriter` | internal/cdp/client.go:255-275 | the write token has exactly one holder or is free |
| `Calls.ApplyKeeps` | internal/cdp/client.go:188-361 | every step keeps the correlation invariant |
| `Calls.Client.CallSession` | internal/cdp/client.go:188-253 | one command from id to result, with other goroutines in between every two steps; refused exactly when the transport is down at registration; otherwise it returns exactly what its own channel holds at the end of its wait, and nothing only if its context ended, the token was not free, the transport went down, the write failed or the channel is empty |
| `Calls.ReplyArrives` | internal/cdp/client.go:313-319 | a response read while its id is in the table ends up in the channel of the caller that drew the id |
| `Calls.Client.AcquireWrite` | internal/cdp/client.go:255-271 | goes on exactly when the token is free, the context lives and the transport is up once it has the token; the token is given back otherwise |
| `Calls.Client.AwaitReply` | internal/cdp/client.go:229-238 | returns the message in the channel the caller made, which is its own, or leaves with nothing when there is none or it will not wait |
| `Calls.Client.AddPending` | internal/cdp/client.go:277-288 | registers only while the transport is up |
| `Calls.Client.FailPending` | internal/cdp/client.go:349-361 | puts the error into the channel of everyone in the table, touches no other channel and empties the table, without ever finding a full channel |
| `Calls.Client.TakeChannel` | internal/cdp/client.go:313-316 | takes the caller's channel out of the table at most once |
| `Calls.Client.Send` | internal/cdp/client.go:317-319 | the channel has room |
| `ProcessTree.ProcessTreeEvidence` | internal/browser/managed.go:2098-2162 | exactly the positive pids reachable from a matching process or from a tracked one in the table, each once, for any table, parent cycles and repeated pids included |
| `ProcessTree.Walk.Visit` | internal/browser/managed.go:2126-2148 | everything below a process is seen after its visit; terminates on cycles |
| `ProcessTree.GroupByParent` | internal/browser/managed.go:2115-2118 | children in table order |
| `ProcessTree.ClosedHoldsWay` | internal/browser/managed.go:2126-2156 | a set closed under children contains every process reachable from it |
| `Registry.UpsertKeepsUniqueExactly` | internal/browser/managed.go:1443-1494 | entering a row keeps generation ids unique if and only if it does not clash: a row without generation whose pid is there, merged into a row that so takes on the generation of another row |
| `Registry.UpsertKeepsUnique` | internal/browser/managed.go:1443-1494 | otherwise, for a row with a generation or a new pid: uniqueness, one row for the generation, all other rows as they were |
| `Registry.BlankUpsertDuplicates` | internal/browser/managed.go:1449-1491 | the failing input, for every pid: two rows of one process, one named and one hashed, become two rows of one generation when a row without generation is entered |
| `Registry.Table.Upsert` | internal/browser/managed.go:1443-1533 | in place, with both lookups; generation ids stay unique if and only if the row does not clash |
| `Registry.Table.MarkCleanup` | internal/browser/managed.go:1535-1559 | marks the newest row of the pid and keeps every generation |
| `Registry.MarksNewest` | internal/browser/managed.go:1535-1546 | that row gets the state, the time and the reason, and an exit time exactly if it was reaped; no other row changes |
| `Registry.EntersOverFirst` | internal/browser/managed.go:1443-1533 | a row is entered over the first of its generation or, without one, of its pid; each field it gives is its own and each it leaves blank is the old one's, the generation and the mode excepted |
| `Registry.TimeIsFirstKnown` | internal/browser/managed.go:1618-1628 | a row's time is the first of cleanup, exit, last sight, process start and start that is a time |
| `Registry.NewestIsNewest` | internal/browser/managed.go:1548-1559 | that row is found exactly when the pid has one, and none of its rows is newer |
| `Compaction.NewestAreKept` | internal/browser/managed.go:1686-1706 | what is kept is a newest-first prefix of the terminal rows, ties by place, and within the retention |
| `Compaction.ForgottenExactly` | internal/browser/managed.go:1700-1704 | a candidate of the past is forgotten if and only if it is older than the retention or as many candidates as the tail come before it |
| `Compaction.SkipsNoneExactly` | internal/browser/managed.go:1658-1684 | a row is a candidate if and only if it has a generation that is not the active one, is not that of a live process while none is active, is in one of the terminal states, and has a time |
| `Compaction.ForgottenForCause` | internal/browser/managed.go:1700-1704 | a row young enough is forgotten only if a full tail of candidates comes before it |
| `Compaction.OnlyTerminalIsForgotten` | internal/browser/managed.go:1658-1684 | never the active generation, never a live process when there is none, never a row without identity, time or terminal state |
| `Compaction.CompactionIsIdempotent` | internal/browser/managed.go:1642-1717 | compacting twice forgets nothing more |
| `Compaction.NewestFirstSorts` | internal/browser/managed.go:1686 | the sort keeps the candidates and orders them |
| `Compaction.SortedCandidates` | internal/browser/managed.go:1686 | stably, and it holds exactly the candidates |
| `Compaction.Compact` | internal/browser/managed.go:1642-1717 | the rows left are exactly those not forgotten, in their order, and the report counts each row under its lifecycle, each skipped row under its reason, future candidates as skipped, and the others as retained or compacted |
| `Compaction.TallyCounts` | internal/browser/managed.go:1642-1717 | that report accounts for every row exactly once |
| `Compaction.TallyMeans` | internal/browser/managed.go:1686-1706 | it counts the candidates from the future as skipped, the kept ones as retained and the forgotten ones as compacted |
| `Reconcile.ReconcileProcesses` | internal/browser/managed.go:1230-1424 | fails exactly when the processes cannot be listed or a claimed one cannot be asked; one live pid is retained, never signalled, every other verified live pid is signalled once, in order; the newest row of each stopped process is reaped with its exit time, that of each one that refused says so and keeps its exit time, every other row is as surveyed; each verdict exactly when it applies; the rows left are the compaction of these |
| `Reconcile.ReconciliationKeepsUnique` | internal/browser/managed.go:1230-1424 | generation ids stay unique through registering, refreshing, marking and compacting |
| `Reconcile.ReapExtras` | internal/browser/managed.go:1349-1379 | the active process is retained if it lives, and otherwise one with a newest row; the rows of the stopped and the refusing processes say so, and no other row changes |
| `Reconcile.MarkingNotes` | internal/browser/managed.go:1362-1378 | marking the outcomes one by one leaves exactly those rows changed, each by the outcome of its own process |
| `Reconcile.PidToRetain` | internal/browser/managed.go:1580-1603 | a pid that lives, none of the live rows being newer than one of its rows |
| `Reconcile.LeftAlive` | internal/browser/managed.go:1365-1385 | what is left is the retained process and those that refused the signal |
| `Reconcile.FilterIdentity` | internal/browser/managed.go:1122-1176 | keeps exactly the pids that no row claims or whose start identity some row names; fails exactly when a claimed one cannot be asked |
| `Reconcile.UniqueSortedPids` | internal/browser/managed.go:1725-1737 | the positive pids, each once, ascending |
| `Reconcile.RefreshTells` | internal/browser/managed.go:1317-1347 | one of our rows is called live exactly when its process is, under the active generation if there is one; a row of another generation is superseded, one without a generation cannot be told, one whose process is gone has exited with the exit time it had or now; a gone reaped row stays reaped |
| `Reconcile.RegisteredHoldsAll` | internal/browser/managed.go:1305-1316 | every live process has a row, and no older row changed |
| `Reconcile.RegisteredRows` | internal/browser/managed.go:1305-1316 | every new row is that of a live process without one, seen now and not yet registered |
| `Readiness.HardReloadKeepsItsShare` | internal/authreadiness/readiness.go:153-181 | for n stages without gaps the hard reload starts with at least 2T / (n + 1) of the wait T left, truncating division included, and no stage runs past T |
| `Readiness.HardReloadShare` | internal/authreadiness/readiness.go:153-181 | the same of the log of an actual wait |
| `Readiness.DelayStaysWithin` | internal/authreadiness/readiness.go:257-273 | for all values, 64-bit wrap-around included, a poll delay is positive and within the stage, and is the linear back-off whenever that fits |
| `Readiness.StageWaitIsShare` | internal/authreadiness/readiness.go:158-167 | every stage but the last gets the truncated share of what is left, the last one all of it |
| `Readiness.PrepareAttempt` | internal/authreadiness/readiness.go:98-124 | initial load, reload and hard reload at their places, and the errors |
| `Readiness.WaitForEvidence` | internal/authreadiness/readiness.go:129-255 | without error, exactly one of observed, observation failed and evidence absent; observed exactly when an observation counted in the last stage says ready, and none before did; absent exactly when all stages ran, none said ready, and the hard reload had an error-free observation and did not end in an error; an error exactly names what stopped it; every stage keeps its share |
| `Readiness.ObserveStage` | internal/authreadiness/readiness.go:189-244 | which observations a stage counts, that it sees the evidence exactly when one of them says ready, with an error or without, and how many were error-free |
| `Readiness.StartStage` | internal/authreadiness/readiness.go:151-188 | a stage begins exactly when the caller is there, some wait and a positive share of it are left, and its reload goes through |
| `Readiness.WatchInitialLoad` | internal/authreadiness/hydration.go:19-40 | the first window sees the evidence exactly when an observation inside it is ready without an error |
| `Readiness.WaitForHydration` | internal/authreadiness/hydration.go:11-45 | the evidence is seen in the first window, or else exactly the verdicts of the reload sequence |
| `Availability.AllowedIsSafe` | internal/availability/availability.go:81-224 | over any run with a running clock, failing saves included: allowed at t means that no check of (t - cooldown, t] saw a wake gap and the previous recorded observation is within the threshold |
| `Availability.SuppressionEndsOnTime` | internal/availability/availability.go:181-224 | regular online checks are refused before suppression ends and allowed from the first one at or after it |
| `Availability.GapIsRemembered` | internal/availability/availability.go:146-179 | a detected gap is still to be seen, or suppresses, or has done so long enough, even when its save failed |
| `Availability.RetryIsCeiling` | internal/availability/availability.go:296-305 | the announced seconds are the exact ceiling of the time to wait if and only if the rounding sum stays within 64 bits |
| `Availability.Gate.Check` | internal/availability/availability.go:81-224 | one check against the state file: each verdict exactly when it applies, what it leaves in the file, the gap it reports and the seconds it announces; allowed only when online, without a gap and out of suppression |
| `Availability.DisturbanceSuppresses` | internal/availability/availability.go:137-179 | after a clock that went back, or a gap, regular online checks are refused for the cooldown and allowed from its end |
| `ByteSize.RoundTrip` | internal/artifacts/retention.go:750-779 | for every 64-bit value, printing and reading back gives the value if and only if it is positive |
| `ByteSize.ParsesExactly` | internal/artifacts/retention.go:750-766 | the parser accepts exactly the texts that read as digits, blanks and a known unit and mean a positive 64-bit size, as that size: nothing overflows |
| `ByteSize.DecimalReadsBack` | internal/artifacts/retention.go:768-779 | decimal digits read back as the number |
| `ByteSize.UnitIsLargest` | internal/artifacts/retention.go:768-779 | a positive size is printed in the largest unit it is a whole number of |

## Left out

- Assumptions about the outside, all of them in `Protocol.Possible`: listings and create answers are truthful, page ids are not reused while a page is open, dispatchers report honestly, nobody but the run opens a page at the run's marker address, and nobody moves the run's page before the journal names it.
- The visibility of created pages: nothing brings back a page that appears after a marker search has given up and is on record as failed (`PageLostExactly`, `ConcreteRuns.LatePageIsForgotten`); `NotRequiredExactly`, `AllClearIsTrue` and `PageNeverForgotten` speak of runs without such a page.
- A response that answers a request carries that request's id (`Calls.Truthful`); responses that answer nobody may carry any id.
- Budget evidence in the recovery record and how it is measured; the verdict of the check is an input.
- JSON, RFC 3339 texts, lengths and character classes of identifiers, and SHA-256: valid texts are arbitrary sets of strings (`Records.TextRules`), the marker address is a parameter, a generation hash is injective.
- Trimming of identifiers before they are checked: identifiers, registry texts, selectors and state names are taken as trimmed, registry paths as cleaned and states as lower case.
- `retry_at` is recorded but nothing reads it in the modelled code.
- The cross-process input lock itself; a lease knows whether it holds it and gives it back.
- Detaching the session before a close, the texts of close and poll errors, and the deadlines that decide how many close attempts and polls there are; a script gives their number, two close commands at the most.
- PressEscape, InsertText and ClearFocusedComposer: reversible input, same shape as PressEnter.
- SubscribeEvent and event handlers: an event that a handler consumes never reaches the queue.
- A reader does not wake at the end of the transport, because it watches only its context and its channel; nothing is claimed about that.
- 64-bit wrap-around of command ids.
- Locking, loading and saving of the registry file, the error paths of loading it, the final order of its rows by pid, the stale count, the last failure text and the oldest age of a compaction report, and the texts of safety checks and suggested commands.
- Command-line matching of processes: a snapshot says whether it matches. Time stamps of a row that denote the same instant in different texts are one value.
- Observation contexts of authreadiness (SubObservationContext) and the scheduling delay between a stage's start and the start of its context.
- Differences between times that exceed 292 years saturate in Go; only `Availability.SecondsUntil` models that.
- Lower-casing of characters outside ASCII in byte sizes, except the two that become letters of a unit (the Kelvin sign and the dotted capital I), and text that is not valid UTF-8.
- Retention scanning, capped writers, commands, rendering, embedded scripts and desktop adapters: plumbing around the modelled parts.
