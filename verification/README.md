# Clawbolt, modelled and verified in Dafny

Clawbolt is an asynchronous agent server: messages from chat channels are batched,
queue for a per-user lock, may be folded into the turn that already runs, and are
answered by an agent loop that calls an LLM and executes tools under the user's
approval. History is rendered from stored rows, trimmed and compacted; documents about
the user are rewritten by compactions while other writers touch them.

`async` code is cut at its suspension points and every database transaction is one
step. A protocol is a state machine whose runs are arbitrary interleavings; an object
that the program updates in place is a class whose methods are proved against the
functions the state machine uses.

| file | what it models |
|---|---|
| `MidTurn.dfy` | the registry of dispatches a running turn may claim |
| `FoldProtocol.dfy` | dispatches that queue on the user's lock, are claimed, run, poll for a stale approval |
| `Batching.dfy` | the message batcher and its timers |
| `Approval.dfy`, `GateProtocol.dfy` | the approval gate, and any number of requests, replies, timeouts and lost turns |
| `Messages.dfy` | message types, call/result pairing, serialization for the LLM API |
| `History.dfy` | rendering stored rows as history, and the window a turn loads |
| `Trimming.dfy` | dropping the oldest blocks of a prompt |
| `Watermark.dfy`, `Coverage.dfy` | the trim watermark, compaction events, and their writers in any order |
| `Recovery.dfy`, `RecoveryRuns.dfy` | retries of events that a crash left pending; boots, sweeps and crashes in any order |
| `ToolRound.dfy` | one round of tool calls: validation, permission, approval, execution |
| `Schedule.dfy` | concurrency groups and the schedules they allow |
| `AgentLoop.dfy` | the loop of one turn, its prompts and its token budget |
| `Utf8.dfy`, `Archive.dfy` | UTF-8 and the bounded history archive |
| `Documents.dfy`, `DocumentRuns.dfy` | rewrites with compare-and-swap, plain writes and appends, in any order |
| `Collapse.dfy` | the migration to one session per user |
| `MediaStaging.dfy`, `StagingRuns.dfy` | the staging table for media, its per-user cap, and any run over it |

`dafny verify dfyconfig.toml` checks the project.

## What does not hold as stated, and exactly when it does

- A dispatch whose message was claimed can still start a turn of its own: nothing
  looks at `consumed` again once the lock is granted. `FoldProtocol.ClaimedAndStarted`
  is such a run. `FoldProtocol.ClaimedStartsIff` says that this is possible next if and
  only if the action just taken gave up the lock while a claimed dispatch of the same
  user still waited; without such an action `FoldProtocol.ExactlyOnce` holds.
- The poll for a stale approval interrupts at most once in every run
  (`FoldProtocol.InterruptsAtMostOnce`), so a second approval that the running turn asks
  for is waited out: `FoldProtocol.SecondApprovalWaits` is such a run.
  `FoldProtocol.TakesAwayIff` says that a waiting message can take a pending approval
  away if and only if it is unclaimed and has not interrupted one before.
- `request_approval` leaves its request in the gate when its turn is cancelled
  (`GateProtocol.CancelledStays`), exactly when the request was being published or waited
  on and was the one held (`GateProtocol.CancelledHeldIff`). Two outstanding requests of
  one user evict one another (`GateProtocol.TwoOutstanding`): a request, cancelled or not,
  is held from its registration on if and only if no other request of its user has
  registered or cleaned up since (`GateProtocol.HeldIffUntaken`), and some request becomes
  unreachable in exactly the steps that do so beside another one that is published or
  waited on (`GateProtocol.ReachableIff`). With one outstanding request per user replies
  reach their request (`GateProtocol.RepliesReachTheirRequest`).
- The audit record can name a decision that was not acted on: when two replies overlap
  (`GateProtocol.OverlappingReplies`), and for a single reply that the timeout overtakes
  (`GateProtocol.OvertakenReply`). `GateProtocol.RecordNamesResult` says for every run
  when a record names the result; if every reply runs to its end, it does if and only if
  a reply woke the request or one said no (`GateProtocol.FinishedRepliesAreNamed`), and
  likewise if the replies agree (`GateProtocol.AgreedDecisionIsRecorded`).
- A turn can leave rows below the watermark without an event. `Coverage.TrimExact` says
  for every trim when, and `Coverage.CoveredThroughoutIff` that nothing else loses a row:
  a run keeps every row covered throughout if and only if none of its trims moves the
  watermark while a shown row outside its window was not passed, or over one that what
  it drops leaves out. `Coverage.NoRowIsLost` therefore takes the hypothesis `AllCareful`.
  Three ways to break it: more than 200 rows before the window (`Coverage.OverCapSkips`,
  exactly when by `Coverage.CapExact`); an overflow compaction that fails before the trim
  (`Coverage.FailedOverflowSkips`); and a folded message that the first turn's trim drops
  (`Coverage.FoldedSkips`).
- The rows before a slice are looked at only 20 back. `History.Reader.LookbackExact` says
  when the last rendered row found there is the right one.
- An append to the history can lose its own beginning. `Archive.NewestSurvives` says, for
  any archive and any entry, exactly when the new text is kept in full.
- `append_with_window` keeps its byte budget if and only if the budget is at least 1
  (`Archive.BudgetKept`): a slice from `-0` is the whole text.
- `truncate_for_injection` keeps its budget if and only if the text already did or the
  marker is shorter than the budget (`Archive.InjectedFits`), for the same reason.

Where documentation and code differ, the code is followed: the system prompt is the
content of the last system message (messages.py:112-115 says the first); evicting staged
media drops its upload receipt with the row (media_staging.py:477-483 says it stays); the
`trim_messages` path is compacted through the live watermark and not through the snapshot
of the turn.

## Model

| member | source | states |
|---|---|---|
| MidTurn.MidTurnInbox.Register | backend/app/agent/midturn.py:73-74 | the entry joins the end of its user's queue and no other queue changes |
| MidTurn.MidTurnInbox.Unregister | backend/app/agent/midturn.py:76-83 | the first occurrence of the entry leaves its user's queue; an emptied queue leaves the table |
| MidTurn.MidTurnInbox.Claim | backend/app/agent/midturn.py:85-103 | the matching entries, in order, are returned and consumed; the others stay in order |
| MidTurn.ClaimPartitions | backend/app/agent/midturn.py:85-103 | a claim splits the queue: what is claimed and what is left make up the whole |
| MidTurn.ClaimKeepsOrder | backend/app/agent/midturn.py:85-103 | neither part is reordered: an entry stands behind as many of its part as stood in front of it |
| FoldProtocol.EveryRun | backend/app/agent/ingestion.py:383-497 | in every run a turn starts only when none of its user is under way; a claim is made by a turn under way for the same user, session and channel; a poll interrupts only while its message is unclaimed; no dispatch starts or is claimed twice |
| FoldProtocol.TurnsDoNotOverlap | backend/app/agent/concurrency.py:51-62 | between the starts of two turns of one user the earlier one has ended |
| FoldProtocol.ExactlyOnce | backend/app/agent/midturn.py:116-138 | a dispatch runs at most one turn or is claimed at most once, never both; one that is over did exactly one of the two |
| FoldProtocol.ClaimedStartsIff | backend/app/agent/ingestion.py:383-497 | a claimed dispatch can start next if and only if the lock was given up before its cancellation was delivered |
| FoldProtocol.ClaimedAndStarted | backend/app/agent/ingestion.py:383-497 | a run in which a dispatch is both claimed and starts a turn |
| FoldProtocol.WaitingIsServed | backend/app/agent/ingestion.py:383-497 | a waiting dispatch was claimed, still polls, or has interrupted; it is claimable exactly when foldable and unclaimed; it can be let in |
| FoldProtocol.WebchatNeverFolds | backend/app/agent/ingestion.py:383-397 | in every run a dispatch with a request id or without a channel is never in the inbox, consumed or folded, and in no claim on either side |
| FoldProtocol.OfferedIff | backend/app/agent/ingestion.py:383-397 | in every run a dispatch is in its user's inbox, and in no other, if and only if it waits unclaimed, has a channel and no request id |
| FoldProtocol.InterruptsAtMostOnce | backend/app/agent/ingestion.py:383-497 | in every run a message interrupts at most one approval |
| FoldProtocol.TakesAwayIff | backend/app/agent/ingestion.py:383-497 | a waiting message can take a pending approval away if and only if it is unclaimed and has not interrupted one before |
| FoldProtocol.PendingIffAskedLast | backend/app/agent/ingestion.py:420-497 | in every run an approval is pending if and only if a turn asked for it and since then no answer, cancellation or unclaimed poll took it away |
| FoldProtocol.PollLogsIff | backend/app/agent/ingestion.py:420-460 | a poll interrupts if and only if its message is unclaimed and an approval of its user is pending; one that finds none changes nothing |
| FoldProtocol.CancelEnds | backend/app/agent/ingestion.py:383-497 | a waiting or running dispatch can always be cancelled and then holds no lock and is in no inbox |
| FoldProtocol.SecondApprovalWaits | backend/app/agent/ingestion.py:383-497 | a run in which a message that interrupted one approval waits behind the next |
| FoldProtocol.NothingLeaks | backend/app/agent/ingestion.py:383-497 | when nobody waits or runs no lock is held, no poll is alive and the inbox is empty |
| FoldProtocol.DrainStep | backend/app/agent/router.py:655-671 | a drain by a running turn keeps every invariant |
| FoldProtocol.DrainClaims | backend/app/agent/router.py:655-671 | a drain claims, once, exactly the dispatches that wait, may fold, are unclaimed and share user, session and channel with the turn |
| Batching.MessageBatcher.Enqueue | backend/app/agent/ingestion.py:574-606 | the entry joins its user's batch, the old timer is replaced by a new one, no other user is affected |
| Batching.MessageBatcher.Flush | backend/app/agent/ingestion.py:613-650 | the whole batch is taken once, with the media of all entries in order and the last entry's message |
| Batching.Conservation | backend/app/agent/ingestion.py:574-650 | in every run the enqueued messages of a user are those of the dispatched batches followed by the open one, in order |
| Batching.OpenBatchIsDispatched | backend/app/agent/ingestion.py:604-611 | an open batch has a live timer, and firing it dispatches everything that waits |
| Batching.TimersMatchBatches | backend/app/agent/ingestion.py:604-618 | every live timer belongs to an open batch, so a cancelled timer's batch is never lost |
| Batching.QuietMeansDispatched | backend/app/agent/ingestion.py:574-650 | with no timer left everything enqueued has been dispatched |
| Batching.MediaInOrder | backend/app/agent/ingestion.py:620-650 | the media of an entry stand between those of the entries before and behind it |
| Batching.TwoMessagesOneBatch | backend/app/agent/ingestion.py:574-650 | a run in which two messages sent in a row are dispatched together by the second timer |
| Approval.ApprovalGate.Register | backend/app/agent/approval.py:525-548 | a new undecided request becomes the one the gate holds for the user |
| Approval.ApprovalGate.BeginResolve | backend/app/agent/approval.py:586-597 | a decision is stored on the request the gate holds, or nothing happens |
| Approval.ApprovalGate.NoteAmbiguousReply | backend/app/agent/approval.py:474-492 | the prompt is given again at most twice per request and only while one is pending |
| Approval.ApprovalGate.Conclude | backend/app/agent/approval.py:548-584 | a woken request reads the stored decision, any other is denied, and the user's entry goes, whichever request it names |
| GateProtocol.OnlyDecidedReturns | backend/app/agent/approval.py:494-616 | a request that a reply woke returns the decision stored last on that very request, which was recorded by then; any other returns DENIED |
| GateProtocol.RecordNamesResult | backend/app/agent/approval.py:548-616 | in every run a record names the result if and only if a reply wrote one with the decision stored last before the request woke, or with DENIED where none woke it |
| GateProtocol.FinishedRepliesAreNamed | backend/app/agent/approval.py:548-616 | when every reply ran to its end a record names the result if and only if a reply woke the request or one stored DENIED |
| GateProtocol.OvertakenReply | backend/app/agent/approval.py:548-616 | a run with a single reply in which the audit says approved and the request is denied |
| GateProtocol.AgreedDecisionIsRecorded | backend/app/agent/approval.py:548-616 | when the replies agree, finished or not, a record names the result if and only if a reply woke the request or a record of DENIED was written |
| GateProtocol.AuditInOrder | backend/app/agent/approval.py:494-616 | no "decided" and no "timed out" record precedes its "requested" record |
| GateProtocol.TimedOutIff | backend/app/agent/approval.py:548-584 | in every run a request that returned has a timed-out record if and only if it timed out |
| GateProtocol.ReturnedStays | backend/app/agent/approval.py:548-584 | a returned result is final in every run, and its request is not cancelled any more |
| GateProtocol.ReplyAfter | backend/app/agent/approval.py:586-616 | in every run a reply goes to the request the gate held when it came, keeps its decision, and goes on, row, record, wake-up, exactly until it is done or has lost its task |
| GateProtocol.RepromptsBounded | backend/app/agent/approval.py:474-492 | at most two re-prompts per request, in every interleaving |
| GateProtocol.RepromptsExact | backend/app/agent/approval.py:474-492 | in every run a request was asked for again once for each of the first two ambiguous replies that reached it |
| GateProtocol.ReturnedIsClean | backend/app/agent/approval.py:548-584 | a request that returned holds neither the gate nor a stored row |
| GateProtocol.RowIffPersistsLast | backend/app/agent/approval.py:537-616 | in every run the user's row is that of a request if and only if it persisted it and since then no request of the user has written or deleted it and no reply to one has deleted it |
| GateProtocol.WaitingHasItsRow | backend/app/agent/approval.py:537-616 | with one outstanding request per user a persisted, published or awaited request has its row until the first reply that deletes it |
| GateProtocol.ReachableIff | backend/app/agent/approval.py:525-584 | while every waiting request is held, a step loses one of them if and only if it registers or cleans up another request of the same user |
| GateProtocol.HeldIffUntaken | backend/app/agent/approval.py:525-584 | from its registration on a request without a result is held if and only if no other request of its user has registered or cleaned up since |
| GateProtocol.CancelledHeldIff | backend/app/agent/approval.py:548-584 | a cancelled turn leaves its request in the gate if and only if it was published or waited on and held |
| GateProtocol.RepliesReachTheirRequest | backend/app/agent/approval.py:494-616 | with one outstanding request per user the gate holds the request that waits |
| GateProtocol.CancelledStays | backend/app/agent/approval.py:548-584 | a run in which a cancelled turn leaves its request in the gate |
| GateProtocol.TwoOutstanding | backend/app/agent/approval.py:525-584 | a run in which the timeout of one request evicts another |
| GateProtocol.OverlappingReplies | backend/app/agent/approval.py:586-616 | a run in which the audit names another decision than the one acted on |
| Messages.Serialize | backend/app/agent/messages.py:109-150 | the buffered loop yields the merged list of maximal runs of tool results, and the last system text |
| Messages.SerializedPaired | backend/app/agent/messages.py:109-150 | a serialized request meets the API's pairing demand if and only if the messages are paired |
| Messages.NoAdjacentResults | backend/app/agent/messages.py:127-148 | in the request made from any list of messages two messages of tool results are never adjacent |
| Messages.SerializedInOrder | backend/app/agent/messages.py:109-150 | every piece of content is serialized once, in order |
| Messages.PairedConcat | backend/app/agent/messages.py:55-107 | paired lists can be appended to one another |
| Messages.RoundPaired | backend/app/agent/messages.py:55-107 | a message with calls followed by one result for each, in any order, is paired |
| History.Reader.StateAfter | backend/app/agent/context.py:437-451 | the backwards scan finds what converting all the rows would have carried |
| History.Reader.ExpandOutbound | backend/app/agent/context.py:292-339 | a row with tool interactions becomes its calls, their results in order and its reply |
| History.Reader.Render | backend/app/agent/context.py:480-531 | what one row adds, and what is carried on, in every branch |
| History.Reader.Convert | backend/app/agent/context.py:454-531 | the converter's loop computes the rendering of the rows given what precedes them |
| History.Reader.CarryIsPositional | backend/app/agent/context.py:437-451 | what is carried depends only on the last rendered row and whether the last row is a prompt |
| History.Reader.EachRowByPosition | backend/app/agent/context.py:427-531 | what a row renders to is a matter of its position in the transcript |
| History.RowAdds | backend/app/agent/context.py:398-531 | an inbound row adds nothing if and only if it is blank, or a reply right behind an approval prompt, else one message with its text; an outbound row adds nothing if and only if it is such a prompt, else its calls, their results and its reply |
| History.Reader.SliceIndependence | backend/app/agent/context.py:398-531 | converting a transcript is converting its front and then its rest given the front |
| History.Reader.LookbackExact | backend/app/agent/context.py:398-451 | looking back k rows finds the right row if and only if a row is rendered in sight, or none is at all and the first in sight does not pass for one |
| History.Reader.LookbackSuffices | backend/app/agent/context.py:398-451 | one rendered row among the last k - 1 makes the look-back exact |
| History.Reader.LoadHistory | backend/app/agent/context.py:546-632 | the history of a turn is the conversion of the window, given the rows before it above and below the watermark |
| History.Reader.LoadedIsSuffix | backend/app/agent/context.py:607-632 | the loaded history is what the transcript renders for the window, to the letter |
| History.PrecedingIs | backend/app/agent/context.py:598-617 | the window is the last limit - 1 rows before the current one, and what precedes it are the 20 rows before it, wherever the watermark is |
| History.Reader.TrimDropsPrefix | backend/app/agent/context.py:580-632 | advancing the watermark only drops a prefix of the rendered history |
| History.Reader.ConvertedPaired | backend/app/agent/context.py:292-339 | rendered history is paired, whichever rows it is rendered from |
| History.WatermarkSplits | backend/app/agent/context.py:579-582 | the watermark splits the rows in two, in order |
| Trimming.Group | backend/app/agent/trimming.py:180-302 | the grouping loop cuts the prompt into blocks of one call with its results and same-row reply |
| Trimming.DropUntilFits | backend/app/agent/trimming.py:180-302 | the loop drops the blocks before the first one that is kept, in order |
| Trimming.FewestDropped | backend/app/agent/trimming.py:180-302 | no fewer dropped blocks would make the rest fit, and the last one always stays |
| Trimming.Trim | backend/app/agent/trimming.py:180-302 | what is kept and dropped, and when nothing is |
| Trimming.AttachSummary | backend/app/agent/trimming.py:304-325 | the note goes on the newest user message, or in front |
| Trimming.TrimKeepsPairs | backend/app/agent/trimming.py:180-325 | a trimmed prompt with its note is still paired |
| Trimming.RowIsBlock | backend/app/agent/trimming.py:180-302 | everything one stored row renders to is one block |
| Trimming.DropsRows | backend/app/agent/trimming.py:180-302 | dropping blocks drops exactly the rendering of the oldest rows, and live messages only after all history |
| Trimming.NoRowIsSplit | backend/app/agent/trimming.py:180-302 | no row number is on both sides of the cut |
| Watermark.Conversation.SeqsFromDropped | backend/app/agent/context.py:105-117 | the row numbers that dropped messages carry, in order |
| Watermark.Conversation.TriggerForDropped | backend/app/agent/context.py:149-223 | what the live watermark passed is left out; one event covers the rest; the watermark moves to its end |
| Watermark.Conversation.AdvanceOnly | backend/app/agent/context.py:816-831 | the watermark moves forward only, with no event |
| Watermark.Conversation.AdminCompact | backend/app/agent/context.py:757-798 | the admin's event covers all rows it compacted, and the watermark never moves back |
| Watermark.EventIs | backend/app/agent/context.py:149-208 | a compaction of dropped messages does nothing if the watermark has passed all their numbers; else its event spans exactly the other numbers, counts the messages not passed, and the watermark moves to its end |
| Watermark.AdminEventIs | backend/app/agent/context.py:757-798 | the admin's event spans every number of what was compacted |
| Coverage.CountBounds | backend/app/agent/context.py:588-594 | between 1 and total - 1 rows are compacted, at most 200, and all rows outside the window exactly when those are at most 200 |
| Coverage.NumberedIffShown | backend/app/agent/context.py:105-117 | a converted slice carries exactly the numbers of the rows it shows |
| Coverage.SliceNumbers | backend/app/agent/context.py:105-117 | every row of a slice that the transcript shows has its number in the converted slice, and every number is that of a row of the slice |
| Coverage.OverflowOutside | backend/app/agent/context.py:586-605 | after its overflow compaction nothing outside the window of a turn is left uncovered, up to 200 rows |
| Coverage.AfterAdminSound | backend/app/agent/context.py:727-798 | an admin compaction from a stale snapshot keeps every row covered |
| Coverage.OverflowIs | backend/app/agent/context.py:579-606 | of the rows above the snapshot's watermark an overflow compacts the oldest: all outside the window and 32 more, at most 200 and never the last; what shows nothing is passed without an event |
| Coverage.AdminIs | backend/app/agent/context.py:728-790 | an admin compacts exactly the rows above the snapshot's watermark that are not among its last keepRecent; what shows nothing is passed without an event |
| Coverage.CommittedIs | backend/app/agent/context.py:149-223 | a write that commits leaves what it computed from its snapshot, and one that does not leaves the ledger alone |
| Coverage.RowsAppended | backend/app/agent/context.py:546-632 | over any run of these writers the transcript is what it was and the rows appended, in order |
| Coverage.OverflowedIff | backend/app/agent/context.py:584-600 | an overflow counts as written if and only if it was made and committed |
| Coverage.CoveredThroughoutIff | backend/app/agent/context.py:149-223 | in any interleaving of appends, turns, trims and admin compactions, failed writes included, every row stays covered throughout if and only if no trim moves the watermark over a shown row that its window or what it drops leaves out |
| Coverage.NoRowIsLost | backend/app/agent/context.py:149-223 | in every interleaving in which each trim follows a committed overflow compaction within the cap and drops no folded message alone (`AllCareful`), every row at or below the watermark is hidden or in an event's range |
| Coverage.TrimExact | backend/app/agent/context.py:149-223 | a trim, of history and of folded messages, keeps every row covered if and only if it does not move the watermark, or all shown rows outside its window were passed and nothing shown is left below the first row it drops |
| Coverage.CapExact | backend/app/agent/context.py:588-605 | with more than 200 rows outside the window, exactly when an overflow followed by a trim loses a row |
| Coverage.FailedOverflowSkips | backend/app/agent/context.py:191-215 | an overflow compaction that fails before the turn's trim loses a row of every fully shown conversation longer than the window |
| Coverage.FoldedSkips | backend/app/agent/router.py:601-642 | a folded message that the first turn's trim drops moves the watermark over the turn's own message, which no event covers |
| Coverage.OverCapSkips | backend/app/agent/context.py:588-605 | every fully shown conversation with more than 200 rows outside the window loses one |
| Coverage.WatermarkAdvances | backend/app/agent/context.py:149-223 | in every run the watermark never goes back, and ranges of trims and overflows lie above all recorded before them |
| Coverage.OverflowAdvances | backend/app/agent/context.py:586-605 | each overflowing turn moves the watermark strictly forward and leaves fewer rows above it |
| Coverage.BacklogDrains | backend/app/agent/context.py:586-605 | a backlog of n rows is gone after n turns at the latest |
| Recovery.EventTable.ClaimAttempt | backend/app/agent/compaction_recovery.py:135-151 | an attempt is counted exactly when the event is pending and under the cap |
| Recovery.EventTable.ExhaustEvent | backend/app/agent/compaction_recovery.py:154-162 | a pending event gets no further attempt |
| Recovery.EventTable.PersistCompleted | backend/app/agent/compaction.py:777-831 | the event becomes completed; where it is missing or none was given a fresh completed one is written |
| Recovery.EventTable.RetryEvent | backend/app/agent/compaction_recovery.py:177-240 | what a retry does to the event and when it reports completion |
| Recovery.EventTable.Recover | backend/app/agent/compaction_recovery.py:243-305 | the sweep's loop retries every event in turn and counts the completed ones |
| Recovery.SweepsDryUp | backend/app/agent/compaction_recovery.py:65-85 | a sweep that finds a stale event leaves strictly fewer attempts, so sweeps end |
| Recovery.PickedIff | backend/app/agent/compaction_recovery.py:65-85 | a sweep picks exactly the pending events with a range, fewer than 3 attempts, and a trigger time between cutoff and grace floor |
| Recovery.RetryLeaves | backend/app/agent/compaction_recovery.py:180-240 | what a retry leaves: an event that is completed or was tried 3 times, and every other event, as it was; else one attempt more, and completed, given up or waiting by its outcome |
| Recovery.ExhaustLeaves | backend/app/agent/compaction_recovery.py:156-165 | giving an event up leaves one that was completed meanwhile as it is |
| Recovery.PersistedIs | backend/app/agent/compaction.py:777-831 | completing sets the status of that event only, or inserts a completed one |
| Recovery.CompletedIsCount | backend/app/agent/compaction_recovery.py:180-305 | a sweep reports exactly the number of its events that it turned from pending to completed, and touches no other event |
| RecoveryRuns.RunMoves | backend/app/agent/compaction_recovery.py:135-162 | no run takes an event out of "completed" or lets a retry count go back or exceed 3 |
| RecoveryRuns.AtMostThreeAttempts | backend/app/agent/compaction_recovery.py:135-240 | over any boots, sweeps and crashes an event is claimed at most three times, and only ten minutes after it was triggered |
| RecoveryRuns.ClaimsAreBounded | backend/app/agent/compaction_recovery.py:135-240 | all claims of a run together with the attempts left are at most three per event |
| RecoveryRuns.SweepRefines | backend/app/agent/compaction_recovery.py:243-305 | a sweep that is not interrupted is a run that ends exactly as the loop over its events computes |
| RecoveryRuns.RetriesAreClaims | backend/app/agent/compaction_recovery.py:136-154 | in every run the retry count of an event below the cap is the number of its claims |
| RecoveryRuns.CompletedIff | backend/app/agent/compaction.py:777-831 | over any run an event is completed if and only if it was at the start, or its own task completed it, or a sweep did while it worked on it |
| RecoveryRuns.RowsAppended | backend/app/agent/compaction.py:777-831 | rows are only appended: the events inserted, and a completed one for each completion of an event that is not there |
| RecoveryRuns.LockIff | backend/app/agent/compaction_recovery.py:243-305 | a sweep holds the lock if and only if the last boot, unlock or crash was a boot; another starts if and only if none does, retries are on, and it takes exactly the stale events |
| RecoveryRuns.OneEventAtATime | backend/app/agent/compaction_recovery.py:281-300 | of the attempts a sweep claimed all were concluded but the one it works on |
| RecoveryRuns.OneSweepAtATime | backend/app/agent/compaction_recovery.py:243-305 | no sweep starts while one holds the lock |
| RecoveryRuns.SweepLeavesNone | backend/app/agent/compaction_recovery.py:243-305 | a sweep that comes to its end has claimed each of its events or found it completed or at the cap |
| ToolRound.Agent.Phase1 | backend/app/agent/core.py:1114-1207 | malformed, unknown and invalid calls get an error result, the others go on, in order |
| ToolRound.Agent.Partition | backend/app/agent/core.py:1215-1231 | the validated calls are split by permission level, in order |
| ToolRound.Agent.Approve | backend/app/agent/core.py:1262-1323 | a cached decision is reused; a fresh answer is remembered unless it is an interruption; no channel means denied |
| ToolRound.Agent.AskAll | backend/app/agent/core.py:1255-1410 | who is approved, who gets an error, and how an interruption cuts off the rest |
| ToolRound.Agent.ExecuteRound | backend/app/agent/core.py:1085-1463 | the results of a round, the calls that ran, and what is remembered |
| ToolRound.EveryCallOnce | backend/app/agent/core.py:1085-1463 | the seven ways a call can end partition the requested calls |
| ToolRound.OneResultPerCall | backend/app/agent/core.py:1085-1463 | the results carry exactly the ids of the requested calls, as multisets |
| ToolRound.NothingRunsAfterInterruption | backend/app/agent/core.py:1364-1388 | no asked call at or after an interruption runs |
| ToolRound.RunsOnlyAllowed | backend/app/agent/core.py:1207-1425 | a call runs only if its level is "always", or the user allowed its tool and resource in this turn |
| ToolRound.RunsIff | backend/app/agent/core.py:1114-1425 | a call runs if and only if it is known and valid and its level is "always", or its level is "ask" and its approval came |
| ToolRound.AskedFate | backend/app/agent/core.py:1265-1419 | in any number of rounds, before an interruption: a call that was asked for runs if and only if the last answer about its tool and resource is approved, always allow or always allow all; it is declined if and only if that answer is denied or always deny, or none counts and there is no channel |
| ToolRound.AskListIs | backend/app/agent/core.py:1207-1231 | the user is asked about exactly the known and valid calls at level "ask", in order, each for its tool and resource |
| ToolRound.RequestsAre | backend/app/agent/core.py:1963-1985 | the model's own message repeats its calls unchanged |
| ToolRound.NeverAskedTwice | backend/app/agent/core.py:1265-1323 | in any number of rounds a second prompt for the same tool and resource follows an interruption only |
| ToolRound.WrittenPermissionsWereGiven | backend/app/agent/core.py:1327-1400 | every permission that is stored is one the user's answer gave, and one for a whole tool only if the tool offers it |
| Schedule.BucketByGroup | backend/app/agent/core_support.py:169-195 | units hold every position once, in submission order, and two calls share a unit exactly when they have the same group |
| Schedule.GroupsNeverOverlap | backend/app/agent/core.py:1431-1454 | under any interleaving two calls of one group never run at the same time |
| Schedule.GroupsRunInOrder | backend/app/agent/core.py:1431-1454 | a call of a group runs only when those submitted before it have returned |
| Schedule.MayGoOnIff | backend/app/agent/core.py:1431-1454 | after any run a unit may begin a call if and only if it has one left and none running, and a call may finish if and only if it was begun, whatever the other units do |
| Schedule.RunningIff | backend/app/agent/core.py:1431-1454 | a call runs if and only if it is the next one of a unit that was begun once more than it finished |
| Schedule.AllReturned | backend/app/agent/core.py:1448-1454 | when the units are done every call has a result |
| Schedule.Collect | backend/app/agent/core.py:1456-1461 | the records come in submission order |
| Schedule.ScheduleIndependent | backend/app/agent/core.py:1427-1461 | two schedules of calls that return the same values yield the same records |
| AgentLoop.NextTokens | backend/app/agent/core.py:1900-1917 | the budget after a response; a retry is refused if and only if a truncated text without tool calls is at or above the ceiling |
| AgentLoop.Draft | backend/app/agent/core.py:1919-1960 | a draft is dropped if and only if a message arrived and a round is left, and is sent otherwise |
| AgentLoop.Process | backend/app/agent/core.py:1827-2050 | every prompt well formed and exactly the one before it, what its response led to, and the arrivals (`PromptsAre`); budgets doubled per truncation; a call is followed by another if and only if it was retried, dropped or had tool calls; each of the four outcomes exactly when it is due |
| AgentLoop.PromptAfterTools | backend/app/agent/core.py:1970-2011 | after a response with tool calls the next prompt is the one before it, the model's message with exactly its calls, one result per call, and the arrivals, or the instruction to wrap up |
| AgentLoop.PromptWithoutTools | backend/app/agent/core.py:1839-1960 | at the start, after a retry and after a dropped draft only the arrivals of the drains are added |
| AgentLoop.ArrivalsAre | backend/app/agent/core.py:1711-1725 | every message that arrived is added once, in order, with its row's number |
| AgentLoop.OneOutcome | backend/app/agent/core.py:1827-2050 | the responses and the arrivals fix the number of calls and the outcome |
| AgentLoop.AfterLastRound | backend/app/agent/core.py:2014-2050 | when the rounds run out a wrap-up call is made if and only if the last response has tool calls and no text, wrapping up is on and nothing was sent; a truncated text is discarded |
| AgentLoop.GoesOnIff | backend/app/agent/core.py:1870-2011 | a turn goes on after a response if and only if it has tool calls, or is truncated below the ceiling, or is a draft that an arrival overtakes while a round is left; never after an error or an unknown stop reason |
| AgentLoop.EndIs | backend/app/agent/core.py:1870-1960 | where it does not go on it has raised, answered with that response's text, or aborted |
| AgentLoop.LastWordIs | backend/app/agent/core.py:2014-2050 | when the rounds run out, exactly what is sent: nothing, the last text, the wrap-up text or the canned one |
| AgentLoop.DrainsCount | backend/app/agent/core.py:1839-1930 | the inbox is drained once per call and once for each draft that could be dropped |
| AgentLoop.ReplySawEveryMessage | backend/app/agent/core.py:1860-1960 | the text that is sent answers a prompt with every message folded in |
| AgentLoop.EveryRequestPaired | backend/app/agent/core.py:1979-2011 | every request of a turn meets the API's pairing demand |
| AgentLoop.HistoryWellFormed | backend/app/agent/core.py:1595-1603 | system prompt, rendered history and current message are a well-formed prompt |
| AgentLoop.TrimmedWellFormed | backend/app/agent/trimming.py:180-325 | trimming a well-formed prompt, with or without the note, leaves it well formed |
| AgentLoop.BudgetRaise | backend/app/agent/core.py:2000-2010 | one more truncation doubles the budget up to the ceiling, and never lowers a larger one |
| AgentLoop.BudgetBounded | backend/app/agent/core.py:1900-2010 | the budget stays under the ceiling or where it started, and reaches the ceiling after 14 truncations |
| AgentLoop.FirstBudget | backend/app/agent/core.py:714-716 | the first call's budget is what the caller gave, and the default when that is nothing or 0 |
| AgentLoop.TruncationsCount | backend/app/agent/core.py:2000-2010 | the doublings before a call are counted by the truncated responses before it |
| Utf8.RoundTrip | backend/app/agent/markdown_registry.py:331-353 | decoding an encoded text gives it back |
| Utf8.AcceptedIff | backend/app/agent/markdown_registry.py:350-353 | bytes are decoded exactly where they start with the encoding of a character, as that character |
| Utf8.TailIsLongestSuffix | backend/app/agent/markdown_registry.py:350-353 | a byte tail decoded with errors ignored is the longest suffix of the text that fits |
| Archive.SplitHistoryEntries | backend/app/agent/markdown_registry.py:290-309 | the loop cuts the text at every dated head |
| Archive.SplitConcat | backend/app/agent/markdown_registry.py:290-309 | the entries put together again are the text |
| Archive.HeadsApart | backend/app/agent/markdown_registry.py:287 | heads never overlap, so the search finds all of them |
| Archive.AppendWithWindow | backend/app/agent/markdown_registry.py:312-353 | the windowing loop and its fallback compute the windowed text |
| Archive.WindowBounds | backend/app/agent/markdown_registry.py:312-353 | for every budget of at least 1 the result fits, ends with a newline and is a suffix of what was to be written |
| Archive.AppendWrites | backend/app/agent/markdown_registry.py:312-353 | what an append writes is archive and entry, each with a newline behind it if there was none, cut off at the front only, and not at all if it fits |
| Archive.BudgetKept | backend/app/agent/markdown_registry.py:350 | the budget is kept if and only if it is at least 1 |
| Archive.ArchiveIsWindow | backend/app/agent/markdown_registry.py:312-353 | after any appends of entries with one head that fit, to an empty archive, it is the longest suffix of all entries ever appended that fits |
| Archive.NewestSurvives | backend/app/agent/markdown_registry.py:312-353 | for any archive and any entry the new text is kept in full if and only if it fits and starts with a head, or has none further on, or fits with the entry it continues |
| Archive.LongestFitIsLongest | backend/app/agent/markdown_registry.py:339-347 | no longer suffix of the entries fits |
| Archive.TruncateForInjection | backend/app/agent/markdown_registry.py:227-271 | a marker and the longest suffix that fits behind it, or the whole text when no room is left |
| Archive.InjectedFits | backend/app/agent/markdown_registry.py:227-271 | the injected text keeps the budget if and only if the content did or the marker leaves room |
| Documents.MemoryStore.WriteMemory | backend/app/agent/memory_db.py:144-191 | when a write of the memory lands, is refused or is too long, and what it stores |
| Documents.MemoryStore.WriteSoul | backend/app/agent/memory_db.py:287-318 | the same for the soul, which needs its row |
| Documents.MemoryStore.WriteUser | backend/app/agent/memory_db.py:331-360 | the same for the profile |
| Documents.MemoryStore.AppendHistory | backend/app/agent/memory_db.py:206-272 | the history becomes the windowed text with the entry, whether or not a row was there |
| Documents.MemoryStore.ReadMemory | backend/app/agent/memory_db.py:133-142 | a read returns the normal form of the stored text |
| Documents.MemoryStore.ReadSoul | backend/app/agent/memory_db.py:276-285 | a read strips blanks and the section head |
| Documents.MemoryStore.ReadUser | backend/app/agent/memory_db.py:320-329 | a read strips blanks and the section head |
| Documents.ReadsBack | backend/app/agent/memory_db.py:102-191 | what was written reads back stripped, for each of the three documents and every content |
| Documents.QuietReadLands | backend/app/agent/memory_db.py:144-191 | a compare-and-swap against what was just read lands like a plain write |
| Documents.WriteLands | backend/app/agent/memory_db.py:144-191 | a write that lands leaves its own content and changes nothing else |
| Documents.LandsIff | backend/app/agent/memory_db.py:102-191 | a write is too long exactly when its stored form exceeds the limit; it lands if and only if it fits, has its row, and the text the writer read still reads the same |
| Documents.HeadOnly | backend/app/agent/memory_db.py:274-329 | a read takes off the section head only where the text starts with it, and blanks |
| DocumentRuns.NoLostUpdate | backend/app/agent/compaction.py:363-603 | in every interleaving a compaction's rewrite replaces exactly what it had read, which is what the write before it left, or the text at the start if it is the first |
| DocumentRuns.OneOfTwo | backend/app/agent/compaction.py:363-603 | two compactions that read the same text of a document both rewrite it only if the first, or a write between them, left that text again |
| DocumentRuns.QuietCompactionLands | backend/app/agent/compaction.py:363-603 | a compaction whose document nobody wrote since it was read rewrites it in every run, unless the text is too long or has no row |
| DocumentRuns.StaleCompactionLeaves | backend/app/agent/compaction.py:363-603 | one whose document no longer reads the same changes nothing at all |
| DocumentRuns.PlainLandsIff | backend/app/agent/memory_db.py:144-360 | a plain write lands if and only if it fits and has its row, whatever it replaces |
| DocumentRuns.EveryAppendSurvives | backend/app/agent/memory_db.py:206-272 | starting from an empty history, whatever else is written, the history is the newest appended entries that fit, in order, for entries with one head that each fit |
| DocumentRuns.NewestAppendSurvives | backend/app/agent/memory_db.py:206-272 | for any stored history and any entry, exactly when the history ends with the entry in full |
| Collapse.CanonicalIsFirst | alembic/versions/026_collapse_sessions_to_one_per_user.py:75-84 | the session that is kept comes before every other of its user |
| Collapse.UniqueThroughout | alembic/versions/026_collapse_sessions_to_one_per_user.py:105-121 | whichever rows have been updated so far, no two messages share session and number |
| Collapse.Database.UpdateMessages | alembic/versions/026_collapse_sessions_to_one_per_user.py:117-121 | updating the rows in any order ends with every row moved and renumbered |
| Collapse.Database.DeleteLosers | alembic/versions/026_collapse_sessions_to_one_per_user.py:125-138 | only the sessions kept are left, and what the cascade leaves of the messages |
| Collapse.Database.Upgrade | alembic/versions/026_collapse_sessions_to_one_per_user.py:70-138 | the whole migration, with no message lost |
| Collapse.OneSessionPerUser | alembic/versions/026_collapse_sessions_to_one_per_user.py:125-138 | exactly one session of a user is left, the oldest |
| Collapse.NothingCascades | alembic/versions/026_collapse_sessions_to_one_per_user.py:125-138 | deleting the other sessions deletes no message |
| Collapse.CascadeIff | alembic/versions/026_collapse_sessions_to_one_per_user.py:125-138 | the cascade deletes exactly the messages whose session is gone |
| Collapse.UniqueAfter | alembic/versions/026_collapse_sessions_to_one_per_user.py:117-121 | the migrated table keeps the uniqueness constraint |
| Collapse.MovedFollowInOrder | alembic/versions/026_collapse_sessions_to_one_per_user.py:107-115 | kept messages are unchanged; moved ones follow them in the order of time and id |
| Collapse.MovedNumber | alembic/versions/026_collapse_sessions_to_one_per_user.py:95-121 | the exact new number of every moved message: the highest number of the kept session plus its rank by time and id among all that move with it |
| Collapse.StaysWithUser | alembic/versions/026_collapse_sessions_to_one_per_user.py:95-121 | every message ends up with the user it belonged to |
| MediaStaging.Staging.Upsert | backend/app/agent/media_staging.py:135-185 | a re-stage keeps handle and receipt and refreshes expiry and bytes, whatever handle was minted; a new URL gets the minted handle unless it is taken |
| MediaStaging.Staging.EnforcePerUserCap | backend/app/agent/media_staging.py:191-236 | the overflow in eviction order loses its rows and its files, and nothing else does |
| MediaStaging.CapEvictsLeast | backend/app/agent/media_staging.py:191-236 | at most 50 rows are left, no more than needed are evicted, receipts first, sooner expiry first, other users untouched |
| MediaStaging.LatestSurvives | backend/app/agent/media_staging.py:135-236 | the row that expires last survives the cap if and only if it is no receipt or fewer than 50 rows are none |
| MediaStaging.EvictedFirst | backend/app/agent/media_staging.py:191-236 | a row goes before another that stays only if it is a receipt or that is none, and within a class only if it does not expire later |
| MediaStaging.UpsertPlaces | backend/app/agent/media_staging.py:135-180 | after a staging the row is there with its old handle and receipt, or the minted handle, and every other row is as it was |
| StagingRuns.StepUnique | backend/app/agent/media_staging.py:135-624 | every operation keeps handles unique and one row per user and URL |
| StagingRuns.HandleIsStable | backend/app/agent/media_staging.py:146-180 | over any run the handle of a user and URL stays the same until its row is evicted |
| StagingRuns.RowAfter | backend/app/agent/media_staging.py:135-624 | over any run a row that is not removed expires seven days after its last staging or touch by its user, has the type of its last staging and the receipt marked last, and otherwise what it had |
| StagingRuns.RemovedIff | backend/app/agent/media_staging.py:191-562 | a row is removed if and only if it is evicted by URL or handle, purged at or after its expiry, or overflows the cap |
| StagingRuns.AppearsIff | backend/app/agent/media_staging.py:135-180 | a row appears only by a staging of its URL, with the minted handle, no receipt and seven days to live |
| StagingRuns.MayStageIff | backend/app/agent/media_staging.py:135-180 | a staging goes through if and only if the URL is not empty and the row is there or no row has the minted handle; the other operations may come at any time |

## Left out

- LLM calls, streaming, usage records, observers, typing indicators and channel sends: their outcomes are parameters, and an exception is an outcome.
- Trimming inside the LLM retry after a context overflow: what it drops is reported like that of any trim.
- The reordering of a turn's rows when replies were stored after its message (router.py:541-554): a snapshot is a front part of the transcript, the turn's message last.
- First-use skill guidance appended to results: it changes the text of a result, never which results there are.
- The stored permission table: levels and resources are parameters of a round; each round reads its own.
- Classification of approval prompts and replies (context.py:42-64): which texts are which is a parameter of the converter.
- Time zones and marker texts: the marker is a function of the two timestamps.
- Which characters are blank and which are digits: parameters, with the facts about newline and the section heads that are used.
- The history renderer of the prompt cache (`prompt_epoch.py`) and read-result stubs.
- An admin compaction with a negative number of rows to keep, which is refused before anything is read.
- Deleting stored rows, which may lower the watermark (session_db.py:202-242): transcripts only grow here.
- Switching compaction off: every write of the watermark is taken as enabled.
- Which order the database returns rows of equal expiry or trigger time in: listings are any that satisfy the query.
- Rendering a memory document into the prompt, and the audit snapshots of a compaction.
- `UserLockManager.cleanup`, the bus, heartbeat gates, OAuth, encryption and the other migrations.
- MidTurn.PendingInbound.constructor: media and download callbacks of an entry are carried through unchanged by the source and are not modelled.
- Approval.ApprovalGate.Register: the source's request object is told by a number; object identity beyond that is not modelled.
- Watermark.Conversation.TriggerForDropped: the transaction succeeds; a failed one changes nothing and is a step of its own in `Coverage`.
- MediaStaging.Staging.Upsert: the handle is minted by the caller; the upload receipt's fields are one value.
