# OpenViking Gateway, verified model

A Dafny model of the parts of the OpenViking Gateway whose correctness depends on interleavings, history
rewriting and budgets. Requests and workers share small versioned documents through single-document
compare-and-swap, put-if-absent and leases; each protocol is a state machine whose invariant is proved for
every step and then read off for every run. Code that updates fields in place is a class or a method with
loops, proved against the functions the state machines use.

`dafny verify dfyconfig.toml` checks the whole project.

| file | what it models |
|---|---|
| Anchors | the anchor chain of a history |
| CaptureTurns, CaptureOrder | queuing a history as segments: idempotence, order, completeness |
| CaptureRestarts | when capture leaves a session, and what the next one receives |
| CaptureWorker | what a worker stores after delivering |
| CaptureSegments, CaptureMerge, CaptureConflicts | what its merge drops, after one conflict or many |
| CaptureQueue, CaptureProtocol, CaptureLoss | the leased queue, requests and workers running against it, and a run that loses a call |
| CaptureSaves | what a worker's save leaves after conflicts, and who may claim when |
| Stores, Sums, RecallLedger, RecallBudgets | the two stores, and the recall budget of a session window |
| ToolReceipts | at-most-once tool calls, and where answers come from |
| Cuts, Replay, Windows | cutting, restoring and expanding histories, and mid-request windows |
| ToolLoop, ToolRounds, Continuity | the hidden tool loop, what it tells the model call by call, and that the next request replays it |
| Semaphore, BoundedMap | the two concurrency helpers |
| Profile, ProfileReads | the session-start profile, its token budget and how it reads |
| Sse | event-stream framing |
| Cache | the cache in front of the management store |

How the model reads the source:

- A message stands for its canonical form; an anchor is a free term `Link(previous, message)`, so anchors
  never collide. Messages without an anchor are never captured.
- A step is atomic: one document operation, one section under a lock, or what happens between two awaits.
  A crash is a process taking no further step. Owners and session identifiers are never reused.
- Times are integers. No document expires during a run, since expiry starts versions over.
- Captured messages depend on which tool results are at hand. Order and completeness are therefore stated
  for walks: sequences of captured messages between which a history has only messages without text.
- Replies of the model, of tools and of OpenViking are arbitrary inputs.
- In the recall ledger an era is one window's ledger, from its first reservation until the next window's. A
  decision costs at most the reservation of the request that records it, a hypothesis on that step.
- What the merge meets is the queue that one request, or several, built with `advance` on the document the
  worker read, while its session stayed.
- In `NextRequestContinues` and what builds on it, the reply's transcript is recorded at its last anchor, no
  transcript recorded inside the reply reaches back before it, and nothing is recorded yet about the new
  messages. For a new window, transcripts and reasoning hold no system messages and stand for messages that
  are none.

Four findings, each with its exact statement among the rows below:

- `save` may drop a captured message that no write carried: a tool call whose result arrives while a later
  reply is being written. `MergeDropsOnlyWritten` and `MergesDropOnlyWritten` say exactly when this cannot
  happen, and `CallIsLost` is a run in which it does.
- The decisions of a window can pass `session_max_tokens` when a request that reserved an anchor in an
  earlier window decides it after this window reserved it too (`DecisionsCanOverspend`). Without such a
  request they cannot (`NeverOverspends`).
- `spent` can pass the cap when a settled anchor is reserved again (`SpentCanOvershoot`); it does exactly at
  the settlements `SpentWithinCap` names.
- The last estimate check on a composed skill catalog never fires (`SectionFits`).

## Model

| member | source | states |
|---|---|---|
| Anchors.PrefixChain | openviking_gateway/protocols.py:215-241 | the loop with a running digest computes the chain of a history continued from the last anchor of another |
| Anchors.ChainContinues | openviking_gateway/protocols.py:215-241 | the chain of two histories joined is the chain of the first followed by that of the second continued from it |
| Anchors.TipInjective | openviking_gateway/protocols.py:215-241 | without collisions, the last anchors of two histories from one seed are equal if and only if the anchored messages are |
| Anchors.AnchorsNamePrefixes | openviking_gateway/protocols.py:215-241 | two non-empty anchors from one seed are equal if and only if the anchored prefixes they end are |
| Anchors.ChainDeepens | openviking_gateway/protocols.py:215-241 | later anchors are deeper, so an anchor occurs once in a chain |
| CaptureTurns.CaptureMessages | openviking_gateway/capture.py:470-535 | the two loops (tool results first, then messages) compute the captured messages of a range |
| CaptureTurns.UserCaptured | openviking_gateway/protocols.py:351-361 | every real user message is captured, at its own anchor, whatever tool results are at hand |
| CaptureTurns.UserStartsTurn | openviking_gateway/capture.py:82-105 | a range that starts with a user message gives at least one segment |
| CaptureTurns.ResultsShrink | openviking_gateway/capture.py:470-500 | tool results available in a shorter range are available in a longer one |
| CaptureTurns.SilentTurns | openviking_gateway/capture.py:82-105 | a range that captures nothing gives no segments |
| CaptureTurns.TurnsReach | openviking_gateway/capture.py:82-105 | segments end at a message of the range after which nothing is left to capture |
| CaptureTurns.Requeue | openviking_gateway/capture.py:107-132 | starting again after the last queued message queues nothing |
| CaptureTurns.QueueTwice | openviking_gateway/capture.py:107-132 | queuing the same history again adds no confirmed segment, and only the unconfirmed tail once more |
| CaptureTurns.AdvanceTwice | openviking_gateway/capture.py:107-132 | `advance` twice on one history leaves the document of the first time; only its unconfirmed tail counts as added again, and nothing if confirmed; with tool-dependent capture |
| CaptureRestarts.AdvanceSession | openviking_gateway/capture.py:107-132 | `advance` leaves the session if and only if the delivered message or a confirmed segment is missing from the history, or the tail was delivered idle at or after the user's message; it then starts a blank document under the new identifier, and otherwise changes the queue only |
| CaptureRestarts.NewIsBlank | openviking_gateway/capture.py:39-57 | a new document has nothing delivered, queued, retained, archived or failed, and names up to five earlier sessions: the one left first if it received anything, then those it named |
| CaptureRestarts.ConfirmSession | openviking_gateway/capture.py:134-164 | `confirm` leaves the session for the same reasons or when a due segment is missing; it clears a revoked key's error, keeps every other field and takes the document over |
| CaptureRestarts.ConfirmTwice | openviking_gateway/capture.py:134-173 | confirming a history again changes nothing |
| CaptureRestarts.AdvanceFlags | openviking_gateway/capture.py:82-132 | a queued segment was confirmed before; or lies before the user's message, confirmed and due at once; or from there on, with the flag and due time asked for |
| CaptureRestarts.ToolsInOrder | openviking_gateway/capture.py:503-525 | a message's tool parts are its calls that have results, in call order, each with name, input and result |
| CaptureRestarts.CapturedIs | openviking_gateway/capture.py:470-535 | a captured message is a user's or assistant's message or a call item of the range, with its text and role, and has text or a call with a result |
| CaptureRestarts.NextMessageAnswers | openviking_gateway/protocols.py:351-361 | a message with tool results opens no segment, so a call the next message answers is in one segment with its result |
| CaptureRestarts.TurnsCarry | openviking_gateway/capture.py:82-105 | a call with a result in its own segment is in the segments of a range |
| CaptureRestarts.AdvanceCarries | openviking_gateway/capture.py:107-132 | after `advance` such a call is queued unless something from there on was delivered or confirmed in a session that goes on; a new session has all of them |
| CaptureRestarts.RequestsDepart | openviking_gateway/capture.py:134-257 | in every run a stored request moves the document to a new session if and only if its history departs from the current one, and names itself in it |
| CaptureRestarts.AnsweredCallsAreQueued | openviking_gateway/capture.py:175-257 | in every run, once a cut or stage is stored, every call of its history with a result in its own segment is queued from where nothing was sent, and every one if the history departs, as when it goes on past a tail delivered idle |
| CaptureRestarts.OnlyTheOwnerQueues | openviking_gateway/capture.py:192-240 | in every run a cut or stage of a request that no longer owns the document stores nothing |
| CaptureRestarts.RepeatsRest | openviking_gateway/capture.py:165-207 | in every run a confirm or cut repeated with its history leaves the document alone |
| CaptureOrder.CaptureWalks | openviking_gateway/capture.py:470-535 | captured messages of a range walk through the history: between two of them lie only messages without text |
| CaptureOrder.TurnsWalk | openviking_gateway/capture.py:82-105 | the segments of a range flatten to one such walk that reaches its end, each segment well formed |
| CaptureOrder.WalkDeepens | openviking_gateway/capture.py:107-132 | messages of a walk are strictly deeper one after the other, so none repeats |
| CaptureOrder.WalkCovers | openviking_gateway/capture.py:107-132 | a walk carries every message with text between its ends, once and in order |
| CaptureOrder.WalkIsRecord | openviking_gateway/capture.py:470-535 | without tool calls a walk is exactly the captured history between its ends |
| CaptureOrder.AdvanceWalks | openviking_gateway/capture.py:107-132 | `advance` keeps delivered messages and queue one walk through the request's history, or starts a new session |
| CaptureOrder.AdvanceReaches | openviking_gateway/capture.py:107-132 | what is delivered and queued after `advance` reaches at least `stop` in the request's history |
| CaptureOrder.RemainingCutsThere | openviking_gateway/capture.py:457-467 | `remaining` succeeds if and only if the written message is queued, and leaves exactly what follows its first copy |
| CaptureOrder.RemainingOk | openviking_gateway/capture.py:457-467 | what `remaining` leaves is a well-formed queue, confirmed segments first |
| CaptureWorker.DeliveredWalks | openviking_gateway/capture.py:408-424 | moving the first segment to the delivered messages continues the walk and loses nothing of the queue |
| CaptureWorker.PushWhole | openviking_gateway/capture.py:412-424 | a delivered segment, a continuation or a trimmed one included, keeps the retained counts whole turns |
| CaptureWorker.WholeCounts | openviking_gateway/capture.py:412-424 | the retained counts add up to the messages delivered and not archived |
| CaptureWorker.CommitWhole | openviking_gateway/capture.py:440-454 | archiving the oldest turns leaves whole turns of what remains |
| CaptureWorker.KeepRecent | openviking_gateway/capture.py:440-454 | a commit keeps the shortest suffix of whole turns that reaches `keep_recent_messages`, and nothing when idle |
| CaptureWorker.Save | openviking_gateway/capture.py:269-310 | after any number of lost swaps the stored document has the worker's `delivered`, `retained`, `archive`, `error` and `idle`, and the session, lineage and request of the last document it met; its queue is that document's, or what follows the written message there; otherwise a new session, a lost lease or a reset is reported, and when |
| CaptureSegments.ResultsAreAnswered | openviking_gateway/capture.py:470-500 | the tool results of a range of messages depend on its anchored messages alone |
| CaptureSegments.RangeIsSweep | openviking_gateway/capture.py:470-535 | what a range captures with given results depends on its anchors alone |
| CaptureSegments.TurnsAreSwept | openviking_gateway/capture.py:82-105 | the segments of a range, flattened, are the captures between its two anchors, each user message opening a segment with results of its own |
| CaptureSegments.SweptAt | openviking_gateway/capture.py:82-105 | the captures up to any captured message are those before its segment, then its segment up to it, for some results that include those before it |
| CaptureSegments.ToolsTell | openviking_gateway/capture.py:470-535 | two sets of results give a message the same tools if and only if they agree on its calls |
| CaptureSegments.SweepsTell | openviking_gateway/capture.py:470-535 | two sets of results that capture a stretch alike agree on every call made in it |
| CaptureMerge.QueueIsSwept | openviking_gateway/capture.py:107-132 | the queue `advance` builds on a document without confirmed segments is what is captured after the delivered message |
| CaptureMerge.DropsPrefix | openviking_gateway/capture.py:457-467 | `remaining` drops exactly the written segment if and only if the queue begins with it or lacks its last message |
| CaptureMerge.LateResultBreaks | openviking_gateway/capture.py:287-300 | a late result for a call that the written message does not make, followed by a new user message, makes the merge drop something unwritten |
| CaptureMerge.MergeDropsOnlyWritten | openviking_gateway/capture.py:287-300 | whatever one request stores while a segment is written, the merge drops exactly that segment, if and only if the segment is confirmed or no message from its opening up to before the written one makes a call that the written one does not make |
| CaptureConflicts.ToollessWalk | openviking_gateway/capture.py:470-535 | where no tool is called only one capture of a stretch exists |
| CaptureConflicts.TwoRequests | openviking_gateway/capture.py:269-310 | two requests in a row can make the merge drop an earlier call that was never written, also one before the opening of the segment |
| CaptureConflicts.MergesDropOnlyWritten | openviking_gateway/capture.py:269-310 | whatever number of requests store queues while a segment is written, the merge drops exactly that segment, if and only if the segment is confirmed or no message between the last delivered and the written one makes a call |
| CaptureLoss.FirstCapture | openviking_gateway/capture.py:470-535 | a pending tool call is not captured while its result is missing |
| CaptureLoss.LaterCapture | openviking_gateway/capture.py:470-535 | the same call is captured once its result is there |
| CaptureLoss.LateResultIsDropped | openviking_gateway/capture.py:457-467 | `remaining` drops that call with the reply after it |
| CaptureLoss.CallIsLost | openviking_gateway/capture.py:269-310 | a run of the protocol, from its start, that ends with nothing queued and the call captured but neither recorded nor sent |
| CaptureQueue.SwapConsumesOneVersion | openviking_gateway/capture_store.py:49-75 | a swap leaves the row alone or consumes exactly the version read; with an owner it needs that owner's live lease |
| CaptureQueue.NeverStranded | openviking_gateway/capture.py:60-67 | a row whose ready time is `ready_at` of its value is claimable once its first segment is due and no lease is live |
| CaptureQueue.SQLiteCaptureQueue.Get | openviking_gateway/capture_store.py:42-47 | reads the document with its version, or version 0 |
| CaptureQueue.SQLiteCaptureQueue.Swap | openviking_gateway/capture_store.py:49-75 | moves the one row as the compare-and-swap with lease says, and no other row |
| CaptureQueue.SQLiteCaptureQueue.Claim | openviking_gateway/capture_store.py:77-101 | leases the claimable row that has been ready longest, or says that there is none, and touches no other row |
| CaptureQueue.SQLiteCaptureQueue.Release | openviking_gateway/capture_store.py:103-111 | gives up the lease of the row only if the owner still holds it |
| CaptureProtocol.StoreKeeps | openviking_gateway/capture.py:134-173 | a request's compare-and-swap, won or lost, keeps the invariant |
| CaptureProtocol.ConfirmKeeps | openviking_gateway/capture.py:134-173 | `confirm` keeps the invariant |
| CaptureProtocol.QueueKeeps | openviking_gateway/capture.py:175-257 | `confirm_cut` and `stage` keep the invariant |
| CaptureProtocol.ClaimKeeps | openviking_gateway/capture_store.py:77-101 | claiming keeps the invariant: at most one worker may still write |
| CaptureProtocol.WriteKeeps | openviking_gateway/capture.py:408-411 | sending a batch keeps the invariant, whether or not the worker still holds its lease |
| CaptureProtocol.FinishFits | openviking_gateway/capture.py:408-424 | a segment whose messages were all acknowledged can be recorded as delivered |
| CaptureProtocol.RebaseFits | openviking_gateway/capture.py:287-300 | after a conflict the merged queue starts right after what was written |
| CaptureProtocol.SwapIsCurrent | openviking_gateway/capture.py:269-310 | a worker's swap succeeds only for the lease holder and on the document it last read |
| CaptureProtocol.ReleaseKeeps | openviking_gateway/capture_store.py:103-111 | releasing keeps the invariant |
| CaptureProtocol.StepKeeps | openviking_gateway/capture.py:378-454 | every step of a request, a worker or the clock keeps the invariant |
| CaptureProtocol.RunsKeep | openviking_gateway/capture.py:378-454 | the invariant holds after every run |
| CaptureProtocol.CapturedInOrder | openviking_gateway/capture.py:107-132 | in every run the session's acknowledged messages followed by the queue walk through one history from its start: every message with text once and in order, all captured messages if no tool is called, confirmed segments first |
| CaptureProtocol.RequestIsQueued | openviking_gateway/capture.py:134-257 | in every run, once a confirm, cut or stage is stored, the recorded messages and the queue go through that request's history at least to where it queues |
| CaptureProtocol.RecordedWasReceived | openviking_gateway/capture.py:408-424 | in every run what a session records as delivered walks through one history and reached the server in that order |
| CaptureProtocol.CommitsCount | openviking_gateway/capture.py:412-454 | in every run the retained counts are whole turns and add up to the messages acknowledged and not archived |
| CaptureProtocol.OneLiveLease | openviking_gateway/capture_store.py:77-101 | in every run two workers never hold live leases at once |
| CaptureProtocol.DueIsClaimable | openviking_gateway/capture.py:60-67 | in every run a document without an error whose first segment is due can be claimed as soon as no lease is live |
| CaptureProtocol.LineageHolds | openviking_gateway/capture.py:39-57 | in every run the earlier sessions a document names are at most five, distinct, not the current one, and hold saved messages |
| CaptureSaves.SavingStays | openviking_gateway/capture.py:269-310 | whatever requests and other workers do meanwhile, a worker that retries its save keeps the fields it set out to store |
| CaptureSaves.WonStores | openviking_gateway/capture.py:269-310 | in every run a won save leaves the worker's five fields and everything else of the document it replaced |
| CaptureSaves.CommitIsStored | openviking_gateway/capture.py:435-454 | in every run a saved commit, after any number of conflicts, leaves the archive it started and keeps nothing when idle, else the shortest suffix of turns that reaches the limit; the queue is the request's |
| CaptureSaves.ChangeIsStored | openviking_gateway/capture.py:385-433 | in every run the other saves change their own field and no other: an observed archive, a cleared error, a revoked key after which nobody is due |
| CaptureSaves.FailureIsStored | openviking_gateway/capture.py:321-337 | in every run a saved failure is the one met, and the document is due at its retry time |
| CaptureSaves.DeliveryIsStored | openviking_gateway/capture.py:412-423 | in every run a recorded segment moves `delivered` to its anchor, adds its messages to the counts and sets `idle` exactly if it was not confirmed |
| CaptureSaves.PushCounts | openviking_gateway/capture.py:412-416 | a delivered segment adds its messages to the counts, in the last entry if it continues one |
| CaptureSaves.WritesAreDue | openviking_gateway/capture.py:408-411 | a write sends the next hundred messages at most of a segment that is due, and the segment is finished exactly when all were sent |
| CaptureSaves.ErrorsWait | openviking_gateway/capture.py:60-62 | in every run a document with an error can be claimed if and only if its retry time has come and no lease is live |
| CaptureSaves.DueDocuments | openviking_gateway/capture.py:63-67 | in every run one without an error can be claimed if and only if its first segment or its open archive is due and no lease is live |
| CaptureSaves.ReleaseFrees | openviking_gateway/capture_store.py:103-111 | a released document that is due can be claimed at once |
| CaptureSaves.ClaimsExclude | openviking_gateway/capture_store.py:77-101 | in every run nobody claims a document for 120 seconds after a claim unless it is released |
| Stores.SQLiteStateStore.Swap | openviking_gateway/state_store.py:44-64 | inserts if absent or replaces the version read, and says which; no other key changes |
| Stores.SQLiteReplayStore.Put | openviking_gateway/replay_store.py:71-89 | keeps the first value and answers with the value kept |
| RecallLedger.ReserveRecall | openviking_gateway/kernel.py:592-622 | the swap loop, by the last document it met: the anchor's reservation is shared; or nothing is stored because fewer than 64 tokens are left of the allowance or the cap; or the smaller of the two is added to `spent` and `pending`, the other fields kept |
| RecallLedger.SettleRecall | openviking_gateway/kernel.py:624-641 | the swap loop: it stops once the reservation is gone, and settles the last document it met |
| RecallLedger.OwnCostBelowSpent | openviking_gateway/kernel.py:592-641 | what an era's own requests decided or reserved never costs more than the ledger holds as spent |
| RecallLedger.StepKeeps | openviking_gateway/kernel.py:496-581 | every step of reserving, deciding, settling, crashing and observing keeps the ledger's invariant |
| RecallLedger.LedgerIsExact | openviking_gateway/kernel.py:592-641 | in every run `spent` is exactly what was settled for the era's anchors and what is reserved |
| RecallLedger.NeverOverspends | openviking_gateway/kernel.py:496-513 | in every run the distinct decisions on all anchors the era started from or reserved, and its undecided reservations, stay within `session_max_tokens` plus what requests of earlier eras decided on those anchors; within the cap itself if none did |
| RecallLedger.DecisionsWithinCap | openviking_gateway/kernel.py:577-641 | a run keeps those decisions within the cap all the way if and only if no step of it records more, or takes up an anchor for more, than is reserved and left |
| RecallLedger.OwnDecisionsFit | openviking_gateway/kernel.py:577-581 | a decision under a reservation of the current era is never such a step |
| RecallLedger.DecisionsCanOverspend | openviking_gateway/kernel.py:577-581 | a concrete run of three requests in which the decisions pass the cap, one of them deciding an anchor that a later window has reserved |
| RecallLedger.SpentWithinCap | openviking_gateway/kernel.py:624-641 | a run keeps `spent` within the cap all the way if and only if no settlement in it replaces a reservation by a decision larger than the reservation and what is left |
| RecallLedger.CleanLedgerIsExact | openviking_gateway/kernel.py:592-641 | in particular until a decided anchor is reserved or a reserved one decided from elsewhere |
| RecallLedger.SpentCanOvershoot | openviking_gateway/kernel.py:592-641 | a concrete run in which `spent` passes the cap, because a settled anchor is reserved again |
| RecallLedger.OfferExactly | openviking_gateway/kernel.py:604-621 | what a document offers a request, by what its ledger has spent and holds in reserve |
| RecallBudgets.ExtraIsLastObserved | openviking_gateway/kernel.py:611-618 | in every run the document's other fields are those of the last observation; reserving and settling keep them |
| RecallBudgets.WindowMoves | openviking_gateway/kernel.py:603-618 | only a reservation moves the ledger to another window, that request's |
| RecallBudgets.SettlesUntilGone | openviking_gateway/kernel.py:624-641 | a settlement ends exactly when its reservation is gone from what it read or it took it out itself, and otherwise goes on with the current document |
| RecallBudgets.ReservationsAreSized | openviking_gateway/kernel.py:608-616 | in every run every open reservation is between 64 tokens and `max_tokens` |
| RecallBudgets.GrantsAreSized | openviking_gateway/kernel.py:605-610 | in every run so is what a request was granted |
| RecallBudgets.RefusedExactly | openviking_gateway/kernel.py:604-610 | a request that read the current document is refused if and only if its anchor has no reservation in this window and fewer than 64 tokens are left of `max_tokens` or of the cap |
| RecallBudgets.GrantedExactly | openviking_gateway/kernel.py:605-622 | otherwise it shares the reservation, or takes the smaller of the two, which the ledger then holds as spent and pending |
| RecallBudgets.RefusalsAreDue | openviking_gateway/kernel.py:608-610 | in every run a refused request of the ledger's window found what was settled and reserved within 64 tokens of the cap, unless `max_tokens` is below 64 |
| ToolReceipts.StepKeeps | openviking_gateway/tool_executor.py:193-243 | every step of any execution of one call keeps the receipt's invariant |
| ToolReceipts.AtMostOnce | openviking_gateway/tool_executor.py:193-243 | over any concurrent, retried or abandoned executions the call starts at most once, at most one outcome is stored, and every answer that is not a failure is that outcome |
| ToolReceipts.CompletionsAnswer | openviking_gateway/tool_executor.py:226-233 | in every run an execution that completed answers exactly what its call returned, success or failure, and that is the stored outcome |
| ToolReceipts.AnswersAreOutcomes | openviking_gateway/tool_executor.py:209-243 | in every run an answer is the stored outcome, failed or not, unless the execution gave up waiting or its deadline passed while it stored, and then it says the outcome is unknown |
| ToolReceipts.OutcomesAreSourced | openviking_gateway/tool_executor.py:226-243 | in every run the stored outcome is what the call returned, or unknown after a timeout, or failed after bad arguments or an error |
| ToolReceipts.LateOutcomesStay | openviking_gateway/tool_executor.py:226-243 | in every run an outcome stored as its deadline passed stays what the call returned |
| ToolReceipts.PollsAnswer | openviking_gateway/tool_executor.py:209-225 | in every run an execution that lost the claim finds the receipt, and its polls answer the stored outcome, failed or not, as soon as there is one |
| Semaphore.AsyncSemaphore.Enter | openviking/concurrency.py:77-83 | takes a free permit or queues a future, and keeps waiters in order of arrival |
| Semaphore.AsyncSemaphore.Withdraw | openviking/concurrency.py:86-95 | leaves the queue, and reports a grant exactly if the caller was neither queued nor cancelled |
| Semaphore.AsyncSemaphore.Release | openviking/concurrency.py:100-107 | the loop hands the permit to the first waiter not cancelled, or frees it |
| Semaphore.HeirIsGranted | openviking/concurrency.py:100-107 | the heir was pending and is granted; without one the value grows |
| Semaphore.OthersKeepWaiting | openviking/concurrency.py:100-107 | of those queued only the heir and cancelled callers leave, and the heir came before those who stay |
| Semaphore.CleanUpKeeps | openviking/concurrency.py:86-98 | a cancelled wait keeps every permit accounted for, whichever way it raced with a grant |
| Semaphore.StepKeeps | openviking/concurrency.py:77-107 | every step keeps the invariant |
| Semaphore.PermitsConserved | openviking/concurrency.py:77-107 | in every run free, held, granted but unnoticed and returning permits add up to the initial value; holders never exceed it; all come back |
| Semaphore.NobodyWaitsForAFreePermit | openviking/concurrency.py:77-107 | in every run a positive value means that nobody waits |
| Semaphore.FirstComeFirstServed | openviking/concurrency.py:77-107 | in every run permits are given in order of arrival, passing over only callers that were cancelled or stopped waiting |
| BoundedMap.StepKeeps | openviking/concurrency.py:35-52 | every step of a task or the caller keeps the invariant |
| BoundedMap.ClaimsAreAPrefix | openviking/concurrency.py:35-52 | under every schedule items are claimed once each in input order, and at most `concurrency` are in flight |
| BoundedMap.NothingClaimedAfterStop | openviking/concurrency.py:35-59 | once stop is set no schedule claims another item |
| BoundedMap.NothingClaimedAfterFailure | openviking/concurrency.py:35-59 | after a failed call no schedule claims another item |
| BoundedMap.Collect | openviking/concurrency.py:60 | the list returned holds the results by increasing index |
| BoundedMap.ReturnsEveryAnswerInOrder | openviking/concurrency.py:54-60 | a normal return has exactly one answer for each item, the one the worker gave for it |
| Cuts.CutLeaves | openviking_gateway/compaction.py:90-93 | from any later position a cut leaves the same tail after the same system messages |
| Cuts.CutAbsorbs | openviking_gateway/compaction.py:90-93 | cutting a cut history at a later or equal original position is cutting the original there |
| Cuts.CutReads | openviking_gateway/compaction.py:90-93 | a cut history reads: the system messages of the replaced part, one message with the cut's text, the rest untouched |
| Cuts.AppliedReads | openviking_gateway/compaction.py:96-108 | `apply_cut` puts the text of the latest recorded cut before everything after its anchor, without anchors up to there, and changes nothing without one |
| Cuts.Latest | openviking_gateway/compaction.py:72-77 | the active cut is the last anchored position with a recorded cut |
| Cuts.AppliedKeeps | openviking_gateway/compaction.py:96-108 | `apply_cut` keeps body and chain the same length and the anchors after the cut in order |
| Cuts.RestoredKeeps | openviking_gateway/kernel.py:752-777 | restoring reasoning keeps body and chain the same length and every anchor in order |
| Cuts.RestoredReads | openviking_gateway/kernel.py:766-775 | each message keeps its anchor; an uncovered reply with recorded reasoning gets the thought if it has none, or the recorded items before it unless one is there; any other message is unchanged |
| Cuts.AnchorsAfterCutSurvive | openviking_gateway/kernel.py:726-736 | after both, the chain is aligned and its anchors are exactly those after the cut |
| Cuts.Request.ApplyCut | openviking_gateway/compaction.py:96-108 | rewrites body and chain in place as specified |
| Cuts.Request.CoveredItems | openviking_gateway/kernel.py:760-765 | collects exactly the items that a hidden transcript replaces |
| Cuts.Request.RestoreReasoning | openviking_gateway/kernel.py:752-777 | the loop rewrites body and chain in place as specified, anchors kept |
| Replay.ReplayHidden | openviking_gateway/tool_protocols/__init__.py:91-104 | the loop with offsets computes the expanded history |
| Replay.AppliedJoined | openviking_gateway/compaction.py:96-108 | messages after the last cut do not change how it is applied |
| Replay.RestoredJoined | openviking_gateway/kernel.py:752-777 | a reply that a transcript will replace is left alone, and so is everything before it |
| Replay.ExpandedJoined | openviking_gateway/tool_protocols/__init__.py:91-104 | a recorded transcript takes the place of the whole visible reply and of nothing else |
| Replay.NextRequestContinues | openviking_gateway/kernel.py:726-749 | the next request assembles this request's history, then the transcript, then the new messages |
| Windows.ScannedLeads | openviking_gateway/tool_protocols/__init__.py:91-104 | expanding transcripts keeps the system messages in order |
| Windows.AssembledEnd | openviking_gateway/kernel.py:726-749 | assembly keeps the messages after the last anchor, and the system messages before them |
| Windows.ResetIsTheCut | openviking_gateway/tool_loop.py:184-193 | the window `reset` cuts, counting from the end of the assembled body, is the client's own history cut at its last anchored message |
| Windows.WindowOffered | openviking_gateway/windows.py:184-189 | the test `new_context` makes holds if and only if the cut this request was built on lies before the last anchor |
| Windows.WindowAssembled | openviking_gateway/compaction.py:96-108 | a request that finds the window recorded assembles that cut and nothing else |
| Windows.NextRequestContinuesWindow | openviking_gateway/tool_loop.py:184-193 | after a reset the next request assembles the new window, the transcript since, then the new messages |
| ToolLoop.HiddenToolLoop.Observe | openviking_gateway/tool_loop.py:96-106 | adds the round's output to the transcript and, after the first round, its tokens to the cost |
| ToolLoop.HiddenToolLoop.AnswerCalls | openviking_gateway/tool_loop.py:145-167 | the loop computes the batch of answers, one per call, all refusals in a closed request; what the batch holds is stated call by call by `ToolRounds.AnsweredAccounts` |
| ToolLoop.HiddenToolLoop.Execute | openviking_gateway/tool_loop.py:118-182 | one round as specified, or an error after a refused round in a closed request |
| ToolLoop.HiddenToolLoop.Reset | openviking_gateway/tool_loop.py:184-193 | the body becomes the cut and the transcript is empty |
| ToolLoop.HiddenToolLoop.Classify | openviking_gateway/tool_loop.py:255-265 | separates gateway calls from client calls, or fails at a gateway tool not offered |
| ToolLoop.HiddenToolLoop.Pass | openviking_gateway/tool_loop.py:251-280 | one upstream reply read to its end, as specified |
| ToolLoop.HiddenToolLoop.Consume | openviking_gateway/tool_loop.py:247-280 | the loop over upstream replies, as specified |
| ToolLoop.ExecutedBody | openviking_gateway/tool_loop.py:118-193 | a round keeps the body equal to base and transcript |
| ToolLoop.ExecutedLimits | openviking_gateway/tool_loop.py:125-137 | a round keeps the limits' invariant, and a closed request stays closed |
| ToolLoop.ResetsAlone | openviking_gateway/tool_loop.py:141-144 | a new window starts only in a round of that one call, never in one that hands calls to the client |
| ToolLoop.RunKeeps | openviking_gateway/tool_loop.py:247-280 | every run keeps the loop's invariant; a closed request stays closed |
| ToolLoop.TranscriptIsExact | openviking_gateway/tool_loop.py:247-280 | whatever model and tools answer, every body sent is the base followed by the transcript, and so is the last body with the final output |
| ToolLoop.RoundsAreBounded | openviking_gateway/tool_loop.py:118-182 | at most one round is refused, no call starts once a limit is reached, and there are at most one more rounds than either limit |
| ToolLoop.RequestEnds | openviking_gateway/tool_loop.py:118-182 | under either limit the loop stops waiting for replies |
| ToolRounds.AnsweredAccounts | openviking_gateway/tool_loop.py:145-167 | one result per call in order: the executor's answer if and only if the call was started, the refusal if and only if closed or out of tokens by then, else that a new window must come alone; the cost grows by a third of each result's size |
| ToolRounds.OwnedInOrder | openviking_gateway/tool_loop.py:255-265 | separating gateway calls from client calls keeps their order |
| ToolRounds.FailsExactly | openviking_gateway/tool_loop.py:134-136 | a reply fails if and only if it names a gateway tool not offered, or calls gateway tools with a wrong stop reason, or in a closed request right after a refused round |
| ToolRounds.ResetsIs | openviking_gateway/tool_loop.py:141-171 | a new window starts if and only if the round's one call asked for it, ran and got a cut |
| ToolRounds.RoundIsTold | openviking_gateway/tool_loop.py:96-182 | what a reply's calls were told, what the round cost (reported tokens or a third of the size, and in the first round a third of its calls), and what became of the transcript |
| ToolRounds.TranscriptIsTold | openviking_gateway/tool_loop.py:247-280 | in every run that does not fail the transcript is, round by round since the last new window, the output followed by those results; every round was judged by what had been spent by then, and the executor calls are exactly those of the executed calls |
| Continuity.AssembledReads | openviking_gateway/kernel.py:726-749 | assembly depends only on what is recorded at the history's own anchors |
| Continuity.NextRequestReplaysTheLoop | openviking_gateway/tool_loop.py:195-237 | for every run of the hidden loop that ends, with or without a new window, the next request sends the last body of the run, the output after it, then the new messages |
| Profile.EstimateTokens | openviking_gateway/profile.py:22-24 | the estimate is within a budget exactly when the weight is within four times it |
| Profile.Truncate | openviking_gateway/profile.py:27-39 | fits the budget; the text itself if it fits, else the longest prefix that leaves room for the suffix, or nothing |
| Profile.SplitThenJoin | openviking_gateway/profile.py:45 | the lines of a text joined again are the text |
| Profile.KeepTail | openviking_gateway/profile.py:48-53 | keeps as many last lines as fit |
| Profile.ElideProfile | openviking_gateway/profile.py:42-56 | fits the budget; the text itself, its first eight lines and as many last ones as fit, or a truncation |
| Profile.FormatListing | openviking_gateway/profile.py:59-82 | shows the listing of the longest prefix of entries that fits, its note counting exactly the rest, or nothing |
| Profile.FillCatalog | openviking_gateway/profile.py:129-144 | the groups' lines together fit the listing budget; all are listed in full if they fit in full, and whenever nothing is left out |
| Profile.SectionFits | openviking_gateway/profile.py:147-148 | a section whose content fits the listing budget fits its whole budget, so the catalog's last guard is redundant |
| Profile.FormatSkillCatalog | openviking_gateway/profile.py:123-153 | fits the budget; lists everything if everything fits; everything without summaries, or with them, if the names fit; is empty only if even the count of skills does not fit |
| Profile.ProfilePart | openviking_gateway/profile.py:263-270 | takes at most half of what remains; holds the whole profile if that fits |
| Profile.MemoriesPart | openviking_gateway/profile.py:271-288 | fits what remains; preferences get half of the room and entities the rest |
| Profile.BuildProfile | openviking_gateway/profile.py:256-290 | for all profiles, listings, skills and budgets the text's estimate is at most `profile_max_tokens`; profile and skills are whole if they fit their shares, and the memories are the best two listings of what is left |
| ProfileReads.EstimateReads | openviking_gateway/profile.py:22-24 | the estimate is a quarter token for every character and five quarters more for each at or above U+3000, rounded up |
| ProfileReads.DecimalReads | openviking_gateway/profile.py:70-78 | a printed count is a numeral without leading zeros that reads back as the number |
| ProfileReads.ListingReads | openviking_gateway/profile.py:59-82 | a listing is its heading, the lines of the first entries in order and, if any are left out, a note with exactly their number; or one line with the number of all |
| ProfileReads.CollapseReads | openviking_gateway/profile.py:65 | collapsing blanks keeps every other character and leaves one space for each run |
| ProfileReads.EntryReads | openviking_gateway/profile.py:64-66 | an entry's line is its name and at most 200 characters of its collapsed summary |
| ProfileReads.JoinThenSplit | openviking_gateway/profile.py:45-55 | joined lines split back into themselves |
| ProfileReads.ElisionReads | openviking_gateway/profile.py:42-56 | an elided profile reads: its own first eight lines, the note, its own last lines |
| Profile.SummariesGo | openviking_gateway/profile.py:130-134 | the second pass drops the summaries and nothing else |
| Sse.FramesReproduce | openviking_gateway/protocols.py:553-562 | frames and remaining buffer reproduce the input |
| Sse.FramedExtends | openviking_gateway/protocols.py:553-562 | feeding more bytes later is feeding them at once to what was left |
| Sse.ChunksDoNotMatter | openviking_gateway/protocols.py:553-562 | every split that raises no limit error gives the frames and the buffer of one whole feed |
| Sse.SplitsFailAlike | openviking_gateway/protocols.py:553-562 | a split raises no error if and only if after each chunk the unfinished rest is within the limit |
| Sse.MessageIsOneFrame | openviking_gateway/protocols.py:542-562 | an event of non-empty lines with LF or CRLF ends and a blank line is exactly one frame |
| Sse.MessagesRoundTrip | openviking_gateway/protocols.py:542-562 | a stream of such events is framed into exactly those events |
| Sse.ChunksGiveMessages | openviking_gateway/protocols.py:553-562 | and so it is however it is split into chunks |
| Sse.SSEDecoder.Feed | openviking_gateway/protocols.py:553-562 | the loop over frame ends computes the frames and the rest, and fails if the rest is too long |
| Cache.TTLCache.Get | openviking_gateway/cache.py:15-25 | a live key shares its load, any other starts one; the key moves to the end and the least recently used are evicted |
| Cache.TTLCache.Forget | openviking_gateway/cache.py:26-30 | a failed load's entry goes unless another took its place |
| Cache.TTLCache.Clear | openviking_gateway/cache.py:32-33 | the cache is empty |
| Cache.MovesToEnd | openviking_gateway/cache.py:18-25 | replacing in place or appending, evicting and moving to the end amounts to least-recently-used order |
| Cache.LookupOrder | openviking_gateway/cache.py:15-25 | a lookup moves its key to the end, keeps the others in order, and evicts only the least recently used, for a new key in a full cache |
| Cache.PresentKeysShare | openviking_gateway/cache.py:16-21 | in every run a read of a present key shares its load if and only if that is younger than the time to live; any other read starts one |
| Cache.FailedLoadsGo | openviking_gateway/cache.py:26-30 | after a failed load its key is absent, other entries and a newer one for the key stay |
| Cache.StepKeeps | openviking_gateway/storage.py:82-118 | every lookup, load, failure, write and clear keeps the invariant |
| Cache.ReadsFollowWrites | openviking_gateway/storage.py:82-112 | in every run a cached read shares a load started after every write that had returned when it began and within the time to live, so it includes those writes; the size stays within capacity |

## Left out

- CaptureProtocol.CapturedInOrder: equality with all captured messages is stated for histories without tool calls; with them, for every message with text, because a result that arrives late changes what is captured.
- CaptureProtocol.RecordedWasReceived: acknowledged deliveries only; a write whose response is lost is sent again by design.
- RecallLedger.CleanLedgerIsExact: one direction, a corollary; `SpentWithinCap` is the exact statement.
- Replay.ReplayHidden: the Anthropic adapter's merging of adjacent tool results after the loop is not modelled; the other two adapters do nothing there.
- Windows.ResetIsTheCut: for the Anthropic adapter, before that merging.
- Profile.BuildProfile: HTML escaping of the opening tag and neutralizing of fetched text happen before the model's inputs.
- Cuts.Refilled: reasoning put back into a reply is one field; where Anthropic blocks go inside the reply is not modelled.
- The capture document's credential, policy, token and reason fields, which no modelled branch reads.
- Document expiry, migrations, SQL and encryption in storage.py.
- redis_store.py: its atomic steps are scripts that are not part of this model.
- HTTP routing, proxying, authentication handlers and the model clients.
- Text rules written as regular expressions: `clean_text`, `unwrap_client`, `plugin_present`, `classify`, `normalize`.
- `result_text`, which joins and truncates a tool's text blocks, argument checks and file uploads in tool_executor.py: no property here depends on them, since a tool's answer is an arbitrary input.
- The wire formats of the three protocol adapters; adapter notices and stream events of the hidden loop.
- Wall-clock deadlines of the hidden loop: a run may stop before any reply.
- Compaction by summary, its estimates and backoff; the choice of a cut point.
- The retry schedule of failed deliveries: a failure carries any retry time.
- Window status lines and reminders.
- Setup wizard, doctor, build scripts, benchmarks and the C++ bindings.
