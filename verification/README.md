# Codex client protocols, verified

A Dafny model of the stateful parts of the Codex app-server clients and of the analytics
reducer, with proofs about all their runs.

| files | what they model |
|---|---|
| `Forwarder.dfy`, `ForwarderGaps.dfy`, `ForwarderTiers.dfy`, `ForwarderWorker.dfy` | the in-process event forwarder: a bounded queue with a lossless and a best-effort tier, lag markers and refused server requests |
| `RemoteCalls.dfy`, `RemoteWorker.dfy`, `RemoteExchange.dfy`, `RemoteHandshake.dfy`, `RemoteClient.dfy` | the remote JSON-RPC client: calls and their answers, the event stream, the handshake, every way the worker can end |
| `Reducer.dfy`, `AnalyticsReducer.dfy`, `ReducerHistory.dfy`, `ReducerEvents.dfy`, `ReducerTurns.dfy`, `ReducerPayload.dfy`, `ReducerOrigin.dfy`, `ReducerConfluence.dfy`, `ReducerLedger.dfy` | the analytics reducer over its seven maps, and what its events say about the whole history of facts |
| `Whitespace.dfy`, `AcceptedLines.dfy`, `DiffRoundTrip.dfy` | the scanner that counts and fingerprints the added lines of a unified diff |
| `Batches.dfy` | grouping analytics events into requests |
| `WrapperArgs.dfy`, `WrapperLaws.dfy` | the lint wrapper's argument normaliser |
| `HostPath.dfy` | `join` and `components` of app-server paths |

The three protocols are built alike. A value state and a total `Step` (or `Next`) function say
what one action or fact does; `Run` (or `After`) folds it over any sequence, so a for-all over
sequences is a for-all over interleavings. A class holds the fields the program updates in place;
each of its methods changes them as the program does and is proved to perform exactly one such
step. The results are then lemmas about all runs of the step function, stated in the terms of what
went in and came out: events taken and delivered, messages written and answered, facts ingested.

Where the program does not do what one would hope, the model keeps what it does, and the exact
condition is proved:

- The comment on `forward_in_process_event` says a dropped server request is rejected. A request
  whose call finds the consumer gone is neither queued nor rejected
  (`Forwarder.ClosedConsumerLeavesRequestUnanswered`); `Forwarder.RequestPartition` says that a
  finished call leaves its request unanswered exactly if a poll of it finds the consumer closed.
- `skipped_events` saturates at `usize::MAX` (taken as 2^64 - 1). A gap is told exactly if and only
  if no drop in it met the saturated counter (`ForwarderGaps.ExactGaps`), which cannot happen with
  up to `usize::MAX` drops in that gap; with one more it can (`ForwarderGaps.SaturatedGap`).
- The three facts that complete a turn commute exactly when the turn holds nothing that lets its
  event out early (`ReducerConfluence.Waits`, `ReducerConfluence.TurnConfluence`).
- Argument normalisation is idempotent unless the manifest path is `--` and has to be inserted
  (`WrapperArgs.NormalizeIdempotent`).
- `join` adds one component unless the path is a Windows path made only of separators
  (`HostPath.JoinAddsOneComponent`).

## Model

| member | source | states |
|---|---|---|
| Forwarder.StepKeepsInv | codex-rs/app-server-client/src/lib.rs:196-262 | every step of the worker, the forwarder and the consumer keeps the invariant tying queue, counter, log, drops and refusals to the inputs |
| Forwarder.RunKeepsInv | codex-rs/app-server-client/src/lib.rs:491-593 | the invariant holds after any interleaving, for any channel capacity |
| ForwarderGaps.ExactGaps | codex-rs/app-server-client/src/lib.rs:196-262 | in every run, for every two neighbouring real events in the log (or the start and the first): the forwarder's own markers between them, plus the drops there that met a saturated counter, are the drops there; they are exact iff no poll in that gap met a full queue with the counter at usize::MAX, hence whenever at most usize::MAX events were dropped in that gap |
| ForwarderGaps.OpenGap | codex-rs/app-server-client/src/lib.rs:196-262 | the same for the gap still open, its markers and `skipped_events` together |
| ForwarderGaps.LostExactly | codex-rs/app-server-client/src/lib.rs:226-232 | a drop goes uncounted exactly if some poll of its call met a full queue with the counter at usize::MAX |
| Forwarder.Conservation | codex-rs/app-server-client/src/lib.rs:196-262 | settled inputs handed to the forwarder = enqueued real events + marker counts + `skipped_events` + drops lost to saturation; none are lost up to usize::MAX drops |
| Forwarder.LosslessTier | codex-rs/app-server-client/src/lib.rs:139-175 | the must-deliver events enqueued are the must-deliver inputs, in order; real events are a subsequence of the inputs; the consumer sees a prefix of the log and the queue holds the rest, within capacity |
| ForwarderTiers.ListedAreNeverLost | codex-rs/app-server-client/src/lib.rs:163-175 | in every run none of the eight notifications listed in the source is ever dropped, each settled one is in the log once, and those in the log are those settled, in order |
| ForwarderTiers.PollExactly | codex-rs/app-server-client/src/lib.rs:205-261 | in every run and for every capacity: a poll that meets a full queue leaves a listed event waiting and drops any other at once, counting it up to 2^64 - 1; with room nothing is dropped and the pending marker or the event itself goes in |
| ForwarderTiers.CapacityStays | codex-rs/app-server-client/src/lib.rs:484-489 | the queue has the capacity asked for, at least one, throughout |
| ForwarderTiers.TakeExactly | codex-rs/app-server-client/src/lib.rs:543-590 | an event is taken only by a running worker with its stream enabled and no call under way; an auth refresh is refused at once with -32000 and its own id, anything else starts a call |
| ForwarderTiers.GivenUpIsLast | codex-rs/app-server-client/src/lib.rs:584-590 | after a call found the consumer gone, nothing is taken any more |
| ForwarderTiers.StoppedTakesNothing | codex-rs/app-server-client/src/lib.rs:532-546 | a stopped worker takes nothing, delivers nothing and drops nothing |
| ForwarderTiers.PayloadExactly | codex-rs/app-server-client/src/lib.rs:130-136 | the consumer sees the runtime's event itself, or a `Lagged` event with the marker's count |
| Forwarder.RequestPartition | codex-rs/app-server-client/src/lib.rs:543-590 | a server request is enqueued once or refused once, never both, with its own id and the right code; neither exactly while its call is under way, or if a poll of its call found the consumer gone |
| Forwarder.GivenUpExactly | codex-rs/app-server-client/src/lib.rs:236-261 | a call is given up exactly if some poll of it found the consumer gone |
| Forwarder.PolledWhenMeans | codex-rs/app-server-client/src/lib.rs:205-261 | a guard was met by a poll exactly if some position of the run polls a state that satisfies it |
| Forwarder.ClosedConsumerLeavesRequestUnanswered | codex-rs/app-server-client/src/lib.rs:250-261 | a concrete run in which a request is neither enqueued nor rejected |
| Forwarder.CallCompletes | codex-rs/app-server-client/src/lib.rs:205-261 | with an open consumer that makes room twice, a call ends, and its event is delivered and not dropped |
| ForwarderGaps.FloodState | codex-rs/app-server-client/src/lib.rs:226-232 | n best-effort events against a full queue of one leave the counter at min(n, usize::MAX), inputs 1 to n dropped and the log untouched |
| ForwarderGaps.SaturatedGap | codex-rs/app-server-client/src/lib.rs:207-232 | for every n > 0, a run with n drops in one gap: its one marker tells the truth iff n fits in a usize |
| ForwarderGaps.SkippedBetween | codex-rs/app-server-client/src/lib.rs:226-259 | an input strictly between two neighbouring delivered ones was dropped unless it was an auth refresh |
| ForwarderWorker.Worker.constructor | codex-rs/app-server-client/src/lib.rs:484-495 | the worker starts with an empty queue of at least one place and a zero counter |
| ForwarderWorker.Worker.Take | codex-rs/app-server-client/src/lib.rs:543-566 | taking an event is one step: an auth refresh is refused with -32000, anything else starts a forward call |
| ForwarderWorker.Worker.Poll | codex-rs/app-server-client/src/lib.rs:205-261 | one poll of the pending send is one step, and the result and refusal it reports are those of the step |
| ForwarderWorker.Worker.Pop | codex-rs/app-server-client/src/lib.rs:747-749 | the consumer receives the oldest entry, a marker looking like a `Lagged` event |
| ForwarderWorker.Worker.CloseConsumer | codex-rs/app-server-client/src/lib.rs:244-246 | dropping the receiving end discards what is queued |
| ForwarderWorker.Worker.Exit | codex-rs/app-server-client/src/lib.rs:532-546 | the loop ends only between calls |
| RemoteCalls.HandleCommandMoves | codex-rs/app-server-client/src/remote.rs:221-318 | handling a command moves exactly its caller: out of the queue, to pending if its request is registered and to answered otherwise; every other caller stays where it is |
| RemoteCalls.HeadIsSubmitted | codex-rs/app-server-client/src/remote.rs:221-226 | whatever is in the command channel was put there by a call, so no queued command is ever passed over |
| RemoteCalls.SettleMoves | codex-rs/app-server-client/src/remote.rs:323-332 | an answer moves exactly the caller registered under its id, from pending to answered |
| RemoteCalls.DropChannelMoves | codex-rs/app-server-client/src/remote.rs:635-655 | when the worker is gone, each place in the queue or before it turns into one answer; pending and answered callers stay |
| RemoteCalls.SubmitMoves | codex-rs/app-server-client/src/remote.rs:635-655 | a new call is answered if the worker is gone, queued if there is room, and blocked otherwise; nobody else moves |
| RemoteCalls.AdmitMoves | codex-rs/app-server-client/src/remote.rs:637-643 | the first blocked caller moves into the queue when there is room; nobody else moves |
| RemoteCalls.RequestWriteKeepsRoutes | codex-rs/app-server-client/src/remote.rs:227-260 | writing a request whose id is not in flight keeps single flight, routing and tracking, whether or not the write succeeds |
| RemoteCalls.HandleCommandRoutes | codex-rs/app-server-client/src/remote.rs:221-318 | so does every command |
| RemoteCalls.SettleRoutes | codex-rs/app-server-client/src/remote.rs:323-332 | so does every response and error frame |
| RemoteWorker.StepKeepsInv | codex-rs/app-server-client/src/remote.rs:215-475 | every step keeps the invariant on callers, routes, event stream and exit error |
| RemoteWorker.RunKeepsInv | codex-rs/app-server-client/src/remote.rs:215-475 | the invariant holds after any interleaving, any split of the wire by the handshake and any write results |
| RemoteWorker.EveryCallAnsweredOnce | codex-rs/app-server-client/src/remote.rs:216-474 | at all times each call is exactly one of blocked, queued, pending, answered, and is answered at most once; after exit each has exactly one answer |
| RemoteWorker.PendingCallersGetTheExitError | codex-rs/app-server-client/src/remote.rs:466-474 | whoever is pending when the loop is left is failed with the worker's exit error, in whatever order the map is drained |
| RemoteWorker.AnswersReachTheirCallers | codex-rs/app-server-client/src/remote.rs:227-332 | two writes of one id have the first caller's answer between them; a server answer reaches a caller that asked under that id after its request was written; for each id the answers are no more than the frames read since the handshake that carry one |
| RemoteWorker.NoAnswerUsedTwice | codex-rs/app-server-client/src/remote.rs:323-332 | for every property of answers, the callers that got an answer with it are no more than the frames since the handshake that carried one |
| RemoteExchange.PendingIsInFlight | codex-rs/app-server-client/src/remote.rs:237-260 | the pending map holds exactly the callers whose request was written and who have had no answer |
| RemoteExchange.FrameAnswersItsCaller | codex-rs/app-server-client/src/remote.rs:323-332 | a response or error frame read by the running worker gives its content to the caller in flight under its id, does nothing else, and leaves nobody in flight there; if nobody is, it changes no call |
| RemoteExchange.EveryAnswerFrameAnswers | codex-rs/app-server-client/src/remote.rs:323-332 | the same after every run: the next effect is that caller's answer |
| RemoteExchange.FramesExactly | codex-rs/app-server-client/src/remote.rs:333-460 | which frames end the worker, with which error or none, and that the others touch no call except for the reply to an unsupported request |
| RemoteExchange.CommandsExactly | codex-rs/app-server-client/src/remote.rs:221-318 | what each kind of command writes, answers and ends, with "duplicate" told by what is in flight |
| RemoteExchange.EndExactly | codex-rs/app-server-client/src/remote.rs:635-655 | when the worker ends, queued callers have lost their reply channel and blocked ones find the worker channel closed |
| RemoteExchange.AfterTheEnd | codex-rs/app-server-client/src/remote.rs:637-648 | a call after the end fails at once, one before it waits its turn; without callers the loop ends without an error |
| RemoteExchange.CallsAreWrittenInOrder | codex-rs/app-server-client/src/remote.rs:221-303 | in every run, what was written for callers is, message by message, what they asked for, each at most once and in the order of the calls |
| RemoteExchange.ChannelIsBounded | codex-rs/app-server-client/src/remote.rs:167-213 | the command channel has the capacity asked for, at least one, and never holds more |
| RemoteWorker.DuplicatesAndStrays | codex-rs/app-server-client/src/remote.rs:227-332 | a duplicate id is refused without a write and the first caller stays; an answer to an unknown id changes no call |
| RemoteWorker.ConsumedIsTheWire | codex-rs/app-server-client/src/remote.rs:319-460 | the frames read are a prefix of the wire, all of it while the worker runs |
| RemoteWorker.OneDisconnectedAtTheEnd | codex-rs/app-server-client/src/remote.rs:333-460 | among the events owed, `Disconnected` is the last one, exactly when there is an exit error |
| RemoteWorker.StreamRefinement | codex-rs/app-server-client/src/remote.rs:333-460 | what `next_event` returned is a prefix of the wire's decodable events in order, then one `Disconnected` iff the worker left with an error; an open consumer misses nothing |
| RemoteWorker.ConsumerReceivesAll | codex-rs/app-server-client/src/remote.rs:593-598 | a consumer that asks often enough has received exactly what it is owed |
| RemoteHandshake.DecidedSomewhere | codex-rs/app-server-client/src/remote.rs:819-924 | a deciding position exists, the deadline at the latest |
| RemoteHandshake.ReadUntilDecided | codex-rs/app-server-client/src/remote.rs:819-917 | the loop stops at the deciding frame, having kept the events of the frames before it and replied to each unsupported request it read |
| RemoteHandshake.Initialize | codex-rs/app-server-client/src/remote.rs:794-936 | succeeds exactly when both writes go through and the deciding frame is the response to `initialize`, handing over all events read in order and the version and home directory the response names; otherwise the error of the first thing that failed; unsupported requests are replied to once, in order |
| RemoteHandshake.VersionExactly | codex-rs/app-server-client/src/remote.rs:830-837 | a version is found exactly in a user agent of the form product, slash, optional spaces, version, optional comment, and it is that version |
| RemoteHandshake.PassesExactly | codex-rs/app-server-client/src/remote.rs:829-912 | the loop goes on exactly unless the frame answers `initialize`, ends the connection or is an unsupported request whose reply could not be written |
| RemoteClient.Client.constructor | codex-rs/app-server-client/src/remote.rs:204-218 | the worker starts from a successful handshake with its leftover events buffered, and satisfies the invariant |
| RemoteClient.Client.Submit | codex-rs/app-server-client/src/remote.rs:635-655 | making a call is one step |
| RemoteClient.Client.Admit | codex-rs/app-server-client/src/remote.rs:637-643 | a blocked caller enters the bounded command channel in order |
| RemoteClient.Client.SendRequest | codex-rs/app-server-client/src/remote.rs:227-260 | insert, write and undo on failure amount to: refused, registered, or failed with the worker leaving |
| RemoteClient.Client.HandleNextCommand | codex-rs/app-server-client/src/remote.rs:221-318 | the command branch is one step |
| RemoteClient.Client.SettleCaller | codex-rs/app-server-client/src/remote.rs:323-332 | removes and answers the caller registered under the id, if any |
| RemoteClient.Client.Deliver | codex-rs/app-server-client/src/remote.rs:945-955 | an event reaches the channel, or the worker leaves without an error if the consumer is gone |
| RemoteClient.Client.RefuseRequest | codex-rs/app-server-client/src/remote.rs:359-391 | an unsupported request is answered with "method not found"; a failed reply ends the worker |
| RemoteClient.Client.HandleFrame | codex-rs/app-server-client/src/remote.rs:319-460 | the frame branch is one step |
| RemoteClient.Client.Exit | codex-rs/app-server-client/src/remote.rs:448-460 | leaving with an error tells the consumer and records the error |
| RemoteClient.Client.DrainPending | codex-rs/app-server-client/src/remote.rs:466-474 | draining in an arbitrary order is a run of drain steps that leaves nobody pending |
| RemoteClient.Client.EndTask | codex-rs/app-server-client/src/remote.rs:472-475 | the end of the worker is one step |
| RemoteClient.Client.RunToTheEnd | codex-rs/app-server-client/src/remote.rs:466-475 | from any exit, the worker reaches its end with every call answered exactly once |
| RemoteClient.Client.NextEvent | codex-rs/app-server-client/src/remote.rs:593-598 | handshake leftovers first, then the channel |
| RemoteClient.Client.DropConsumer | codex-rs/app-server-client/src/remote.rs:600-610 | the consumer gives up what it has not taken |
| AnalyticsReducer.Analytics.constructor | codex-rs/analytics/src/reducer.rs:145-154 | all seven maps start empty |
| AnalyticsReducer.Analytics.Ingest | codex-rs/analytics/src/reducer.rs:406-534 | ingesting a fact changes the maps as `Reducer.Next` says and emits what `Reducer.Emitted` says |
| AnalyticsReducer.Analytics.IngestThreadOpened | codex-rs/analytics/src/reducer.rs:1293-1342 | registers the thread and emits its event only for an initialised connection |
| AnalyticsReducer.Analytics.IngestSubAgentStarted | codex-rs/analytics/src/reducer.rs:561-587 | a subagent thread inherits its parent's connection and keeps what it already had |
| AnalyticsReducer.Analytics.MaybeEmitTurnEvent | codex-rs/analytics/src/reducer.rs:1561-1619 | a complete turn with a known context goes out and is forgotten; otherwise nothing changes |
| AnalyticsReducer.Analytics.IngestTurnUpdate | codex-rs/analytics/src/reducer.rs:643-690 | an update reaches its turn, new or not, and the turn is reconsidered where the program does |
| AnalyticsReducer.Analytics.IngestTurnStartResponse | codex-rs/analytics/src/reducer.rs:887-903 | a matching start response gives the turn its connection, thread and image count |
| AnalyticsReducer.Analytics.IngestTurnSteerResponse | codex-rs/analytics/src/reducer.rs:1428-1451 | a matching steer response is counted in an existing turn and resolved |
| AnalyticsReducer.Analytics.IngestErrorResponse | codex-rs/analytics/src/reducer.rs:1114-1162 | an error removes its request; only a steer is reported |
| AnalyticsReducer.Analytics.IngestItemCompleted | codex-rs/analytics/src/reducer.rs:1187-1249 | counts the item, uses up its start, reports it with its review summary and clears that summary |
| AnalyticsReducer.Analytics.EmitReviewEvent | codex-rs/analytics/src/reducer.rs:1494-1559 | records the resolution under its item key, then reports it if the context is known |
| AnalyticsReducer.Analytics.IngestReviewAnswer | codex-rs/analytics/src/reducer.rs:1029-1112 | an answer or abort resolves the pending review with its id, once |
| AnalyticsReducer.Analytics.IngestGuardianReview | codex-rs/analytics/src/reducer.rs:1386-1426 | a finished guardian review with valid times is resolved |
| Reducer.TurnUpdateStep | codex-rs/analytics/src/reducer.rs:643-690 | a turn update touches no other map and no other turn, and emits exactly if it makes the turn ready |
| ReducerTurns.NextKeepsContext | codex-rs/analytics/src/reducer.rs:536-587 | every fact keeps: each thread has metadata and any connection it stores is initialised |
| ReducerTurns.ReachableContexts | codex-rs/analytics/src/reducer.rs:1621-1657 | in every reachable state the missing-connection and missing-metadata branches of the context lookup are dead; it succeeds iff the thread is known and has a connection |
| ReducerHistory.ConnectionsMatchHistory | codex-rs/analytics/src/reducer.rs:536-559 | a connection is what its latest initialisation said |
| ReducerHistory.ThreadsMatchHistory | codex-rs/analytics/src/reducer.rs:561-587 | in every reachable state a thread's connection is the last opening's on an initialised connection, else what its parent had when it was started as a subagent; its metadata likewise |
| ReducerHistory.ChainIsFound | codex-rs/analytics/src/reducer.rs:566-582 | for a chain of subagents of any length below a thread with connection c, every lookup finds c as last initialised, unless the subagent had another connection of its own |
| ReducerHistory.ContextsMatchHistory | codex-rs/analytics/src/reducer.rs:1643-1657 | the context lookup finds exactly the client and metadata that the history gives the thread |
| ReducerHistory.TurnsMatchHistory | codex-rs/analytics/src/reducer.rs:643-690 | a turn has state exactly if it was opened since its last turn event |
| ReducerHistory.StartsMatchHistory | codex-rs/analytics/src/reducer.rs:1170-1186 | the start open for an item is the latest valid one since the last completion that found its turn |
| ReducerHistory.ApprovalReviews | codex-rs/analytics/src/reducer.rs:913-1027 | a pending review is about its own thread, turn, item and id; what it asks for follows from the request, and its trigger from what it asks for |
| ReducerHistory.GuardianReviews | codex-rs/analytics/src/reducer.rs:1394-1414 | the same law for guardian reviews |
| ReducerTurns.EmittedTurnEvents | codex-rs/analytics/src/reducer.rs:1561-1619 | a fact emits one turn event if it finishes its own turn, none otherwise |
| ReducerEvents.TurnEventExactly | codex-rs/analytics/src/reducer.rs:1561-1619 | a fact emits a turn event exactly if it is a config, profile, completion or token usage of the turn or the answer to its open start request, and with it the turn has all three parts, a known thread and an initialised client |
| ReducerEvents.QuietTurnFacts | codex-rs/analytics/src/reducer.rs:643-679 | a fact about a turn that emits no turn event emits nothing |
| ReducerEvents.ThreadEventsExactly | codex-rs/analytics/src/reducer.rs:1293-1342 | an opened thread is announced exactly if its connection was initialised, a subagent always, with what they were given |
| ReducerEvents.SilentFacts | codex-rs/analytics/src/reducer.rs:536-641 | initialisations, requests, item starts and approval requests emit nothing |
| ReducerEvents.ReportEventExactly | codex-rs/analytics/src/reducer.rs:1344-1384 | a report on a thread goes out exactly if the thread's context is known |
| ReducerEvents.SteerEventExactly | codex-rs/analytics/src/reducer.rs:1453-1492 | an accepted or failed steer is reported once, exactly if it is open, its connection initialised and its thread known |
| ReducerEvents.ReviewEventExactly | codex-rs/analytics/src/reducer.rs:1494-1540 | a decided review is reported once, exactly if its thread's context is known, with its status, resolution and times |
| ReducerTurns.StepUsesParts | codex-rs/analytics/src/reducer.rs:1561-1619 | each turn event uses up a config, a profile and a completion |
| ReducerTurns.TurnEventsUseParts | codex-rs/analytics/src/reducer.rs:643-679 | from any state on, the turn events for an id plus what is still held never exceed the configs, profiles or completions ingested for it plus what was held |
| ReducerTurns.TurnEventsNeverExceedParts | codex-rs/analytics/src/reducer.rs:1561-1619 | over every history, an id has no more turn events than configs, profiles or completions |
| ReducerTurns.FreshPartsBetweenTurnEvents | codex-rs/analytics/src/reducer.rs:1268-1288 | after a turn event, each further one for that id needs all three ingested afresh |
| ReducerTurns.CountersMatchHistory | codex-rs/analytics/src/reducer.rs:378-403 | in every reachable state a turn's counters equal the items of each kind and accepted steers ingested since its state was created, and the total is their sum |
| ReducerTurns.TurnEventReportsHistory | codex-rs/analytics/src/reducer.rs:2610-2618 | so do the counters in a turn event |
| ReducerPayload.TurnsHoldTheLatest | codex-rs/analytics/src/reducer.rs:643-690 | in every reachable state a turn holds, of each kind of update, the latest since its state was created, and nothing older |
| ReducerPayload.TurnEventCarriesTheLatest | codex-rs/analytics/src/reducer.rs:2518-2611 | a turn event carries the latest config, profile, completion, token usage, error and start time of its turn |
| ReducerOrigin.TurnsOriginate | codex-rs/analytics/src/reducer.rs:643-690 | in every reachable state a turn's thread is the one the latest start response, config, token usage or diff named (else the first error's), its images those of the latest start response or config, its connection that of the latest start response |
| ReducerOrigin.TurnEventOrigin | codex-rs/analytics/src/reducer.rs:1575-1610 | a turn event names that thread and image count, the metadata of that thread, and the client of the start response's connection or else the thread's, as last initialised |
| ReducerOrigin.TurnEventsCountTheLatestDiff | codex-rs/analytics/src/reducer.rs:2488-2516 | an accepted-lines event goes with the turn event exactly if the latest diff adds or deletes a line, and carries its counts |
| ReducerConfluence.OrdersMeet | codex-rs/analytics/src/reducer.rs:643-679 | all six orders end in the same turn, and a waiting turn is not ready before the third fact |
| ReducerConfluence.ThreeSteps | codex-rs/analytics/src/reducer.rs:1561-1619 | silence, silence, then the full turn's event and no trace of the turn |
| ReducerConfluence.EarlyOrder | codex-rs/analytics/src/reducer.rs:1561-1619 | a turn that does not wait has an order that lets its event out after at most two facts |
| ReducerConfluence.TurnConfluence | codex-rs/analytics/src/reducer.rs:643-679 | all six orders give exactly one turn event, on the third fact, with the same payload, and no state left, if and only if the turn waits |
| ReducerHistory.ReviewsMatchHistory | codex-rs/analytics/src/reducer.rs:913-1112 | the pending review under an id is the last valid approval asked under it since its last answer |
| ReducerLedger.SummaryStep | codex-rs/analytics/src/reducer.rs:1542-1559 | one fact clears an item's summary, adds one resolution to it, or leaves it; never another item's |
| ReducerLedger.SummariesMatchLedger | codex-rs/analytics/src/reducer.rs:1494-1559 | in every reachable state an item's summary is that of the reviews resolved for it since its last reported completion |
| ReducerLedger.LedgerIsForItsKey | codex-rs/analytics/src/reducer.rs:1706-1717 | only command, file and MCP reviews for that same thread, turn and item contribute |
| ReducerLedger.ToolEventExactly | codex-rs/analytics/src/reducer.rs:1213-1249 | completing an item emits one tool-item event exactly if its kind is followed, its turn has state, a start is open, the end time is valid, the context is known and the status is terminal; kind, both times, context and review ledger are those of the history |
| ReducerLedger.ToolEventReportsLedger | codex-rs/analytics/src/reducer.rs:2087-2125 | every tool-item event there is reports its ledger: counts, last outcome, or-ed flags, total = guardian + user; the ledger is empty afterwards |
| ReducerLedger.VerdictsSorted | codex-rs/analytics/src/reducer.rs:2135-2192 | which answers approve, abort or deny a review, and which settle it for the session or with an amendment |
| ReducerLedger.DecisionsMatchHistory | codex-rs/analytics/src/reducer.rs:1029-1112 | the review a fact resolves, and how, from the facts alone |
| ReducerLedger.EmitsAtMostOne | codex-rs/analytics/src/reducer.rs:1029-1162 | a fact emits at most one review or steer event, and only for something that was pending |
| ReducerHistory.RequestsMatchHistory | codex-rs/analytics/src/reducer.rs:612-641 | the pending request under a connection and id is the last one made there since the last answer |
| ReducerEvents.SteerEventReportsItsRequest | codex-rs/analytics/src/reducer.rs:1428-1492 | a steer event reports the steer open under the answer's own connection and id, with the answer's verdict, and closes it |
| ReducerLedger.ResolvedAtMostOnce | codex-rs/analytics/src/reducer.rs:612-641 | over every history, user review events plus pending reviews never exceed approvals asked, and steer events plus pending steers never exceed steers requested |
| AcceptedLines.Summarize | codex-rs/analytics/src/accepted_lines.rs:30-83 | the loop computes the scan of all lines |
| AcceptedLines.CountsIgnoreEnv | codex-rs/analytics/src/accepted_lines.rs:59-75 | the counts do not depend on the digest or the letter test |
| AcceptedLines.LineCountsAreTheSummary | codex-rs/analytics/src/reducer.rs:2488-2496 | the counts that go into the event are those of the diff's summary |
| AcceptedLines.ScanFromFileBoundary | codex-rs/analytics/src/accepted_lines.rs:40-44 | from a `diff --git` line on, nothing before it matters |
| AcceptedLines.LinesAppend | codex-rs/analytics/src/accepted_lines.rs:39-39 | lines of a concatenation at a line end are the lines of the parts |
| AcceptedLines.SummaryOfConcatenation | codex-rs/analytics/src/accepted_lines.rs:30-83 | parsing distributes over concatenation at a `diff --git` line |
| DiffRoundTrip.ScanFile | codex-rs/analytics/src/accepted_lines.rs:40-76 | scanning one rendered file adds exactly its own counts and fingerprints, whatever came before |
| DiffRoundTrip.ScanDiff | codex-rs/analytics/src/accepted_lines.rs:30-83 | scanning the lines of a structured diff gives what the diff says |
| DiffRoundTrip.LinesOfText | codex-rs/analytics/src/accepted_lines.rs:39-39 | splitting rendered text gives back its lines, less one carriage return each |
| DiffRoundTrip.ScanLineChomp | codex-rs/analytics/src/accepted_lines.rs:143-169 | a trailing carriage return changes neither counts, path nor fingerprint |
| DiffRoundTrip.RoundTrip | codex-rs/analytics/src/accepted_lines.rs:30-83 | scanning the text of any structured git diff, terminated or not, returns its exact counts and, in order, the fingerprints of its effective added lines under their file's own name, also where hunk lines look like `---`/`+++` headers; removed files give none, lines outside hunks count too |
| DiffRoundTrip.PathComesBack | codex-rs/analytics/src/accepted_lines.rs:143-155 | padding is trimmed, one `a/` or `b/` is taken off, the rest of the name comes back as it is, and `/dev/null` is no name |
| DiffRoundTrip.EveryPathIsShown | codex-rs/analytics/src/accepted_lines.rs:143-155 | whatever follows `+++ ` is one of these forms |
| DiffRoundTrip.EffectiveLines | codex-rs/analytics/src/accepted_lines.rs:157-169 | an added line is fingerprinted exactly if its words, joined by single spaces, are more than three bytes of UTF-8 and hold a letter, digit or underscore |
| DiffRoundTrip.Utf8LengthIsTheEncoding | codex-rs/analytics/src/accepted_lines.rs:159-161 | the length is that of the encoding in section 3 of RFC 3629 |
| DiffRoundTrip.CarriageReturns | codex-rs/analytics/src/accepted_lines.rs:39-39 | a carriage return before the line feed is not part of the line |
| Whitespace.WordsOfJoin | codex-rs/analytics/src/accepted_lines.rs:158-158 | splitting joined words gives the words back |
| Whitespace.JoinOneMore | codex-rs/analytics/src/accepted_lines.rs:158-158 | words are joined by single spaces |
| Whitespace.IsSpaceExactly | codex-rs/analytics/src/accepted_lines.rs:158-158 | whitespace is the 25 code points of Unicode White_Space |
| DiffRoundTrip.NormalizeLineIsCanonical | codex-rs/analytics/src/accepted_lines.rs:158-169 | a normalised line is its own normal form, and two effective lines normalise alike iff they have the same words |
| Batches.GreedyPartitions | codex-rs/analytics/src/client.rs:519-540 | greedy grouping is lossless, has no empty batch and isolates what must be |
| Batches.EveryPartitionNeeds | codex-rs/analytics/src/client.rs:519-540 | no lawful partition is smaller than the greedy one, and one as small is the greedy one |
| Batches.TrackEventRequestBatches | codex-rs/analytics/src/client.rs:519-540 | the loop returns the unique smallest order-preserving partition in which isolated events stand alone |
| WrapperArgs.FlagsExactly | tools/argument-comment-lint/wrapper_common.py:75-102 | a flag is set exactly if some argument settles it - by itself, or as the value of the option before it - and a value is awaited exactly after an option that is not itself a value |
| WrapperArgs.TargetsExactly | tools/argument-comment-lint/wrapper_common.py:61-67 | a target is selected exactly if some argument after the separator selects one |
| WrapperLaws.FlagsByName | tools/argument-comment-lint/wrapper_common.py:75-102 | the scan finds exactly the options given, by their names, values of options not taken for options |
| WrapperLaws.TargetsByName | tools/argument-comment-lint/wrapper_common.py:61-67 | the target selections, by their names |
| WrapperLaws.NormalFormExactly | tools/argument-comment-lint/wrapper_common.py:55-122 | the final arguments: what was not given in front, the user's arguments in order, one separator, the cargo arguments and all targets if need be |
| WrapperArgs.PartsAppend | tools/argument-comment-lint/wrapper_common.py:60-76 | how the two sides of the first `--` grow with one more argument |
| WrapperArgs.ParseAppend | tools/argument-comment-lint/wrapper_common.py:60-102 | parsing a list by its first separator agrees with taking its arguments one by one |
| WrapperArgs.ParseWrapperArgs | tools/argument-comment-lint/wrapper_common.py:55-104 | the loop returns the two sides of the first `--` and what each side says |
| WrapperArgs.ParseOfNormalForm | tools/argument-comment-lint/wrapper_common.py:55-122 | parsing the normal form finds the inserted options, the user's arguments and nothing left to insert |
| WrapperArgs.SeparatorAsManifestGrows | tools/argument-comment-lint/wrapper_common.py:107-122 | with `--` as inserted manifest path, normalising again always grows the list |
| WrapperArgs.NormalizeIdempotent | tools/argument-comment-lint/wrapper_common.py:55-122 | normalising is idempotent if and only if the manifest path is not `--` or was given by the user |
| HostPath.PartsOfJoin | codex-rs/app-server-client/src/path.rs:21-42 | under one separator rule, joining adds exactly the segment to the parts |
| HostPath.WindowsStays | codex-rs/app-server-client/src/path.rs:34-58 | joining keeps a Windows path one unless it is only separators |
| HostPath.OtherStays | codex-rs/app-server-client/src/path.rs:34-58 | joining makes another path a Windows path only from a bare drive |
| HostPath.RootJoinKeepsBackslash | codex-rs/app-server-client/src/path.rs:21-42 | joining to a Windows path of separators only leaves the backslash in the one component |
| HostPath.JoinAddsOneComponent | codex-rs/app-server-client/src/path.rs:21-58 | the components of the join are the path's and the segment, if and only if the path is not a Windows path made only of separators |
| HostPath.JoinExactly | codex-rs/app-server-client/src/path.rs:34-42 | a join is the path without trailing separators, one separator - a backslash exactly for a Windows path - and the segment |
| HostPath.IsWindowsExactly | codex-rs/app-server-client/src/path.rs:51-58 | the Windows forms: a drive letter, colon and separator, or two separators of the same kind |
| HostPath.ComponentsExactly | codex-rs/app-server-client/src/path.rs:21-32 | components are not empty, hold no separator, and together are the path without its separators |

## Left out

- Connecting: WebSocket, TLS and Unix-socket set-up, authentication tokens and JSON (de)serialisation. Frames are decoded values; whether a method is supported is part of the frame, and the lookup of a text member in a JSON result is a parameter.
- Clocks: the handshake deadline is the end of the frames that arrived in time, and times are inputs. The shutdown time-outs and aborting a worker are not modelled.
- I/O results: whether a write or close succeeded is an input of the step. Error texts are structured reasons, not strings, and notify, resolve and reject calls share the request call's reason for a lost reply channel. `shutdown` hides such an error from its caller; the model shows what its reply channel got.
- The command branch of the in-process worker: it starts detached calls on code that is not part of this model.
- Reducer facts that turn straight into one event and touch no map (skills, apps, hooks, plugins, imports), and the field-copying of event structs: connection, settings and item parameters are condensed to a few fields; review subject names and durations are dropped.
- Reducer counters are unbounded naturals: 64-bit overflow is not modelled.
- Review ids are structured; the texts of string id "5" and integer id 5 would coincide, and nothing in the reducer depends on them.
- Git lookups, the repository hash and SHA-1: the digest and the Unicode letter-or-digit test are parameters of the diff scanner.
- Daemon, agent graph store, agent identity, packaging and formatting scripts: mostly I/O or code that is not part of this model.
