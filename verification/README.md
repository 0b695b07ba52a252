# Turns, permissions and sessions: a verified model

This project models, in Dafny, the parts of the repository that decide what belongs to
which turn and in what order things may happen, and proves what they promise over every
input and every run.

| files | what they model |
|---|---|
| `PermissionModel`, `PermissionRuns`, `PermissionProofs`, `PermissionTheorems`, `PermissionChecks`, `PermissionCoordinator` | the ACP permission coordinator (`acp/permission.go`) |
| `ClientCalls`, `ClientTurns`, `PromptCalls`, `RequestEvents`, `BridgeClient` | the NDJSON client's calls, turns and permission requests over that coordinator (`acp/ndjsonclient.go`) |
| `WriteFrame` | context-bounded frame writes (`acp/writeframe.go`) |
| `LifecycleModel`, `LifecycleRuns`, `LifecycleTheorems`, `LifecycleOutcomes`, `ManagedSession` | the managed session and its manager (`acp/lifecycle.go`) |
| `Utf8`, `TurnModel`, `TurnHistory`, `TurnInvariants`, `TurnText`, `SignalOrder`, `QuestionOrder`, `TurnCalls`, `TurnVerdict`, `TurnOutputs`, `LiveTurn` | one turn of the turn-output reducer (`turnoutput/reducer.go`, `turnoutput/signals.go`) |
| `ReducerModel`, `ReducerTheorems`, `Reducer`, `Feeds`, `FeedTheorems` | the reducer over its turns, and its feeds (`turnoutput/reducer.go`, `turnoutput/feed.go`) |
| `TypedQueue` | the marker queue of the native wrapper (`wrapper/typed_order.go`) |
| `TurnEvents`, `TurnScript`, `TurnEmitter` | the turn closures of the native wrapper (`wrapper/wrapper.go`, `wrapper/event_translator.go`) |
| `NativeRun` | that queue and those closures as one run (`wrapper/wrapper.go`) |
| `StreamWriter`, `Environment` | line splitting and the child environment (`wrapper/io_streams.go`, `wrapper/environment.go`) |
| `Runs`, `Counting`, `Lists`, `Options`, `Bytes` | runs of a state machine, counting, and small shared definitions |

`dafny verify dfyconfig.toml` checks everything.

## How the source is modelled

**Concurrent code** (`acp/`, `wrapper/typed_order.go`). Every section the code runs under one
mutex is one atomic step on shared state, and each goroutine carries a program counter. A run
is any sequence of enabled steps (`Runs`), so nothing is assumed about scheduling. Beside each
state machine stands the object the code keeps, as a class whose methods are those sections:
`PermissionCoordinator.BestEffortPermissionRequests`, `ManagedSession.Session`,
`ClientCalls.CallTable`, `BridgeClient.NDJSONBridgeClient` and `TypedQueue.Queue`. Each method
is proved to do to the object exactly what the step does to the state. `WriteFrameCtx` and
`lockCtx` are steps only: what they promise is about their interleaving with each other.

**Sequential code** (`turnoutput/`, the wrapper's translator). The operations are functions on
values, with theorems about them; `LiveTurn.LiveTurn`, `TurnReducer.Reducer`,
`TurnEmitter.Turns` and `StreamWriter.Writer` are the same operations as the code writes them,
with loops and fields, proved equal to those functions.

Modelling decisions that hold throughout:

- A context is a flag that can only become ended. Decoded JSON is a record with absent fields
  visible; a payload that cannot be decoded is an absent record.
- A channel that may be full is one where a send may be dropped, so nothing is claimed about
  delivery to the host. Ids that are minted are fresh: `ReducerModel.Mintable` says exactly what
  the reducer needs of them, and the client and the wrapper count.
- Generations and request ids are unbounded integers; the 64-bit counters of the code do not
  wrap in a session's life. Token counts are integers and `CostUSD` is a real number.
- Stop reasons, failure reasons and the fixed texts of permission resolutions are constructors
  where the code compares strings.
- The response gate of the coordinator is not modelled: it only removes interleavings, and
  everything is proved without it.

Where the code and a likely reading of its comments differ, the model follows the code:

- `Wait` after an intentional `Close` can return the child's error, although the comment on
  `Wait` says it is nil: `LifecycleTheorems.IntentionalCloseError` is the exact condition, and
  `IntentionalCloseCanKeepAnError` is a session for which it fails.
- Line offsets of the stream writer are exact only if nothing was buffered when the Write began:
  `StreamWriter.LineOffsetsAreApproximate`. A line that began in its own Write can be off too
  (`LaterLinesAreOffToo`), although the comment there speaks of the first line's offset only.
- A completion with no id that follows a failed turn can be dropped as a repeat, although no
  turn completed: `ReducerTheorems.LoneEnding` says exactly when a terminal event is dropped, and
  `EmptyDoneAfterFailureIsDropped` is the smallest such session.
- A stop reason held between turns is kept by more than the terminal event that takes it, although
  the comments on `heldStop` and `noteStop` say that the next event decides: late events, repeats,
  ends of a session with no turn open and turn starts with no id leave it held. And one that came
  before the first turn is lost to a terminal event that names its turn.
  `ReducerTheorems.StopBetweenTurns` says what each event does; `HeldStopOutlivesALateEvent` are
  sessions in which a held stop reason survives.
- The order in which a question call and its own early refusal arrive can decide what a turn ended
  on, although signals are said to be resolved by call id because facts do not arrive in the order
  they happened (`turnoutput/signals.go:15-18`): the two signals stay in the order they came, and
  once 63 more were raised only the younger is left. `QuestionOrder.QuestionRefusalOrder` is the
  exact condition, `OneLeftCanDecide` the turns.
- A question whose call came back answered can be what the turn ended on after all, although the
  comment on `open` (`turnoutput/signals.go:268-269`) says that it is no longer waiting: the answer
  goes with the call, and 256 calls that were refused before they came push it out.
  `TurnVerdict.AnsweredStands` is the exact condition, `AnswerForgotten` such a turn.
- Re-resolving a resolved environment is refused exactly when it holds a NUL, which an inherited
  value may: `Environment.ResolvingAgainChangesNothing` and `InheritedNulIsRefusedAgain`.

One more behaviour is worth knowing, though no comment says otherwise: the reader closes the
admission of whatever turn is current when it has removed a prompt's call, which can be the next
prompt's. That needs that the first prompt's caller gave up in between, as its write was reported as
failed or the client's lifetime ended, which a permission response that could not be delivered also
does, with client and coordinator still open (`acp/ndjsonclient.go:1005-1017`).
`PromptCalls.AdmissionIsItsOwn` says exactly whose admission is closed, and `AnotherTurnsAdmission`
is a run.

## Model

| member | source | states |
|---|---|---|
| PermissionModel.ParsePermissionRequest | acp/permission.go:692-722 | A frame is accepted exactly when it is complete and its option ids are distinct; the duplicate scan is the code's loop. |
| PermissionModel.FindOption | acp/permission.go:494-522 | A responder's id is looked up among the offered options only: found exactly when one of them has it. |
| PermissionProofs.StepKeepsInv | acp/permission.go:360-690 | Every locked section and goroutine move keeps the coordinator's invariant: turns, exact counts, entries, barriers. |
| PermissionTheorems.OneActiveTurn | acp/permission.go:555-579 | In every reachable state only the turn of the current generation can be active. |
| PermissionTheorems.CommitDecides | acp/permission.go:494-526 | A commit is Selected if and only if nothing cancelled the entry, its own turn is current, active, uncancelled and the coordinator open, and the answer names an offered option. |
| PermissionTheorems.SelectedWasOffered | acp/permission.go:451-526 | Over every run, a Selected resolution is an option of that request's own frame, named by the answer its own responder returned. |
| PermissionTheorems.CommittedIsFrozen | acp/permission.go:523-526 | No later step, lifecycle calls included, changes a committed entry. |
| PermissionTheorems.DeadTurnsDecline | acp/permission.go:555-690 | Once its turn is cancelled, ended, superseded or closed, an unresolved request can only ever resolve as cancelled, in any continuation. |
| PermissionTheorems.BarrierCounts | acp/permission.go:389-400 | A turn's dispatch count is the number of admitted, uncompleted dispatches bound to it; its done channel is closed once, exactly when it is ending and that number is zero. |
| PermissionTheorems.EndingOnlyDrains | acp/permission.go:595-618 | No request joins an ending turn and no later BeginTurn extends or reopens it: the set of its dispatches only shrinks. |
| PermissionTheorems.EndTurnIsABarrier | acp/permission.go:624-645 | When an EndTurn call has returned, no dispatch of its generation is running, then or in any later state. |
| PermissionTheorems.CompletionDrains | acp/permission.go:389-400 | Each completion takes exactly its own dispatch from the count its turn waits on. |
| PermissionTheorems.CountersAreExact | acp/permission.go:378-477 | In every reachable state the async and callback counters equal the workers and callbacks actually running, and neither passes 64, with callbacks of earlier turns still running. |
| PermissionChecks.AdmissionOfARun | acp/permission.go:360-387 | Over every run a request is admitted to the turn that is active, if there is one, and as a dispatch gets a goroutine exactly if fewer than 64 have one. |
| PermissionChecks.ChecksDecide | acp/permission.go:418-449 | The checks pass, or the request is declined with the reason of the first that fails: frame, session, responder, turn, capacity. |
| PermissionChecks.PassedItsChecks | acp/permission.go:418-449 | Over every run a request that asks for a slot, holds an entry or resolved as Selected was checked once, and then was a complete frame, named the session the coordinator was bound to if it was bound to one, and had a responder, an active turn and room. |
| PermissionChecks.FailedChecksDecline | acp/permission.go:418-449 | A request that failed a check is cancelled for that reason ever after. |
| PermissionChecks.ResolutionsStay | acp/permission.go:494-533 | A resolution keeps its outcome, option and reason, whatever becomes of its response. |
| PermissionChecks.SlotsAreGiven | acp/permission.go:451-469 | A request that passed its checks gets a slot exactly if its turn is not over by then and fewer than 64 callbacks run; else it is declined for that. |
| PermissionChecks.CommitSaysWhy | acp/permission.go:494-526 | Why a commit does not select: cancelled, responder failed, declined, or an option that was not offered, in this order. |
| PermissionChecks.EndedTurnsDecline | acp/permission.go:555-690 | After CloseTurnAdmission, EndTurn or CancelTurn no unresolved request of the current turn is ever selected, and after BeginTurn or Close none of any turn. |
| PermissionChecks.EndedTurnsCancel | acp/permission.go:555-690 | The same calls cancel every uncommitted entry of those turns. |
| PermissionChecks.EndedTurnsEnd | acp/permission.go:555-690 | All of them but CancelTurn close the turn's admission for good; CancelTurn, Close and the BeginTurn that finds it active mark it as cancelled. |
| PermissionChecks.DeliveryOfARun | acp/permission.go:746-758 | A failed write of the response is recorded with the resolution, and changes nothing else of it. |
| PermissionChecks.SessionOfARun | acp/permission.go:347-356 | The coordinator is bound to the session it was last bound to. |
| PermissionCoordinator.BestEffortPermissionRequests.AdmitPermission | acp/permission.go:360-387 | The object's admission is the model's, and the turn it returns is the object of that generation. |
| PermissionCoordinator.BestEffortPermissionRequests.CompletePermissionAdmission | acp/permission.go:389-400 | Completion through the admission's turn pointer is the model's, also after the turn left the map. |
| PermissionCoordinator.BestEffortPermissionRequests.TakeSlot | acp/permission.go:451-469 | Registering an entry, comparing turn pointers, is the model's comparison of generations; the entry is new and no other is touched. |
| PermissionCoordinator.BestEffortPermissionRequests.Commit | acp/permission.go:494-526 | The commit section on the heap, with its loop over the options, is the model's decision. |
| PermissionCoordinator.BestEffortPermissionRequests.BeginTurn | acp/permission.go:555-579 | Superseding, cancelling and adding a turn on the heap is the model's BeginTurn; one turn is new and every other is the object it was, so admissions of earlier turns can still be completed. |
| PermissionCoordinator.BestEffortPermissionRequests.CloseTurnAdmission | acp/permission.go:595-610 | Closing admission on the heap is the model's, in the code's order. |
| PermissionCoordinator.BestEffortPermissionRequests.DropTurn | acp/permission.go:639-645 | EndTurn's last section drops only the very turn it waited for. |
| PermissionCoordinator.BestEffortPermissionRequests.CancelTurn | acp/permission.go:650-666 | Cancelling on the heap is the model's. |
| PermissionCoordinator.BestEffortPermissionRequests.Close | acp/permission.go:670-690 | Close ends every turn still in the map and cancels every uncommitted entry, as the model does. |
| ClientCalls.StepKeepsInv | acp/ndjsonclient.go:878-967 | Every interleaving of callers, reader and failPending keeps what each call id and its channel may be. |
| ClientCalls.LeavesOnce | acp/ndjsonclient.go:878-954 | Every outbound id leaves the pending map by one of response, stream failure or abandonment, and only once; it has left when its caller is over. |
| ClientCalls.OneValueOneClose | acp/ndjsonclient.go:878-913 | The one-slot channel gets at most one value and then at most one close; none once its caller gave up first. |
| ClientCalls.DeliveryNeverBlocks | acp/ndjsonclient.go:899-911 | Whoever took an entry finds its slot free and its channel open, so the reader never blocks and never panics. |
| ClientCalls.ResponsesReachTheirCall | acp/ndjsonclient.go:878-967 | A caller receives only the response that carried its own id, or the stream's failure (section 5 of the JSON-RPC 2.0 specification); never the zero value of a closed channel. |
| ClientCalls.CallTable.BeginCall | acp/ndjsonclient.go:927-931 | A new id, never pending before, with a fresh slot of its own. |
| ClientCalls.CallTable.DeliverResponse | acp/ndjsonclient.go:878-902 | A response fills and closes exactly the slot of its id; an unknown id changes nothing. |
| ClientCalls.CallTable.FailPending | acp/ndjsonclient.go:904-913 | Every pending slot is failed and closed, once, and none is left. |
| ClientCalls.CallTable.DropPending | acp/ndjsonclient.go:950-954 | Only that id leaves the table, and its slot stays untouched. |
| ClientTurns.StepKeepsInv | acp/ndjsonclient.go:461-792 | The client's turn admission, end, events and close, composed with every step of the coordinator, keep the joint invariant. |
| ClientTurns.EndTurnIsItsOwn | acp/ndjsonclient.go:531-536 | finishTurn's EndTurn acts on the generation its own turn's Prompt opened, still the current one. |
| ClientTurns.NoRequestOutlivesItsTurn | acp/ndjsonclient.go:531-546 | When a turn's terminal event is attempted, no permission request of that turn is running. |
| ClientTurns.OneTerminalEach | acp/ndjsonclient.go:461-568 | Every admitted Prompt attempts its terminal event at most once, and exactly once by the time Events closes; it never finds Events closed. |
| ClientTurns.NothingAfterTheClose | acp/ndjsonclient.go:776-792 | Events is closed at most once and nothing is sent on it afterwards. |
| ClientTurns.NoAddAfterClosing | acp/ndjsonclient.go:776-786 | Once eventsClosing is set no step adds a turn or to the wait group. |
| ClientTurns.TheWaitCounts | acp/ndjsonclient.go:776-786 | The wait group counts exactly the turns not yet finished, and past the wait there are none. |
| ClientTurns.OneTurnAtATime | acp/ndjsonclient.go:461-536 | One turn at a time is between its Prompt and the clearing of its id, and it owns the coordinator's generation. |
| ClientTurns.AdmissionOfARun | acp/ndjsonclient.go:465-495 | A turn is admitted only with a session, neither closed nor closing its events, and with none in flight; it is then the one in flight, in a generation of its own. |
| ClientTurns.TerminalComesLast | acp/ndjsonclient.go:531-568 | A turn's terminal event is attempted only after its EndTurn returned and its id was cleared. |
| RequestEvents.StepKeepsInv | acp/ndjsonclient.go:1149-1214 | The two events of each permission request, between all steps of client and coordinator, keep the joint invariant. |
| RequestEvents.EventsAreOfTheirTurn | acp/ndjsonclient.go:1168-1204 | The requested and resolved events carry the id of the very turn the request was admitted to, although it is read after admission, and precede that turn's terminal event. |
| RequestEvents.EventsFindTheChannelOpen | acp/ndjsonclient.go:1168-1204 | When one of them is emitted its turn is still the current one and Events is open. |
| RequestEvents.EveryRequestIsToldOf | acp/ndjsonclient.go:1168-1204 | When a turn's terminal event has been attempted, every request admitted to it has had exactly one requested and then exactly one resolved event, both before it. |
| PromptCalls.NextKeepsInv | acp/ndjsonclient.go:461-536 | Prompt, its call, the reader and finishTurn, with every step of calls, client and coordinator and an end of the client's lifetime at any time, keep the joint invariant. |
| PromptCalls.AdmissionIsItsOwn | acp/ndjsonclient.go:887-895 | For a prompt's response the reader ends the admission of exactly the client's current turn, if that is still open: of another turn than the prompt's own if and only if currentTurnID is set to another, still open. The current turn is not the prompt's own only if its caller gave up: its write was reported as failed, or the client's lifetime ended. |
| PromptCalls.NoAdmissionAfterTheResponse | acp/ndjsonclient.go:887-902 | Once a prompt's response has reached its caller, no request is admitted to its turn. |
| PromptCalls.AnotherTurnsAdmission | acp/ndjsonclient.go:887-895 | A run in which the reader ends the admission of the next prompt's turn, with client and coordinator open. |
| BridgeClient.NDJSONBridgeClient.AdmitPrompt | acp/ndjsonclient.go:465-495 | Admission happens exactly when no turn is in flight, the client and its events are open and a session exists; it is one step of client and coordinator, or no change at all. |
| BridgeClient.NDJSONBridgeClient.ClearTurn | acp/ndjsonclient.go:533-537 | The id is cleared only if it is still this turn's. |
| BridgeClient.NDJSONBridgeClient.Emit | acp/ndjsonclient.go:1104-1119 | Nothing is sent once the channel is closed. |
| BridgeClient.NDJSONBridgeClient.CloseChannel | acp/ndjsonclient.go:786-792 | Only the first call closes the channel. |
| WriteFrame.NextKeepsInv | acp/writeframe.go:50-124 | Every interleaving of callers, helpers and interrupts keeps lock, deadline and wire in order. |
| WriteFrame.WholeFrames | acp/writeframe.go:50-97 | Whenever the lock is free, the wire starts with a concatenation of whole frames of different callers, and is no more than that unless the transport was closed, by a writer or by anyone else. |
| WriteFrame.SentIsOnTheWire | acp/writeframe.go:50-97 | A caller that returned success has its whole frame on the wire, right after the whole frames of earlier callers, also once the transport is closed. |
| WriteFrame.ReleasedOnce | acp/writeframe.go:101-124 | Every acquisition, the background hand-off included, is released exactly once. |
| WriteFrame.EndedWhileQueuedWritesNothing | acp/writeframe.go:50-62 | A caller whose context ended before it began to write never puts a byte on the wire. |
| WriteFrame.NoInheritedDeadline | acp/writeframe.go:62-97 | No write starts under a deadline an earlier write's interrupt left, unless the transport is closed. |
| WriteFrame.DeadlineMeansContextEnded | acp/writeframe.go:76-97 | A write cut short by the deadline is reported as its own context's end. |
| WriteFrame.ResultOfAWrite | acp/writeframe.go:76-97 | Success is reported exactly if the write gave no error, the context's error exactly if it ended and the deadline or its own closing cut the write; the transport is closed exactly if it was or the write failed midway. |
| WriteFrame.InterruptsItsOwnWrite | acp/writeframe.go:62-76 | An interrupt closes the transport only for a context that ended, while that caller's own write is not known to have returned. |
| LifecycleRuns.StepKeepsInv | acp/lifecycle.go:282-642 | Every interleaving of launch, drain, finish, prompts, closes and diagnostics keeps a session's invariant. |
| LifecycleTheorems.NoChannelPanics | acp/lifecycle.go:384-541 | Over all runs no session channel is closed twice or sent on after its close. |
| LifecycleTheorems.DoneClosesLast | acp/lifecycle.go:492-541 | When done is closed, Events and Diagnostics are closed, no diagnostic callback is running, and Client.Close has run exactly once whichever path got there first. |
| LifecycleTheorems.DoneIsUnmapped | acp/lifecycle.go:524-541 | From then on the manager never maps an id to the session. |
| LifecycleTheorems.OnlyItsOwnFinishUnregisters | acp/lifecycle.go:644-650 | A step that takes an id from its session is that very session's finish, and gives it to no other. |
| LifecycleTheorems.RegisterTakesNothing | acp/lifecycle.go:565-590 | Reserving an id never removes another session's entry. |
| LifecycleTheorems.PublishedInOrder | acp/lifecycle.go:355-394 | Published events are a subsequence, in order, of the client's; session.ready is among them only once the host committed. |
| LifecycleTheorems.AbortedNeverReady | acp/lifecycle.go:590-642 | An aborted launch never publishes session.ready and is never live. |
| LifecycleTheorems.TerminalIsAbsorbing | acp/lifecycle.go:492-523 | Once finish fixed the outcome, no call, client event or launch step changes state, outcomes or error. |
| LifecycleTheorems.IntentionalCloseError | acp/lifecycle.go:342-353 | After an intentional Close the error is nil if and only if no failed exit had been reported by then. |
| LifecycleTheorems.IntentionalCloseCanKeepAnError | acp/lifecycle.go:429-508 | A run of a session whose child fails and that is then closed on purpose: the error stays. |
| LifecycleOutcomes.OutcomeOfARun | acp/lifecycle.go:492-523 | Over every run, at the step that fixes the outcome: closed if anybody asked for it; else failed with a malformed stream, else with a failed exit, else closed by a clean exit with no error, else failed as disconnected; each from the events received, the frames diagnosed and the closes asked for. |
| LifecycleOutcomes.ClosingOfARun | acp/lifecycle.go:319-442 | Until then it is closing exactly if somebody asked, and the turn outcome is that of the last turn that ended. |
| LifecycleOutcomes.StateOfARun | acp/lifecycle.go:396-442 | Unless asked to close, it is processing once a turn started, ready once one ended, and ready on session.ready of a committed launch. |
| LifecycleOutcomes.AdmissionOfARun | acp/lifecycle.go:282-302 | A prompt is admitted exactly to a ready session, which then is processing; a refused one changes nothing. |
| LifecycleOutcomes.RefusalOfARun | acp/lifecycle.go:282-302 | A prompt the client refused makes a processing session ready again. |
| LifecycleOutcomes.CommitOfARun | acp/lifecycle.go:590-642 | The host's commit makes a launching session ready. |
| LifecycleOutcomes.LiveOfARun | acp/lifecycle.go:270-280 | A session is live exactly from the commit until its outcome is fixed. |
| LifecycleOutcomes.PublishOfARun | acp/lifecycle.go:384-394 | An event is published exactly while Events is open and has room. |
| ManagedSession.Session.ObserveEvent | acp/lifecycle.go:396-442 | The observed event moves the object's state, turn outcome and error as the model says. |
| ManagedSession.Session.Publish | acp/lifecycle.go:384-394 | Publishing never sends on the closed channel. |
| ManagedSession.Session.FixOutcome | acp/lifecycle.go:492-523 | The outcome section on the object is the model's verdict. |
| ManagedSession.Session.Finish | acp/lifecycle.go:492-541 | The first call closes the client if Close has not, fixes the outcome, leaves the manager and closes Events, Diagnostics and done in that order; a later call changes nothing. |
| ManagedSession.Manager.Reserve | acp/lifecycle.go:565-590 | An id already mapped is refused and nothing changes; any other gets a new session, and every other entry stays. |
| ManagedSession.Manager.Unregister | acp/lifecycle.go:644-650 | Only an entry that still is the expected session is removed. |
| Utf8.CutAtBoundary | turnoutput/reducer.go:420-429 | Valid UTF-8 (section 3 of RFC 3629) cut at the start of a character is valid on both sides. |
| Utf8.ValidPrefixEndsAtBoundary | turnoutput/reducer.go:420-429 | Valid text has no other valid prefixes. |
| Utf8.CutIsTheLongestValidPrefix | turnoutput/reducer.go:420-429 | cutUTF8 of valid text is its longest valid prefix of at most n bytes. |
| Utf8.CutUTF8 | turnoutput/reducer.go:420-429 | The code's loop computes that cut, for any text and any limit, negative ones included. |
| Utf8.TrimKeepsValid | turnoutput/reducer.go:415-417 | Trimming white space never leaves half a character. |
| TurnHistory.TheBufferIsASuffix | turnoutput/reducer.go:366-408 | Refinement: after any events the bounded turn is the unbounded history seen from the first block still held: a suffix of all blocks ever made, every stored tool and signal position max(0, history position - dropped), the byte counter the exact sum. |
| TurnHistory.Dropped | turnoutput/reducer.go:398-408 | trim lets go of the fewest oldest blocks that make the rest fit, never the last one. |
| TurnHistory.DropOldestSeen | turnoutput/signals.go:348-364 | Dropping a block and shifting every position is seeing the history from one block further on. |
| TurnHistory.NotedSeen | turnoutput/signals.go:90-230 | Every tool, refusal, request and resolution does the same to the bounded turn and to the history. |
| TurnHistory.TheHistoryOnlyGrows | turnoutput/reducer.go:366-394 | Blocks that were let go are never written again, and text is only ever appended. |
| TurnHistory.DeltaLands | turnoutput/reducer.go:366-394 | A delta adds its text, as far as 1 MiB has room, to the end of exactly one block: the newest held with its id, the anonymous one still open, or a new one. |
| TurnHistory.AnonymousBlockIsOpen | turnoutput/reducer.go:366-412 | The anonymous block is open exactly if nothing but stop reasons and empty deltas came since an anonymous delta. |
| TurnHistory.FewestAreDropped | turnoutput/reducer.go:398-408 | What is left is one block, or at most 128 with 4 MiB, and with any dropped block fewer it would not be. |
| TurnInvariants.TextIsBounded | turnoutput/reducer.go:47-60 | After any events a turn holds at most 128 blocks, 4 MiB in all and 1 MiB in a block. |
| TurnText.TextStaysValid | turnoutput/reducer.go:366-429 | If everything said is valid UTF-8, every block and signal text kept is. |
| TurnInvariants.TurnsAreReachable | turnoutput/signals.go:90-230 | At most 256 calls, 256 early facts, 64 signals and 64 requests; early facts are kept, each once, only for calls the turn does not have; no tick runs ahead of the turn's. |
| SignalOrder.RefusalCommutes | turnoutput/signals.go:90-188 | For any fresh non-empty id, a call and its own refusal in either order give the same turn, if and only if the early store is below its bound and the call asks nothing. |
| QuestionOrder.QuestionRefusalOrder | turnoutput/signals.go:163-310 | For a question call with room, the two orders differ in the order of its two signals alone, through any further events; the openSignal verdict is the same, and with it the Output, unless exactly 63 signals were raised later (one of the two is left), and then if and only if the verdict does not need that one. |
| QuestionOrder.TurnedForever | turnoutput/signals.go:190-230 | Every later event keeps everything else the same and the two signals exchanged, until the bound of 64 drops first one and then both. |
| QuestionOrder.OneLeftCanDecide | turnoutput/signals.go:190-310 | In any new turn a refused question call and 63 refused permissions end on the question in one order and on an approval in the other. |
| SignalOrder.ResultCommutes | turnoutput/signals.go:90-310 | For a fresh non-empty id with the early store below its bound, a call and its own first result in either order give the same openSignal verdict, its kind and text included, and the same Output after any further events, whatever ids those use. |
| SignalOrder.ResultMakesTwins | turnoutput/signals.go:90-159 | The two orders leave turns that differ only in the ticks of that call and its result. |
| SignalOrder.TwinsForever | turnoutput/signals.go:90-364 | Every later event keeps that relation, through drops of text, calls and signals. |
| SignalOrder.TwinOutput | turnoutput/signals.go:244-344 | Turns so related are placed, judged and reported alike. |
| LiveTurn.LiveTurn.AddDelta | turnoutput/reducer.go:366-394 | The code's delta, with blocks reached by id and by position, is the model's. |
| LiveTurn.LiveTurn.TrimBlocks | turnoutput/reducer.go:398-408 | The trim loop with its position shifts is the model's trim. |
| LiveTurn.LiveTurn.BlocksShifted | turnoutput/signals.go:348-364 | The three loops move every stored position down by one, if it can. |
| LiveTurn.LiveTurn.RecordTool | turnoutput/signals.go:90-103 | A call claims what was learned of it early, and the oldest call goes past the bound. |
| LiveTurn.LiveTurn.WriteFacts | turnoutput/signals.go:107-131 | Facts go to the newest call with the id, else to the bounded early store. |
| LiveTurn.LiveTurn.RecordResult | turnoutput/signals.go:149-159 | The first result counts. |
| LiveTurn.LiveTurn.RaiseApproval | turnoutput/signals.go:183-195 | A refusal marks its call and raises a signal placed by it. |
| LiveTurn.LiveTurn.ResolvePermission | turnoutput/signals.go:211-230 | A resolution settles the first request any id names, else the oldest; a refusal is a signal where the request was made. |
| LiveTurn.LiveTurn.Observe | turnoutput/feed.go:19-184 | Every body event is one operation of the model, and the index of blocks stays exact. |
| LiveTurn.LiveTurn.FindOpenSignal | turnoutput/signals.go:270-310 | The loop finds the last open question, else the last open approval, unanswered requests included. |
| LiveTurn.LiveTurn.EndedOn | turnoutput/signals.go:244-283 | A signal is open exactly when no real work started after its place and it was not answered. |
| LiveTurn.LiveTurn.PickText | turnoutput/reducer.go:448-471 | The terminal text, else the last final block with text, else the last with any. |
| LiveTurn.LiveTurn.TextOfSignal | turnoutput/signals.go:318-344 | The text of a question or approval: what was written after it, else its own. |
| TurnVerdict.VerdictOfHistory | turnoutput/signals.go:235-310 | For every turn and whatever it forgot: each signal came from something that happened, and the verdict is the last question that still stands, or else the last of the others. What stands is said by the order of events alone: which held calls came after it, or after the first result of the call it names, that asked nothing and were not refused; an answered question call does not; a refusal that names no call always does. Each stands in the text after the blocks begun before it or its call. |
| TurnVerdict.QuestionThenResult | turnoutput/signals.go:235-283 | In any turn, a question call and its result last of all: the turn ended on that question exactly if the result is an error. |
| TurnVerdict.AnAnswerEndsIt | turnoutput/signals.go:268-275 | While its call is one of the last 256, an answered question is never what the turn ended on, whatever else happens. |
| TurnVerdict.AnsweredStands | turnoutput/signals.go:235-283 | An answered question stands exactly if its call was forgotten and no call held works. |
| TurnVerdict.AnswerForgotten | turnoutput/signals.go:90-310 | A turn that ends on an answered question: 256 calls refused before they came push its call out. |
| TurnOutputs.RecordIs | turnoutput/reducer.go:259-329 | The record of any turn, by cases: which endings count as cut, failed or completed; the stop reason of the terminal event or else the last the runtime gave; and which text is reported with which confidence. |
| TurnOutputs.PickIs | turnoutput/reducer.go:448-471 | The text picked is the terminal event's, else that of the last final block with text, else of the last with any. |
| TurnOutputs.SignalTextIs | turnoutput/signals.go:318-344 | For a signal it is what was written after it, else its own text, else what is picked. |
| TurnOutputs.ClipIs | turnoutput/reducer.go:415-417 | A signal's text is trimmed and is cut only past 8 KiB. |
| ReducerModel.StepKeeps | turnoutput/reducer.go:139-329 | The order lists exactly the open ids, each once and at most 64; open and finished ids are disjoint; a stop reason is held only while settled and never together with a pending one; a turn is closed only if not among those remembered. |
| ReducerTheorems.FinishedAreTheLast | turnoutput/reducer.go:259-270 | The reducer remembers exactly the last 64 turns it reported. |
| ReducerTheorems.RepeatsAreFarApart | turnoutput/reducer.go:194-270 | With fresh minted ids, two Outputs with the same TurnID always have at least 64 other Outputs between them. |
| ReducerTheorems.NamedEnding | turnoutput/reducer.go:194-203 | A terminal event with an id is reported if and only if that turn is not one of the last 64 reported, and closes that turn. |
| ReducerTheorems.LateEventsAreDropped | turnoutput/reducer.go:167-181 | An event late for a turn among the last 64 reported changes nothing at all. |
| ReducerTheorems.CurrentEnding | turnoutput/reducer.go:204-206 | A terminal event with no id closes the turn last begun that is still open. |
| ReducerTheorems.OrderIsByBeginning | turnoutput/reducer.go:141-161 | In every session the open turns are in the order they were begun: of any two there was a time when the later was not open, and the earlier has been open ever since. |
| ReducerTheorems.SessionAt | turnoutput/reducer.go:139-289 | In every session the books are in order, and what is remembered is exactly the last 64 ids, how the last turn ended, and the error of the last failure however long ago. |
| ReducerTheorems.MemoryIsBounded | turnoutput/reducer.go:36-60 | However long the session and whatever is lost of it, at most 64 turns are held, each within its bounds on text, calls, early facts, signals and requests. |
| ReducerTheorems.LoneEnding | turnoutput/reducer.go:207-229 | A terminal event with no id and no open turn is dropped if and only if it comes right after another and repeats it: the same error, or the same stop reason and text and no cancellation, a failed turn counting as neither. |
| ReducerTheorems.EmptyDoneAfterFailureIsDropped | turnoutput/reducer.go:216-276 | The session in which an empty completion is dropped though no turn had completed. |
| ReducerTheorems.StopBetweenTurns | turnoutput/reducer.go:149-248 | With no turn open, in every session: events the reducer passes over leave a waiting stop reason, another stop reason replaces it, a lone terminal event takes it, a terminal event that names its turn drops it, and an event that begins a turn gives it what came before the first turn and drops what was held after one. |
| ReducerTheorems.HeldStopOutlivesALateEvent | turnoutput/reducer.go:64-68 | Sessions in which a late event comes between a held stop reason and the lone terminal event that takes it. |
| TurnReducer.Reducer.Begin | turnoutput/reducer.go:149-161 | The oldest open turn makes room, and the new one takes the pending stop reason. |
| TurnReducer.Reducer.EndingOf | turnoutput/reducer.go:194-229 | The turn a terminal event closes, or none for a repeat, as the model says. |
| TurnReducer.Reducer.Finish | turnoutput/reducer.go:259-329 | The turn leaves the books and its Output is made. |
| TurnReducer.Reducer.Observe | turnoutput/feed.go:19-184 | Dispatching a runtime event as the code does, ending the anonymous block first, is one step of the model: the books stay in order and the Output, if any, is the step's. |
| TurnReducer.Reducer.ObserveProvider | turnoutput/feed.go:193-244 | The same for typed events, which carry no turn id. |
| TurnReducer.Reducer.ObserveStream | turnoutput/feed.go:254-288 | The same for legacy stream events. |
| TurnReducer.Reducer.FlushTurn | turnoutput/reducer.go:103-114 | Flush closes the current turn, if there is one, as one step of the model. |
| TurnReducer.BoundaryFirst | turnoutput/feed.go:54-150 | Ending the anonymous block before an event that ends it anyway changes nothing. |
| Feeds.FirstFinalUpdateCounts | turnoutput/feed.go:314-341 | Of any list of updates of one call, progress says nothing and the first that says how it ended is its result. |
| FeedTheorems.BodyReachesItsTurn | turnoutput/reducer.go:149-190 | An event of a turn's body changes the turn it names, else the last begun that is open, else a new one, and no other; past 64 the turn begun first is gone. |
| FeedTheorems.ResultOfARuntime | turnoutput/feed.go:85-92 | A tool result is known of the call named, once: is_error where there is one, else an error for failed and none for completed, else nothing; a nested payload is read rather than the flat one. |
| FeedTheorems.DeltaOfARuntime | turnoutput/feed.go:35-55 | The content, or else the text, is said; a thought, thinking or an unreadable payload is not. |
| FeedTheorems.CallOfARuntime | turnoutput/feed.go:56-84 | A call is the turn's last; a question tool also asks. |
| FeedTheorems.RequestOfARuntime | turnoutput/feed.go:98-117 | A request waits under the event's id and the provider's; a question method asks instead. |
| FeedTheorems.ResolutionOfARuntime | turnoutput/feed.go:118-138 | The first request that shares an id is settled, or else the first; what does not say it was allowed was refused, and asks where the request was made. |
| FeedTheorems.DenialOfARuntime | turnoutput/feed.go:139-145 | A denial marks the call it names as refused and asks for an approval. |
| FeedTheorems.SpawnOfARuntime | turnoutput/feed.go:93-97 | A spawn only ends the anonymous block. |
| FeedTheorems.StartOfARuntime | turnoutput/feed.go:30-34 | A turn start begins the turn it names if it is not open, and one with no id changes nothing. |
| FeedTheorems.BodyOfATyped | turnoutput/feed.go:207-233 | What each typed event leaves in the last turn begun. |
| FeedTheorems.BodyOfAStream | turnoutput/feed.go:259-275 | What each stream event leaves in it. |
| FeedTheorems.EndOfARuntime | turnoutput/feed.go:146-167 | A terminal event closes the turn it names, else the last begun that is open, else one of its own, and reports it as it says; or nothing changes at all. |
| FeedTheorems.DoneOfATyped | turnoutput/feed.go:234-239 | A typed Done completes the turn with its own stop reason and text. |
| FeedTheorems.ErrorOfATyped | turnoutput/feed.go:240-242 | A typed Error fails it with its own error. |
| FeedTheorems.DoneOfAStream | turnoutput/feed.go:280-281 | A stream Done completes it with its content and no stop reason. |
| FeedTheorems.ErrorOfAStream | turnoutput/feed.go:282-283 | A stream Error fails it with its error. |
| FeedTheorems.ExitEnds | turnoutput/feed.go:168-177 | A process exit cuts the last turn begun short, if one is open, and changes nothing otherwise. |
| FeedTheorems.FlushEnds | turnoutput/reducer.go:103-114 | So does a flush, for the reason given or else a process exit. |
| FeedTheorems.UsageOfAFeed | turnoutput/reducer.go:235-248 | A stop reason of either feed is that of the last turn begun that is open. |
| TypedQueue.RunOnceInOrder | wrapper/typed_order.go:45-79 | Every accepted function runs at most once, in the order accepted; a marker is never read with the queue empty; the channel is closed at most once. |
| TypedQueue.NothingLeft | wrapper/typed_order.go:45-79 | When the translator is done everything accepted has run and nothing is left. |
| TypedQueue.ProductionOrder | wrapper/wrapper.go:822-850 | For a single producer the translator's order over typed and surviving stream events is exactly the production order. |
| TypedQueue.Queue.Enqueue | wrapper/typed_order.go:45-56 | The function goes behind all that is in the channel, waiting for the translator while it is full; after close it is refused and nothing changes. |
| TypedQueue.Queue.StreamSend | wrapper/wrapper.go:554-554 | A stream event goes behind all that is in the channel, or is dropped if it is full. |
| TypedQueue.Queue.Dequeue | wrapper/typed_order.go:59-68 | The oldest item. |
| TypedQueue.Queue.CloseFanout | wrapper/typed_order.go:71-79 | The channel is closed once, however often this is called. |
| TypedQueue.Queue.Translate | wrapper/wrapper.go:822-850 | The translator's loop does all that was queued and sent, in order, and leaves nothing. |
| TurnEvents.RunsAreWholeTurns | wrapper/wrapper.go:577-675 | Every run is whole turns (started, processing, body, one terminal, idle, all with one id no other turn has) with only turn-free events between them, all closed before process.exited. |
| TurnEvents.StepIsShaped | wrapper/wrapper.go:577-850 | Every input extends the open turn, closes it or stays outside it. |
| TurnScript.WholeRunFollowsTheScript | wrapper/wrapper.go:577-675 | The kinds of all events of a whole run, with their turns, are those its inputs say, in order: each input its own, a beginning before the first of a turn, an idle after its end, one failure for a turn left open, and process.exited. |
| TurnScript.EndingsOfAWholeRun | wrapper/event_translator.go:38-53 | The terminal events, in order: for each error a failure with stop reason error, for each end a completion with the stop reason last reported since the one before, and a failure for a turn left open. |
| TurnEvents.UsageRidesOnItsTerminal | wrapper/wrapper.go:572-606 | Each terminal event carries the total of exactly the reports since the terminal before it. |
| TurnEvents.UsageOfAWholeRun | wrapper/wrapper.go:629-654 | The final flush puts the rest on one more terminal event if a turn is open, and drops it otherwise. |
| TurnEvents.SharesPartition | wrapper/wrapper.go:572-654 | Those shares and the rest are all the reports, each once and in order. |
| TurnEvents.UsageIsConserved | wrapper/wrapper.go:572-654 | What the terminal events carry plus what the flush drops is the sum of everything reported, count by count. |
| TurnEvents.TotalIsTheSum | wrapper/wrapper.go:1096-1115 | Merging report by report adds every count. |
| TurnEvents.TotalKeepsTheStop | wrapper/wrapper.go:1096-1115 | The latest non-empty stop reason wins. |
| TurnEvents.TotalOfSomething | wrapper/wrapper.go:1096-1115 | There is a total exactly when something was reported. |
| NativeRun.EveryRunIsWholeTurns | wrapper/wrapper.go:577-850 | However callbacks, streams and the closer interleave, every accepted callback's event is emitted in the order accepted, and the whole run is whole turns closed before process.exited. |
| NativeRun.ProducedRunsAreWholeTurns | wrapper/wrapper.go:577-850 | With one producer the events emitted so far are the first of those that what was produced gives, and in the end all of them: whole turns of what was produced, with its usage conserved. |
| TurnEmitter.MergeTurnUsage | wrapper/wrapper.go:1096-1115 | The total is written in place and never is the report itself. |
| TurnEmitter.Turns.AddTurnUsage | wrapper/wrapper.go:572-576 | Adding usage never changes a usage object already emitted. |
| TurnEmitter.Turns.CloseTurn | wrapper/wrapper.go:599-622 | The terminal event takes the usage object and the turn lets go of it. |
| TurnEmitter.Turns.EmitObserved | wrapper/wrapper.go:577-623 | The closure on the heap is the model's step, emitted usage included. |
| TurnEmitter.Turns.EmitProviderObserved | wrapper/wrapper.go:655-675 | The same for typed events, which never end a turn. |
| TurnEmitter.Turns.EmitPermission | wrapper/wrapper.go:783-800 | A permission request and its resolution go into one turn, begun if need be. |
| TurnEmitter.Turns.FlushOpenTurn | wrapper/wrapper.go:629-654 | An open turn fails with its usage, and no usage is left. |
| StreamWriter.Writer.Write | wrapper/io_streams.go:73-116 | The loop over the buffer emits the chunk and each line it completes. |
| StreamWriter.SplitIsExact | wrapper/io_streams.go:90-112 | The newline split and its tail lose no byte. |
| StreamWriter.SplitHasNoNewline | wrapper/io_streams.go:90-112 | Neither the lines nor the tail hold a newline. |
| StreamWriter.WritesReadTheStream | wrapper/io_streams.go:73-116 | However the stream was chunked: the lines are its newline split with one trailing carriage return removed each, the buffer its newline-free tail, the raw chunks the stream, the offset its length. |
| StreamWriter.ChunkingDoesNotMatter | wrapper/io_streams.go:73-116 | Two chunkings of one stream give the same lines and the same buffer. |
| StreamWriter.RawOffsetsAreExact | wrapper/io_streams.go:79-88 | Each raw event's offset is the number of bytes before it. |
| StreamWriter.LineOffsetsAreApproximate | wrapper/io_streams.go:95-110 | A line's offset is its true start plus what was buffered when its Write began: exact if and only if nothing was. |
| StreamWriter.LaterLinesAreOffToo | wrapper/io_streams.go:95-110 | A byte, then a newline and a line of its own: that line is reported a byte late. |
| Environment.Resolve | wrapper/environment.go:74-149 | The loops compute the one resolution: Unset wins, then the last Set, then the last allowed inherited value; it fails, with the first problem, exactly for a bad configuration, whatever is inherited. |
| Environment.WhoWins | wrapper/environment.go:103-137 | A name ends up with nothing if it is unset; else with the last value set; else with the last inherited, unless the mode replaces or an allowlist leaves it out. |
| Environment.AcceptedExactly | wrapper/environment.go:74-134 | A configuration is accepted exactly if its mode is known, it sets nothing it may not, and every name and assignment is good. |
| Environment.EnvironmentNameSet | wrapper/environment.go:163-172 | The canonical names, or the first bad one. |
| Environment.ResolvedSpecEnvironment | wrapper/environment.go:155-161 | No Spec.Env keeps the base; any other replaces it, if every assignment is good. |
| Environment.OneAnswer | wrapper/environment.go:74-149 | The result does not depend on the order in which maps are walked. |
| Environment.LessIsLexicographic | wrapper/environment.go:143-143 | The sort order is the order of strings: at the first difference, or a proper prefix first. |
| Environment.SortedIsUnique | wrapper/environment.go:139-148 | A set of entries has one sorted list, so the walk of the map cannot show. |
| Environment.OneEntryPerName | wrapper/environment.go:133-149 | Strictly sorted by name, with one entry for each canonical name. |
| Environment.ResolvingAgainChangesNothing | wrapper/environment.go:74-161 | Re-resolving the result in replace mode gives it back unchanged, and is accepted if and only if it has no NUL, as NUL-free input ensures. |
| Environment.InheritedNulIsRefusedAgain | wrapper/environment.go:74-161 | An environment that inherits a value with a NUL resolves, and is refused when set again. |

## Left out

- Process spawning, pipes, timers, JSON encoding and decoding and redaction are inputs or decoded records; none of them decides an order.
- `acp/ndjsonclient.go` launch, authentication, notifications and requests other than permission requests: the client's turns, calls and events are modelled; what a payload says, and whether a terminal event says completed or failed, is not.
- `writeLineWithDeadline` (`acp/ndjsonclient.go:1060-1082`): it does not close the transport after a partial write, so whole frames are claimed only for `WriteFrameCtx`.
- `adapters/copilotacp`: a twin of the NDJSON client that would repeat the same proofs.
- `adapters`, `launch`, `plant`, `policy`, `filters`, `sandbox`, `snapshot`: table lookups, or behaviour of libraries and programs that cannot be seen.
- WriteFrame.WholeFrames: assumes that clearing the write deadline fails only on a closed transport, and that a closed transport reports it.
- TypedQueue.ProductionOrder: assumes the runtime stops its own stream sends before closeFanout, as the wrapper's exit path arranges.
- TurnEvents.RunsAreWholeTurns: is about one translator running every closure; a callback refused after the fanout closed emits its event itself and is not modelled; heartbeats and raw output of other goroutines carry no turn id and are not listed. The interrupt mark and the payload filters are inputs that change no order.
- TurnEvents.Report: cost is a real number, so floating-point rounding of `CostUSD` is not modelled.
- ManagedSession.Session.Finish: is the call with no diagnostic callback left to wait for; the wait, with callbacks leaving meanwhile, is steps of LifecycleRuns.
- TurnReducer.Reducer: its turns are values in the map, not pointers; LiveTurn.LiveTurn has the turn as an object, with its blocks as shared objects and its signals and facts as values in its lists.
- Feeds: phases, question tool names and request methods are given as what the feed recognises in them; the text of requests and questions is not built from their payloads.
- Environment.Platform: strings.ToUpper is a parameter, so nothing is claimed about which names Windows considers equal; strings are sequences of characters rather than bytes.
- Liveness under real scheduling and grace periods: safety only, and that each completion lowers the count a barrier waits on.
