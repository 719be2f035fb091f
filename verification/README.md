# Verified model of the agent harness

This project models the stateful core of the agent harness and proves what it is meant to
keep, over every input and every run:

- the context builder and its compaction, with the strict Messages request encoder
  (`Llm`, `MessagesRequest`, `ContextBuilder`, `BuilderObject`, `BuilderProtocol`);
- the session log and the local file store, with forks, torn writes and a write cache whose
  heads are changed in place (`SessionState`, `SessionLog`, `SessionStore`);
- the coordinator loop as a crash-recovery protocol (`Coordinator`, `CoordinatorObject`,
  `CoordinatorRuns`, `CoordinatorRecovery`, `CoordinatorProtocol`, `CoordinatorSafety`,
  `CoordinatorLog`, and with the operation manager `HarnessRuns`);
- the shell operation, its bounded output over UTF-8, the file reads that drive it, and the
  operation manager (`Utf8`, `BoundedOutput`, `ShellOperation`, `ShellObject`, `ShellRuns`,
  `FileStream`, `LocalManager`, `ManagerObject`);
- the incremental SSE framer (`SseFramer`), the streamed message assembler
  (`StreamAssembler`, `StreamObject`) and the bounded file search (`FileSearch`).

Code that the repository writes as objects updated in place is a class here, each method
proved against a function of the old state; the main results are lemmas about these functions
over whole runs. The links between the parts are proved too: the coordinator keeps the
builder's protocol, so every request it sends is in an order the encoder accepts; what the
coordinator records is what the bytes of its log decode (`CoordinatorLog`); the operation
manager sends it no update after a last one (`HarnessRuns`); what a shell reads through the
file primitive gives the output that bounding the whole capture would give.

Foreign code is a parameter: JSON is a codec of which only this is used, that it decodes what
it encoded; tools, actors, fuzzy matching and the disk's failures are functions or outcomes
passed in; clock readings are parameters other than Go's zero time; the order in which
channels, timers and maps deliver is any order. New IDs are not assumed to be new: the store
checks turns and operations, and only a model's call IDs are required to be.

Five things the code does that its comments do not say, each with its exact condition:

- a fork does not take the items of the chosen turn that were recorded after a later turn
  began (`SessionState.ForkLosesALateReport`); it takes the turn whole if and only if there
  are none (`SessionState.ForkHoldsTheTurn`);
- a restart may know an older state of an operation that changed after the history showed it
  finished, which the store does not refuse (`Coordinator.RestartForgetsALateChange`); it is
  exact if and only if that never happens (`Coordinator.RestoredOperationsExact`). The runs
  of the coordinator alone assume it (`CoordinatorRuns.Fair`); with the operation manager
  beside it, it is proved (`HarnessRuns.TogetherNothingIsForgotten`);
- a process may be started again, any number of times, if crashes lose the checkpoint of its
  start, which the manager queues while the process already runs
  (`ShellRuns.AnyNumberOfStarts`); a resume may start it if and only if its checkpoint is of a
  new operation or of one that still creates its files (`ShellRuns.StartsExactly`), and from
  the latest checkpoint it is started once at most (`ShellRuns.StartsAtMostOnce`);
- a remote-job handler that sends an update in the name of a running local operation makes
  the operation manager panic (`LocalManager.AHandlerCanPanic`), and no other update does
  (`LocalManager.OnlyLocalPanics`);
- creating a session replaces a file that already has its name (`SessionStore.Store.Create`).

`dafny verify dfyconfig.toml` checks everything.

## Model

| member | source | states |
|---|---|---|
| `MessagesRequest.RequestInput` | harness/llm/messagesapi/request.go:96-167 | The input is accepted exactly when every item can be encoded, each call ID is new, every result belongs to a call made before, and the assistant never speaks (nor the input end) with a call unanswered; the messages are then the rendering of the groups, with the system text apart. |
| `MessagesRequest.GroupEnd` | harness/llm/messagesapi/request.go:107-121 | The group found is the maximal run of items of one side, or some item of it cannot be encoded. |
| `MessagesRequest.RequestAssistantItems` | harness/llm/messagesapi/request.go:122-150 | One block for each item of the group, in order; its calls become pending, in order; refused exactly when an item cannot be encoded or a call ID was used before. |
| `MessagesRequest.ReadUserItems` | harness/llm/messagesapi/request.go:197-223 | After the loop the table holds for each call its first result, and the texts are the later results and the messages in order; refused exactly when an item cannot be encoded or answers no known call. |
| `MessagesRequest.CollectAnswers` | harness/llm/messagesapi/request.go:224-249 | The answers are the first results of the pending calls in call order; refused exactly when one has none. |
| `MessagesRequest.RequestUserItems` | harness/llm/messagesapi/request.go:191-250 | The content of a user group: the first results of the pending calls in call order, then everything else in its own order. |
| `MessagesRequest.FirstAnswerIsFirst` | harness/llm/messagesapi/request.go:207-214 | What is kept for a call is the output of the earliest result with its ID, and there is one exactly if such a result exists. |
| `MessagesRequest.AcceptedRendering` | harness/llm/messagesapi/request.go:96-250 | Conservation: in an accepted input every call, each with an ID of its own, has exactly one tool_result block, holding its first result, in call order over the whole input; every later result and every message stays as ordinary content in place; the assistant blocks are the assistant items; nothing else is emitted. |
| `MessagesRequest.RenderAnswers` | harness/llm/messagesapi/request.go:224-249 | Over any prefix, the tool_result blocks emitted are those of the calls already due, in call order. |
| `MessagesRequest.RenderKeepsOrdinary` | harness/llm/messagesapi/request.go:197-223 | Ordinary user content survives grouping unchanged and in order. |
| `MessagesRequest.RenderKeepsAssistant` | harness/llm/messagesapi/request.go:122-150 | Assistant content survives grouping unchanged and in order. |
| `BuilderObject.Builder.AddExternalInput` | harness/contextbuilder/builder.go:53-71 | Stages one user message, or changes nothing for a wrong kind or an undecodable payload. |
| `BuilderObject.Builder.AddControlMessage` | harness/contextbuilder/builder.go:77-100 | Settings change the model in place (a new model ID drops all checkpoints); a heartbeat is staged as a user message; anything else changes nothing. |
| `BuilderObject.Builder.SetSystemPrompt` | harness/contextbuilder/builder.go:102-108 | Only the first committed item changes. |
| `BuilderObject.Builder.AddModelResponse` | harness/contextbuilder/builder.go:110-116 | The response extends the committed prefix, with a checkpoint at its end carrying its token total (64-bit wrap-around); what is staged stays staged. |
| `BuilderObject.Builder.AddToolResult` | harness/contextbuilder/builder.go:122-146 | The first running result staged for the call is replaced in place; without one the result is appended; a running result carries the fixed payload. |
| `BuilderObject.Builder.Commit` | harness/contextbuilder/builder.go:152-155 | Everything staged moves to the end of the committed prefix. |
| `BuilderObject.CollectPendingToolCalls` | harness/contextbuilder/compaction.go:133-144 | The loop over map and order slice collects the pending calls of the committed prefix. |
| `BuilderObject.Builder.CompactionCutoff` | harness/contextbuilder/compaction.go:86-102 | The backward scan finds the declarative cutoff. |
| `ContextBuilder.Cutoff` | harness/contextbuilder/compaction.go:86-102 | The cut begins the longest contiguous run of checkpoints, ending with the latest, that are all within 20,000 tokens of it; there is none exactly when there is no checkpoint or the latest is within budget. |
| `BuilderObject.Builder.BuildCompaction` | harness/contextbuilder/compaction.go:18-39 | A separate builder over the summarized history, with a running result for each call that has none and the closing message, builds the request; the builder itself is unchanged. |
| `BuilderObject.Builder.AddCompactionSummary` | harness/contextbuilder/compaction.go:68-83 | The summary is the last assistant message that is not blank, or empty. |
| `BuilderObject.Builder.CarryForwardContext` | harness/contextbuilder/compaction.go:148-163 | The pending calls with their latest running results follow the summary, then the retained suffix and the staging, unchanged. |
| `BuilderObject.Builder.Compact` | harness/contextbuilder/compaction.go:51-66 | The rebuilt builder is a new object with the compacted history; the original is left alone. |
| `BuilderProtocol.CollectMeaning` | harness/contextbuilder/compaction.go:133-144 | A call is pending exactly when its latest result is not final, and its recorded result is its latest running one. |
| `BuilderProtocol.OrderMeaning` | harness/contextbuilder/compaction.go:133-144 | The order lists every call once. |
| `BuilderProtocol.UnansweredAreTrailing` | harness/contextbuilder/compaction.go:18-39 | At a response boundary every call without any result is made in the trailing run of assistant items, and answered pending calls come before them. |
| `BuilderProtocol.SummarizerInputSettled` | harness/contextbuilder/compaction.go:18-39 | The summarizer input keeps every ordering rule of the encoder, and adds nothing that cannot be encoded. |
| `BuilderProtocol.CarriedForward` | harness/contextbuilder/compaction.go:148-163 | The opening of a compacted history holds exactly the calls still open, in their order, each in the phase it had. |
| `BuilderProtocol.CompactReplaces` | harness/contextbuilder/compaction.go:51-66 | Compaction exchanges exactly the summarized history for the opening; the retained items, the staging, model, tools and prompts are untouched. |
| `BuilderProtocol.CompactInv` | harness/contextbuilder/compaction.go:51-66 | Compaction preserves the invariant and the phase of every open call, and brings no finished call back. |
| `BuilderProtocol.AddModelResponseInv` | harness/contextbuilder/builder.go:110-116 | A response with new call IDs keeps the invariant and adds exactly its calls, unanswered, though it is inserted before what is staged. |
| `BuilderProtocol.AddToolResultInv` | harness/contextbuilder/builder.go:122-146 | A result for an open call keeps the invariant and moves that call to running or done, no other. |
| `BuilderProtocol.CommitInv` | harness/contextbuilder/builder.go:152-155 | A commit with no unanswered call keeps the invariant. |
| `BuilderProtocol.StrictIsSettled` | harness/llm/messagesapi/request.go:96-250 | A history that follows the discipline and leaves no call unanswered is in an order the encoder accepts. |
| `BuilderProtocol.OrdinaryRequest` | harness/llm/messagesapi/request.go:96-167 | Under the invariant an ordinary request is accepted if and only if it says something, every item can be encoded and every call has a result. |
| `BuilderProtocol.CompactionRequest` | harness/contextbuilder/compaction.go:18-39 | Under the invariant a compaction request is accepted if and only if the items it summarizes can be encoded. |
| `BuilderProtocol.EveryRequestAccepted` | harness/contextbuilder/compaction.go:18-163 | For every run of builder operations that keeps to the protocol, with any number of compactions, no request is refused for its order. |
| `BuilderProtocol.DropsWhatWasSummarized` | harness/contextbuilder/compaction.go:18-66 | Whatever inputs, results, settings and commits come between request and response, compaction drops exactly the history that was summarized; a change of model calls it off. |
| `Utf8.SanitizeIsReencode` | harness/operation/output.go:58-60 | Replacing each invalid byte by U+FFFD is decoding all runes and encoding them again (section 4 of RFC 3629). |
| `Utf8.SanitizeKeepsValid` | harness/operation/output.go:58-60 | Valid UTF-8 comes out unchanged. |
| `Utf8.BackwardAgrees` | harness/operation/output.go:40-46 | Stepping back n runes from the end lands where stepping forward over all but the last n does, for any bytes. |
| `Utf8.DecodeLastRune` | harness/operation/output.go:43 | The last rune of any bytes has the size that the forward reading gives it. |
| `BoundedOutput.OutputPart` | harness/operation/output.go:39-56 | The loops return the sanitized first or last runes and their size in the original bytes. |
| `BoundedOutput.BoundOutputOf` | harness/operation/output.go:17-37 | Both parts, the marker and the panic for an empty tail, as specified. |
| `BoundedOutput.BoundedMeaning` | harness/operation/output.go:17-37 | Output of at most the limit in runes is kept whole; of longer output exactly the first limit/2 and the last limit-limit/2 runes are kept, they never overlap, and the marker counts exactly the bytes between them. |
| `BoundedOutput.WindowsSuffice` | harness/operation/shell.go:406-449 | For any bytes longer than the read limit, bounding the head and tail windows gives what bounding the whole capture gives, wherever the windows cut a rune, and the panic is not reached. |
| `SseFramer.RemoteSSEFramer.Append` | harness/primitives/remote_sse.go:33-114 | One chunk fed to the framer emits what the byte automaton emits (in pass-through mode the same bytes at the same offsets), fails exactly when it fails, and leaves its state. |
| `SseFramer.RemoteSSEFramer.FinishStream` | harness/primitives/remote_sse.go:116-127 | In pass-through mode what is still held becomes a last frame; in strip mode it is dropped; every field but the line flag is reset. |
| `SseFramer.RemoteSSEFramer.AppendFrameBytes` | harness/primitives/remote_sse.go:129-137 | Bytes are added exactly when the frame stays within its maximum; otherwise nothing changes. |
| `SseFramer.RemoteSSEFramer.TakeFrame` | harness/primitives/remote_sse.go:139-150 | The frame carries the offset of what was emitted before it, and its data up to the delimiter in strip mode. |
| `SseFramer.RemoteSSEFramer.AppendLF` | harness/primitives/remote_sse.go:36-73 | A line feed after a carriage return belongs to the line ending already seen: it is counted against the ended frame or added to the current one. |
| `SseFramer.RemoteSSEFramer.EndLine` | harness/primitives/remote_sse.go:91-110 | A terminator ends the frame exactly when its line is blank. |
| `SseFramer.ChunksDoNotMatter` | harness/primitives/remote_sse.go:33-114 | Feeding chunk after chunk is feeding their concatenation, for frames, offsets, state and failure. |
| `SseFramer.RunIsSplit` | harness/primitives/remote_sse.go:33-150 | From the start of any line on, the automaton emits the frames of the batch split of the stream at blank lines over CR, LF and CRLF (section 9.2.5 of the WHATWG HTML Standard), with the same offsets, and fails exactly when some frame is too large. |
| `SseFramer.StripIsSplit` | harness/primitives/remote_sse.go:33-150 | In strip mode every chunking gives the frames and the outcome of the batch split. |
| `SseFramer.PassThroughConserves` | harness/primitives/remote_sse.go:33-150 | All emitted data and what is still held are the bytes fed, in order, and offsets count the bytes emitted. |
| `SseFramer.ModesFailTogether` | harness/primitives/remote_sse.go:33-150 | The two modes fail at the same byte. |
| `SseFramer.PassThroughIsIdentity` | harness/primitives/remote_sse.go:33-150 | In pass-through mode every error-free stream comes out byte for byte with the finishing frame, frame offsets are contiguous, the frames are those of the split as they are on the wire (a line feed emitted after its carriage return put back to it), and it fails exactly when some frame of the split, its CRLF included, exceeds the maximum. |
| `SessionState.ForkStoredState` | harness/sessionstore/localfile/state.go:318-362 | The search and the copying loop compute the fork, or not-found. |
| `SessionState.BoundaryMeaning` | harness/sessionstore/localfile/state.go:324-343 | The boundary is the last item of the chosen turn before any later turn begins; there is none exactly if no item belongs to the turn. |
| `SessionState.ForkMeaning` | harness/sessionstore/localfile/state.go:318-362 | A fork succeeds exactly for a turn the parent knows; it holds the parent items up to the boundary without operations, then the fork item; that turn is its latest, it owns no turn, response, status or operation, and it is itself a sound parent. |
| `SessionState.ForkHoldsTheTurn` | harness/sessionstore/localfile/state.go:324-343 | The exact condition: a fork holds every item of the chosen turn if and only if none of them was recorded once another turn had begun after its first. |
| `SessionState.ForkLosesALateReport` | harness/sessionstore/localfile/state.go:324-343 | A concrete parent where it does not: a call of the first turn reports after the second turn began. |
| `SessionState.ReplaySound` | harness/sessionstore/localfile/state.go:56-222 | Every owned append keeps the head in step with the items: sequence, known turns, latest turn, owned turns and operation positions. |
| `SessionState.SaveSound` | harness/sessionstore/localfile/state.go:265-284 | An operation update keeps the head in step with the items, replaces that operation where it stands and leaves every other operation and field alone. |
| `SessionState.ReferencesMeaning` | harness/sessionstore/localfile/state.go:224-263 | A status without an error is valid exactly when it waits for the operations it initializes, each once; with an error, exactly when both lists are empty. |
| `SessionState.ResumeOf` | harness/sessionstore/localfile/state.go:286-316 | The loops over items and operations compute the unfinished operations, the finished ones whose last recorded snapshot is unfinished, and the input IDs. |
| `SessionLog.EncodeInitialLog` | harness/sessionstore/localfile/codec.go:50-85 | The loop writes header and items, or fails for a bad ID, a gap in the numbering, a zero time or an item that cannot be encoded on one line. |
| `SessionLog.ReadRecords` | harness/sessionstore/localfile/codec.go:96-175 | The first pass accepts exactly the logs whose records are in place and numbered, and finds how many items are inherited. |
| `SessionLog.DecodeLog` | harness/sessionstore/localfile/codec.go:87-206 | The two passes compute the decoded state and the committed size, or fail. |
| `SessionLog.DecodedIsNumbered` | harness/sessionstore/localfile/codec.go:137-156 | Whatever decodes has its items numbered from 1, each with a time, and a valid session ID. |
| `SessionLog.DecodeOneMore` | harness/sessionstore/localfile/codec.go:208-228 | Decoding one more owned record applies it to what was decoded before. |
| `SessionLog.TornAppend` | harness/sessionstore/localfile/codec.go:87-94 | Of an appended record, cut at any byte, decoding sees nothing or, once it is whole, all of it. |
| `SessionLog.TailIsIgnored` | harness/sessionstore/localfile/codec.go:88-94 | Truncating to the committed size changes nothing that is decoded. |
| `SessionLog.LaterAppends` | harness/sessionstore/localfile/codec.go:87-206 | Whatever owned records are appended later apply one by one to what the log said before. |
| `SessionLog.LogStaysSound` | harness/sessionstore/localfile/codec.go:87-206 | A log that began sound and was only appended to decodes to a sound state. |
| `SessionLog.CreateRoundTrip` | harness/sessionstore/localfile/codec.go:50-206 | The initial log of a new session decodes to the empty session. |
| `SessionLog.ForkRoundTrip` | harness/sessionstore/localfile/codec.go:50-206 | The initial log of a fork, also of a fork of forks, decodes to exactly the forked state. |
| `SessionStore.HeadAppendTurn` | harness/sessionstore/localfile/state.go:68-93 | The turn is added to the shared maps in place, only after every check has passed. |
| `SessionStore.HeadAppendResponse` | harness/sessionstore/localfile/state.go:95-116 | The turn is marked as answered in place, only if it is owned and unanswered. |
| `SessionStore.CheckReferences` | harness/sessionstore/localfile/state.go:224-263 | The loops over the two maps accept exactly the valid references. |
| `SessionStore.CheckOperations` | harness/sessionstore/localfile/state.go:141-161 | The loop finds the first operation that cannot be initialized, and why. |
| `SessionStore.HeadAppendStatus` | harness/sessionstore/localfile/state.go:118-177 | A first status is checked and then initializes its operations in the shared maps and backing array; a later one only takes a number. |
| `SessionStore.HeadSaveOperation` | harness/sessionstore/localfile/state.go:265-284 | The operation is overwritten where it stands in the shared array, only after every check. |
| `SessionStore.AppendIsAtomic` | harness/sessionstore/localfile/store.go:413-433 | However an append to the file ends, the file decodes to what it said before or to that and the new record; on success to the latter. |
| `SessionStore.HeadForetells` | harness/sessionstore/localfile/store.go:122-229 | What the in-memory head method decides and computes is what decoding the written record will decide and compute. |
| `SessionStore.Store.constructor` | harness/sessionstore/localfile/store.go:39-55 | A store opened on whatever files a crash left begins coherent, with an empty cache. |
| `SessionStore.Store.ReadState` | harness/sessionstore/localfile/store.go:274-300 | Reading succeeds exactly for a valid, uncanceled request whose file decodes to that session. |
| `SessionStore.Store.LoadWriteState` | harness/sessionstore/localfile/store.go:302-321 | The head returned is the cached one, shared with the cache, and is what the file decodes to. |
| `SessionStore.Store.AppendFile` | harness/sessionstore/localfile/store.go:413-433 | The file is cut to the committed size and then holds as much of the record as was written. |
| `SessionStore.Store.Append` | harness/sessionstore/localfile/store.go:336-354 | Though the cached head was already changed in place, the cache is coherent again after success, after an encoding failure and after any write failure; the file holds the record entirely or not at all; other sessions are untouched. |
| `SessionStore.Store.AppendInput` | harness/sessionstore/localfile/store.go:122-138 | On success exactly the input is recorded and made known; a refused input or a failure leaves the file saying no more than that record; the cache stays coherent. |
| `SessionStore.Store.AppendTurn` | harness/sessionstore/localfile/store.go:140-156 | The same for a turn. |
| `SessionStore.Store.AppendModelResponse` | harness/sessionstore/localfile/store.go:158-178 | The same for a model response. |
| `SessionStore.Store.AppendToolCallStatus` | harness/sessionstore/localfile/store.go:180-205 | The same for a tool-call status and the operations it initializes. |
| `SessionStore.Store.SaveOperation` | harness/sessionstore/localfile/store.go:207-229 | On success the file says the new operation state; otherwise it says what it said or exactly that; the cache stays coherent. |
| `SessionStore.Store.PublishInitialState` | harness/sessionstore/localfile/store.go:323-334 | The file is replaced as a whole or not at all, and the cache stays coherent also when publishing fails after the rename. |
| `SessionStore.Store.Create` | harness/sessionstore/localfile/store.go:71-84 | A created session decodes to the empty session, replacing what was there; other sessions are untouched. |
| `SessionStore.Store.Fork` | harness/sessionstore/localfile/store.go:239-264 | A forked session decodes to exactly what forking the decoded parent gives, and its fork item is made known. |
| `SessionStore.Store.Items` | harness/sessionstore/localfile/store.go:94-120 | A page holds the items after the cursor, its last sequence, and whether there are more. |
| `SessionStore.Store.Resume` | harness/sessionstore/localfile/store.go:231-237 | The resume state is that of the decoded file. |
| `SessionStore.Store.LoadHistory` | harness/coordinator/loop.go:525-550 | Page after page gives every item once and in order, for any page size, and the check that paging advances never fails. |
| `Coordinator.AddItemAgrees` | harness/coordinator/loop.go:570-673 | Two local states that differ at most in operations still do after a status that carries what it waits for: replay needs nothing that is not in the log. |
| `Coordinator.LoadedOperations` | harness/coordinator/loop.go:525-673 | Of each operation a loaded history knows its last recorded snapshot, and no other operation. |
| `Coordinator.RestoredOperation` | harness/coordinator/loop.go:515-523 | After a restart an operation is as stored, unless store and history both show it finished; then it is as the history shows it. |
| `Coordinator.RestoredOperationsExact` | harness/coordinator/loop.go:515-523 | A restart knows exactly the stored operations if and only if no operation changed after the history showed it finished. |
| `Coordinator.RestartForgetsALateChange` | harness/sessionstore/localfile/state.go:265-316 | A concrete session: an operation is recorded as finished, the store accepts a later change of it, and the restart knows the older state. |
| `CoordinatorObject.LoopCoordinator.FinishToolCall` | harness/coordinator/loop.go:712-723 | The call is closed, leaves the grace period (which ends with its last call), and counts as one more available input. |
| `CoordinatorObject.LoopCoordinator.ToolCallOperationsAreTerminal` | harness/coordinator/loop.go:725-740 | True exactly when every operation of the call is known and finished. |
| `CoordinatorObject.LoopCoordinator.AddToolCallsToLocalState` | harness/coordinator/loop.go:675-689 | Every tool call of the response is registered under its turn, without a status. |
| `CoordinatorObject.LoopCoordinator.AddToolCallOperationsToLocalState` | harness/coordinator/loop.go:691-710 | The call notes the status and every operation it waits for; no other call changes. |
| `CoordinatorObject.LoopCoordinator.AddToolResultToLocalState` | harness/coordinator/loop.go:742-787 | The result goes to the context, running while an operation is unfinished and closing the call otherwise; missing operations or an unavailable tool are handled as the source does; an error changes nothing. |
| `CoordinatorObject.LoopCoordinator.ApplyCompactionResponse` | harness/coordinator/loop.go:497-505 | Only a complete response compacts, and then the builder is replaced by the rebuilt one. |
| `CoordinatorObject.LoopCoordinator.AddItemToLocalState` | harness/coordinator/loop.go:570-673 | Every kind of item updates maps, counters and builder in place as specified, or is an error. |
| `CoordinatorObject.LoopCoordinator.RestoreFrom` | harness/coordinator/loop.go:515-564 | Loading the history and laying the resumed operations over it computes the restored state, or fails for a recorded call whose tool is gone. |
| `CoordinatorRecovery.PersistReplays` | harness/coordinator/loop.go:570-673 | A self-contained item, once recorded, replays to what it made of the live state. |
| `CoordinatorRecovery.RestartIsExact` | harness/coordinator/loop.go:515-523 | Under the recovery invariant a restart rebuilds the live state. |
| `CoordinatorRecovery.ScheduleRecoverable` | harness/coordinator/loop.go:813-847 | Scheduling a call keeps the recovery invariant: its first status carries all it waits for. |
| `CoordinatorRecovery.ReconcileRecoverable` | harness/coordinator/loop.go:863-900 | Reconciling a call keeps the recovery invariant: its snapshots are the live operations. |
| `CoordinatorRecovery.StepRecoverable` | harness/coordinator/loop.go:89-276 | Every step keeps the recovery invariant, and a crash changes nothing but what is volatile. |
| `CoordinatorRecovery.CrashChangesNothing` | harness/coordinator/loop.go:89-276 | In every state that any run reaches, with any crashes in it, a restart from the log succeeds and gives exactly the live turn, calls, operations, counters and context. |
| `CoordinatorLog.StepWrites` | harness/coordinator/loop.go:911-974 | Every step writes at most one record, and that record applied to what was stored gives what is stored after it. |
| `CoordinatorLog.FileTellsTheRun` | harness/coordinator/loop.go:911-974 | In every run whose records can be encoded, the bytes of the file decode to exactly what the coordinator has stored, and a restart from them gives the live state. |
| `CoordinatorLog.TornStepIsAllOrNothing` | harness/sessionstore/localfile/store.go:413-433 | A crash at any byte of the record being written: the file says the state before the step or after it, and a restart gives the live state of then. |
| `CoordinatorProtocol.StatusEffect` | harness/coordinator/loop.go:742-787 | A recorded status of an open call always gives the context exactly one result, running or final. |
| `CoordinatorProtocol.StepGood` | harness/coordinator/loop.go:89-276 | Every step keeps the coordinator calls equal to the open calls of the conversation, with their phases. |
| `CoordinatorProtocol.EveryRequestAccepted` | harness/coordinator/loop.go:352-407 | In every run of the coordinator, with crashes and compactions, a request is refused if and only if an item of it cannot be encoded: never for its order. |
| `CoordinatorProtocol.CompactionDropsWhatItSummarized` | harness/coordinator/loop.go:352-505 | In every run: as long as the model is asked for a turn decided to compact, its response is taken as a summary and drops exactly what the request summarized, whatever came between; after a change of model it drops nothing. |
| `CoordinatorSafety.HistoryAccounts` | harness/coordinator/loop.go:570-787 | At every item of a history: available counts the external inputs, heartbeats and finished calls, each once; delivered is what was available when the latest turn began that was answered while current; 0 <= delivered <= the current turn inputs <= available. |
| `CoordinatorSafety.DeliveryAccounting` | harness/coordinator/loop.go:278-328 | The live counters satisfy that accounting in every state of every run. |
| `CoordinatorSafety.IdleMeansDelivered` | harness/coordinator/loop.go:278-281 | An idle run has delivered everything: since the latest answered turn began nothing was asked and no call made, and every call had finished by then. |
| `CoordinatorSafety.HandedIsRecorded` | harness/coordinator/loop.go:976-995 | An operation is with the manager only after a recorded status carried it. |
| `CoordinatorSafety.HardStopStays` | harness/coordinator/loop.go:319-324 | An accepted hard stop is never downgraded, and the next decision makes it take hold. |
| `CoordinatorSafety.HardStopHolds` | harness/coordinator/loop.go:267-276 | Once a hard stop has taken hold, until the run ends no turn, response, new call or operation is recorded or handed over, and the set of unfinished operations only shrinks. |
| `CoordinatorSafety.EveryHardStopHolds` | harness/coordinator/loop.go:267-276 | The same from the start: in every run, from the state where a hard stop took hold until the run ends. |
| `StreamAssembler.MergeTakesDecisions` | harness/llm/messagesapi/message_builder.go:90-106 | At every path the merge takes what the update decides, and keeps every other leaf of the previous value. |
| `StreamAssembler.MergeTwice` | harness/llm/messagesapi/message_builder.go:90-106 | Reporting the same usage again changes nothing. |
| `StreamAssembler.FoldMeaning` | harness/llm/messagesapi/stream.go:19-89 | A stream folds exactly when its events stand in order, its message-level events fold, and the events of each block fold by themselves; its state is what these make. |
| `StreamAssembler.InterleavingDoesNotMatter` | harness/llm/messagesapi/stream.go:19-89 | Streams with the same message-level events and the same events of each block give the same message, or fail alike, however blocks interleave. |
| `StreamAssembler.AfterStop` | harness/llm/messagesapi/stream.go:20-22 | Whatever follows the stop is ignored. |
| `StreamObject.BlockContentBuilder.HandleDelta` | harness/llm/messagesapi/block_content_builder.go:54-81 | The one matching string grows; a finalized block or a delta of another kind is refused and changes nothing. |
| `StreamObject.SupersededBySeen` | harness/llm/messagesapi/message_builder.go:70-78 | Going backward, the flag says for each block whether a finalized fallback comes after it. |
| `StreamObject.MessageBuilder.BuildContent` | harness/llm/messagesapi/message_builder.go:62-85 | The backward loop and the reversal give the finalized blocks in index order, without the thinking, redacted_thinking and tool_use blocks before the last finalized fallback. |
| `StreamObject.MessageBuilder.Update` | harness/llm/messagesapi/message_builder.go:28-48 | Members that are not null replace those of the message, and usage is merged; no block changes. |
| `StreamObject.MessageBuilder.StartBlock` | harness/llm/messagesapi/message_builder.go:50-60 | A new block takes a free index; otherwise nothing changes. |
| `StreamObject.StreamingState.ObserveBlockEvent` | harness/llm/messagesapi/stream.go:67-81 | A block event changes the one block it names. |
| `StreamObject.StreamingState.Observe` | harness/llm/messagesapi/stream.go:19-89 | Each event updates message, body and flags in place as specified, or is an error. |
| `StreamObject.StreamingState.Unwrap` | harness/llm/messagesapi/stream.go:91-99 | An error event wins, with its data as the body, then the body of a stopped stream; a stream may not just end. |
| `FileSearch.CompareIsOrder` | cmd/unreal-agent-tui/internal/filesearch/fuzzy.go:37-48 | The comparison is antisymmetric, and only equal candidates compare as equal. |
| `FileSearch.CompareChain` | cmd/unreal-agent-tui/internal/filesearch/fuzzy.go:37-48 | The comparison is transitive. |
| `FileSearch.SortIsSorting` | cmd/unreal-agent-tui/internal/filesearch/fuzzy.go:49-58 | The reference sort is an ordered permutation. |
| `FileSearch.OrderedUnique` | cmd/unreal-agent-tui/internal/filesearch/fuzzy.go:37-48 | There is only one ordered permutation of any candidates. |
| `FileSearch.BinarySearch` | cmd/unreal-agent-tui/internal/filesearch/fuzzy.go:50 | The search returns the first position not before the target. |
| `FileSearch.KeepsTheBest` | cmd/unreal-agent-tui/internal/filesearch/fuzzy.go:49-58 | Bounded insertion keeps what sorting everything and cutting would. |
| `FileSearch.BoundedInsertionIsTop` | cmd/unreal-agent-tui/internal/filesearch/fuzzy.go:49-58 | What is kept are the first ones of any ordered permutation of the candidates: neither their order nor their batches matter. |
| `FileSearch.Search` | cmd/unreal-agent-tui/internal/filesearch/fuzzy.go:31-107 | Over batches of 256 paths the result is the first limit of all candidates in rank, score, length and path order; there is none exactly when one of the checks before each batch and after the last finds the context canceled. |
| `ShellRuns.NeverStartsAgain` | harness/operation/shell.go:194-284 | From the process phase or a later one on, no event and no number of crashes with resumes from such checkpoints starts a process again, whatever was written before. |
| `ShellRuns.StartsAtMostOnce` | harness/operation/shell.go:118-284 | A new operation starts its process at most once, with any number of crashes, if each resume is from the latest checkpoint. |
| `ShellRuns.StartsExactly` | harness/operation/shell.go:118-308 | The exact condition: after a crash, resuming from a checkpoint, and later only from the latest, can start a process if and only if the checkpoint is of a new operation or of one that creates its files, with an ID that can be a file name; it never starts more than one. |
| `ShellRuns.AnyNumberOfStarts` | harness/operation/shell.go:118-308 | Without resuming from the latest checkpoint nothing bounds it: for every number there is a run of a new operation that starts its process as often. |
| `ShellRuns.StartIsWritten` | harness/operation/shell.go:217-245 | A step that starts a process writes a checkpoint in the process phase. |
| `ShellRuns.FinishFits` | harness/operation/shell.go:436-458 | A finished operation has the recorded exit code and the bounded output of both whole captures. |
| `ShellRuns.CompleteFits` | harness/operation/shell.go:406-434 | A completed read leaves what the next phase relies on: the whole capture, or its head and tail windows. |
| `ShellRuns.HandleFits` | harness/operation/shell.go:118-458 | Every step keeps the state telling of the captures what its phase has read, and its checkpoint acceptable. |
| `ShellRuns.EveryRunIsRight` | harness/operation/shell.go:118-458 | In every run of a new operation, with crashes at any checkpoint: every checkpoint passes validation, and a completed operation shows what bounding the whole captures shows, with the status of a process exit that was delivered. |
| `ShellRuns.ReadsMakeProgress` | harness/operation/shell.go:368-404 | Every read event finishes the operation, advances the phase or leaves less to read. |
| `ShellObject.ShellActor.HandleStep` | harness/operation/shell.go:118-150 | The object updates operation, state and chunks in place as the specified step does; a refused event changes nothing. |
| `ShellObject.ShellActor.HandleEvent` | harness/operation/shell.go:247-284 | Source, cancellation, failure, correlation and phase are checked in this order. |
| `ShellObject.ShellActor.ResumeNow` | harness/operation/shell.go:194-210 | An interrupted process phase fails; any other phase is dispatched anew with nothing read. |
| `ShellObject.ShellActor.HandleRead` | harness/operation/shell.go:368-404 | A chunk is kept only at its offset and within the request; a completion is accepted only for exactly what was asked. |
| `ShellObject.ShellActor.FinishNow` | harness/operation/shell.go:436-458 | Both captures are bounded, the inline parts dropped and the operation completed. |
| `FileStream.StreamOpenFile` | harness/primitives/file.go:99-190 | Chunks of at most 32 KiB in order, then exactly one terminal event; a completion comes after everything asked for, with the size of the file; a file that cannot be closed is a failure, also after a cancellation. |
| `FileStream.StreamFile` | harness/primitives/file.go:51-97 | The same from the request on; without a mishap it completes. |
| `FileStream.ReadPhaseSucceeds` | harness/operation/shell.go:368-434 | Fed the whole stream of what its phase asked for, a shell never fails: it moves to a later phase or completes. |
| `FileStream.ReadsComplete` | harness/operation/shell.go:368-458 | From any read phase, at most one read for each phase left completes the operation with the right result. |
| `LocalManager.TransitionsAreFinal` | harness/operation/remote_job_handler.go:139-152 | Along any transitions a remote job never returns to ready, never completes once it is canceling, and never leaves an end. |
| `LocalManager.RouteMeaning` | harness/operation/remote_job_handler.go:37-72 | A job goes to a handler exactly when that one alone is for its plan, still runs and takes the job. |
| `LocalManager.OnlyLocalPanics` | harness/operation/local_manager.go:185-206 | The exact condition of the panic: an update of a handler that names a running local operation; no update of a remote job panics. |
| `LocalManager.AHandlerCanPanic` | harness/operation/local_manager.go:282-295 | The panic can be reached from a new manager. |
| `LocalManager.ReadsAreWhole` | harness/primitives/file.go:51-190 | Every read of a file, whatever happens to it, sends events of which exactly the last completes it. |
| `LocalManager.AcceptKeeps` | harness/operation/local_manager.go:238-269 | Through any chain of primitives that do not start, the count returned is the number of primitives put under way, and the history stays orderly. |
| `LocalManager.RoundKeeps` | harness/operation/local_manager.go:114-227 | Every round of the loop keeps the history orderly and the count exact, sends only the oldest update and accepts only what is added. |
| `LocalManager.EveryHistoryIsOrderly` | harness/operation/local_manager.go:99-310 | Whatever arrives, in any order: of each ID at most one last update is queued and nothing after it; a remote job goes by valid transitions from the status it was first added with until it ends or is given up, never back to ready and never from canceling to completion; what was sent and what is pending is what was queued. |
| `LocalManager.CountIsExact` | harness/operation/local_manager.go:208-226 | In every run activePrimitives is the number of primitives started whose completing event has not come, all of them of local operations. |
| `LocalManager.CanBeDrained` | harness/operation/local_manager.go:297-304 | From any primitives under way there is an order of all they still send, so shutdown is not stuck. |
| `ManagerObject.LocalOperationManager.AcceptLocalStep` | harness/operation/local_manager.go:238-269 | The recursion over failing primitives does what the step function says; the count returned is the number it started. |
| `ManagerObject.LocalOperationManager.FailLocalOperation` | harness/operation/local_manager.go:271-280 | The operation is dropped with one last update: failed, or unsupported when the error says so or its kind or state cannot be failed. |
| `ManagerObject.LocalOperationManager.AddRemoteJob` | harness/operation/remote_job_handler.go:37-72 | The loop over the handlers finds the routing, or why there is none. |
| `ManagerObject.LocalOperationManager.AddOperation` | harness/operation/local_manager.go:119-151 | An ID is accepted once; adding it again changes nothing; what cannot start fails at once. |
| `ManagerObject.LocalOperationManager.CancelOperation` | harness/operation/local_manager.go:153-169 | A local operation is only marked; a remote job is told, and fails if it cannot be. |
| `ManagerObject.LocalOperationManager.HandlerClosed` | harness/operation/local_manager.go:171-184 | The operations of the handler fail, in whatever order the map is ranged over. |
| `ManagerObject.LocalOperationManager.RemoteUpdate` | harness/operation/local_manager.go:185-206 | An update is queued exactly when it comes from the right handler and is valid; otherwise the job fails; an update for a local operation, where the source panics, is excluded. |
| `ManagerObject.LocalOperationManager.PrimitiveArrived` | harness/operation/local_manager.go:208-226 | A completing event ends its primitive; an operation that was canceled sees a cancellation in its place; its actor answers, or the operation is gone. |
| `ManagerObject.LocalOperationManager.Run` | harness/operation/local_manager.go:99-236 | Over any sequence of what can arrive the loop leaves the object as the rounds, one after the other, say. |
| `ManagerObject.LocalOperationManager.DrainLocalPrimitives` | harness/operation/local_manager.go:297-304 | Of any interleaving of all that is still to be sent, shutdown takes every event and then stops: it neither leaves early nor waits for more. |
| `HarnessRuns.NextIsUnfinished` | harness/operation/local_manager.go:99-236 | The next update in the manager queue is of an operation that was handed over and that the coordinator knows as unfinished. |
| `HarnessRuns.MoveKeeps` | harness/coordinator/loop.go:976-995 | Every move of coordinator and manager, and a crash of both, keeps: what is handed over is known, unfinished until it is accepted, and finished only by its last update. |
| `HarnessRuns.TogetherNothingIsForgotten` | harness/coordinator/loop.go:515-523 | In every run of the two with any crashes the coordinator does what its runs are proved for, with no assumption about updates; a restart gives back the live state, and every stored operation as it was stored last. |

## Left out

- Terminal UI, flag parsing, credentials, HTTP transport, provider clients and generated API types: plumbing over libraries.
- JSON itself: raw values carry the verdict of the library as a constructor or flag, and whether whitespace survives re-encoding is not modelled.
- requestParams, requestTools and cache markers (`harness/llm/messagesapi/request.go`): they do not look at the order of items; images are supported or not by a flag.
- Texts of errors, and the printing of the truncation marker: errors are kinds, and `Truncated` keeps the number and the path the text is made of.
- Token counts are 64-bit with wrap-around (`Llm.Wrap64`); sizes, offsets and sequences are unbounded.
- The wording of the compaction prompt is a parameter.
- Forks in the coordinator: the source marks its treatment of inherited calls as unfinished, so the runs of `CoordinatorRuns` start from a new session; forks are in the store.
- Timing of heartbeats, grace periods, slurping and retries: any order of steps is allowed; the grace period is a set of calls.
- Cancelling the context ends a run; this is not a step, as nothing is recorded by it.
- Ordering and dropping of stale model responses by channel is one step that changes nothing (`Wake`).
- Inbox deduplication and observers' own work; that observers are told exactly what was persisted is in the store's contracts.
- ListSessions, Inspect and AddObserver: they only read or register.
- How readState and forkStoredState build their maps in place: they make a value, which the store then holds as a shared object.
- Process control, pipes, signals, fsync and file creation: only the events they send.
- SessionStore.Store.AppendFile: a write that fails leaves any prefix of the record; a disk that loses bytes already committed is not modelled.
- ShellRuns.EveryRunIsRight: assumes that a read reports bytes and size of a capture that no longer changes; the source detects a size that changes while it reads.
- LocalManager.CountIsExact: that a primitive sends exactly one completing event is part of what can arrive (`LocalManager.WholeStream`); it is proved of reads (`LocalManager.ReadsAreWhole`), while process, create and compute primitives are not modelled.
- ManagerObject.LocalOperationManager.RemoteUpdate: the panic ends the model of the manager (`LocalManager.Panics`); what a process does after it is not modelled.
- HarnessRuns.TogetherNothingIsForgotten: local actors answer about their own operation only (`LocalManager.Own`), and a shell is not wired to the manager as its actor.
- FileSearch.Search: does not model the match positions shown, which do not take part in the order.
- StreamObject.StreamingState.Unwrap: does not model the kind of provider error that is made of the event data.
- The image, value and skill operations, the remote job state format, and the cutting of match positions into runes: no state worth a proof.
