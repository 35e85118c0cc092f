# Verification of the agent platform's protocols

This project models four parts of the platform in Dafny and proves what they are for. They compose into one
story: what the agent emits is what the client shows, whatever the interleaving.

1. **Event log, projection, observer, client.** A sink appends numbered events to a trimmed stream and, as a second
   write, stores a reduced projection. The observer reads projection, high watermark and retained events in separate
   steps, replays the difference and follows the live tail. The client merges full state frames and single events
   after every reconnect. `Reattach` puts all of them into one state machine, `Consumer` drives it by the order in
   which the runner handles a message, and `ShownAnswer` says what the client is shown of that.
2. **Execution lifecycle and outbox.** Any number of runners claim messages while the API creates, cancels and
   deletes; every database transaction is one atomic step.
3. **The agent loop.** A bounded graph of four nodes with one-step skills, budget compaction and concurrent tool
   calls under per-tool semaphores; the context stores that number its records.
4. **Text formats.** The scanner for inline visualizations and the server-sent events printer and parser.

Run `dafny verify dfyconfig.toml` in this directory.

## Files

| file | what it holds |
|---|---|
| `Text.dfy` | Python's `strip`, `rstrip` and `join`, and how they treat prefixes and padding |
| `Events.dfy`, `Projection.dfy` | events, phases, statuses; the reducer and what folds of whole histories show |
| `EventStream.dfy`, `Publisher.dfy` | the stream, the hot state and the sink as classes; sinks of several processes step by step |
| `Observer.dfy`, `Reconstruction.dfy` | the observer's loops; snapshot plus tail against the fold of the log |
| `HotText.dfy` | what the hot projection shows when emits are cut off and the hot key expires |
| `Observation.dfy`, `Reattach.dfy` | the client's record; the end-to-end machine |
| `Consumer.dfy`, `ShownAnswer.dfy` | the order of the consumer that drives it, with the runs of the agent program; what a client is shown in the end |
| `Executions.dfy`, `Outbox.dfy`, `Database.dfy` | rows and tables as classes, updated in place by the repositories' operations |
| `Transactions.dfy`, `Lifecycle.dfy` | the transactions of runner and API on values; the runners' protocol |
| `Conversation.dfy`, `ContextManager.dfy`, `ParallelTools.dfy` | messages, reasoning context, concurrent calls |
| `AgentProgram.dfy`, `RunDiscipline.dfy` | the node graph; the phases and texts of a run's events, whatever its outcome |
| `ContextStore.dfy`, `ContextSearch.dfy` | sequence allocation and lexical search |
| `RichContent.dfy`, `Sse.dfy` | the two text formats |

Loops and in-place updates of the source are methods and classes proved against functions; the theorems are about
those functions, and what each of them computes is stated a second time without it: by index, by field, from the reads,
or over whole runs. Steps of several processes are state machines: a run is a sequence of states in which every step is
enabled, and a theorem about runs quantifies over all of them.

## Assumptions that the statements name

- *Undisturbed emits.* `Publisher.Undisturbed` (one emit at a time, none cut off, the hot key does not expire) is
  assumed by `UndisturbedRunIsSerial` and `UndisturbedResolution` only, which equate projections with folds of the log.
- *Emits one after the other.* `Publisher.OneByOne`, with emits cut off and the hot key expiring at any moment, is what
  `InterruptedTextIsComplete` and `RealtimeTextIsComplete` assume; `EveryRunIsSound` and `ReconstructionIsSound` assume
  nothing at all.
- *The end after a loss.* In `Reattach`, any emit may be cut off and the hot key may expire between emits; once text was
  lost by that, only terminal events are still emitted (`HotText.MayTake`), and an execution is completed with the
  stripped text of its deltas unless a projection that misses text is left (`Reattach.MayCommit`).
- *The runtime.* `Consumer` derives these rules from the order in which the consumer awaits its emits, the runtime and
  its transactions. Of the runtime it assumes: a run that returns is one of `AgentProgram.Execute` and spoke the deltas
  that were emitted, in their order; it stops where the emit of a delta is cut off, which the answer node does not
  catch; and it emits nothing more once the hot key expired with text. That the answer is the stripped text follows.
  The rows that the consumer shows are those that the transactions of `Transactions` write (`Consumer.RowsAre`).
- *One handling.* `Lifecycle.AtMostOnce` shows that an execution is handled once, as `Consumer` has it.
- *Atomic transactions.* Each `async with session_factory()` block is one step, although the source takes no row lock
  on executions.
- *Distinct call ids*, where a statement says so (`DistinctIds`, `HasDistinctRuns`), and, in the agent loop, emits that
  do not raise.

## Where a property holds only under a condition

| expectation | what the code does | exact condition |
|---|---|---|
| a terminal projected status stays | only the phase is protected (`CompletedStatusCanReopen`, by an event type that the reducer accepts and nothing emits today) | `TerminalStatusSurvives` |
| the hot projection, or a realtime frame, has all text | an emit that is cut off loses its delta (`InterruptedDeltaIsLost`) | `InterruptedTextIsComplete`, `RealtimeTextIsComplete` |
| nothing missing, no gap | `retained` reads the oldest entries only (`NothingIsMissingYetThereIsAGap`) | `UndisturbedResolution`, `OldestBridges` |
| a failure ends the execution | a cancellation before its transaction leaves it stuck (`CancellationCanGetStuck`, `StuckForEver`) | `FailureIsRecorded` |
| a completed response stays completed | an empty finalizing state frame takes it back (`AnEmptyStateFrameTakesCompletionBack`) | `CompletionIsTakenBack` |
| applying a state frame twice changes nothing | an activity without sequence is added again (`AnUnnumberedActivityIsShownTwice`) | `StateFrameIsIdempotent` |
| parsing gives the printed frame back | an empty type becomes `message` (`UntypedFrameComesOutAsMessage`) | `RoundTrip` |

## Model

| member | source | states |
|---|---|---|
| `RichContent.StripVisualizationBlocks` | packages/ui/src/package/ui/rich_content.py:93-127 | The stripping loop ends for every content, each pass stops at a line start or the end, and the result is the narrative that the recursive scan reads off the content |
| `RichContent.ParseRichContent` | packages/ui/src/package/ui/rich_content.py:43-90 | The parsing loop yields exactly the blocks of the same scan, with the running count of accepted visualizations |
| `RichContent.Search` | packages/ui/src/package/ui/rich_content.py:8-9 | Searching from a position finds the leftmost fence line from there on, or there is none |
| `RichContent.FenceEndMatches` | packages/ui/src/package/ui/rich_content.py:8-9 | A fence is found to end at a place exactly if it begins a line and the text up to there is the token, blanks and a line break, or for the closing fence the end |
| `RichContent.FindOfPrefix` | packages/ui/src/package/ui/rich_content.py:8-9 | A fence whose line is complete in a prefix is the fence found in the whole; a prefix without a fence only misses one that ends behind it |
| `RichContent.MayBecomeOfPrefix` | packages/ui/src/package/ui/rich_content.py:152-161 | A last line hidden because it may become a directive was hidden at every earlier moment |
| `RichContent.MayBecomeUnlessDiverging` | packages/ui/src/package/ui/rich_content.py:152-161 | A last line may still become a directive exactly if it holds more than carriage returns and differs from the opening token nowhere in front of them |
| `RichContent.StreamingNeverRetracts` | packages/ui/src/package/ui/rich_content.py:93-127 | For every prefix of every content, the stripped prefix is a prefix of the stripped content |
| `RichContent.NarrativeIsPartialMarkdown` | packages/ui/src/package/ui/rich_content.py:43-127 | The stripped content is the normalised join of the streaming parser's markdown blocks, and a prefix of the final parser's |
| `RichContent.VisualizationsAreLimited` | packages/ui/src/package/ui/rich_content.py:76-88 | However many directives there are, no more visualizations than the limit are accepted |
| `RichContent.PlainTextIsShown` | packages/ui/src/package/ui/rich_content.py:93-127 | A text without a fence line, whose last line differs from the opening token, strips to itself but for white space around |
| `RichContent.ScanningUndoesWriting` | packages/ui/src/package/ui/rich_content.py:52-88 | Scanning an answer written as prose and directives gives back exactly those sections |
| `RichContent.WrittenAnswerIsShown` | packages/ui/src/package/ui/rich_content.py:93-127 | Of an answer written as prose and directives whose last line differs from the opening token, exactly the prose parts and the ending are shown |
| `RichContent.TwoPartsAreJoined` | packages/ui/src/package/ui/rich_content.py:114-127 | Parts that say something are shown without line breaks around, on lines of their own |
| `RichContent.SectionIsParsed` | packages/ui/src/package/ui/rich_content.py:52-88 | A directive between two texts is parsed as one block, its payload stripped and accepted or refused by the check |
| `Projection.ReduceByField` | packages/core/src/package/agent/observer/projection.py:110-209 | One reducer step independently of its branches: sequence, status, phase and stage, active tools, text, and the activities by index: the last ones of those before with this one behind |
| `Projection.ReduceRest` | packages/core/src/package/agent/observer/projection.py:110-209 | The other fields: session, iteration, answer, result, error and active skills, and which events touch them |
| `Projection.FoldContinues` | packages/core/src/package/agent/observer/projection.py:110-209 | Continuing the fold of a prefix of the log by the events behind it gives the fold of the longer prefix |
| `Projection.ActivitiesAreWindow` | packages/core/src/package/agent/observer/projection.py:192-207 | For any events, the bounded activities are, index by index, the last ones of all non-delta events, as many as the bound allows |
| `Projection.PhaseIsStage` | packages/core/src/package/agent/observer/projection.py:240-252 | Phase and stage stay equal through every history |
| `Projection.TerminalPhaseIsAbsorbing` | packages/core/src/package/agent/observer/projection.py:240-252 | The phase is terminal exactly if it was or some event asked for a terminal phase; nothing later undoes that |
| `Projection.StatusIsLastWritten` | packages/core/src/package/agent/observer/projection.py:126-190 | The projected status is the one written last |
| `Projection.TerminalStatusSurvives` | packages/core/src/package/agent/observer/projection.py:126-190 | A terminal status survives later events exactly if each reopening event is followed by a terminal one |
| `Projection.CompletedStatusCanReopen` | packages/core/src/package/agent/observer/projection.py:132-134 | A concrete log, with an event the reducer accepts and nothing emits, whose completed status is reopened while its phase stays |
| `Projection.ActiveToolsAreOpenCalls` | packages/core/src/package/agent/observer/projection.py:255-279 | The active tools are exactly the calls whose last word in the history is that they started, each once |
| `Projection.TextIsDeltas` | packages/core/src/package/agent/observer/projection.py:161-164 | Until an event brings the whole text, the projected text is the concatenation of the deltas |
| `Projection.ToolsAreProjected` | packages/core/src/package/agent/observer/projection.py:150-158 | The active tools computed from events alone are the projection's |
| `EventStream.ExecutionEventStream.Append` | packages/core/src/package/agent/cache/event_stream.py:43-66 | The event gets the next sequence and is the last entry; an approximate trim only drops from the front |
| `EventStream.ExecutionEventStream.Read` | packages/core/src/package/agent/cache/event_stream.py:68-82 | The first entries behind the cursor, as many as the count allows |
| `EventStream.AfterIsRestOfLog` | packages/core/src/package/agent/cache/event_stream.py:68-82 | Of a stream that is a window of the log, what is behind a cursor is what the log has behind it |
| `EventStream.ExecutionEventStream.Latest` | packages/core/src/package/agent/cache/event_stream.py:93-101 | The last entry, if there is one |
| `Publisher.Sink.Emit` | packages/core/src/package/agent/observer/publisher.py:32-55 | An emit that nothing disturbs keeps the stream a window of the log and the hot projection the fold of the whole log |
| `Publisher.EveryRunIsSound` | packages/core/src/package/agent/observer/publisher.py:32-55 | In every interleaving of any sinks with interruptions and expiry, the hot projection is the replay of genuine entries |
| `Publisher.UndisturbedRunIsSerial` | packages/core/src/package/agent/observer/publisher.py:30-55 | While emits follow one another, the stream is complete and the projection at most one event behind |
| `Publisher.AppliedAreKept` | packages/core/src/package/agent/observer/publisher.py:40-55 | While emits follow one another, an event is in the hot projection exactly if its emit reached the second write and no expiry since was left unrepaired by an emit that had loaded before it |
| `Publisher.InterruptedTextIsComplete` | packages/core/src/package/agent/observer/publisher.py:40-55 | While emits of any sinks follow one another, however often they are cut off and the hot key expires, the projected text is complete exactly if every event with text was kept, told from the steps |
| `Publisher.InterruptedDeltaIsLost` | packages/runner/src/package/runner/consumers/execution.py:147-155 | A concrete run of both sinks of an execution: a cancellation cuts a delta's emit off, and the projection ends without it |
| `Observer.Bridge` | packages/core/src/package/agent/observer/observer.py:252-281 | The replay loop succeeds exactly if the relevant entries are the sequences up to the watermark, and then returns their replay |
| `Observer.ResolveCurrentState` | packages/core/src/package/agent/observer/observer.py:165-309 | Every combination of reads and failures leads to the frame, gap or key error that the loop-free description gives |
| `Observer.ReasonIsOfReads` | packages/core/src/package/agent/observer/observer.py:165-309 | The reason of a frame tells the reads: a failed projection read, an absent projection, or a stream that fails or lags behind, and no reason exactly if the frame is realtime |
| `Observer.FrameIsOfReads` | packages/core/src/package/agent/observer/observer.py:165-309 | The frame shows the row, the projection as read, or the projection continued to the watermark, each with its sequence and the sequence it reattaches from |
| `Observer.CursorMeansRealtime` | packages/core/src/package/agent/observer/observer.py:76-121 | A cursor comes with a realtime frame only, and only an absent projection keeps the observer polling |
| `Observer.NewExecutionIsPolled` | packages/core/src/package/agent/observer/observer.py:61-121 | An accepted execution that the runtime has not touched is shown as its row says, and then whatever the polls show |
| `Observer.PollingGoesOn` | packages/core/src/package/agent/observer/observer.py:91-121 | Polls that find no projection yield nothing, whatever their number |
| `Observer.FailedReadEnds` | packages/core/src/package/agent/observer/observer.py:76-121 | A failed read of the projection ends the observation behind an unavailable frame, at first and while polling |
| `Observer.FailedStreamEnds` | packages/core/src/package/agent/observer/observer.py:76-90 | A stream that fails beside an unfinished projection ends the observation behind that projection |
| `Observer.FollowTail` | packages/core/src/package/agent/observer/observer.py:126-163 | The nested loops of the live tail, for any reads, yield what taking the events one by one yields |
| `Observer.Observe` | packages/core/src/package/agent/observer/observer.py:61-163 | The whole observation for any reads, polls and reconnects |
| `Observer.TailIsLossless` | packages/core/src/package/agent/observer/observer.py:126-163 | For any reads, the events behind the state frame are yielded consecutively, and nothing follows the end |
| `Observer.TailContinuesFold` | packages/core/src/package/agent/observer/observer.py:126-163 | For any genuine reads, reducing the yielded events over the fold at the state frame gives the fold at the last one |
| `Observer.NothingIsSkipped` | packages/core/src/package/agent/observer/observer.py:145-158 | As long as the observation lives, every event that was read was yielded or covered before |
| `Observer.CursorIsLastRead` | packages/core/src/package/agent/observer/observer.py:126-163 | As long as the tail lives, it reads on behind the last event that was read |
| `Observer.HeartbeatsAreEmptyReads` | packages/core/src/package/agent/observer/observer.py:126-144 | A living tail yields one heartbeat for each empty read and no others |
| `Observer.ReadEndsFor` | packages/core/src/package/agent/observer/observer.py:126-163 | What a read ends the tail for, told from its last frame: the read failed, it leaves a gap, or it brings the end |
| `Observer.CompleteReadsReportNoGap` | packages/core/src/package/agent/observer/observer.py:149-156 | If the reads miss nothing, no gap is reported |
| `Observer.ObservationEndsProperly` | packages/core/src/package/agent/observer/observer.py:61-163 | Every observation ends at its first terminal state, terminal event or unavailable frame, and only there |
| `Reconstruction.ReconstructionIsSound` | packages/core/src/package/agent/observer/observer.py:165-309 | For every run of the sinks and every interleaving of the reads with it, a realtime frame shows the applied entries continued by the log up to its sequence, the fold of the log if the projection was one |
| `Reconstruction.RealtimeTextIsComplete` | packages/core/src/package/agent/observer/observer.py:165-309 | While emits follow one another, however often they are cut off, the text of a realtime frame is complete exactly if every event with text was kept in the projection it started from |
| `Reconstruction.UndisturbedResolution` | packages/core/src/package/agent/observer/observer.py:218-309 | While emits follow one another, resolving shows the fold at the watermark or reports a gap, and exactly when it is a gap |
| `Reconstruction.OldestBridges` | packages/core/src/package/agent/cache/event_stream.py:84-91 | The oldest retained entries bridge exactly if they start early and reach far enough |
| `Reconstruction.NothingIsMissingYetThereIsAGap` | packages/core/src/package/agent/cache/event_stream.py:58-91 | A concrete undisturbed run whose stream lost nothing and bridges the projection, and whose resolution still is a gap |
| `Observation.ActiveResponse.RememberActivity` | packages/ui/src/package/ui/observation.py:447-455 | A numbered activity is added once; the seen set records it |
| `Observation.ActiveResponse.ApplyCandidate` | packages/ui/src/package/ui/observation.py:458-468 | The longer of two compatible texts wins, the candidate otherwise; the flag tells whether the content changed |
| `Observation.ActiveResponse.ApplyObservedFrame` | packages/ui/src/package/ui/observation.py:108-234 | The whole record after any frame, and what the update reports: changed content, terminal status, new activities |
| `Observation.LiveEventShows` | packages/ui/src/package/ui/observation.py:150-187 | Text, result and error after any live event, and what it leaves alone |
| `Observation.LiveEventPhase` | packages/ui/src/package/ui/observation.py:150-224 | The phase after any live event; at the end, the one that the final status stands for |
| `Observation.LiveEventFlags` | packages/ui/src/package/ui/observation.py:150-224 | What any live event says of the response and of a cancellation |
| `Observation.StateFrameByField` | packages/ui/src/package/ui/observation.py:117-148 | The effect of a state frame field by field |
| `Observation.ActiveResponse.ApplyDurableResult` | packages/ui/src/package/ui/app.py:353-376 | A durable fallback merges its answer by the same rule as a state frame, and sets phase, result, error and the response flags |
| `Observation.DurableByField` | packages/ui/src/package/ui/app.py:353-376 | The effect of a durable fallback field by field |
| `Observation.TimelineNeverRepeats` | packages/ui/src/package/ui/observation.py:108-234 | Over any mix of frames each numbered activity appears once and the seen set is the set of recorded sequences |
| `Observation.StateFrameIsIdempotent` | packages/ui/src/package/ui/observation.py:117-148 | Applying a state frame again changes nothing at all exactly if every activity it shows carries a sequence |
| `Observation.AnUnnumberedActivityIsShownTwice` | packages/ui/src/package/ui/observation.py:447-455 | A concrete state frame that, applied twice, shows its activity twice |
| `Observation.ResponseStartedLatches` | packages/ui/src/package/ui/observation.py:111-224 | Once started, the response stays started under any frames |
| `Observation.CompletionIsTakenBack` | packages/ui/src/package/ui/observation.py:146-147 | The one kind of frame that takes a completed response back |
| `Observation.AnEmptyStateFrameTakesCompletionBack` | packages/ui/src/package/ui/observation.py:146-147 | Two concrete frames that complete a response and take its completion back |
| `HotText.ReducedShows` | packages/core/src/package/agent/observer/projection.py:110-209 | Reducing an event over a projection that skipped only events without text shows the text, and the end, of the event's sequence |
| `HotText.ReplayedShows` | packages/core/src/package/agent/observer/observer.py:252-281 | Continuing such a projection by consecutive events shows what the log says at the last of them |
| `HotText.SinksAfter` | packages/core/src/package/agent/observer/publisher.py:30-55 | Every step of the sinks keeps a projection that shows its sequence and, unless text was lost, all text; losing text is cutting off a delta's emit or letting a projection with text expire |
| `Reattach.YieldKeeps` | packages/core/src/package/agent/observer/observer.py:145-163 | An event frame that reaches the client carries the sequence right behind what it was shown |
| `Reattach.DeliveryIsObserved` | packages/core/src/package/agent/observer/observer.py:61-121 | What a resolution delivers to the client in the machine is what the observation yields for it |
| `Reattach.DeliversThese` | packages/core/src/package/agent/observer/observer.py:76-121 | Delivering is receiving those frames one by one |
| `Reattach.MergeSettles` | packages/ui/src/package/ui/observation.py:458-468 | Merging the final answer into any stage of its text leaves a text that strips to the answer |
| `Reattach.StepKeeps` | packages/core/src/package/agent/observer/observer.py:61-309 | Every step of sinks, cut off or not, of the database, the observer and the client keeps the end-to-end invariant |
| `Reattach.ContentIsDeltas` | packages/ui/src/package/ui/observation.py:108-198 | Over every history of emits, cut off or not, expiry, disconnects, reconnects and fallbacks, in which only the end is still emitted once text was lost, the unfinished content is the concatenation of the deltas up to the highest sequence shown |
| `Reattach.CompletedContentIsAnswer` | packages/ui/src/package/ui/observation.py:183-198 | In those histories, once the client is told of the completion, its stripped content is the stored answer, also if the hot key expired with text before the commit |
| `Reattach.StreamedContentOnlyGrows` | packages/ui/src/package/ui/app.py:429-448 | Neither the content nor what is rendered of it is taken back while the answer streams in |
| `Reattach.AnswerStreamsAndCompletes` | packages/ui/src/package/ui/app.py:429-448 | A concrete history: a client attaches, a delta streams in live, and the completion is shown behind it |
| `Consumer.ConsumerKeepsTheRules` | packages/runner/src/package/runner/consumers/execution.py:110-201 | In the order in which the consumer awaits emits, runtime and transactions, its rows being those that the transactions of `Transactions` write, every step is one that `Reattach` allows: emits never overlap, the completing commit finds all sinks idle and the stripped text as its answer, and the completed event carries it; that a runtime stops after a cut-off delta, and after an expiry with text, is assumed of its steps |
| `Consumer.RowsAre` | packages/runner/src/package/runner/consumers/execution.py:64-284 | What each transaction of the runner, and the cancel route, leaves of the row that the machine shows |
| `Consumer.ReturnedIsText` | packages/core/src/package/agent/runtime/program.py:140-173 | What a run of the agent program returns is the stripped text of the log, whose deltas are those that the run spoke, with or without the started event in front |
| `Consumer.HandledContentIsDeltas` | packages/runner/src/package/runner/consumers/execution.py:110-201 | While a message is handled, with any cancellations, failures, client steps and expiry between emits at any stage, the unfinished content is the text of the events shown, and a completed one strips to the stored answer; after an expiry with text the runtime only returns or ends, and the end is still emitted |
| `ShownAnswer.CompletedShowsReturned` | packages/runner/src/package/runner/consumers/execution.py:177-201 | Whenever a client has been told of the completion, the runtime returned a run of the agent program before, and the client's stripped content and the stored answer are what that run returned |
| `ShownAnswer.NothingIsInvented` | packages/ui/src/package/ui/observation.py:108-198 | Whatever becomes of the message, completed, failed or cancelled, the client at every moment shows a text that the emitted deltas begin with, or one that strips to the stored answer, which is stripped from them |
| `ShownAnswer.EveryReturnCanBeShown` | packages/runner/src/package/runner/consumers/execution.py:110-201 | For every run of the agent program that returns there is a handling in which the runtime makes it, its answer is stored and the client ends up showing it |
| `ShownAnswer.AQuestionIsAnswered` | packages/runner/src/package/runner/consumers/execution.py:110-201 | A concrete handling from the untouched message to the shown answer |
| `Executions.StatusesAreOrdered` | packages/core/src/package/agent/database/repositories/executions.py:39-105 | Under any transitions a finished row never changes and no status is left backwards |
| `Executions.CancelWins` | packages/core/src/package/agent/database/repositories/executions.py:49-105 | After a cancel request the row ends cancelled exactly if a cancellation follows, and is untouched otherwise |
| `Outbox.ClaimBatch` | packages/core/src/package/agent/database/repositories/outbox.py:42-61 | In the order of creation, the first rows that are pending, due and not held elsewhere become the runner's with one more attempt, as many as the limit allows; all others stay |
| `Outbox.OldestDueRowsFirst` | packages/core/src/package/agent/database/repositories/outbox.py:42-61 | A due row is left over only because the limit is reached, and then every claimed row is older |
| `Outbox.OutboxMessage.ReleaseWithError` | packages/core/src/package/agent/database/repositories/outbox.py:78-90 | The message is pending again after the delay, with its attempts kept and the error cut and recorded |
| `Outbox.DelayIsBounded` | packages/runner/src/package/runner/runtime/retry.py:10-16 | Later attempts wait at least as long, never longer than the maximum, and doubling stops at the cap |
| `Outbox.DelayDoubles` | packages/runner/src/package/runner/runtime/retry.py:10-16 | From one attempt to the next the delay doubles up to the maximum, until the cap is reached |
| `Transactions.WaitForCancellation` | packages/runner/src/package/runner/consumers/execution.py:203-219 | The poll decides by the first row that shows a cancellation or an end |
| `Transactions.OpenStores` | packages/runner/src/package/runner/consumers/execution.py:64-108 | What the opening transaction leaves of row and message in each case, and that it changes nothing else |
| `Transactions.FinishStores` | packages/runner/src/package/runner/consumers/execution.py:177-201 | The transaction behind a result leaves exactly the answer and the result, or on a requested cancellation exactly the answer, and nothing in a row that is over; nothing else changes |
| `Transactions.FailStores` | packages/runner/src/package/runner/consumers/execution.py:252-272 | The failing transaction stores its error unless the row was asked to cancel or is over; nothing else changes |
| `Transactions.DeletedIsGone` | packages/api/src/package/api/http/routes/sessions.py:110-130 | When a deletion is refused and why, and otherwise that exactly the session, its executions and the messages for them are gone |
| `Database.Tables.CreateExecution` | packages/api/src/package/api/http/routes/executions.py:42-60 | A question for a known session is accepted by the inserts of two repositories as one transaction; an unknown session changes nothing |
| `Database.Tables.DeleteSession` | packages/api/src/package/api/http/routes/sessions.py:110-130 | The repositories' calls together delete a session with its executions and their messages; an unknown session and one with an active execution change nothing and are told apart |
| `Lifecycle.EveryRunKeeps` | packages/runner/src/package/runner/consumers/execution.py:51-284 | The joint invariant of outbox, executions, runners and events holds in every run |
| `Lifecycle.OutboxAndExecutionsAgree` | packages/core/src/package/agent/database/repositories/outbox.py:42-90 | Where a message stands tells where its execution may stand, and a claimed one has exactly one holder |
| `Lifecycle.FoundMessagesAreNeverReleased` | packages/runner/src/package/runner/consumers/execution.py:73-92 | A message whose execution exists is claimed at most once, and not started while it is pending |
| `Lifecycle.AtMostOnce` | packages/runner/src/package/runner/consumers/execution.py:110-201 | No execution's runtime starts twice and none has two terminal events |
| `Lifecycle.EventsAreTruthful` | packages/runner/src/package/runner/consumers/execution.py:177-201 | A completed event is only there if the row is completed and has an answer, a cancelled one if it is cancelled, and a failed one if it failed or a cancellation overtook the failure |
| `Lifecycle.CompletedRowsWereReturned` | packages/runner/src/package/runner/consumers/execution.py:177-201 | In every run, the answer and the result of a completed row are those that its runner got from its runtime and committed behind that |
| `Lifecycle.NoExecutionIsForgotten` | packages/api/src/package/api/http/routes/executions.py:42-60 | An unfinished execution has a message that will get to it, or its cancellation came too late |
| `Lifecycle.SessionsAreKnown` | packages/api/src/package/api/http/routes/sessions.py:110-130 | In every run, every execution belongs to a session that exists |
| `Lifecycle.CancellationAndEndAreFinal` | packages/core/src/package/agent/database/repositories/executions.py:39-105 | Over every run a terminal row never changes, and from a requested cancellation the only way on is cancelled |
| `Lifecycle.FailureIsRecorded` | packages/runner/src/package/runner/consumers/execution.py:252-272 | The row becomes failed exactly if no cancellation was requested before the transaction |
| `Lifecycle.CancellationCanGetStuck` | packages/runner/src/package/runner/consumers/execution.py:154-175 | A run that ends with a failed message and an execution still waiting for its cancellation |
| `Lifecycle.StuckForEver` | packages/runner/src/package/runner/consumers/execution.py:154-175 | Such an execution stays as it is in every continuation, and deleting its session is a conflict for ever |
| `Sse.ParseSseFrames` | packages/ui/src/package/ui/client.py:150-175 | The line loop yields, block by block, what the blocks between blank lines decode to, up to the first error |
| `Sse.ParsingReadsPrinting` | packages/api/src/package/api/http/routes/events.py:61-64 | Parsing printed frames never raises and gives each back as the client observes it |
| `Sse.DigitsReadBack` | packages/api/src/package/api/http/routes/events.py:61-64 | Printed digits read back as the number, without a leading zero |
| `Sse.ReturnsMakeNoDifference` | packages/ui/src/package/ui/client.py:150-155 | Carriage returns in front of the line feeds make no difference |
| `Sse.RoundTrip` | packages/ui/src/package/ui/client.py:150-205 | The same frames come out exactly if each names its type, and its execution wherever its payload does |
| `Sse.UntypedFrameComesOutAsMessage` | packages/ui/src/package/ui/client.py:198-199 | A concrete frame that the transport changes |
| `Conversation.CallsAreAnswered` | packages/core/src/package/agent/runtime/program.py:429-437 | In a well-formed conversation every call is answered right behind it, in call order |
| `Conversation.ToolMessagesHaveCalls` | packages/core/src/package/agent/runtime/program.py:429-437 | In a well-formed conversation no tool message is orphaned |
| `ContextManager.RequestSkills` | packages/core/src/package/agent/context/manager.py:341-357 | A request is granted exactly if all its names are registered, and then its distinct names in order |
| `ContextManager.GrantedAreRegistered` | packages/core/src/package/agent/context/manager.py:341-357 | A request is granted exactly if it lists names and each one, stripped, is registered; it is granted those names, each once |
| `ContextManager.UniqueIsDistinct` | packages/core/src/package/agent/context/manager.py:464-469 | The collected names are distinct and exactly those asked for |
| `ContextManager.UniqueIsInOrder` | packages/core/src/package/agent/context/manager.py:464-469 | They stand in the order in which they were first asked for |
| `ContextManager.SkillsAreInjected` | packages/core/src/package/agent/context/manager.py:254-263 | The instructions of the active skills stand behind a leading system message or in front, and nothing else moves |
| `ContextManager.WithSkillIsWellFormed` | packages/core/src/package/agent/context/manager.py:254-263 | The inserted skill message never separates calls from their answers |
| `ContextManager.CompactedKeeps` | packages/core/src/package/agent/context/manager.py:393-413 | Compaction keeps a leading system message, with the summary and the request to continue with the question behind it |
| `ContextManager.CompactedIsWellFormed` | packages/core/src/package/agent/context/manager.py:393-413 | A compacted conversation is well formed whatever was compacted |
| `ContextManager.MeasureBudget` | packages/core/src/package/agent/context/manager.py:375-391 | The verdict counts everything but a leading system message |
| `ContextManager.BudgetFitsWindow` | packages/core/src/package/agent/context/budget.py:24-28 | The dynamic budget is at least one token and at most the window |
| `ContextManager.PrepareReasoning` | packages/core/src/package/agent/context/manager.py:179-227 | What the model gets is within budget, compacted only if it must be, with the skill not persistent; it raises exactly if the skills do not load, the needed summary is not stored, or even the compacted context is over budget |
| `AgentProgram.AgentNode` | packages/core/src/package/agent/runtime/program.py:175-214 | The next iteration, or at the limit the limit's answer |
| `AgentProgram.ReasoningNode` | packages/core/src/package/agent/runtime/program.py:221-356 | When the model is called, with what, which events surround the call even if it raises, and what the step leaves |
| `AgentProgram.ReasoningEventsTell` | packages/core/src/package/agent/runtime/program.py:221-356 | Which events stand in front of and behind a call of the model, with compaction, skills and a raising model |
| `AgentProgram.SortCalls` | packages/core/src/package/agent/runtime/program.py:372-417 | Every call is answered as a skill request or waits for exactly one tool run; the granted skills are the next step's |
| `AgentProgram.GrantedAreAsked` | packages/core/src/package/agent/runtime/program.py:372-417 | The next step gets every name that some call was granted, once, in the order of asking; uses and tool calls are counted per call |
| `AgentProgram.ActionNode` | packages/core/src/package/agent/runtime/program.py:363-447 | One answer per call in call order, the lookup of contents total, and each content the right one for distinct ids; it raises exactly if an external output cannot be recorded |
| `AgentProgram.AnswerNode` | packages/core/src/package/agent/runtime/program.py:600-713 | In every branch the deltas strip to the answer, and the conversation stays well formed |
| `AgentProgram.Execute` | packages/core/src/package/agent/runtime/program.py:90-173 | For every outcome (`IsRunOf`): every node finds the state that the one before it left, and calls of the model and events are exactly those of the visited nodes, so that what is persistent is the list a reasoning node found or its compaction; bounds on model calls and node visits, well-formed conversations, budget, skills active exactly in the next step, where and why the run raised, and no active tool when the answer is prepared; for a returned one the answer, the exact counts and the limit's fixed answer |
| `AgentProgram.EveryCallCarriesTheQuestion` | packages/core/src/package/agent/context/manager.py:124-140 | In every run, whatever its outcome, each call of the model begins with the system prompt and has the user's question behind it, as given or in the request to continue, in what it sees and in what persists; without a compaction also the loaded snapshot |
| `AgentProgram.TotalsAreOfAllCalls` | packages/core/src/package/agent/runtime/program.py:140-173 | The counts of a run are the tool runs and the granted names of all its calls |
| `AgentProgram.AnswersAtOnce` | packages/core/src/package/agent/runtime/program.py:90-173 | A model that is called within budget and asks for nothing makes the program return the streamed text after one iteration |
| `RunDiscipline.RunIsDisciplined` | packages/core/src/package/agent/runtime/program.py:600-713 | Whatever the outcome, every delta arrives while streaming, the phase only moves forward, and where it ends |
| `RunDiscipline.PhaseAtIsProjected` | packages/core/src/package/agent/observer/projection.py:240-252 | Those phases are the projection's |
| `RunDiscipline.RunSpeaks` | packages/core/src/package/agent/runtime/program.py:600-713 | Whatever the outcome, the deltas spell what the answer node spoke, and no event is terminal |
| `RunDiscipline.RunMayBeCompleted` | packages/core/src/package/agent/runtime/program.py:140-173 | Behind the started event, the log of a run that returns has no terminal event and its text strips to the returned answer |
| `ParallelTools.ActiveToolsInEveryInterleaving` | packages/core/src/package/agent/runtime/program.py:516-598 | In every interleaving the active tools are the started, unfinished calls, each once, within the limit per external tool, and none at the end |
| `ParallelTools.EachCallTellsItsStory` | packages/core/src/package/agent/runtime/program.py:449-598 | In every interleaving each call emits its phase, its start, what it retrieved if it is a search, and its one end, in this order |
| `ParallelTools.SearchesComeFirst` | packages/core/src/package/agent/runtime/program.py:409-427 | In every interleaving, all steps of the searches come before the first step of an external call |
| `ParallelTools.CallsGoOn` | packages/core/src/package/agent/runtime/program.py:516-532 | The semaphores never block all calls: as long as one is not over, some call can go on |
| `ParallelTools.ToolEventsSettle` | packages/core/src/package/agent/runtime/program.py:409-427 | Whatever the interleaving, what the calls of an action node emitted leaves no active tool behind, and asks for no phase of the response |
| `ContextStore.InMemoryStore.Append` | packages/core/src/package/agent/context/memory.py:54-82 | The entry gets the session's next sequence, and numbered tables stay numbered |
| `ContextStore.SequencesAreExact` | packages/core/src/package/agent/database/repositories/context.py:22-113 | However the transactions interleave, each session's committed snapshots and entries are numbered 1 to n |
| `ContextStore.CommittedWasAsked` | packages/core/src/package/agent/database/repositories/context.py:22-113 | What a transaction commits is what it was started with |
| `ContextStore.EveryStepRefines` | packages/core/src/package/agent/database/repositories/context.py:52-113 | Each commit is an append of the in-memory store, every other step leaves the tables alone |
| `ContextSearch.SearchInMemory` | packages/core/src/package/agent/context/memory.py:84-100 | The loop finds the scored entries of the session, sorted and cut |
| `ContextSearch.SearchRepository` | packages/core/src/package/agent/database/repositories/context.py:115-149 | So does the repository's loop over the rows it reads, including the early return without terms |
| `ContextSearch.SearchFindsTheBest` | packages/core/src/package/agent/database/repositories/context.py:115-149 | The result holds matches of the session only, sorted, and a match is left out only because the limit is reached and all results come before it |
| `ContextSearch.RepetitionsAreCounted` | packages/core/src/package/agent/context/retrieval.py:105-114 | A term repeated is counted as often as it is repeated: occurrences do not overlap, and none is missed |
| `ContextSearch.ExactMatchScoresMore` | packages/core/src/package/agent/context/retrieval.py:105-114 | A content scores the occurrences of the terms, and one more than their number if the whole query occurs in it |
| `ContextSearch.SortedIsUnique` | packages/core/src/package/agent/database/repositories/context.py:148-149 | The sort keys leave one order only |
| `ContextSearch.ScanOrderDoesNotMatter` | packages/core/src/package/agent/database/repositories/context.py:115-149 | The search result does not depend on the order in which the session's records are scanned |
| `ContextSearch.RepositorySearchRefines` | packages/core/src/package/agent/database/repositories/context.py:115-149 | On any numbered table both searches agree, though one scans downwards |

## Left out

- Redis, SQLAlchemy, PostgreSQL and FastAPI themselves; timestamps, `last_event` and `updated_at`, trace recording and the TTL calls, which the statements do not depend on. A late read of an expired stream or hot key appears as a failed or empty read.
- Language models, tokenizers, prompts and summaries: any function or any answer.
- The SQLite tool, SQL validation, schema inspection, visualization payload checks, session titles, rendering, the activity panel's texts, settings and health reporting.
- `Observer.Resolve`: takes the projection from the hot key as a whole; keys that older versions stored are not modelled.
- `Observation.ActiveResponse.ApplyObservedFrame`: a state frame's phase is the first of its phase, stage and status that is present, given as one optional value.
- `Reattach.ContentIsDeltas`: one client and one connection at a time; frames reach the client in order, and those under way when a connection breaks are lost with it. Nothing is said about a hot key with text that expires in the middle of an emit or is followed by more deltas; the projection then shows the later ones only.
- `Consumer.ConsumerKeepsTheRules`: one handling of one message whose execution exists; a runtime that goes on after the emit of a delta was cut off, or after the hot key expired with text, is excluded, as are an expiry with text in the middle of an emit and emits of concurrent calls that go on behind a runtime that raised.
- `Lifecycle.EveryRunKeeps`: excludes crashes that leave a message claimed and exceptions out of the database itself. A claim step takes any pending messages, so availability times, order and limit do not restrict it.
- `Database.Tables.Open`: the row and table classes of `Executions.dfy`, `Outbox.dfy` and `Database.dfy` are proved against the functions of `Transactions.dfy` that the protocol uses; their methods have no rows of their own where a theorem about these functions has one.
- `AgentProgram.Execute`: a raise of one concurrent call while others still run is told by the events up to it, and the emits of the others behind it are left out. JSON texts of tool messages are told apart by their kind only, and `initial_messages` is modelled without extra history, which the runner never passes.
- `ContextStore.SequencesAreExact`: a missing session, which makes the transaction raise before it writes, and the deletion of sessions.
- `ContextSearch.SearchInMemory`: the library's sort is taken as sorting; case folding and tokenizing are parameters.
- `Sse.RoundTrip`: JSON is an injective encoding into one line, lines end with LF, and types contain no line break. The parser differs from sections 9.2.5 and 9.2.6 of the WHATWG HTML Living Standard in that it flushes a trailing block and forgets the id behind each event.
- `RichContent.ParseRichContent`: the payload check is a parameter, and the reasons shown for refused payloads are dropped.
