/** The reattachable projection of an execution and its reducer. */
module Projection {
  import opened Text
  import opened Events

  /** A numbered event of the realtime stream. */
  datatype Entry = Entry(sequence: nat, event: Event)

  datatype ActiveTool = ActiveTool(tool: string, callId: string)

  datatype State = State(
    status: Status,
    sequence: nat,
    phase: Phase,
    stage: Phase,
    sessionId: Option<string>,
    iteration: nat,
    partialAnswer: string,
    answer: Option<string>,
    error: Option<string>,
    result: Option<string>,
    activeSkills: seq<string>,
    activeTools: seq<ActiveTool>,
    activities: seq<Entry>)

  /** The durable row of an execution. */
  datatype Durable = Durable(
    status: Status,
    sessionId: Option<string>,
    answer: Option<string>,
    error: Option<string>,
    result: Option<string>)

  const NOTHING_DURABLE: Durable := Durable(Pending, None, None, None, None)

  function Initial(durable: Durable := NOTHING_DURABLE): State {
    var phase := PhaseFromStatus(durable.status);
    State(durable.status, 0, phase, phase, durable.sessionId, 0, durable.answer.GetOr(""),
          durable.answer, durable.error, durable.result, [], [], [])
  }

  /** What the row shows before the runtime wrote anything. */
  lemma InitialShowsRow(durable: Durable)
    ensures var state := Initial(durable);
      && state.status == durable.status && state.sessionId == durable.sessionId && state.answer == durable.answer
      && state.error == durable.error && state.result == durable.result
      && state.partialAnswer == durable.answer.GetOr("") && state.sequence == state.iteration == 0
      && state.activeSkills == [] && state.activeTools == [] && state.activities == []
      && state.stage == state.phase && (state.phase.IsTerminal() <==> durable.status.IsTerminal())
    ensures durable.status.Pending? ==> Initial(durable).phase == Waiting
    ensures durable.status.Running? ==> Initial(durable).phase == Reasoning
  {}

  /** An event that writes a status behind the start asks for the phase that this status stands for. */
  lemma StatusAndPhaseAgree(event: Event)
    requires StatusOf(event).Some? && !event.ExecutionStarted?
    ensures PhaseOf(event) == Some(PhaseFromStatus(StatusOf(event).value))
  {}

  /** Terminal phases stay; streaming does not fall back to preparing; an absent phase changes nothing. */
  function SetPhase(state: State, phase: Option<Phase>): State {
    if phase.None? then state
    else if state.phase.IsTerminal() && !phase.value.IsTerminal() then state
    else if state.phase.ResponseStreaming? && phase.value.ResponsePreparing? then state
    else state.(phase := phase.value, stage := phase.value)
  }

  function Without(tools: seq<ActiveTool>, callId: string): seq<ActiveTool> {
    if tools == [] then []
    else (if tools[0].callId == callId then [] else [tools[0]]) + Without(tools[1..], callId)
  }

  function MarkToolStarted(state: State, tool: string, callId: string): State {
    state.(activeTools := Without(state.activeTools, callId) + [ActiveTool(tool, callId)])
  }

  function MarkToolFinished(state: State, callId: string): State {
    state.(activeTools := Without(state.activeTools, callId))
  }

  /** `items[-n:]`, which is everything for `n == 0` too. */
  function Window<T>(items: seq<T>, n: nat): seq<T> {
    if 0 < n < |items| then items[|items| - n..] else items
  }

  /** The items are the last `n` of all, or all of them if there are no more, or if `n` is 0. */
  ghost predicate AreLast(items: seq<Entry>, all: seq<Entry>, n: nat) {
    && |items| == (if n == 0 || |all| <= n then |all| else n)
    && forall i | 0 <= i < |items| :: items[i] == all[|all| - |items| + i]
  }

  function ReduceEvent(state: State, event: Event): State {
    match event
    case ExecutionStarted(sessionId) =>
      var session := if sessionId.Some? then sessionId else state.sessionId;
      SetPhase(state.(status := Running, sessionId := session), Some(LoadingContext))
    case PhaseChanged(phase) => SetPhase(state, phase)
    case CancelAsked => SetPhase(state.(status := CancelRequested), Some(Cancelling))
    case ContextLoaded => SetPhase(state, Some(Reasoning))
    case IterationStarted(iteration) =>
      SetPhase(state.(iteration := if iteration != 0 then iteration else state.iteration), Some(Reasoning))
    case LlmStarted => SetPhase(state, Some(Reasoning))
    case SkillRequested => SetPhase(state, Some(UsingSkill))
    case SkillContextLoaded(skills) => SetPhase(state.(activeSkills := skills), Some(UsingSkill))
    case SkillContextReleased => SetPhase(state.(activeSkills := []), Some(Reasoning))
    case ToolStarted(tool, callId) => SetPhase(MarkToolStarted(state, tool, callId), Some(UsingTool))
    case ToolCompleted(callId) => SetPhase(MarkToolFinished(state, callId), Some(Reasoning))
    case ToolFailed(callId) => SetPhase(MarkToolFinished(state, callId), Some(Reasoning))
    case AnswerStarted => SetPhase(state, Some(ResponseStreaming))
    case AssistantDelta(content) =>
      SetPhase(state.(partialAnswer := state.partialAnswer + content), Some(ResponseStreaming))
    case AnswerGenerated => state
    case AnswerCompleted => SetPhase(state, Some(Finalizing))
    case ExecutionCompleted(answer, result) =>
      var text := if answer != "" then answer else state.partialAnswer;
      SetPhase(state.(status := Completed, answer := Some(answer), partialAnswer := text, result := result,
                      activeSkills := [], activeTools := []), Some(Done))
    case ExecutionFailed(error) =>
      SetPhase(state.(status := Failed, error := error, activeSkills := [], activeTools := []), Some(Broken))
    case ExecutionCancelled(partialAnswer) =>
      SetPhase(state.(status := Cancelled, partialAnswer := partialAnswer.GetOr(state.partialAnswer),
                      activeSkills := [], activeTools := []), Some(Stopped))
    case OtherEvent(_) => state
  }

  /** `reduce_projection` */
  function Reduce(state: State, entry: Entry, maxActivities: nat): State {
    var reduced := ReduceEvent(state.(sequence := entry.sequence), entry.event);
    if entry.event.AssistantDelta? then reduced
    else reduced.(activities := Window(reduced.activities + [entry], maxActivities))
  }

  /** The projection after these entries, in this order. */
  function Replay(state: State, entries: seq<Entry>, maxActivities: nat): State {
    if entries == [] then state
    else Reduce(Replay(state, entries[..|entries| - 1], maxActivities), entries[|entries| - 1], maxActivities)
  }

  /** The entries with sequences `from + 1` to `to` of a log whose first event has sequence 1. */
  function Numbered(log: seq<Event>, from: nat, to: nat): (entries: seq<Entry>)
    requires from <= to <= |log|
    ensures |entries| == to - from
    ensures forall i | 0 <= i < |entries| :: entries[i] == Entry(from + i + 1, log[from + i])
  {
    if from == to then [] else Numbered(log, from, to - 1) + [Entry(to, log[to - 1])]
  }

  /** The simple form: the fold of the first `n` events of the log. */
  function Fold(log: seq<Event>, n: nat, maxActivities: nat): State
    requires n <= |log|
  {
    Replay(Initial(), Numbered(log, 0, n), maxActivities)
  }

  // ---------------------------------------------------------------------------
  // Replaying in pieces
  // ---------------------------------------------------------------------------

  lemma ReplayOne(state: State, entries: seq<Entry>, entry: Entry, maxActivities: nat)
    ensures Replay(state, entries + [entry], maxActivities)
         == Reduce(Replay(state, entries, maxActivities), entry, maxActivities)
  {
    assert (entries + [entry])[..|entries|] == entries;
  }

  lemma {:induction false} ReplayInPieces(state: State, a: seq<Entry>, b: seq<Entry>, maxActivities: nat)
    ensures Replay(state, a + b, maxActivities) == Replay(Replay(state, a, maxActivities), b, maxActivities)
  {
    if b == [] {
      assert a + b == a;
    } else {
      var front, last := b[..|b| - 1], b[|b| - 1];
      assert a + b == (a + front) + [last] && b == front + [last];
      ReplayOne(state, a + front, last, maxActivities);
      ReplayInPieces(state, a, front, maxActivities);
    }
  }

  /** Continuing the fold of a prefix gives the fold of the longer prefix. */
  lemma FoldContinues(log: seq<Event>, from: nat, to: nat, maxActivities: nat)
    requires from <= to <= |log|
    ensures Replay(Fold(log, from, maxActivities), Numbered(log, from, to), maxActivities)
         == Fold(log, to, maxActivities)
  {
    assert Numbered(log, 0, from) + Numbered(log, from, to) == Numbered(log, 0, to);
    ReplayInPieces(Initial(), Numbered(log, 0, from), Numbered(log, from, to), maxActivities);
  }

  lemma FoldOfNothing(log: seq<Event>, maxActivities: nat)
    ensures Fold(log, 0, maxActivities) == Initial()
    ensures Initial().partialAnswer == "" && Initial().sequence == 0 && Initial().activities == []
  {}

  lemma FoldStep(log: seq<Event>, n: nat, maxActivities: nat)
    requires n < |log|
    ensures Fold(log, 0, maxActivities) == Initial()
    ensures Fold(log, n + 1, maxActivities) == Reduce(Fold(log, n, maxActivities), Entry(n + 1, log[n]), maxActivities)
  {
    hide Reduce;
    ReplayOne(Initial(), Numbered(log, 0, n), Entry(n + 1, log[n]), maxActivities);
  }

  lemma FoldOfLongerLog(log: seq<Event>, longer: seq<Event>, n: nat, maxActivities: nat)
    requires log <= longer && n <= |log|
    ensures Fold(log, n, maxActivities) == Fold(longer, n, maxActivities)
  {
    assert Numbered(log, 0, n) == Numbered(longer, 0, n);
  }

  // ---------------------------------------------------------------------------
  // One step, field by field
  // ---------------------------------------------------------------------------

  /** The status an event writes. */
  function StatusOf(event: Event): Option<Status> {
    match event
    case ExecutionStarted(_) => Some(Running)
    case CancelAsked => Some(CancelRequested)
    case ExecutionCompleted(_, _) => Some(Completed)
    case ExecutionFailed(_) => Some(Failed)
    case ExecutionCancelled(_) => Some(Cancelled)
    case _ => None
  }

  /** The phase an event asks for. */
  function PhaseOf(event: Event): Option<Phase> {
    match event
    case ExecutionStarted(_) => Some(LoadingContext)
    case PhaseChanged(phase) => phase
    case CancelAsked => Some(Cancelling)
    case SkillRequested | SkillContextLoaded(_) => Some(UsingSkill)
    case ToolStarted(_, _) => Some(UsingTool)
    case AnswerStarted | AssistantDelta(_) => Some(ResponseStreaming)
    case AnswerCompleted => Some(Finalizing)
    case ExecutionCompleted(_, _) => Some(Done)
    case ExecutionFailed(_) => Some(Broken)
    case ExecutionCancelled(_) => Some(Stopped)
    case AnswerGenerated | OtherEvent(_) => None
    case _ => Some(Reasoning)
  }

  function NextPhase(current: Phase, asked: Option<Phase>): Phase {
    if asked.None?
       || (current.IsTerminal() && !asked.value.IsTerminal())
       || (current.ResponseStreaming? && asked.value.ResponsePreparing?)
    then current
    else asked.value
  }

  function NextTools(tools: seq<ActiveTool>, event: Event): seq<ActiveTool> {
    match event
    case ToolStarted(tool, callId) => Without(tools, callId) + [ActiveTool(tool, callId)]
    case ToolCompleted(callId) => Without(tools, callId)
    case ToolFailed(callId) => Without(tools, callId)
    case _ => if event.IsTerminal() then [] else tools
  }

  function NextText(text: string, event: Event): string {
    match event
    case AssistantDelta(content) => text + content
    case ExecutionCompleted(answer, _) => if answer != "" then answer else text
    case ExecutionCancelled(partial) => partial.GetOr(text)
    case _ => text
  }

  lemma SetPhaseByField(state: State, phase: Option<Phase>)
    ensures SetPhase(state, phase).phase == NextPhase(state.phase, phase)
    ensures state.stage == state.phase ==> SetPhase(state, phase).stage == SetPhase(state, phase).phase
    ensures SetPhase(state, phase).(phase := state.phase, stage := state.stage) == state
  {}

  lemma ReduceEventByField(state: State, event: Event)
    ensures var next := ReduceEvent(state, event);
      && next.sequence == state.sequence
      && next.activities == state.activities
      && next.status == StatusOf(event).GetOr(state.status)
      && next.phase == NextPhase(state.phase, PhaseOf(event))
      && (state.stage == state.phase ==> next.stage == next.phase)
      && next.activeTools == NextTools(state.activeTools, event)
      && next.partialAnswer == NextText(state.partialAnswer, event)
  {
    hide SetPhase, Without;
    match event
    case ExecutionStarted(sessionId) =>
      var session := if sessionId.Some? then sessionId else state.sessionId;
      SetPhaseByField(state.(status := Running, sessionId := session), Some(LoadingContext));
    case PhaseChanged(phase) => SetPhaseByField(state, phase);
    case CancelAsked => SetPhaseByField(state.(status := CancelRequested), Some(Cancelling));
    case ContextLoaded => SetPhaseByField(state, Some(Reasoning));
    case IterationStarted(iteration) =>
      SetPhaseByField(state.(iteration := if iteration != 0 then iteration else state.iteration), Some(Reasoning));
    case LlmStarted => SetPhaseByField(state, Some(Reasoning));
    case SkillRequested => SetPhaseByField(state, Some(UsingSkill));
    case SkillContextLoaded(skills) => SetPhaseByField(state.(activeSkills := skills), Some(UsingSkill));
    case SkillContextReleased => SetPhaseByField(state.(activeSkills := []), Some(Reasoning));
    case ToolStarted(tool, callId) => SetPhaseByField(MarkToolStarted(state, tool, callId), Some(UsingTool));
    case ToolCompleted(callId) => SetPhaseByField(MarkToolFinished(state, callId), Some(Reasoning));
    case ToolFailed(callId) => SetPhaseByField(MarkToolFinished(state, callId), Some(Reasoning));
    case AnswerStarted => SetPhaseByField(state, Some(ResponseStreaming));
    case AssistantDelta(content) =>
      SetPhaseByField(state.(partialAnswer := state.partialAnswer + content), Some(ResponseStreaming));
    case AnswerGenerated =>
    case AnswerCompleted => SetPhaseByField(state, Some(Finalizing));
    case ExecutionCompleted(answer, result) =>
      var text := if answer != "" then answer else state.partialAnswer;
      SetPhaseByField(state.(status := Completed, answer := Some(answer), partialAnswer := text, result := result,
                             activeSkills := [], activeTools := []), Some(Done));
    case ExecutionFailed(error) =>
      SetPhaseByField(state.(status := Failed, error := error, activeSkills := [], activeTools := []), Some(Broken));
    case ExecutionCancelled(partialAnswer) =>
      SetPhaseByField(state.(status := Cancelled, partialAnswer := partialAnswer.GetOr(state.partialAnswer),
                             activeSkills := [], activeTools := []), Some(Stopped));
    case OtherEvent(_) =>
  }

  lemma ReduceByField(state: State, entry: Entry, maxActivities: nat)
    ensures var next := Reduce(state, entry, maxActivities);
      && next.sequence == entry.sequence
      && next.status == StatusOf(entry.event).GetOr(state.status)
      && next.phase == NextPhase(state.phase, PhaseOf(entry.event))
      && (state.stage == state.phase ==> next.stage == next.phase)
      && next.activeTools == NextTools(state.activeTools, entry.event)
      && next.partialAnswer == NextText(state.partialAnswer, entry.event)
      && (entry.event.AssistantDelta? ==> next.activities == state.activities)
      && (!entry.event.AssistantDelta? ==> AreLast(next.activities, state.activities + [entry], maxActivities))
  {
    hide ReduceEvent;
    ReduceEventByField(state.(sequence := entry.sequence), entry.event);
  }

  function NextSkills(skills: seq<string>, event: Event): seq<string> {
    match event
    case SkillContextLoaded(loaded) => loaded
    case SkillContextReleased => []
    case _ => if event.IsTerminal() then [] else skills
  }

  /** The fields that few events touch. */
  lemma ReduceRest(state: State, entry: Entry, maxActivities: nat)
    ensures var next, event := Reduce(state, entry, maxActivities), entry.event;
      && next.sessionId == (if event.ExecutionStarted? && event.sessionId.Some? then event.sessionId
                            else state.sessionId)
      && next.iteration == (if event.IterationStarted? && event.iteration != 0 then event.iteration
                            else state.iteration)
      && next.answer == (if event.ExecutionCompleted? then Some(event.answer) else state.answer)
      && next.result == (if event.ExecutionCompleted? then event.result else state.result)
      && next.error == (if event.ExecutionFailed? then event.error else state.error)
      && next.activeSkills == NextSkills(state.activeSkills, event)
  {
    forall before, phase ensures SetPhase(before, phase)
      == before.(phase := SetPhase(before, phase).phase, stage := SetPhase(before, phase).stage)
    {
      SetPhaseKeepsRest(before, phase);
    }
    hide Window, Without, SetPhase;
  }

  lemma SetPhaseKeepsRest(state: State, phase: Option<Phase>)
    ensures SetPhase(state, phase)
         == state.(phase := SetPhase(state, phase).phase, stage := SetPhase(state, phase).stage)
  {}

  // ---------------------------------------------------------------------------
  // Whole histories
  // ---------------------------------------------------------------------------

  function NonDelta(entries: seq<Entry>): seq<Entry> {
    if entries == [] then []
    else
      var last := entries[|entries| - 1];
      NonDelta(entries[..|entries| - 1]) + (if last.event.AssistantDelta? then [] else [last])
  }

  lemma LastOfLast(items: seq<Entry>, all: seq<Entry>, item: Entry, next: seq<Entry>, n: nat)
    requires AreLast(items, all, n) && AreLast(next, items + [item], n)
    ensures AreLast(next, all + [item], n)
  {}

  /** The bounded activities are the last ones of all that are no deltas. */
  lemma {:induction false} ActivitiesAreWindow(state: State, entries: seq<Entry>, maxActivities: nat)
    requires state.activities == []
    ensures AreLast(Replay(state, entries, maxActivities).activities, NonDelta(entries), maxActivities)
  {
    hide Reduce, AreLast;
    if entries == [] {
      assert AreLast([], [], maxActivities) by { NothingIsLast(maxActivities); }
    } else {
      var front, last := entries[..|entries| - 1], entries[|entries| - 1];
      var before := Replay(state, front, maxActivities);
      ActivitiesAreWindow(state, front, maxActivities);
      ReduceByField(before, last, maxActivities);
      if last.event.AssistantDelta? {
        assert NonDelta(front) + [] == NonDelta(front);
      } else {
        LastOfLast(before.activities, NonDelta(front), last, Replay(state, entries, maxActivities).activities,
                   maxActivities);
      }
    }
  }

  lemma NothingIsLast(n: nat)
    ensures AreLast([], [], n)
  {}

  lemma {:induction false} PhaseIsStage(state: State, entries: seq<Entry>, maxActivities: nat)
    requires state.phase == state.stage
    ensures Replay(state, entries, maxActivities).phase == Replay(state, entries, maxActivities).stage
  {
    hide Reduce;
    if entries != [] {
      var front, last := entries[..|entries| - 1], entries[|entries| - 1];
      PhaseIsStage(state, front, maxActivities);
      ReduceByField(Replay(state, front, maxActivities), last, maxActivities);
    }
  }

  predicate AsksForTerminalPhase(entry: Entry) {
    PhaseOf(entry.event).Some? && PhaseOf(entry.event).value.IsTerminal()
  }

  /** A terminal phase stays terminal under any later events, and nothing else makes the phase terminal. */
  lemma {:induction false} TerminalPhaseIsAbsorbing(state: State, entries: seq<Entry>, maxActivities: nat)
    ensures Replay(state, entries, maxActivities).phase.IsTerminal()
       <==> state.phase.IsTerminal() || exists entry | entry in entries :: AsksForTerminalPhase(entry)
  {
    hide Reduce;
    if entries != [] {
      var front, last := entries[..|entries| - 1], entries[|entries| - 1];
      assert entries == front + [last];
      assert (exists entry | entry in entries :: AsksForTerminalPhase(entry))
        <==> AsksForTerminalPhase(last) || exists entry | entry in front :: AsksForTerminalPhase(entry) by {
        assert last in entries && forall entry | entry in front :: entry in entries;
      }
      TerminalPhaseIsAbsorbing(state, front, maxActivities);
      ReduceByField(Replay(state, front, maxActivities), last, maxActivities);
    }
  }

  function LastStatus(status: Status, entries: seq<Entry>): Status {
    if entries == [] then status
    else StatusOf(entries[|entries| - 1].event).GetOr(LastStatus(status, entries[..|entries| - 1]))
  }

  /** The projected status is whatever event wrote it last; nothing protects a terminal one. */
  lemma {:induction false} StatusIsLastWritten(state: State, entries: seq<Entry>, maxActivities: nat)
    ensures Replay(state, entries, maxActivities).status == LastStatus(state.status, entries)
  {
    hide Reduce;
    if entries != [] {
      var front, last := entries[..|entries| - 1], entries[|entries| - 1];
      StatusIsLastWritten(state, front, maxActivities);
      ReduceByField(Replay(state, front, maxActivities), last, maxActivities);
    }
  }

  predicate ReopensStatus(entry: Entry) {
    entry.event.ExecutionStarted? || entry.event.CancelAsked?
  }

  /** A terminal status survives later events exactly if the last of them to write a status is terminal. */
  lemma {:induction false} TerminalStatusSurvives(state: State, entries: seq<Entry>, maxActivities: nat)
    requires state.status.IsTerminal()
    ensures Replay(state, entries, maxActivities).status.IsTerminal()
       <==> forall i | 0 <= i < |entries| && ReopensStatus(entries[i]) ::
              exists j :: i < j < |entries| && entries[j].event.IsTerminal()
  {
    hide Replay;
    StatusIsLastWritten(state, entries, maxActivities);
    LastStatusIsTerminal(state.status, entries);
  }

  lemma {:induction false} LastStatusIsTerminal(status: Status, entries: seq<Entry>)
    requires status.IsTerminal()
    ensures LastStatus(status, entries).IsTerminal()
       <==> forall i | 0 <= i < |entries| && ReopensStatus(entries[i]) ::
              exists j :: i < j < |entries| && entries[j].event.IsTerminal()
  {
    if entries != [] {
      var front, n := entries[..|entries| - 1], |entries| - 1;
      LastStatusIsTerminal(status, front);
      assert forall i | 0 <= i < n :: front[i] == entries[i];
      if !entries[n].event.IsTerminal() && !ReopensStatus(entries[n]) {
        forall i | 0 <= i < |entries| && ReopensStatus(entries[i])
          ensures (exists j :: i < j < |entries| && entries[j].event.IsTerminal())
             <==> (exists j :: i < j < n && front[j].event.IsTerminal())
        {}
      }
    }
  }

  /**
   * A late cancel request reopens the status of a completed projection, though not its phase. The reducer accepts
   * `execution.cancel_requested`; no emitter of the repository produces it today.
   */
  lemma CompletedStatusCanReopen(log: seq<Event>, maxActivities: nat)
    requires log == [ExecutionCompleted("42", None), CancelAsked]
    ensures Fold(log, 2, maxActivities).status == CancelRequested
    ensures Fold(log, 2, maxActivities).phase == Done
  {
    hide Reduce, Fold;
    FoldStep(log, 0, maxActivities);
    FoldStep(log, 1, maxActivities);
    ReduceByField(Fold(log, 0, maxActivities), Entry(1, log[0]), maxActivities);
    ReduceByField(Fold(log, 1, maxActivities), Entry(2, log[1]), maxActivities);
  }

  /** This entry ends a call: it restarts or finishes it, or ends the execution. */
  predicate Touches(entry: Entry, callId: string) {
    || (entry.event.ToolStarted? && entry.event.callId == callId)
    || (entry.event.ToolCompleted? && entry.event.callId == callId)
    || (entry.event.ToolFailed? && entry.event.callId == callId)
    || entry.event.IsTerminal()
  }

  /** The last thing the history says about the call is that it started. */
  ghost predicate IsOpen(entries: seq<Entry>, tool: ActiveTool) {
    exists i :: 0 <= i < |entries| && IsLastWord(entries, i, tool)
  }

  ghost predicate IsLastWord(entries: seq<Entry>, i: nat, tool: ActiveTool)
    requires i < |entries|
  {
    && entries[i].event == ToolStarted(tool.tool, tool.callId)
    && forall j | i < j < |entries| :: !Touches(entries[j], tool.callId)
  }

  ghost predicate DistinctCalls(tools: seq<ActiveTool>) {
    forall i, j | 0 <= i < j < |tools| :: tools[i].callId != tools[j].callId
  }

  lemma {:induction false} WithoutRemoves(tools: seq<ActiveTool>, callId: string)
    ensures forall tool :: tool in Without(tools, callId) <==> tool in tools && tool.callId != callId
    ensures DistinctCalls(tools) ==> DistinctCalls(Without(tools, callId))
  {
    if tools != [] {
      WithoutRemoves(tools[1..], callId);
      var rest := Without(tools[1..], callId);
      if DistinctCalls(tools) {
        assert forall i, j | 0 <= i < j < |tools[1..]| ::
          tools[1..][i] == tools[i + 1] && tools[1..][j] == tools[j + 1];
        assert forall tool | tool in rest :: tool.callId != tools[0].callId;
      }
    }
  }

  lemma NothingIsOpen()
    ensures DistinctCalls([])
    ensures forall tool :: !IsOpen([], tool)
  {}

  lemma IsOpenAfter(front: seq<Entry>, last: Entry, tool: ActiveTool)
    ensures IsOpen(front + [last], tool)
       <==> last.event == ToolStarted(tool.tool, tool.callId)
            || (IsOpen(front, tool) && !Touches(last, tool.callId))
  {
    var entries := front + [last];
    assert entries[|front|] == last && forall i | 0 <= i < |front| :: entries[i] == front[i];
    if last.event == ToolStarted(tool.tool, tool.callId) {
      assert IsLastWord(entries, |front|, tool);
    } else if IsOpen(front, tool) && !Touches(last, tool.callId) {
      var i :| 0 <= i < |front| && IsLastWord(front, i, tool);
      assert IsLastWord(entries, i, tool);
    }
    if IsOpen(entries, tool) {
      var i :| 0 <= i < |entries| && IsLastWord(entries, i, tool);
      if i < |front| {
        assert IsLastWord(front, i, tool);
      }
    }
  }

  lemma NextToolsAre(tools: seq<ActiveTool>, entry: Entry)
    requires DistinctCalls(tools)
    ensures DistinctCalls(NextTools(tools, entry.event))
    ensures forall tool ::
      tool in NextTools(tools, entry.event)
      <==> entry.event == ToolStarted(tool.tool, tool.callId) || (tool in tools && !Touches(entry, tool.callId))
  {
    hide Without;
    match entry.event {
      case ToolStarted(tool, callId) =>
        WithoutRemoves(tools, callId);
        var started := ActiveTool(tool, callId);
        assert forall t | t in Without(tools, callId) :: t in NextTools(tools, entry.event);
        assert started in NextTools(tools, entry.event);
      case ToolCompleted(callId) => WithoutRemoves(tools, callId);
      case ToolFailed(callId) => WithoutRemoves(tools, callId);
      case _ =>
    }
  }

  /** The active tools are the open calls, each once. */
  lemma {:induction false} ActiveToolsAreOpenCalls(state: State, entries: seq<Entry>, maxActivities: nat)
    requires state.activeTools == []
    ensures DistinctCalls(Replay(state, entries, maxActivities).activeTools)
    ensures forall tool :: tool in Replay(state, entries, maxActivities).activeTools <==> IsOpen(entries, tool)
  {
    hide Reduce, IsOpen, NextTools, Touches, DistinctCalls;
    if entries == [] {
      NothingIsOpen();
    } else {
      var front, last := entries[..|entries| - 1], entries[|entries| - 1];
      assert entries == front + [last];
      var before := Replay(state, front, maxActivities).activeTools;
      ActiveToolsAreOpenCalls(state, front, maxActivities);
      ReduceByField(Replay(state, front, maxActivities), last, maxActivities);
      NextToolsAre(before, last);
      forall tool ensures tool in NextTools(before, last.event) <==> IsOpen(entries, tool) {
        IsOpenAfter(front, last, tool);
      }
    }
  }

  /** The active tools that the projection shows after these events. */
  function ToolsAfter(events: seq<Event>): seq<ActiveTool> {
    if events == [] then []
    else NextTools(ToolsAfter(events[..|events| - 1]), events[|events| - 1])
  }

  lemma {:induction false} ToolsAreProjected(state: State, events: seq<Event>, entries: seq<Entry>,
                                           maxActivities: nat)
    requires state.activeTools == [] && |entries| == |events|
    requires forall i | 0 <= i < |entries| :: entries[i].event == events[i]
    ensures Replay(state, entries, maxActivities).activeTools == ToolsAfter(events)
    decreases |entries|
  {
    hide Reduce, NextTools;
    if entries != [] {
      var front, last := entries[..|entries| - 1], entries[|entries| - 1];
      ToolsAreProjected(state, events[..|events| - 1], front, maxActivities);
      ReduceByField(Replay(state, front, maxActivities), last, maxActivities);
    }
  }

  lemma NextToolsAfter(events: seq<Event>, event: Event)
    ensures ToolsAfter(events + [event]) == NextTools(ToolsAfter(events), event)
  {
    assert (events + [event])[..|events|] == events;
  }

  /** Tools that all finish leave behind what others leave. */
  lemma {:induction false} ToolsInPieces(a: seq<Event>, b: seq<Event>)
    requires ToolsAfter(a) == []
    ensures ToolsAfter(a + b) == ToolsAfter(b)
  {
    hide NextTools;
    if b == [] {
      assert a + b == a;
    } else {
      var front, last := b[..|b| - 1], b[|b| - 1];
      ToolsInPieces(a, front);
      assert a + b == (a + front) + [last];
      NextToolsAfter(a + front, last);
    }
  }

  predicate NoToolStarts(events: seq<Event>) {
    forall event <- events :: !event.ToolStarted?
  }

  lemma {:induction false} NothingStarted(events: seq<Event>)
    requires NoToolStarts(events)
    ensures ToolsAfter(events) == []
  {
    if events != [] {
      assert events[|events| - 1] in events;
      NothingStarted(events[..|events| - 1]);
    }
  }

  lemma NextTextIsLonger(text: string, event: Event)
    requires !event.ReplacesText()
    ensures NextText(text, event) == text + event.Delta()
  {
    assert text + "" == text;
  }

  /** Until an event brings the whole text, the projected text is the concatenation of the deltas. */
  lemma {:induction false} TextIsDeltas(log: seq<Event>, n: nat, maxActivities: nat)
    requires n <= |log| && forall i | 0 <= i < n :: !log[i].ReplacesText()
    ensures Fold(log, n, maxActivities).partialAnswer == Deltas(log, n)
  {
    hide Reduce, Fold, NextText, Initial;
    if n == 0 {
      FoldOfNothing(log, maxActivities);
    } else {
      TextIsDeltas(log, n - 1, maxActivities);
      FoldStep(log, n - 1, maxActivities);
      ReduceByField(Fold(log, n - 1, maxActivities), Entry(n, log[n - 1]), maxActivities);
      NextTextIsLonger(Deltas(log, n - 1), log[n - 1]);
    }
  }
}
