/** The vocabulary of an execution: its statuses, its phases and the public events about it. */
module Events {
  import opened Text

  /** The durable status of an execution. */
  datatype Status = Pending | Running | CancelRequested | Completed | Failed | Cancelled {
    predicate IsTerminal() {
      Completed? || Failed? || Cancelled?
    }
  }

  /** The projected phase; an event may also name a phase of its own. */
  datatype Phase =
    | Waiting
    | LoadingContext
    | Reasoning
    | UsingSkill
    | UsingTool
    | ResponsePreparing
    | ResponseStreaming
    | Finalizing
    | Cancelling
    | Done
    | Broken
    | Stopped
    | Custom(name: string)
  {
    predicate IsTerminal() {
      Done? || Broken? || Stopped?
    }
  }

  function PhaseFromStatus(status: Status): Phase {
    match status
    case Completed => Done
    case Failed => Broken
    case Cancelled => Stopped
    case CancelRequested => Cancelling
    case Running => Reasoning
    case Pending => Waiting
  }

  /** The events that only show up among the activities. */
  datatype Notice =
    | IterationLimitReached
    | BudgetExceeded
    | SnapshotCreated
    | ContextRetrieved
    | LlmCompleted
    | DecisionMade
    | Named(kind: string)

  /** A public event, reduced to the fields an observer reads. */
  datatype Event =
    | ExecutionStarted(sessionId: Option<string>)
    | PhaseChanged(phase: Option<Phase>)
    | CancelAsked
    | ContextLoaded
    | IterationStarted(iteration: nat)
    | LlmStarted
    | SkillRequested
    | SkillContextLoaded(skills: seq<string>)
    | SkillContextReleased
    | ToolStarted(tool: string, callId: string)
    | ToolCompleted(callId: string)
    | ToolFailed(callId: string)
    | AnswerStarted
    | AssistantDelta(content: string)
    | AnswerGenerated
    | AnswerCompleted
    | ExecutionCompleted(answer: string, result: Option<string>)
    | ExecutionFailed(error: Option<string>)
    | ExecutionCancelled(partialAnswer: Option<string>)
    | OtherEvent(notice: Notice)
  {
    /** The event types that end an observation. */
    predicate IsTerminal() {
      ExecutionCompleted? || ExecutionFailed? || ExecutionCancelled?
    }

    /** The event brings the whole text with it. */
    predicate ReplacesText() {
      (ExecutionCompleted? && answer != "") || (ExecutionCancelled? && partialAnswer.Some?)
    }

    /** The text that the end of an execution brings along. */
    function EndText(): string {
      if ExecutionCompleted? then answer
      else if ExecutionCancelled? then partialAnswer.GetOr("")
      else ""
    }

    /** The text this event adds to the answer. */
    function Delta(): string {
      if AssistantDelta? then content else ""
    }
  }

  /** The text the first `n` events of a log spell out. */
  function Deltas(log: seq<Event>, n: nat): string
    requires n <= |log|
  {
    if n == 0 then "" else Deltas(log, n - 1) + log[n - 1].Delta()
  }

  /** The events of a run in front of its answer. */
  predicate IsQuiet(event: Event) {
    match event
    case PhaseChanged(phase) =>
      phase == Some(LoadingContext) || phase == Some(Reasoning) || phase == Some(UsingSkill) || phase == Some(UsingTool)
    case ContextLoaded | IterationStarted(_) | LlmStarted => true
    case SkillRequested | SkillContextLoaded(_) | SkillContextReleased => true
    case ToolStarted(_, _) | ToolCompleted(_) | ToolFailed(_) | OtherEvent(_) => true
    case _ => false
  }

  predicate AllQuiet(events: seq<Event>) {
    forall event <- events :: IsQuiet(event)
  }
}
