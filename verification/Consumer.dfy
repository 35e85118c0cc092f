/** The consumer's order: what it emits and commits for one execution is what the end-to-end machine assumes. */
module Consumer {
  import opened Text
  import opened Events
  import opened Projection
  import opened Publisher
  import opened HotText
  import opened Reattach
  import Agent = AgentProgram
  import Client = Observation
  import Executions
  import Outbox
  import RunDiscipline
  import Transactions

  const LIFECYCLE: nat := 0
  const RUNTIME: nat := 1

  /** A run of the agent program: what it was given, and what came of it. */
  datatype ProgramRun = ProgramRun(
    program: Agent.Program,
    loaded: Option<Agent.Loaded>,
    turns: seq<Agent.Turn>,
    stream: Agent.Stream,
    saved: bool,
    outcome: Agent.Outcome,
    trace: Agent.Trace,
    before: seq<Event>)
  {
    /** It is one that `execute` can make. */
    ghost predicate IsExecuted() {
      Agent.IsRunOf(program, loaded, turns, stream, saved, outcome, trace, before)
    }
  }

  /**
   * Where the handling of the message stands; `begun` tells that the lifecycle event got its number, `emitted` are the
   * events that the runtime emitted so far, `broken` tells that the emit of a delta was cut off, which the answer node
   * does not catch.
   */
  datatype Stage =
    | Unopened
    | Announcing(begun: bool)
    | AtWork(emitted: seq<Event>, broken: bool)
    | Answered(answer: string)
    | Halted
    | Concluding(event: Event, begun: bool)
    | Over

  datatype Handling = Handling(world: World, stage: Stage)

  /**
   * `Proceed` leaves an awaited lifecycle emit; `Return` the awaited runtime, with a run of the program that spoke what
   * was emitted, and `End` because it raised or was cancelled. `Conclude` is the terminal transaction. `Other` are the
   * steps of observer and client, and the expiry of the hot key.
   */
  datatype Step =
    | Open
    | Lifecycle(step: Publisher.Step)
    | Runtime(step: Publisher.Step)
    | Proceed
    | Return(run: ProgramRun)
    | End
    | Conclude(durable: Durable, event: Event)
    | AskCancel
    | Other(other: WorldStep)

  const NEW: Handling := Handling(START, Unopened)

  /** A step of this sink's emit. */
  predicate IsBy(step: Publisher.Step, sink: nat) {
    !step.ExpireHot? && step.sink == sink
  }

  /** The texts that were emitted, one by one. */
  function Spoken(events: seq<Event>): seq<string> {
    if events == [] then []
    else
      var last := events[|events| - 1];
      Spoken(events[..|events| - 1]) + (if last.AssistantDelta? then [last.content] else [])
  }

  // ---------------------------------------------------------------------------
  // The transactions on the one row
  // ---------------------------------------------------------------------------

  const CLAIM: Transactions.Claim := Transactions.Claim(0, true, 0, 1)

  /** The tables as far as this handling goes: the row, its session and the claimed message. */
  function DbOf(durable: Durable): Transactions.Db {
    Transactions.Db({0}, map[0 := Executions.Row(0, durable.status, durable.answer, durable.error, durable.result)],
                    map[0 := Outbox.Message(true, 0, Outbox.Processing, Some(0), 1)])
  }

  /** The row as these tables have it. */
  function RowIn(durable: Durable, db: Transactions.Db): Durable {
    if 0 !in db.executions then durable
    else
      var row := db.executions[0];
      durable.(status := row.status, answer := row.answer, error := row.error, result := row.result)
  }

  /** The row and the verdict of the opening transaction. */
  function OpenedRow(durable: Durable): (Durable, Transactions.Opened) {
    var (db, outcome) := Transactions.OpenTxn(DbOf(durable), CLAIM, 1);
    (RowIn(durable, db), outcome)
  }

  /** The row of the transaction behind a result, and whether it came to a cancellation. */
  function FinishedRow(durable: Durable, answer: string, result: Option<string>): (Durable, bool) {
    var (db, cancelled) := Transactions.FinishTxn(DbOf(durable), CLAIM, answer, result);
    (RowIn(durable, db), cancelled)
  }

  function StoppedRow(durable: Durable): Durable {
    RowIn(durable, Transactions.CancelTxn(DbOf(durable), CLAIM))
  }

  function BrokenRow(durable: Durable, error: string): Durable {
    RowIn(durable, Transactions.FailTxn(DbOf(durable), CLAIM, error))
  }

  function AskedRow(durable: Durable): Durable {
    RowIn(durable, Transactions.AskCancelTxn(DbOf(durable), 0).GetOr(DbOf(durable)))
  }

  /** What the transactions leave of a row that is not over. */
  lemma RowsAre(durable: Durable)
    requires !durable.status.IsTerminal()
    ensures OpenedRow(durable) == if durable.status.CancelRequested? then
                                 (durable.(status := Cancelled), Transactions.FoundCancelled)
                               else (durable.(status := Running, error := None), Transactions.MarkedAsRunning)
    ensures forall answer, result ::
      FinishedRow(durable, answer, result)
      == (if durable.status.CancelRequested? then (durable.(status := Cancelled, answer := Some(answer)), true)
          else (durable.(status := Completed, answer := Some(answer), result := result), false))
    ensures StoppedRow(durable) == durable.(status := Cancelled)
    ensures forall error ::
      BrokenRow(durable, error)
      == (if durable.status.CancelRequested? then durable
          else durable.(status := Failed, error := Some(Truncated(error, 4000))))
    ensures AskedRow(durable) == durable.(status := CancelRequested)
  {
    var db := DbOf(durable);
    hide Truncated;
    Transactions.OpenStores(db, CLAIM, 1);
    Transactions.CancelStores(db, CLAIM);
    Transactions.AskedIsRequested(db, 0);
    forall answer, result ensures FinishedRow(durable, answer, result) ==
      if durable.status.CancelRequested? then (durable.(status := Cancelled, answer := Some(answer)), true)
      else (durable.(status := Completed, answer := Some(answer), result := result), false)
    {
      Transactions.FinishStores(db, CLAIM, answer, result);
    }
    forall error ensures BrokenRow(durable, error) ==
      if durable.status.CancelRequested? then durable
      else durable.(status := Failed, error := Some(Truncated(error, 4000)))
    {
      Transactions.FailStores(db, CLAIM, error);
    }
  }

  // ---------------------------------------------------------------------------
  // The steps
  // ---------------------------------------------------------------------------

  /** The transaction behind a result leaves this row, and this event is emitted behind it. */
  predicate Finishes(before: Durable, answer: string, result: Option<string>, durable: Durable, event: Event) {
    var (after, cancelled) := FinishedRow(before, answer, result);
    && durable == after
    && event == if cancelled then ExecutionCancelled(Some(answer)) else ExecutionCompleted(answer, result)
  }

  ghost predicate MayConclude(s: Handling, durable: Durable, event: Event) {
    var before := s.world.durable;
    match s.stage
    case Unopened => OpenedRow(before) == (durable, Transactions.FoundCancelled) && event == ExecutionCancelled(None)
    case Answered(answer) => exists result :: Finishes(before, answer, result, durable, event)
    case Halted =>
      || (durable == StoppedRow(before) && event == ExecutionCancelled(None))
      || (event.ExecutionFailed? && event.error.Some? && durable == BrokenRow(before, event.error.value))
    case _ => false
  }

  /** The same, told by the columns. */
  lemma ConcludedRow(s: Handling, durable: Durable, event: Event)
    requires MayConclude(s, durable, event) && !s.world.durable.status.IsTerminal()
    ensures var before := s.world.durable;
      match s.stage
      case Unopened =>
        before.status.CancelRequested? && durable == before.(status := Cancelled) && event == ExecutionCancelled(None)
      case Answered(answer) =>
        if before.status.CancelRequested? then
          durable == before.(status := Cancelled, answer := Some(answer)) && event == ExecutionCancelled(Some(answer))
        else
          && durable == before.(status := Completed, answer := Some(answer), result := durable.result)
          && event == ExecutionCompleted(answer, durable.result)
      case Halted =>
        || (durable == before.(status := Cancelled) && event == ExecutionCancelled(None))
        || (event.ExecutionFailed?
            && durable == if before.status.CancelRequested? then before
                          else before.(status := Failed, error := durable.error))
      case _ => false
  {
    RowsAre(s.world.durable);
    hide OpenedRow, FinishedRow, StoppedRow, BrokenRow, Truncated;
  }

  ghost predicate Enabled(c: Config, s: Handling, step: Step) {
    var w := s.world;
    match step
    case Open => s.stage.Unopened? && OpenedRow(w.durable).1.MarkedAsRunning?
    case Lifecycle(emit) =>
      && (s.stage.Announcing? || s.stage.Concluding?)
      && IsBy(emit, LIFECYCLE) && Publisher.Enabled(c, w.system, emit)
      && (emit.Allocate? ==>
            !s.stage.begun && if s.stage.Concluding? then emit.event == s.stage.event else emit.event.ExecutionStarted?)
    case Runtime(emit) =>
      && s.stage.AtWork? && IsBy(emit, RUNTIME) && Publisher.Enabled(c, w.system, emit)
      && (emit.Allocate? ==> !s.stage.broken && !w.cut && !emit.event.IsTerminal())
    case Proceed => (s.stage.Announcing? || s.stage.Concluding?) && At(w.system, LIFECYCLE).Idle?
    case Return(run) =>
      && s.stage.AtWork? && At(w.system, RUNTIME).Idle? && !s.stage.broken
      && run.IsExecuted() && run.outcome.Returned? && Spoken(s.stage.emitted) == Spoken(run.trace.events)
    case End => s.stage.AtWork? && At(w.system, RUNTIME).Idle?
    case Conclude(durable, event) => MayConclude(s, durable, event)
    case AskCancel => !w.durable.status.IsTerminal()
    case Other(other) =>
      if other.Emit? then
        other.step.ExpireHot? && (AllIdle(w.system) || !HasText(w.system))
      else !other.Commit? && CanStep(c, w, other)
  }

  /** What the step does to the world, if anything. */
  function WorldStepOf(s: Handling, step: Step): Option<WorldStep> {
    var durable := s.world.durable;
    match step
    case Open => Some(Commit(OpenedRow(durable).0))
    case Lifecycle(emit) => Some(Emit(emit))
    case Runtime(emit) => Some(Emit(emit))
    case Proceed => None
    case Return(_) => None
    case End => None
    case Conclude(after, _) => Some(Commit(after))
    case AskCancel => Some(Commit(AskedRow(durable)))
    case Other(other) => Some(other)
  }

  function NextStage(s: Handling, step: Step): Stage
    requires step.Runtime? ==> s.stage.AtWork?
    requires step.Return? ==> step.run.outcome.Returned?
  {
    var stage := s.stage;
    match step
    case Open => Announcing(false)
    case Lifecycle(emit) =>
      if !emit.Allocate? then stage
      else if stage.Concluding? then stage.(begun := true)
      else Announcing(true)
    case Runtime(emit) =>
      AtWork(if emit.Allocate? then stage.emitted + [emit.event] else stage.emitted,
             stage.broken || LosesText(s.world.system, emit))
    case Proceed => if stage.Announcing? then AtWork([], false) else Over
    case Return(run) => Answered(run.outcome.answer)
    case End => Halted
    case Conclude(_, event) => Concluding(event, false)
    case AskCancel => stage
    case Other(_) => stage
  }

  /** The log is what the runtime emitted, behind the started event unless that was lost. */
  predicate IsLogOf(log: seq<Event>, emitted: seq<Event>) {
    log == emitted || (log != [] && log[0].ExecutionStarted? && log[1..] == emitted)
  }

  /** A stored answer is the stripped text of the log; the end comes last, and brings it along if it brings a text. */
  ghost predicate TextsAgree(log: seq<Event>, durable: Durable) {
    && (forall i | 0 <= i < |log| && log[i].IsTerminal() ::
          i == |log| - 1 && log[i].EndText() == durable.answer.GetOr(""))
    && (durable.answer.Some? ==> durable.answer == Some(Strip(Deltas(log, |log|))))
  }

  /** What the stage says about the sinks, the log and the row. */
  ghost predicate StageOk(w: World, stage: Stage) {
    var log := w.system.log;
    var open := !w.durable.status.IsTerminal() && w.durable.answer.None? && TerminalFree(log, |log|);
    match stage
    case Unopened => open && AllIdle(w.system) && !w.cut && log == [] && !HasText(w.system)
    case Announcing(begun) =>
      && open && IdleExcept(w.system, LIFECYCLE)
      && (!begun ==> At(w.system, LIFECYCLE).Idle?)
      && !w.cut && IsLogOf(log, []) && (!begun ==> log == [])
      && (!At(w.system, LIFECYCLE).Idle? ==> At(w.system, LIFECYCLE).entry.event.ExecutionStarted?)
    case AtWork(emitted, broken) =>
      && open && IdleExcept(w.system, RUNTIME) && IsLogOf(log, emitted)
      && (w.cut ==> At(w.system, RUNTIME).Idle? && (broken || w.system.hot.None?))
    case Answered(answer) =>
      && open && AllIdle(w.system) && (w.cut ==> w.system.hot.None?)
      && answer == Strip(Deltas(log, |log|))
    case Halted => open && AllIdle(w.system)
    case Concluding(event, begun) =>
      && IdleExcept(w.system, LIFECYCLE) && event.IsTerminal()
      && (!begun ==> At(w.system, LIFECYCLE).Idle? && TerminalFree(log, |log|))
      && (w.durable.status.Completed? <==> event.ExecutionCompleted?)
      && (event.ExecutionCompleted? ==> w.durable.answer == Some(event.answer))
      && event.EndText() == w.durable.answer.GetOr("") && TextsAgree(log, w.durable)
    case Over => AllIdle(w.system) && TextsAgree(log, w.durable)
  }

  ghost function Next(c: Config, titles: Client.Titles, s: Handling, step: Step): Handling
    requires Enabled(c, s, step)
  {
    var move := WorldStepOf(s, step);
    Handling(
      if move.Some? && CanStep(c, s.world, move.value) then Reattach.After(c, titles, s.world, move.value) else s.world,
      NextStage(s, step))
  }

  // ---------------------------------------------------------------------------
  // Every step is one the end-to-end machine allows
  // ---------------------------------------------------------------------------

  lemma IdleIsIdle(w: World, sink: nat)
    requires IdleExcept(w.system, sink) && At(w.system, sink).Idle?
    ensures AllIdle(w.system)
  {}

  lemma NoTextYet(w: World)
    requires WorldOk(w) && TerminalFree(w.system.log, |w.system.log|)
    requires IsLogOf(w.system.log, [])
    ensures !HasText(w.system)
  {
    NoTextIn(w.system.log);
    hide IsCurrent, LogOk, LogShape, Increasing, TextOk, Deltas, WatcherOk;
    if w.system.hot.Some? {
      var busy :| SinksAt(w.system, busy, w.cut, w.durable.status.Completed?);
      var state := w.system.hot.value.state;
      assert HotShows(w.system.log, Top(w.system.published), Held(w.system.hot));
      DeltasGrow(w.system.log, state.sequence, |w.system.log|);
      EarlierIsTerminalFree(w.system.log, state.sequence, |w.system.log|);
    }
  }

  lemma NoTextIn(log: seq<Event>)
    requires IsLogOf(log, [])
    ensures Deltas(log, |log|) == ""
  {
    if log != [] {
      assert log == [log[0]] && Deltas(log, 1) == Deltas(log, 0) + "";
    }
  }

  lemma EmitIsAllowed(c: Config, s: Handling, step: Step)
    requires StageOk(s.world, s.stage) && WorldOk(s.world) && Enabled(c, s, step)
    requires step.Lifecycle? || step.Runtime? || (step.Other? && step.other.Emit?)
    ensures CanStep(c, s.world, WorldStepOf(s, step).value)
  {
    hide WorldOk, Publisher.Enabled, Deltas, Strip;
    var w := s.world;
    match step
    case Lifecycle(emit) =>
      if emit.Allocate? {
        IdleIsIdle(w, LIFECYCLE);
      }
    case Runtime(emit) =>
      if emit.Allocate? {
        RuntimeIsIdle(c, w, emit);
      }
    case Other(_) => MayExpire(c, w.system);
  }

  lemma MayExpire(c: Config, s: System)
    ensures Publisher.Enabled(c, s, ExpireHot)
  {}

  lemma RuntimeIsIdle(c: Config, w: World, emit: Publisher.Step)
    requires IdleExcept(w.system, RUNTIME) && IsBy(emit, RUNTIME) && emit.Allocate?
    requires Publisher.Enabled(c, w.system, emit)
    ensures AllIdle(w.system)
  {}

  lemma CommitIsAllowed(c: Config, s: Handling, step: Step)
    requires StageOk(s.world, s.stage) && Unanswered(s.world.durable) && Enabled(c, s, step)
    requires step.Open? || step.Conclude? || step.AskCancel?
    ensures CanStep(c, s.world, WorldStepOf(s, step).value)
  {
    hide Deltas, Strip, OpenedRow, AskedRow, MayConclude, Publisher.Enabled, Publisher.Next, HasText, IdleExcept,
      IsLogOf;
    RowIsOpen(s, step);
    RowsAre(s.world.durable);
    if step.Conclude? {
      ConcludedRow(s, step.durable, step.event);
    }
  }

  /** A row that a transaction of the consumer or a request finds is not over. */
  lemma RowIsOpen(s: Handling, step: Step)
    requires StageOk(s.world, s.stage)
    requires (step.Open? && s.stage.Unopened?) || (step.Conclude? && MayConclude(s, step.durable, step.event))
             || (step.AskCancel? && !s.world.durable.status.IsTerminal())
    ensures !s.world.durable.status.IsTerminal()
  {
    hide Deltas, Strip, OpenedRow, Finishes, StoppedRow, BrokenRow, At, IdleExcept, HasText, IsLogOf;
  }

  lemma StepIsAllowed(c: Config, s: Handling, step: Step)
    requires StageOk(s.world, s.stage) && WorldOk(s.world) && Enabled(c, s, step)
    ensures WorldStepOf(s, step).Some? ==> CanStep(c, s.world, WorldStepOf(s, step).value)
  {
    RowIsUnanswered(s.world);
    hide WorldOk, StageOk, Enabled, WorldStepOf, CanStep;
    if step.Lifecycle? || step.Runtime? || (step.Other? && step.other.Emit?) {
      EmitIsAllowed(c, s, step);
    } else if step.Open? || step.Conclude? || step.AskCancel? {
      CommitIsAllowed(c, s, step);
    } else {
      OtherIsAllowed(c, s, step);
    }
  }

  lemma RowIsUnanswered(w: World)
    requires WorldOk(w)
    ensures Unanswered(w.durable)
  {
    hide SinksOk, TextOk, WatcherOk;
  }

  lemma OtherIsAllowed(c: Config, s: Handling, step: Step)
    requires Enabled(c, s, step)
    requires step.Proceed? || step.Return? || step.End? || (step.Other? && !step.other.Emit?)
    ensures WorldStepOf(s, step).Some? ==> CanStep(c, s.world, WorldStepOf(s, step).value)
  {
    hide CanStep;
  }

  // ---------------------------------------------------------------------------
  // The stages over a whole run
  // ---------------------------------------------------------------------------

  /** An emit of this sink, under way or not, and what its steps leave. */
  lemma AfterOwnEmit(c: Config, s: System, emit: Publisher.Step, sink: nat)
    requires IdleExcept(s, sink) && IsBy(emit, sink) && Publisher.Enabled(c, s, emit)
    ensures var next := Publisher.Next(c, s, emit);
      && IdleExcept(next, sink)
      && next.log == (if emit.Allocate? then s.log + [emit.event] else s.log)
      && (emit.Allocate? ==> At(next, sink) == Allocated(Entry(|next.log|, emit.event)))
      && (!emit.Allocate? && !At(next, sink).Idle? ==>
            !At(s, sink).Idle? && At(next, sink).entry == At(s, sink).entry)
      && (emit.Interrupt? || (At(s, sink).Idle? && !emit.Allocate?) ==> At(next, sink).Idle? && next.hot == s.hot)
  {
    assert forall k | k != sink :: At(Publisher.Next(c, s, emit), k) == At(s, k);
  }

  lemma LogStaysOpen(log: seq<Event>, event: Event)
    requires TerminalFree(log, |log|) && !event.IsTerminal()
    ensures TerminalFree(log + [event], |log + [event]|)
  {}

  lemma TextsAgreeAtEnd(log: seq<Event>, durable: Durable, event: Event)
    requires TextsAgree(log, durable) && TerminalFree(log, |log|)
    requires event.IsTerminal() && event.EndText() == durable.answer.GetOr("")
    ensures TextsAgree(log + [event], durable)
  {
    hide Strip, Deltas;
    DeltasInLonger(log, log + [event], |log|);
    SilentStep(log + [event], |log|);
  }

  lemma LogIsContinued(log: seq<Event>, emitted: seq<Event>, event: Event)
    requires IsLogOf(log, emitted)
    ensures IsLogOf(log + [event], emitted + [event])
  {}

  lemma LifecycleKeeps(c: Config, titles: Client.Titles, s: Handling, emit: Publisher.Step)
    requires StageOk(s.world, s.stage) && WorldOk(s.world) && Enabled(c, s, Lifecycle(emit))
    requires CanStep(c, s.world, Emit(emit))
    ensures var t := Next(c, titles, s, Lifecycle(emit)); StageOk(t.world, t.stage)
  {
    hide WorldOk, Publisher.Enabled, Publisher.Next, Deltas, At;
    AfterOwnEmit(c, s.world.system, emit, LIFECYCLE);
    if emit.Allocate? {
      if s.stage.Announcing? {
        LogStaysOpen(s.world.system.log, emit.event);
      } else {
        TextsAgreeAtEnd(s.world.system.log, s.world.durable, emit.event);
      }
    }
  }

  lemma RuntimeKeeps(c: Config, titles: Client.Titles, s: Handling, emit: Publisher.Step)
    requires StageOk(s.world, s.stage) && WorldOk(s.world) && Enabled(c, s, Runtime(emit))
    requires CanStep(c, s.world, Emit(emit))
    ensures var t := Next(c, titles, s, Runtime(emit)); StageOk(t.world, t.stage)
  {
    hide WorldOk, Publisher.Enabled, Publisher.Next, Deltas, At, MayTake, MayEmit;
    AfterOwnEmit(c, s.world.system, emit, RUNTIME);
    if emit.Allocate? {
      LogStaysOpen(s.world.system.log, emit.event);
      LogIsContinued(s.world.system.log, s.stage.emitted, emit.event);
    }
  }

  lemma StageWithoutHot(w: World, next: World, stage: Stage)
    requires StageOk(w, stage) && (AllIdle(w.system) || !HasText(w.system))
    requires next.system == w.system.(hot := None) && next.durable == w.durable
    requires !HasText(w.system) ==> next.cut == w.cut
    requires stage.Announcing? || stage.Unopened? ==> !HasText(w.system)
    ensures StageOk(next, stage)
  {
    assert forall k :: At(next.system, k) == At(w.system, k);
    assert !HasText(next.system);
    hide At, Deltas, HasText;
  }

  lemma ExpiryKeeps(c: Config, titles: Client.Titles, s: Handling)
    requires StageOk(s.world, s.stage) && WorldOk(s.world) && Enabled(c, s, Other(Emit(ExpireHot)))
    requires CanStep(c, s.world, Emit(ExpireHot))
    ensures var t := Next(c, titles, s, Other(Emit(ExpireHot))); StageOk(t.world, t.stage)
  {
    hide WorldOk, Deltas, CanStep, MayTake, HasText;
    var w, next := s.world, Reattach.After(c, titles, s.world, Emit(ExpireHot));
    if s.stage.Announcing? {
      NoTextYet(w);
    }
    StageWithoutHot(w, next, s.stage);
  }

  /** Observer and client leave the sinks, the log and the row alone. */
  lemma ClientStepKeepsRest(c: Config, titles: Client.Titles, w: World, step: WorldStep)
    requires CanStep(c, w, step) && !step.Emit? && !step.Commit?
    ensures var next := Reattach.After(c, titles, w, step);
      next.system == w.system && next.durable == w.durable && next.cut == w.cut
  {
    hide Client.Applied, ToClient, Client.TerminalStatus;
  }

  lemma SameStage(w: World, next: World, stage: Stage)
    requires StageOk(w, stage)
    requires next.system == w.system && next.durable == w.durable && next.cut == w.cut
    ensures StageOk(next, stage)
  {
    hide Deltas, At, IdleExcept;
  }

  lemma OpenedStageOk(w: World)
    requires StageOk(w, Unopened) && OpenedRow(w.durable).1.MarkedAsRunning?
    ensures StageOk(w.(durable := OpenedRow(w.durable).0), Announcing(false))
  {
    RowsAre(w.durable);
    AllIdleExcept(w);
    hide OpenedRow, At, IdleExcept, Deltas, HasText;
  }

  lemma AskedStageOk(w: World, stage: Stage)
    requires StageOk(w, stage) && !w.durable.status.IsTerminal()
    ensures StageOk(w.(durable := AskedRow(w.durable)), stage)
  {
    RowsAre(w.durable);
    hide AskedRow, At, IdleExcept, AllIdle, Deltas, Strip, HasText, IsLogOf;
  }

  lemma ConcludedStageOk(w: World, stage: Stage, durable: Durable, event: Event)
    requires StageOk(w, stage) && MayConclude(Handling(w, stage), durable, event)
    ensures StageOk(w.(durable := durable), Concluding(event, false))
  {
    AllIdleExcept(w);
    ConcludedRow(Handling(w, stage), durable, event);
    hide OpenedRow, Finishes, StoppedRow, BrokenRow, At, IdleExcept, Deltas, Strip, HasText, IsLogOf;
  }

  lemma CommitKeepsStage(c: Config, titles: Client.Titles, s: Handling, step: Step)
    requires StageOk(s.world, s.stage) && WorldOk(s.world) && Enabled(c, s, step)
    requires step.Open? || step.Conclude? || step.AskCancel?
    requires CanStep(c, s.world, WorldStepOf(s, step).value)
    ensures var t := Next(c, titles, s, step); StageOk(t.world, t.stage)
  {
    hide WorldOk, StageOk, Deltas, Strip, CanStep, MayConclude, OpenedRow, AskedRow;
    match step
    case Open => OpenedStageOk(s.world);
    case Conclude(durable, event) => ConcludedStageOk(s.world, s.stage, durable, event);
    case AskCancel => AskedStageOk(s.world, s.stage);
  }

  lemma AllIdleExcept(w: World)
    ensures AllIdle(w.system) ==> IdleExcept(w.system, LIFECYCLE) && At(w.system, LIFECYCLE).Idle?
  {}

  lemma StageKeeps(c: Config, titles: Client.Titles, s: Handling, step: Step)
    requires StageOk(s.world, s.stage) && WorldOk(s.world) && Enabled(c, s, step)
    requires WorldStepOf(s, step).Some? ==> CanStep(c, s.world, WorldStepOf(s, step).value)
    ensures var t := Next(c, titles, s, step); StageOk(t.world, t.stage)
  {
    hide WorldOk, Strip, Deltas, IsLogOf;
    match step
    case Lifecycle(emit) => LifecycleKeeps(c, titles, s, emit);
    case Runtime(emit) => RuntimeKeeps(c, titles, s, emit);
    case Other(other) =>
      if other.Emit? {
        ExpiryKeeps(c, titles, s);
      } else {
        ClientStepKeepsRest(c, titles, s.world, other);
        SameStage(s.world, Next(c, titles, s, step).world, s.stage);
      }
    case Open => CommitKeepsStage(c, titles, s, step);
    case Conclude(_, _) => CommitKeepsStage(c, titles, s, step);
    case AskCancel => CommitKeepsStage(c, titles, s, step);
    case Proceed => AwaitedEmitIsOver(s.world, LIFECYCLE);
    case Return(_) => ReturnKeeps(c, titles, s, step);
    case End => AwaitedEmitIsOver(s.world, RUNTIME);
  }

  lemma ReturnKeeps(c: Config, titles: Client.Titles, s: Handling, step: Step)
    requires StageOk(s.world, s.stage) && Enabled(c, s, step) && step.Return?
    ensures var t := Next(c, titles, s, step); StageOk(t.world, t.stage)
  {
    hide Strip, Deltas, ProgramRun.IsExecuted, IsLogOf, Spoken;
    AwaitedEmitIsOver(s.world, RUNTIME);
    ReturnedIsText(s.world.system.log, s.stage.emitted, step.run);
  }

  lemma {:induction false} SpokenIsText(events: seq<Event>)
    ensures Deltas(events, |events|) == Agent.Concat(Spoken(events))
  {
    if events == [] {
      Agent.NoChunks();
    } else {
      var front, last := events[..|events| - 1], events[|events| - 1];
      SpokenIsText(front);
      DeltasInLonger(front, events, |front|);
      if last.AssistantDelta? {
        Agent.NextChunk(Spoken(front), last.content);
      } else {
        assert Deltas(front, |front|) + "" == Deltas(front, |front|) && Spoken(front) + [] == Spoken(front);
      }
    }
  }

  lemma LogHasText(log: seq<Event>, emitted: seq<Event>)
    requires IsLogOf(log, emitted)
    ensures Deltas(log, |log|) == Deltas(emitted, |emitted|)
  {
    hide Deltas;
    if log != emitted {
      assert log == [log[0]] + emitted;
      RunDiscipline.DeltasBehind(log[0], emitted, log, |emitted|);
    }
  }

  /** What the program returned is the stripped text of the log. */
  lemma ReturnedIsText(log: seq<Event>, emitted: seq<Event>, run: ProgramRun)
    requires run.IsExecuted() && run.outcome.Returned?
    requires IsLogOf(log, emitted) && Spoken(emitted) == Spoken(run.trace.events)
    ensures run.outcome.answer == Strip(Deltas(log, |log|))
  {
    hide *;
    LogHasText(log, emitted);
    SpokenIsText(emitted);
    SpokenIsText(run.trace.events);
    ReturnSpeaks(run);
    RunDiscipline.RunSpeaks(run.outcome, run.before, run.trace.spoken, run.trace.events);
  }

  lemma ReturnSpeaks(run: ProgramRun)
    requires run.IsExecuted() && run.outcome.Returned?
    ensures AllQuiet(run.before) && run.trace.events == Agent.EventsOf(run.outcome, run.before, run.trace.spoken)
    ensures Strip(Agent.Concat(run.trace.spoken)) == run.outcome.answer && Agent.ReachedAnswer(run.outcome)
  {
    hide AllQuiet, Agent.EventsOf, Agent.Concat, Strip, Agent.IsTraced, Agent.TraceOk, Agent.FollowsTurns,
      Agent.NodeRaises, Agent.TotalCalls, Agent.TotalUses, Agent.AllActed, Agent.AllDistinct,
      IsBlank, Agent.LimitMessage;
  }

  lemma AwaitedEmitIsOver(w: World, sink: nat)
    ensures IdleExcept(w.system, sink) && At(w.system, sink).Idle? ==> AllIdle(w.system)
    ensures AllIdle(w.system) ==> forall k :: IdleExcept(w.system, k)
  {}

  /** The states of one handling, with everything that client and API do meanwhile. */
  ghost predicate IsHandled(c: Config, titles: Client.Titles, run: seq<Handling>, steps: seq<Step>) {
    && |run| == |steps| + 1
    && run[0] == NEW
    && forall i | 0 <= i < |steps| ::
         Enabled(c, run[i], steps[i]) && run[i + 1] == Next(c, titles, run[i], steps[i])
  }

  lemma WorldKeeps(c: Config, titles: Client.Titles, s: Handling, step: Step)
    requires StageOk(s.world, s.stage) && WorldOk(s.world) && Enabled(c, s, step)
    ensures WorldOk(Next(c, titles, s, step).world)
    ensures WorldStepOf(s, step).Some? ==> CanStep(c, s.world, WorldStepOf(s, step).value)
  {
    StepIsAllowed(c, s, step);
    var move := WorldStepOf(s, step);
    hide WorldOk, CanStep, StageOk, Enabled, WorldStepOf, Reattach.After;
    if move.Some? {
      StepKeeps(c, titles, s.world, move.value);
    }
  }

  lemma NewIsOk()
    ensures StageOk(NEW.world, NEW.stage) && WorldOk(NEW.world)
  {
    hide WorldOk;
    StartIsOk();
  }

  lemma {:induction false} HandlingIsOk(c: Config, titles: Client.Titles, run: seq<Handling>, steps: seq<Step>, i: nat)
    requires IsHandled(c, titles, run, steps) && i < |run|
    ensures StageOk(run[i].world, run[i].stage) && WorldOk(run[i].world)
  {
    hide WorldOk, StageOk, Enabled, Next;
    if i == 0 {
      NewIsOk();
    } else {
      HandlingIsOk(c, titles, run, steps, i - 1);
      WorldKeeps(c, titles, run[i - 1], steps[i - 1]);
      StageKeeps(c, titles, run[i - 1], steps[i - 1]);
    }
  }

  /**
   * What the end-to-end machine assumes about emits and commits, the consumer's order brings about: no emit starts
   * while another is under way, nothing but the end is emitted once text was lost, the completing commit finds all
   * sinks idle and all text in the log, and the completed event carries the stored answer.
   */
  lemma ConsumerKeepsTheRules(c: Config, titles: Client.Titles, run: seq<Handling>, steps: seq<Step>, i: nat)
    requires IsHandled(c, titles, run, steps) && i < |steps|
    ensures var move := WorldStepOf(run[i], steps[i]);
      if move.Some? then
        CanStep(c, run[i].world, move.value) && run[i + 1].world == Reattach.After(c, titles, run[i].world, move.value)
      else run[i + 1].world == run[i].world
  {
    hide WorldOk, StageOk, Enabled, CanStep, WorldStepOf, Reattach.After;
    HandlingIsOk(c, titles, run, steps, i);
    WorldKeeps(c, titles, run[i], steps[i]);
  }

  /** Whatever happens while a message is handled, the unfinished content is the text of the events shown. */
  lemma HandledContentIsDeltas(c: Config, titles: Client.Titles, run: seq<Handling>, steps: seq<Step>, i: nat)
    requires IsHandled(c, titles, run, steps) && i < |run|
    ensures var w := run[i].world;
      && w.shown <= |w.system.log|
      && (w.finished.None? && TerminalFree(w.system.log, w.shown) ==> w.view.content == Deltas(w.system.log, w.shown))
      && (w.finished == Some(Completed) ==>
            w.durable.status.Completed? && Some(Strip(w.view.content)) == w.durable.answer)
  {
    hide StageOk, Enabled, Next, Deltas, Strip;
    HandlingIsOk(c, titles, run, steps, i);
  }
}
