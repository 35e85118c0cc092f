/** What a client is shown of one handled message, whatever becomes of it. */
module ShownAnswer {
  import opened Text
  import opened Events
  import opened Projection
  import opened Publisher
  import opened HotText
  import opened Reattach
  import opened Consumer
  import Agent = AgentProgram
  import Client = Observation
  import ContextManager
  import Observer
  import RunDiscipline

  // ---------------------------------------------------------------------------
  // Nothing is invented
  // ---------------------------------------------------------------------------

  /** The text is one that the log's deltas begin with, or an answer stripped from them. */
  ghost predicate IsOfLog(log: seq<Event>, durable: Durable, text: string) {
    var full := Deltas(log, |log|);
    text <= full || (durable.answer == Some(Strip(full)) && Strip(text) == Strip(full))
  }

  lemma StageAgrees(w: World, stage: Stage)
    requires StageOk(w, stage)
    ensures TextsAgree(w.system.log, w.durable)
    ensures w.durable.answer.Some? ==> stage.Concluding? || stage.Over?
  {
    hide Strip, Deltas, At, IdleExcept, HasText, IsLogOf;
  }

  lemma AnswerIsOfLog(log: seq<Event>, durable: Durable)
    requires TextsAgree(log, durable)
    ensures IsOfLog(log, durable, durable.answer.GetOr(""))
  {
    hide Strip;
    StripIdempotent(Deltas(log, |log|));
  }

  lemma PrefixIsOfLog(log: seq<Event>, durable: Durable, n: nat)
    requires n <= |log|
    ensures IsOfLog(log, durable, Deltas(log, n))
  {
    hide Strip, Deltas;
    DeltasGrow(log, n, |log|);
  }

  /** Whatever a projection offers is of the log. */
  lemma HotIsOfLog(log: seq<Event>, durable: Durable, state: State)
    requires TextsAgree(log, durable) && Shows(log, state)
    ensures IsOfLog(log, durable, Candidate(state))
  {
    hide Strip, Deltas, OffersAnswer, HasCompleted;
    var n := state.sequence;
    PrefixIsOfLog(log, durable, n);
    AnswerIsOfLog(log, durable);
    if !TerminalFree(log, n) {
      assert n == |log| && TerminalFree(log, n - 1);
    }
  }

  /** So is the content behind the next event. */
  lemma NextIsOfLog(w: World)
    requires TextsAgree(w.system.log, w.durable) && w.finished.None? && w.shown < |w.system.log|
    requires TextOk(w.system.log, w.durable, w.view.content, w.shown, w.finished)
    requires IsOfLog(w.system.log, w.durable, w.view.content)
    ensures IsOfLog(w.system.log, w.durable, TextAfter(w.view.content, w.system.log[w.shown]))
  {
    hide Strip, Deltas, IsOfLog;
    var log := w.system.log;
    assert TerminalFree(log, w.shown);
    if log[w.shown].IsTerminal() {
      hide TextsAgree;
      EndIsMerged(w.view.content, log[w.shown]);
      assert log[w.shown].EndText() == w.durable.answer.GetOr("") by { EndIsAnswer(log, w.durable, w.shown); }
      AnswerIsOfLog(log, w.durable);
    } else {
      NextDelta(log, w.shown, w.view.content);
      PrefixIsOfLog(log, w.durable, w.shown + 1);
    }
  }

  lemma EndIsAnswer(log: seq<Event>, durable: Durable, n: nat)
    requires TextsAgree(log, durable) && n < |log| && log[n].IsTerminal()
    ensures log[n].EndText() == durable.answer.GetOr("")
  {}

  lemma EndIsMerged(content: string, event: Event)
    requires event.IsTerminal()
    ensures TextAfter(content, event) == content || TextAfter(content, event) == event.EndText()
  {}

  lemma OfferedIsOfLog(w: World, text: string)
    requires TextsAgree(w.system.log, w.durable) && Offers(w, text)
    requires TextOk(w.system.log, w.durable, w.view.content, w.shown, w.finished)
    requires IsOfLog(w.system.log, w.durable, w.view.content)
    ensures IsOfLog(w.system.log, w.durable, text)
  {
    var log := w.system.log;
    hide Strip, Deltas, IsOfLog, TextsAgree, TextOk, TextAfter, Shows, Candidate;
    if OffersByHot(log, text) {
      var state :| Shows(log, state) && text == Candidate(state);
      HotIsOfLog(log, w.durable, state);
    } else if w.durable.answer == Some(text) {
      AnswerIsOfLog(log, w.durable);
    } else if text != w.view.content {
      NextIsOfLog(w);
    }
  }

  /** A text of the log stays one when the log grows, or the row gets its answer. */
  lemma StaysOfLog(log: seq<Event>, longer: seq<Event>, before: Durable, after: Durable, text: string)
    requires IsOfLog(log, before, text) && log <= longer
    requires before.answer.Some? ==> after.answer == before.answer && Deltas(longer, |longer|) == Deltas(log, |log|)
    ensures IsOfLog(longer, after, text)
  {
    hide Strip, Deltas;
    DeltasInLonger(log, longer, |log|);
    DeltasGrow(longer, |log|, |longer|);
  }

  lemma EmitStaysOfLog(c: Config, titles: Client.Titles, s: Handling, step: Consumer.Step)
    requires StageOk(s.world, s.stage) && Consumer.Enabled(c, s, step) && (step.Lifecycle? || step.Runtime?)
    requires CanStep(c, s.world, Emit(step.step))
    requires IsOfLog(s.world.system.log, s.world.durable, s.world.view.content)
    ensures var w := Reattach.After(c, titles, s.world, Emit(step.step));
      IsOfLog(w.system.log, w.durable, w.view.content)
  {
    hide IsOfLog, Strip, Deltas, Publisher.Next, Publisher.Enabled, MayTake, MayEmit, LosesText, TextsAgree, At,
      IdleExcept, HasText, IsLogOf, ProgramRun.IsExecuted, TerminalFree;
    StageAgrees(s.world, s.stage);
    var log, next := s.world.system.log, Publisher.Next(c, s.world.system, step.step);
    LogInStep(c, s.world.system, step.step);
    if step.step.Allocate? && s.world.durable.answer.Some? {
      DeltasInLonger(log, next.log, |log|);
      SilentStep(next.log, |log|);
    }
    StaysOfLog(log, next.log, s.world.durable, s.world.durable, s.world.view.content);
  }

  lemma CommitStaysOfLog(c: Config, s: Handling, step: Consumer.Step)
    requires StageOk(s.world, s.stage) && Consumer.Enabled(c, s, step)
    requires step.Open? || step.Conclude? || step.AskCancel?
    requires IsOfLog(s.world.system.log, s.world.durable, s.world.view.content)
    ensures IsOfLog(s.world.system.log, WorldStepOf(s, step).value.durable, s.world.view.content)
  {
    hide IsOfLog, Strip, Deltas, TextsAgree, At, IdleExcept, HasText, IsLogOf, ProgramRun.IsExecuted;
    StageAgrees(s.world, s.stage);
    StaysOfLog(s.world.system.log, s.world.system.log, s.world.durable, WorldStepOf(s, step).value.durable,
               s.world.view.content);
  }

  lemma ClientStaysOfLog(c: Config, titles: Client.Titles, w: World, step: WorldStep)
    requires WorldOk(w) && CanStep(c, w, step) && !step.Emit? && !step.Commit?
    requires TextsAgree(w.system.log, w.durable) && IsOfLog(w.system.log, w.durable, w.view.content)
    ensures var next := Reattach.After(c, titles, w, step);
      IsOfLog(next.system.log, next.durable, next.view.content)
  {
    StepKeeps(c, titles, w, step);
    ClientStepKeepsRest(c, titles, w, step);
    hide Reattach.After, CanStep, IsOfLog, TextsAgree, SystemOk, TextOk, WatcherOk, Settled, Offers;
    OfferedIsOfLog(w, Reattach.After(c, titles, w, step).view.content);
  }

  lemma StepStaysOfLog(c: Config, titles: Client.Titles, s: Handling, step: Consumer.Step)
    requires StageOk(s.world, s.stage) && WorldOk(s.world) && Consumer.Enabled(c, s, step)
    requires IsOfLog(s.world.system.log, s.world.durable, s.world.view.content)
    ensures var w := Consumer.Next(c, titles, s, step).world;
      IsOfLog(w.system.log, w.durable, w.view.content)
  {
    hide WorldOk, StageOk, Consumer.Enabled, CanStep, IsOfLog, TextsAgree, NextStage, OpenedRow, AskedRow;
    StepIsAllowed(c, s, step);
    StageAgrees(s.world, s.stage);
    match step
    case Lifecycle(_) => EmitStaysOfLog(c, titles, s, step);
    case Runtime(_) => EmitStaysOfLog(c, titles, s, step);
    case Open => CommitStaysOfLog(c, s, step);
    case Conclude(_, _) => CommitStaysOfLog(c, s, step);
    case AskCancel => CommitStaysOfLog(c, s, step);
    case Other(other) =>
      OtherIsNoCommit(c, s, other);
      if other.Emit? {
        LogInStep(c, s.world.system, other.step);
      } else {
        ClientStaysOfLog(c, titles, s.world, other);
      }
    case Proceed =>
    case Return(_) =>
    case End =>
  }

  lemma OtherIsNoCommit(c: Config, s: Handling, other: WorldStep)
    requires Consumer.Enabled(c, s, Other(other))
    ensures !other.Commit?
    ensures other.Emit? ==> other.step.ExpireHot? && Publisher.Enabled(c, s.world.system, other.step)
  {
    hide CanStep;
  }

  lemma {:induction false} HandledIsOfLog(
      c: Config, titles: Client.Titles, run: seq<Handling>, steps: seq<Consumer.Step>, i: nat)
    requires IsHandled(c, titles, run, steps) && i < |run|
    ensures var w := run[i].world; IsOfLog(w.system.log, w.durable, w.view.content)
  {
    hide WorldOk, StageOk, Consumer.Enabled, Consumer.Next, Strip;
    if i > 0 {
      HandledIsOfLog(c, titles, run, steps, i - 1);
      HandlingIsOk(c, titles, run, steps, i - 1);
      hide IsOfLog;
      StepStaysOfLog(c, titles, run[i - 1], steps[i - 1]);
    }
  }

  /**
   * Whatever becomes of the message, completed, failed or cancelled, cut off or not: at every moment the client shows
   * a text that the emitted deltas begin with, or one that strips to the stored answer, which is stripped from them.
   */
  lemma NothingIsInvented(c: Config, titles: Client.Titles, run: seq<Handling>, steps: seq<Consumer.Step>, i: nat)
    requires IsHandled(c, titles, run, steps) && i < |run|
    ensures var w := run[i].world; var full := Deltas(w.system.log, |w.system.log|);
      w.view.content <= full || (w.durable.answer == Some(Strip(full)) && Strip(w.view.content) == Strip(full))
  {
    hide IsHandled, Strip, Deltas;
    HandledIsOfLog(c, titles, run, steps, i);
  }

  // ---------------------------------------------------------------------------
  // A completed client shows what the program returned
  // ---------------------------------------------------------------------------

  /** How one step comes to an answer: the runtime returns it, and the terminal transaction stores it. */
  lemma StepToAnswer(c: Config, titles: Client.Titles, s: Handling, step: Consumer.Step)
    requires StageOk(s.world, s.stage) && Consumer.Enabled(c, s, step)
    ensures var t := Consumer.Next(c, titles, s, step);
      && (t.stage.Answered? && t.stage != s.stage ==> step.Return? && t.stage == Answered(step.run.outcome.answer))
      && (t.world.durable.status.Completed? ==>
            || t.world.durable == s.world.durable
            || (s.stage.Answered? && t.world.durable.answer == Some(s.stage.answer)))
  {
    hide Strip, Deltas, TextsAgree, At, IdleExcept, HasText, IsLogOf, ProgramRun.IsExecuted, Reattach.After, CanStep,
      Publisher.Enabled, OpenedRow, FinishedRow, StoppedRow, BrokenRow, AskedRow, MayConclude;
    RowAfter(c, titles, s, step);
    if step.Conclude? {
      AnswerIsConcluded(s, step.durable, step.event);
    } else if step.Open? || step.AskCancel? {
      OpenIsNotCompleted(s);
    }
  }

  lemma AnswerIsConcluded(s: Handling, durable: Durable, event: Event)
    requires StageOk(s.world, s.stage) && MayConclude(s, durable, event)
    ensures durable.status.Completed? ==> s.stage.Answered? && durable.answer == Some(s.stage.answer)
  {
    hide Strip, Deltas, TextsAgree, At, IdleExcept, HasText, IsLogOf, OpenedRow, Finishes, StoppedRow, BrokenRow;
    ConcludedRow(s, durable, event);
  }

  lemma OpenIsNotCompleted(s: Handling)
    ensures !s.world.durable.status.IsTerminal() ==>
      !OpenedRow(s.world.durable).0.status.Completed? && !AskedRow(s.world.durable).status.Completed?
  {
    hide OpenedRow, AskedRow;
    if !s.world.durable.status.IsTerminal() {
      RowsAre(s.world.durable);
    }
  }

  /** Only commits change the row. */
  lemma RowAfter(c: Config, titles: Client.Titles, s: Handling, step: Consumer.Step)
    requires Consumer.Enabled(c, s, step)
    ensures var t, move := Consumer.Next(c, titles, s, step), WorldStepOf(s, step);
      t.world.durable == s.world.durable || (move.Some? && move.value.Commit? && t.world.durable == move.value.durable)
  {
    var move := WorldStepOf(s, step);
    hide Consumer.Enabled, CanStep, WorldStepOf, NextStage, Reattach.After;
    if move.Some? && CanStep(c, s.world, move.value) && !move.value.Commit? {
      RowStays(c, titles, s.world, move.value);
    } else {
      CommitSetsRow(c, titles, s.world);
    }
  }

  lemma RowStays(c: Config, titles: Client.Titles, w: World, step: WorldStep)
    requires CanStep(c, w, step) && !step.Commit?
    ensures Reattach.After(c, titles, w, step).durable == w.durable
  {
    hide CanStep, Client.Applied, ToClient, Client.TerminalStatus, Observer.Resolve, Observer.ResolveAgainst,
      Publisher.Next, Observer.TakeEvent;
  }

  lemma CommitSetsRow(c: Config, titles: Client.Titles, w: World)
    ensures forall durable | CanStep(c, w, Commit(durable)) ::
      Reattach.After(c, titles, w, Commit(durable)) == w.(durable := durable)
  {
    hide CanStep;
  }

  /** A stored answer, or one about to be stored, is what the runtime returned before. */
  lemma {:induction false} AnswerWasReturned(
      c: Config, titles: Client.Titles, run: seq<Handling>, steps: seq<Consumer.Step>, j: nat) returns (i: nat)
    requires IsHandled(c, titles, run, steps) && j < |run|
    requires run[j].stage.Answered? || run[j].world.durable.status.Completed?
    ensures i < j && steps[i].Return? && Consumer.Enabled(c, run[i], steps[i])
    ensures steps[i].run.outcome.Returned?
    ensures run[j].stage.Answered? ==> run[j].stage.answer == steps[i].run.outcome.answer
    ensures run[j].world.durable.status.Completed? ==>
      run[j].world.durable.answer == Some(steps[i].run.outcome.answer)
  {
    hide WorldOk, StageOk, Consumer.Enabled, Consumer.Next;
    assert j > 0;
    var before, step := run[j - 1], steps[j - 1];
    HandlingIsOk(c, titles, run, steps, j - 1);
    HandlingIsOk(c, titles, run, steps, j);
    StepToAnswer(c, titles, before, step);
    AnsweredIsOpen(run[j].world, run[j].stage);
    if run[j].stage.Answered? && run[j].stage != before.stage {
      ReturnedAtAll(c, before, step);
      i := j - 1;
    } else {
      AnsweredIsOpen(before.world, before.stage);
      i := AnswerWasReturned(c, titles, run, steps, j - 1);
    }
  }

  lemma AnsweredIsOpen(w: World, stage: Stage)
    requires StageOk(w, stage)
    ensures stage.Answered? ==> !w.durable.status.Completed?
  {
    hide Strip, Deltas, TextsAgree, At, IdleExcept, HasText, IsLogOf;
  }

  lemma ReturnedAtAll(c: Config, s: Handling, step: Consumer.Step)
    requires Consumer.Enabled(c, s, step) && step.Return?
    ensures step.run.outcome.Returned?
  {
    hide ProgramRun.IsExecuted;
  }

  /** A client that was told of the completion shows the answer that the agent program returned. */
  lemma CompletedShowsReturned(
      c: Config, titles: Client.Titles, run: seq<Handling>, steps: seq<Consumer.Step>, j: nat) returns (i: nat)
    requires IsHandled(c, titles, run, steps) && j < |run| && run[j].world.finished == Some(Completed)
    ensures i < j && steps[i].Return? && steps[i].run.IsExecuted() && steps[i].run.outcome.Returned?
    ensures Strip(run[j].world.view.content) == steps[i].run.outcome.answer
    ensures run[j].world.durable.answer == Some(steps[i].run.outcome.answer)
  {
    hide Strip, Deltas, StageOk, WorldOk, Consumer.Next, Consumer.Enabled, ProgramRun.IsExecuted;
    HandledContentIsDeltas(c, titles, run, steps, j);
    i := AnswerWasReturned(c, titles, run, steps, j);
    ReturnIsExecuted(c, run[i], steps[i]);
  }

  lemma ReturnIsExecuted(c: Config, s: Handling, step: Consumer.Step)
    requires Consumer.Enabled(c, s, step) && step.Return?
    ensures step.run.IsExecuted()
  {
    hide ProgramRun.IsExecuted;
  }

  // ---------------------------------------------------------------------------
  // Every run that returns can be handled
  // ---------------------------------------------------------------------------

  lemma ExtendHandled(c: Config, titles: Client.Titles, run: seq<Handling>, steps: seq<Consumer.Step>,
                      step: Consumer.Step) returns (longer: seq<Handling>, more: seq<Consumer.Step>)
    requires IsHandled(c, titles, run, steps) && Consumer.Enabled(c, run[|steps|], step)
    ensures IsHandled(c, titles, longer, more) && |longer| == |more| + 1
    ensures longer[|more|] == Consumer.Next(c, titles, run[|steps|], step)
  {
    hide Consumer.Enabled, Consumer.Next;
    longer, more := run + [Consumer.Next(c, titles, run[|steps|], step)], steps + [step];
  }

  /** A step that commits, emits or belongs to the client, as the end-to-end machine makes it. */
  lemma HandleStep(c: Config, titles: Client.Titles, run: seq<Handling>, steps: seq<Consumer.Step>,
                   step: Consumer.Step) returns (longer: seq<Handling>, more: seq<Consumer.Step>)
    requires IsHandled(c, titles, run, steps) && Consumer.Enabled(c, run[|steps|], step)
    ensures IsHandled(c, titles, longer, more) && |longer| == |more| + 1
    ensures var s, move := run[|steps|], WorldStepOf(run[|steps|], step);
      && longer[|more|].stage == NextStage(s, step)
      && (move.None? ==> longer[|more|].world == s.world)
      && (move.Some? ==>
            CanStep(c, s.world, move.value) && longer[|more|].world == Reattach.After(c, titles, s.world, move.value))
  {
    hide StageOk, WorldOk, Consumer.Enabled, CanStep, Reattach.After, WorldStepOf, NextStage;
    assert |run| == |steps| + 1;
    HandlingIsOk(c, titles, run, steps, |steps|);
    StepIsAllowed(c, run[|steps|], step);
    longer, more := ExtendHandled(c, titles, run, steps, step);
  }

  function EmitBy(sink: nat, emit: Publisher.Step): Consumer.Step {
    if sink == LIFECYCLE then Lifecycle(emit) else Runtime(emit)
  }

  /** The stage lets this sink emit. */
  predicate Emits(stage: Stage, sink: nat) {
    if sink == LIFECYCLE then stage.Announcing? || stage.Concluding? else sink == RUNTIME && stage.AtWork?
  }

  /** The stage lets this sink begin to emit this event, and goes on to the next one. */
  predicate Begins(stage: Stage, sink: nat, event: Event, next: Stage) {
    && Emits(stage, sink)
    && match stage
       case Announcing(begun) => !begun && event.ExecutionStarted? && next == Announcing(true)
       case Concluding(end, begun) => !begun && event == end && next == Concluding(end, true)
       case AtWork(emitted, broken) => !broken && !event.IsTerminal() && next == AtWork(emitted + [event], false)
       case _ => false
  }

  /** One step of an emit that nothing cuts off. */
  lemma EmitStep(c: Config, titles: Client.Titles, run: seq<Handling>, steps: seq<Consumer.Step>, sink: nat,
                 emit: Publisher.Step, next: Stage) returns (longer: seq<Handling>, more: seq<Consumer.Step>)
    requires IsHandled(c, titles, run, steps) && !run[|steps|].world.cut
    requires IsBy(emit, sink) && !emit.Interrupt? && Publisher.Enabled(c, run[|steps|].world.system, emit)
    requires var stage := run[|steps|].stage;
      if emit.Allocate? then Begins(stage, sink, emit.event, next) else Emits(stage, sink) && next == stage
    ensures IsHandled(c, titles, longer, more) && |longer| == |more| + 1
    ensures var w := run[|steps|].world;
      longer[|more|] == Handling(w.(system := Publisher.Next(c, w.system, emit)), next)
  {
    hide *;
    LengthOf(c, titles, run, steps);
    var s, step := run[|steps|], EmitBy(sink, emit);
    MayMakeStep(c, s, sink, emit, next);
    longer, more := HandleStep(c, titles, run, steps, step);
    EmitMoves(c, titles, s.world, emit, sink);
  }

  lemma MayMakeStep(c: Config, s: Handling, sink: nat, emit: Publisher.Step, next: Stage)
    requires !s.world.cut && IsBy(emit, sink) && !emit.Interrupt? && Publisher.Enabled(c, s.world.system, emit)
    requires if emit.Allocate? then Begins(s.stage, sink, emit.event, next) else Emits(s.stage, sink) && next == s.stage
    ensures var step := EmitBy(sink, emit);
      Consumer.Enabled(c, s, step) && WorldStepOf(s, step) == Some(Emit(emit)) && NextStage(s, step) == next
  {
    hide Publisher.Enabled;
  }

  lemma EmitMoves(c: Config, titles: Client.Titles, w: World, emit: Publisher.Step, sink: nat)
    requires CanStep(c, w, Emit(emit)) && !w.cut && !emit.Interrupt? && IsBy(emit, sink)
    ensures Publisher.Enabled(c, w.system, emit)
    ensures Reattach.After(c, titles, w, Emit(emit)) == w.(system := Publisher.Next(c, w.system, emit))
  {
    hide Publisher.Next, MayTake, MayEmit;
  }

  /** An emit that nothing cuts off, and between which nothing else happens. */
  lemma EmitHandled(c: Config, titles: Client.Titles, run: seq<Handling>, steps: seq<Consumer.Step>, sink: nat,
                    event: Event, next: Stage) returns (longer: seq<Handling>, more: seq<Consumer.Step>)
    requires IsHandled(c, titles, run, steps) && IsCalm(run[|steps|].world)
    requires Begins(run[|steps|].stage, sink, event, next)
    ensures IsHandled(c, titles, longer, more) && |longer| == |more| + 1
    ensures IsEmitted(c, run[|steps|].world, longer[|more|].world, event) && longer[|more|].stage == next
  {
    hide *;
    LengthOf(c, titles, run, steps);
    var w := run[|steps|].world;
    CalmIs(w);
    OwnSteps(run[|steps|].stage, sink, event, next);
    AfterAllocate(c, w.system, sink, event);
    longer, more := EmitStep(c, titles, run, steps, sink, Allocate(sink, event), next);
    AfterPublish(c, longer[|more|].world.system, sink);
    longer, more := EmitStep(c, titles, longer, more, sink, Publish(sink, 0), next);
    AfterLoadAndStore(c, longer[|more|].world.system, sink);
    longer, more := EmitStep(c, titles, longer, more, sink, Load(sink), next);
    longer, more := EmitStep(c, titles, longer, more, sink, Store(sink), next);
    AllIdleAgain(longer[|more|].world, sink);
    EmittedIs(c, w, longer[|more|].world, event);
  }

  lemma AllIdleAgain(w: World, sink: nat)
    requires At(w.system, sink).Idle? && forall k | k != sink :: At(w.system, k).Idle?
    ensures AllIdle(w.system)
  {}

  lemma LengthOf(c: Config, titles: Client.Titles, run: seq<Handling>, steps: seq<Consumer.Step>)
    requires IsHandled(c, titles, run, steps)
    ensures |run| == |steps| + 1
  {
    hide Consumer.Enabled, Consumer.Next;
  }

  lemma CalmIs(w: World)
    requires IsCalm(w)
    ensures !w.cut && AllIdle(w.system) && w.system.first == 0 && |w.system.published| == |w.system.log|
  {}

  lemma OwnSteps(stage: Stage, sink: nat, event: Event, next: Stage)
    requires Begins(stage, sink, event, next)
    ensures Emits(next, sink)
    ensures IsBy(Allocate(sink, event), sink) && IsBy(Publish(sink, 0), sink)
    ensures IsBy(Load(sink), sink) && IsBy(Store(sink), sink)
  {}

  lemma EmittedIs(c: Config, w: World, next: World, event: Event)
    requires IsCalm(w) && next == w.(system := next.system)
    requires var s, entry := w.system, Entry(|w.system.log| + 1, event);
      next.system == s.(log := s.log + [event], published := s.published + [entry],
                        hot := Some(Publisher.Stored(c, entry, s.hot)), emitters := next.system.emitters)
    requires AllIdle(next.system)
    ensures IsEmitted(c, w, next, event)
  {
    hide Publisher.Stored;
  }

  /** The runtime emits these events one by one. */
  lemma {:induction false} RuntimeEmits(
      c: Config, titles: Client.Titles, run: seq<Handling>, steps: seq<Consumer.Step>, events: seq<Event>)
    returns (longer: seq<Handling>, more: seq<Consumer.Step>)
    requires IsHandled(c, titles, run, steps) && IsCalm(run[|steps|].world) && run[|steps|].stage == AtWork([], false)
    requires forall event <- events :: !event.IsTerminal()
    ensures IsHandled(c, titles, longer, more) && |longer| == |more| + 1
    ensures IsCalm(longer[|more|].world) && longer[|more|].stage == AtWork(events, false)
    ensures longer[|more|].world == run[|steps|].world.(system := longer[|more|].world.system)
    decreases |events|
  {
    hide *;
    LengthOf(c, titles, run, steps);
    if events == [] {
      longer, more := run, steps;
    } else {
      var front, last := events[..|events| - 1], events[|events| - 1];
      longer, more := RuntimeEmits(c, titles, run, steps, front);
      var w := longer[|more|].world;
      RuntimeBegins(events);
      longer, more := EmitHandled(c, titles, longer, more, RUNTIME, last, AtWork(events, false));
      EmitKeepsRest(c, w, longer[|more|].world, last);
    }
  }

  lemma RuntimeBegins(events: seq<Event>)
    requires events != [] && !events[|events| - 1].IsTerminal()
    ensures Begins(AtWork(events[..|events| - 1], false), RUNTIME, events[|events| - 1], AtWork(events, false))
  {
    assert events[..|events| - 1] + [events[|events| - 1]] == events;
  }

  /** A lifecycle event is emitted, and the consumer goes on. */
  lemma LifecycleEmits(c: Config, titles: Client.Titles, run: seq<Handling>, steps: seq<Consumer.Step>, event: Event,
                       begun: Stage, next: Stage) returns (longer: seq<Handling>, more: seq<Consumer.Step>)
    requires IsHandled(c, titles, run, steps) && IsCalm(run[|steps|].world)
    requires Begins(run[|steps|].stage, LIFECYCLE, event, begun)
    requires next == if begun.Announcing? then AtWork([], false) else Over
    ensures IsHandled(c, titles, longer, more) && |longer| == |more| + 1
    ensures IsEmitted(c, run[|steps|].world, longer[|more|].world, event) && longer[|more|].stage == next
  {
    hide *;
    LengthOf(c, titles, run, steps);
    LifecycleBegins(run[|steps|].stage, event, begun);
    longer, more := EmitHandled(c, titles, run, steps, LIFECYCLE, event, begun);
    EmitKeepsRest(c, run[|steps|].world, longer[|more|].world, event);
    MayProceed(c, longer[|more|], begun, next);
    longer, more := HandleStep(c, titles, longer, more, Proceed);
  }

  lemma LifecycleBegins(stage: Stage, event: Event, begun: Stage)
    requires Begins(stage, LIFECYCLE, event, begun)
    ensures begun.Announcing? || begun.Concluding?
  {}

  lemma MayProceed(c: Config, s: Handling, stage: Stage, next: Stage)
    requires s.stage == stage && (stage.Announcing? || stage.Concluding?) && IsCalm(s.world)
    requires next == if stage.Announcing? then AtWork([], false) else Over
    ensures Consumer.Enabled(c, s, Proceed) && WorldStepOf(s, Proceed).None? && NextStage(s, Proceed) == next
  {
    CalmMayTake(s.world);
  }

  /** The message is taken up, and the runtime starts. */
  lemma RuntimeStarts(c: Config, titles: Client.Titles) returns (run: seq<Handling>, steps: seq<Consumer.Step>)
    ensures IsHandled(c, titles, run, steps) && |run| == |steps| + 1
    ensures var s := run[|steps|];
      && s.stage == AtWork([], false) && IsCalm(s.world) && s.world.durable == NOTHING_DURABLE.(status := Running)
      && s.world.watcher.Off? && s.world.finished.None?
  {
    hide *;
    run, steps := [NEW], [];
    NewMayOpen(c, titles);
    run, steps := HandleStep(c, titles, run, steps, Open);
    CommitSetsRow(c, titles, START);
    var w := run[|steps|].world;
    run, steps := LifecycleEmits(c, titles, run, steps, ExecutionStarted(None), Announcing(true), AtWork([], false));
    EmitKeepsRest(c, w, run[|steps|].world, ExecutionStarted(None));
  }

  lemma NewMayOpen(c: Config, titles: Client.Titles)
    ensures IsHandled(c, titles, [NEW], [])
    ensures Consumer.Enabled(c, NEW, Open) && NextStage(NEW, Open) == Announcing(false)
    ensures var w := START.(durable := NOTHING_DURABLE.(status := Running));
      WorldStepOf(NEW, Open) == Some(Commit(w.durable)) && IsCalm(w) && w.watcher.Off? && w.finished.None?
    ensures NEW.world == START
    ensures Begins(Announcing(false), LIFECYCLE, ExecutionStarted(None), Announcing(true))
  {
    hide OpenedRow, AskedRow, MayConclude, Consumer.Next;
    RowsAre(NOTHING_DURABLE);
    assert IsCalm(START);
    CalmStays(START, START.(durable := NOTHING_DURABLE.(status := Running)));
  }

  /** The step that leaves the runtime with this run. */
  lemma ReturnIsHandled(c: Config, titles: Client.Titles, run: seq<Handling>, steps: seq<Consumer.Step>,
                        made: ProgramRun) returns (longer: seq<Handling>, more: seq<Consumer.Step>)
    requires IsHandled(c, titles, run, steps) && IsCalm(run[|steps|].world)
    requires made.IsExecuted() && made.outcome.Returned? && run[|steps|].stage == AtWork(made.trace.events, false)
    ensures IsHandled(c, titles, longer, more) && |longer| == |more| + 1
    ensures longer[|more|] == Handling(run[|steps|].world, Answered(made.outcome.answer))
  {
    hide *;
    LengthOf(c, titles, run, steps);
    MayReturn(c, run[|steps|], made);
    longer, more := HandleStep(c, titles, run, steps, Return(made));
  }

  lemma MayReturn(c: Config, s: Handling, made: ProgramRun)
    requires IsCalm(s.world) && made.IsExecuted() && made.outcome.Returned?
    requires s.stage == AtWork(made.trace.events, false)
    ensures Consumer.Enabled(c, s, Return(made)) && WorldStepOf(s, Return(made)).None?
    ensures NextStage(s, Return(made)) == Answered(made.outcome.answer)
  {
    hide ProgramRun.IsExecuted, Spoken;
  }

  /** The transaction that completes the row. */
  lemma AnswerIsStored(c: Config, titles: Client.Titles, run: seq<Handling>, steps: seq<Consumer.Step>,
                       answer: string, row: Durable)
    returns (longer: seq<Handling>, more: seq<Consumer.Step>)
    requires IsHandled(c, titles, run, steps) && run[|steps|].stage == Answered(answer)
    requires run[|steps|].world.durable.status.Running?
    requires row == run[|steps|].world.durable.(status := Completed, answer := Some(answer))
    ensures IsHandled(c, titles, longer, more) && |longer| == |more| + 1
    ensures longer[|more|] == Handling(run[|steps|].world.(durable := row),
                                       Concluding(ExecutionCompleted(answer, row.result), false))
  {
    hide *;
    LengthOf(c, titles, run, steps);
    MayStore(c, run[|steps|], answer, row);
    longer, more := HandleStep(c, titles, run, steps, Conclude(row, ExecutionCompleted(answer, row.result)));
    CommitSetsRow(c, titles, run[|steps|].world);
  }

  lemma MayStore(c: Config, s: Handling, answer: string, row: Durable)
    requires s.stage == Answered(answer) && s.world.durable.status.Running?
    requires row == s.world.durable.(status := Completed, answer := Some(answer))
    ensures var end := ExecutionCompleted(answer, row.result);
      && Consumer.Enabled(c, s, Conclude(row, end)) && WorldStepOf(s, Conclude(row, end)) == Some(Commit(row))
      && NextStage(s, Conclude(row, end)) == Concluding(end, false)
  {
    hide MayConclude, OpenedRow, AskedRow;
    ReturnedRow(s, answer, row);
  }

  lemma ReturnedRow(s: Handling, answer: string, row: Durable)
    requires s.stage == Answered(answer) && s.world.durable.status.Running?
    requires row == s.world.durable.(status := Completed, answer := Some(answer))
    ensures MayConclude(s, row, ExecutionCompleted(answer, row.result))
  {
    hide FinishedRow;
    RowsAre(s.world.durable);
    assert Finishes(s.world.durable, answer, row.result, row, ExecutionCompleted(answer, row.result));
  }

  /** What was returned is stored. */
  lemma ReturnIsStored(c: Config, titles: Client.Titles, run: seq<Handling>, steps: seq<Consumer.Step>,
                       made: ProgramRun, row: Durable) returns (longer: seq<Handling>, more: seq<Consumer.Step>)
    requires IsHandled(c, titles, run, steps) && IsCalm(run[|steps|].world)
    requires made.IsExecuted() && made.outcome.Returned? && run[|steps|].stage == AtWork(made.trace.events, false)
    requires run[|steps|].world.durable.status.Running?
    requires row == run[|steps|].world.durable.(status := Completed, answer := Some(made.outcome.answer))
    ensures IsHandled(c, titles, longer, more) && |longer| == |more| + 1 && IsCalm(longer[|more|].world)
    ensures longer[|more|] == Handling(run[|steps|].world.(durable := row),
                                       Concluding(ExecutionCompleted(made.outcome.answer, row.result), false))
  {
    hide *;
    LengthOf(c, titles, run, steps);
    var w := run[|steps|].world;
    longer, more := ReturnIsHandled(c, titles, run, steps, made);
    longer, more := AnswerIsStored(c, titles, longer, more, made.outcome.answer, row);
    CalmStays(w, longer[|more|].world);
  }

  /** The end is emitted. */
  lemma EndIsEmitted(c: Config, titles: Client.Titles, run: seq<Handling>, steps: seq<Consumer.Step>, end: Event)
    returns (longer: seq<Handling>, more: seq<Consumer.Step>)
    requires IsHandled(c, titles, run, steps) && IsCalm(run[|steps|].world)
    requires run[|steps|].stage == Concluding(end, false)
    ensures IsHandled(c, titles, longer, more) && |longer| == |more| + 1 && longer[|more|].stage == Over
    ensures longer[|more|].world == run[|steps|].world.(system := longer[|more|].world.system)
  {
    hide *;
    LengthOf(c, titles, run, steps);
    var w := run[|steps|].world;
    EndBegins(end);
    longer, more := LifecycleEmits(c, titles, run, steps, end, Concluding(end, true), Over);
    EmitKeepsRest(c, w, longer[|more|].world, end);
  }

  lemma EndBegins(end: Event)
    ensures Begins(Concluding(end, false), LIFECYCLE, end, Concluding(end, true))
  {}

  lemma EmitKeepsRest(c: Config, w: World, next: World, event: Event)
    requires IsEmitted(c, w, next, event)
    ensures next == w.(system := next.system) && IsCalm(next)
  {}

  lemma CalmStays(w: World, next: World)
    requires IsCalm(w) && next.system == w.system && next.cut == w.cut
    ensures IsCalm(next)
  {}

  /** A client that reads the stored row is told of the completion. */
  lemma ClientIsTold(c: Config, titles: Client.Titles, run: seq<Handling>, steps: seq<Consumer.Step>)
    returns (longer: seq<Handling>, more: seq<Consumer.Step>)
    requires IsHandled(c, titles, run, steps)
    requires var w := run[|steps|].world; w.watcher.Off? && w.finished.None? && w.durable.status.Completed?
    ensures IsHandled(c, titles, longer, more) && |longer| == |more| + 1
    ensures longer[|more|].stage == run[|steps|].stage && longer[|more|].world.finished == Some(Completed)
    ensures longer[|more|].world.durable == run[|steps|].world.durable
  {
    hide *;
    LengthOf(c, titles, run, steps);
    ReadsRow(c, titles, run[|steps|]);
    longer, more := HandleStep(c, titles, run, steps, Other(Refresh));
    ShowsRow(c, titles, longer[|more|]);
    longer, more := HandleStep(c, titles, longer, more, Other(RefreshHot(false)));
  }

  lemma ReadsRow(c: Config, titles: Client.Titles, s: Handling)
    requires s.world.watcher.Off? && s.world.finished.None?
    ensures Consumer.Enabled(c, s, Other(Refresh)) && WorldStepOf(s, Other(Refresh)) == Some(Refresh)
    ensures NextStage(s, Other(Refresh)) == s.stage
    ensures CanStep(c, s.world, Refresh)
    ensures Reattach.After(c, titles, s.world, Refresh) == s.world.(watcher := Refreshing(s.world.durable))
  {}

  lemma ShowsRow(c: Config, titles: Client.Titles, s: Handling)
    requires s.world.watcher == Refreshing(s.world.durable) && s.world.durable.status.Completed?
    ensures var step := RefreshHot(false);
      && Consumer.Enabled(c, s, Other(step)) && WorldStepOf(s, Other(step)) == Some(step)
      && NextStage(s, Other(step)) == s.stage && CanStep(c, s.world, step)
      && Reattach.After(c, titles, s.world, step).finished == Some(Completed)
      && Reattach.After(c, titles, s.world, step).durable == s.world.durable
  {
    hide Client.AppliedDurable;
  }

  /**
   * Whatever run of the agent program returns, there is a handling in which it is the one that the runtime makes, and
   * in which its answer is stored and a client ends up showing it.
   */
  lemma EveryReturnCanBeShown(c: Config, titles: Client.Titles, made: ProgramRun)
    returns (run: seq<Handling>, steps: seq<Consumer.Step>)
    requires made.IsExecuted() && made.outcome.Returned?
    ensures IsHandled(c, titles, run, steps) && |run| == |steps| + 1
    ensures var s := run[|steps|];
      && s.stage == Over && s.world.durable.status.Completed?
      && s.world.durable.answer == Some(made.outcome.answer)
      && s.world.finished == Some(Completed) && Strip(s.world.view.content) == made.outcome.answer
  {
    hide *;
    run, steps := RuntimeStarts(c, titles);
    ReturnedIsOpen(made);
    run, steps := RuntimeEmits(c, titles, run, steps, made.trace.events);
    var row := NOTHING_DURABLE.(status := Completed, answer := Some(made.outcome.answer));
    run, steps := ReturnIsStored(c, titles, run, steps, made, row);
    run, steps := EndIsEmitted(c, titles, run, steps, ExecutionCompleted(made.outcome.answer, row.result));
    run, steps := ClientIsTold(c, titles, run, steps);
    var i := CompletedShowsReturned(c, titles, run, steps, |steps|);
  }

  lemma ReturnedIsOpen(run: ProgramRun)
    requires run.IsExecuted() && run.outcome.Returned?
    ensures forall event <- run.trace.events :: !event.IsTerminal()
  {
    hide *;
    ReturnSpeaks(run);
    RunDiscipline.RunSpeaks(run.outcome, run.before, run.trace.spoken, run.trace.events);
  }

  /** A concrete one: the model answers at once, and the client ends up showing what was streamed. */
  lemma AQuestionIsAnswered(c: Config, titles: Client.Titles)
    returns (run: seq<Handling>, steps: seq<Consumer.Step>)
    ensures IsHandled(c, titles, run, steps) && |run| == |steps| + 1
    ensures var s := run[|steps|];
      && s.stage == Over && s.world.durable.status.Completed? && s.world.durable.answer == Some("Done.")
      && s.world.finished == Some(Completed) && Strip(s.world.view.content) == "Done."
  {
    hide Strip, IsHandled, Agent.IsRunOf;
    var program := Agent.Program({}, ContextManager.Budget(messages => 0, 0), 1, 1, "Question");
    var loaded := Agent.Loaded("Prompt", None);
    var turn := Agent.Turn(None, None, Some(Agent.Response("", [])), [], [], true);
    Agent.NothingRan(program.maxParallel);
    StripFixed("Done.");
    var outcome, trace, before := Agent.AnswersAtOnce(program, loaded, turn, "Done.");
    var stream := Agent.Stream(["Done."], false);
    run, steps :=
      EveryReturnCanBeShown(c, titles, ProgramRun(program, Some(loaded), [turn], stream, true, outcome, trace, before));
  }
}
