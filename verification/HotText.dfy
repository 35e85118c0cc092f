/** What the hot projection shows when emits may be cut off and the hot key may expire. */
module HotText {
  import opened Text
  import opened Events
  import opened Projection
  import opened Publisher

  // ---------------------------------------------------------------------------
  // Texts of growing logs
  // ---------------------------------------------------------------------------

  predicate TerminalFree(log: seq<Event>, n: nat)
    requires n <= |log|
  {
    forall i | 0 <= i < n :: !log[i].IsTerminal()
  }

  predicate HasCompleted(log: seq<Event>, n: nat)
    requires n <= |log|
  {
    exists i :: 0 <= i < n && log[i].ExecutionCompleted?
  }

  lemma {:induction false} DeltasInLonger(log: seq<Event>, longer: seq<Event>, n: nat)
    requires n <= |log| && log <= longer
    ensures Deltas(longer, n) == Deltas(log, n)
  {
    if n > 0 {
      DeltasInLonger(log, longer, n - 1);
      assert longer[n - 1] == log[n - 1];
    }
  }

  lemma {:induction false} DeltasGrow(log: seq<Event>, m: nat, n: nat)
    requires m <= n <= |log|
    ensures Deltas(log, m) <= Deltas(log, n)
  {
    if m < n {
      DeltasGrow(log, m, n - 1);
    }
  }

  lemma SilentStep(log: seq<Event>, n: nat)
    requires n < |log| && log[n].Delta() == ""
    ensures Deltas(log, n + 1) == Deltas(log, n)
  {
    assert Deltas(log, n) + "" == Deltas(log, n);
  }

  // ---------------------------------------------------------------------------
  // What a projection shows
  // ---------------------------------------------------------------------------

  /** The completed event comes with the completed row, behind a log without terminal events, and is the last one. */
  predicate LogShape(log: seq<Event>, completed: bool) {
    forall i | 0 <= i < |log| && log[i].ExecutionCompleted? :: completed && i == |log| - 1 && TerminalFree(log, i)
  }

  /** The text a state frame offers. */
  function Candidate(state: State): string {
    if state.partialAnswer != "" then state.partialAnswer else state.answer.GetOr("")
  }

  /** At the completion, the answer; if that is empty, the text it was stripped from will do. */
  predicate OffersAnswer(log: seq<Event>, state: State, n: nat)
    requires 0 < n <= |log| && log[n - 1].ExecutionCompleted?
  {
    if log[n - 1].answer != "" then Candidate(state) == log[n - 1].answer
    else Candidate(state) == "" || Candidate(state) == Deltas(log, n)
  }

  /** Whatever was skipped on the way, the projection shows the text, and the end, of its sequence. */
  ghost predicate Shows(log: seq<Event>, state: State) {
    var n := state.sequence;
    && n <= |log|
    && (TerminalFree(log, n) ==>
          state.partialAnswer == Deltas(log, n) && state.answer.None? && !state.status.IsTerminal())
    && (state.status.Completed? <==> HasCompleted(log, n))
    && (n > 0 && log[n - 1].ExecutionCompleted? ==> OffersAnswer(log, state, n))
    && (n > 0 && log[n - 1].IsTerminal() && TerminalFree(log, n - 1) ==>
          Candidate(state) <= Deltas(log, n) || Candidate(state) == log[n - 1].EndText())
  }

  lemma ShowsInLonger(log: seq<Event>, longer: seq<Event>, state: State)
    requires Shows(log, state) && log <= longer
    ensures Shows(longer, state)
  {
    DeltasInLonger(log, longer, state.sequence);
    assert forall i | 0 <= i < state.sequence :: longer[i] == log[i];
  }

  /** The text of a projection that may be missing. */
  function TextAt(log: seq<Event>, base: Option<State>): string
    requires base.Some? ==> base.value.sequence <= |log|
  {
    if base.None? then "" else Deltas(log, base.value.sequence)
  }

  /** Reducing the event behind the first `n` over this projection misses no text that will be shown. */
  ghost predicate MayReduce(log: seq<Event>, base: Option<State>, n: nat) {
    && n < |log|
    && (base.Some? ==> base.value.sequence <= n && Shows(log, base.value))
    && (TerminalFree(log, n) && (!log[n].IsTerminal() || (log[n].ExecutionCompleted? && base.Some?)) ==>
          TextAt(log, base) == Deltas(log, n))
  }

  lemma EarlierIsTerminalFree(log: seq<Event>, m: nat, n: nat)
    requires m <= n <= |log| && TerminalFree(log, n)
    ensures TerminalFree(log, m)
  {}

  lemma CompletedIsLast(log: seq<Event>, completed: bool, n: nat)
    requires n < |log| && LogShape(log, completed)
    ensures !HasCompleted(log, n)
    ensures HasCompleted(log, n + 1) <==> log[n].ExecutionCompleted?
    ensures log[n].ExecutionCompleted? ==> TerminalFree(log, n)
  {}

  lemma ReducedShows(log: seq<Event>, completed: bool, base: Option<State>, n: nat, maxActivities: nat)
    requires LogShape(log, completed) && MayReduce(log, base, n)
    ensures var next := Reduce(base.GetOr(Initial()), Entry(n + 1, log[n]), maxActivities);
      next.sequence == n + 1 && Shows(log, next)
  {
    hide Reduce, Deltas, HasCompleted, LogShape, Candidate;
    var state, event := base.GetOr(Initial()), log[n];
    var next := Reduce(state, Entry(n + 1, event), maxActivities);
    FoldOfNothing(log, maxActivities);
    InitialIsOpen();
    ReduceByField(state, Entry(n + 1, event), maxActivities);
    ReduceRest(state, Entry(n + 1, event), maxActivities);
    CompletedIsLast(log, completed, n);
    NotCompletedYet(log, completed, base, n);
    if TerminalFree(log, n) {
      if base.Some? {
        EarlierIsTerminalFree(log, base.value.sequence, n);
      }
      if event.IsTerminal() {
        SilentStep(log, n);
        DeltasGrow(log, if base.Some? then base.value.sequence else 0, n);
        EndIsOffered(state, next, event);
      } else {
        NextTextIsLonger(state.partialAnswer, event);
        DeltasStep(log, n + 1);
      }
    }
  }

  /** What a projection offers at the end is what it offered before, or what the end brings along. */
  lemma EndIsOffered(state: State, next: State, event: Event)
    requires event.IsTerminal() && state.answer.None?
    requires next.answer == if event.ExecutionCompleted? then Some(event.answer) else state.answer
    requires next.partialAnswer == match event
      case ExecutionCompleted(answer, _) => if answer != "" then answer else state.partialAnswer
      case ExecutionCancelled(partial) => partial.GetOr(state.partialAnswer)
      case _ => state.partialAnswer
    ensures Candidate(next) == state.partialAnswer || Candidate(next) == event.EndText()
    ensures event.ExecutionCompleted? && event.answer != "" ==> Candidate(next) == event.answer
    ensures event.ExecutionCompleted? && event.answer == "" ==> Candidate(next) == state.partialAnswer
  {}

  lemma InitialIsOpen()
    ensures Initial().status.Pending? && Initial().answer.None?
  {}

  lemma NotCompletedYet(log: seq<Event>, completed: bool, base: Option<State>, n: nat)
    requires n < |log| && LogShape(log, completed)
    requires base.Some? ==> base.value.sequence <= n && Shows(log, base.value)
    ensures base.Some? ==> !base.value.status.Completed?
  {
    if base.Some? {
      CompletedIsLast(log, completed, base.value.sequence);
    }
  }

  /** Continuing a projection by the log shows what the log says. */
  lemma {:induction false} ReplayedShows(log: seq<Event>, completed: bool, state: State, high: nat, maxActivities: nat)
    requires LogShape(log, completed) && Shows(log, state) && state.sequence <= high <= |log|
    ensures var next := Replay(state, Numbered(log, state.sequence, high), maxActivities);
      next.sequence == high && Shows(log, next)
    decreases high
  {
    hide Reduce, Replay, Shows, LogShape, MayReduce;
    var low := state.sequence;
    if low == high {
      ReplayNothing(state, maxActivities);
      assert Numbered(log, low, high) == [];
    } else {
      ReplayedShows(log, completed, state, high - 1, maxActivities);
      var before := Replay(state, Numbered(log, low, high - 1), maxActivities);
      NumberedStep(log, low, high);
      ReplayOne(state, Numbered(log, low, high - 1), Entry(high, log[high - 1]), maxActivities);
      MayReduceNext(log, before);
      ReducedShows(log, completed, Some(before), high - 1, maxActivities);
    }
  }

  lemma ReplayNothing(state: State, maxActivities: nat)
    ensures Replay(state, [], maxActivities) == state
  {}

  lemma MayReduceNext(log: seq<Event>, state: State)
    requires Shows(log, state) && state.sequence < |log|
    ensures MayReduce(log, Some(state), state.sequence)
  {
    hide Shows;
  }

  lemma NumberedStep(log: seq<Event>, low: nat, high: nat)
    requires low < high <= |log|
    ensures Numbered(log, low, high) == Numbered(log, low, high - 1) + [Entry(high, log[high - 1])]
  {}

  // ---------------------------------------------------------------------------
  // The sinks
  // ---------------------------------------------------------------------------

  function Held(hot: Option<Hot>): Option<State> {
    if hot.None? then None else Some(hot.value.state)
  }

  /** The highest sequence that reached the stream. */
  function Top(published: seq<Entry>): nat {
    if published == [] then 0 else published[|published| - 1].sequence
  }

  ghost predicate HotShows(log: seq<Event>, top: nat, hot: Option<State>) {
    hot.Some? ==> 0 < hot.value.sequence <= top && Shows(log, hot.value)
  }

  /** Unless text was lost, the projection has all text up to `m`; once the row is completed, if it is there at all. */
  predicate IsCurrent(log: seq<Event>, hot: Option<State>, m: nat, cut: bool, completed: bool)
    requires m <= |log|
  {
    && (hot.Some? ==> hot.value.sequence <= m)
    && (TerminalFree(log, m) && (!cut || (completed && hot.Some?)) ==> TextAt(log, hot) == Deltas(log, m))
  }

  /** The emit under way: once text was lost, or the row is completed, only the end is still emitted. */
  ghost predicate InFlight(s: System, entry: Entry, cut: bool, completed: bool) {
    && EntryIsLast(s, entry)
    && IsCurrent(s.log, Held(s.hot), |s.log| - 1, cut, completed)
    && (cut ==> entry.event.IsTerminal())
    && (completed ==> entry.event.ExecutionCompleted?)
  }

  ghost predicate SinksAt(s: System, sink: nat, cut: bool, completed: bool) {
    && IdleExcept(s, sink)
    && LogShape(s.log, completed)
    && AllGenuine(s.log, s.published) && Increasing(s.published)
    && HotShows(s.log, Top(s.published), Held(s.hot))
    && match At(s, sink)
       case Idle => IsCurrent(s.log, Held(s.hot), |s.log|, cut, completed)
       case Allocated(entry) => InFlight(s, entry, cut, completed) && Top(s.published) < |s.log|
       case Published(entry) => InFlight(s, entry, cut, completed) && Top(s.published) == |s.log|
       case Loaded(entry, base) =>
         && InFlight(s, entry, cut, completed) && Top(s.published) == |s.log|
         && HotShows(s.log, Top(s.published), Held(base))
         && IsCurrent(s.log, Held(base), |s.log| - 1, cut, completed)
  }

  ghost predicate SinksOk(s: System, cut: bool, completed: bool) {
    exists sink :: SinksAt(s, sink, cut, completed)
  }

  /**
   * No emit starts while another is under way. Once text was lost only the end is emitted; the completed event
   * follows the completed row, and nothing else does. The hot key expires between emits, or before it has text.
   */
  ghost predicate MayTake(s: System, step: Step, cut: bool, completed: bool) {
    match step
    case Allocate(_, event) =>
      && (forall k :: At(s, k).Idle?)
      && (cut ==> event.IsTerminal())
      && (completed <==> event.ExecutionCompleted?)
      && (completed ==> TerminalFree(s.log, |s.log|))
    case ExpireHot => (forall k :: At(s, k).Idle?) || !HasText(s)
    case _ => true
  }

  predicate HasText(s: System) {
    s.hot.Some? && s.hot.value.state.partialAnswer != ""
  }

  /** The step loses text: it cuts the emit of a delta off, or lets a projection with text expire. */
  predicate LosesText(s: System, step: Step) {
    match step
    case Interrupt(sink) => !At(s, sink).Idle? && At(s, sink).entry.event.Delta() != ""
    case ExpireHot => HasText(s)
    case _ => false
  }

  lemma CurrentInLonger(log: seq<Event>, longer: seq<Event>, hot: Option<State>, m: nat, cut: bool, completed: bool)
    requires m <= |log| <= |longer| && log <= longer && IsCurrent(log, hot, m, cut, completed)
    ensures IsCurrent(longer, hot, m, cut, completed)
  {
    hide Deltas;
    DeltasInLonger(log, longer, m);
    if hot.Some? {
      DeltasInLonger(log, longer, hot.value.sequence);
    }
    assert forall i | 0 <= i < m :: longer[i] == log[i];
  }

  lemma ShapeInLonger(log: seq<Event>, event: Event, completed: bool)
    requires LogShape(log, completed)
    requires completed <==> event.ExecutionCompleted?
    requires completed ==> TerminalFree(log, |log|)
    ensures LogShape(log + [event], completed)
  {
    var longer := log + [event];
    assert forall i | 0 <= i < |log| :: longer[i] == log[i];
    if completed {
      assert forall i | 0 <= i < |log| :: !longer[i].ExecutionCompleted?;
    }
  }

  lemma HotShowsInLonger(log: seq<Event>, longer: seq<Event>, top: nat, hot: Option<State>)
    requires HotShows(log, top, hot) && log <= longer
    ensures HotShows(longer, top, hot)
  {
    hide Shows;
    if hot.Some? {
      ShowsInLonger(log, longer, hot.value);
    }
  }

  lemma SinksAfterAllocate(c: Config, s: System, sink: nat, event: Event, cut: bool, completed: bool)
    requires SinksOk(s, cut, completed) && MayTake(s, Allocate(sink, event), cut, completed)
    ensures SinksAt(Next(c, s, Allocate(sink, event)), sink, cut, completed)
  {
    hide LogShape, HotShows, IsCurrent, Increasing;
    var busy :| SinksAt(s, busy, cut, completed);
    var next := Next(c, s, Allocate(sink, event));
    ShapeInLonger(s.log, event, completed);
    HotShowsInLonger(s.log, next.log, Top(s.published), Held(s.hot));
    CurrentInLonger(s.log, next.log, Held(s.hot), |s.log|, cut, completed);
    assert At(next, sink) == Allocated(Entry(|next.log|, event)) && EntryIsLast(next, At(next, sink).entry);
    assert forall k | k != sink :: At(next, k) == At(s, k);
  }

  lemma SinksAfterPublish(c: Config, s: System, sink: nat, trimmed: nat, cut: bool, completed: bool)
    requires SinksAt(s, sink, cut, completed) && Enabled(c, s, Publish(sink, trimmed))
    ensures SinksAt(Next(c, s, Publish(sink, trimmed)), sink, cut, completed)
  {
    hide LogShape, IsCurrent, Shows;
    var entry, next := At(s, sink).entry, Next(c, s, Publish(sink, trimmed));
    assert forall k | k != sink :: At(next, k) == At(s, k);
    assert At(next, sink) == Published(entry);
    TopIsHighest(s.published);
  }

  lemma TopIsHighest(published: seq<Entry>)
    requires Increasing(published)
    ensures forall i | 0 <= i < |published| :: published[i].sequence <= Top(published)
  {}

  lemma StoredShows(c: Config, s: System, sink: nat, cut: bool, completed: bool)
    requires SinksAt(s, sink, cut, completed) && At(s, sink).Loaded?
    ensures var state := Stored(c, At(s, sink).entry, At(s, sink).base).state;
      state.sequence == |s.log| && Shows(s.log, state)
  {
    hide Shows, Reduce, Initial, Deltas, Increasing;
    var Loaded(entry, base) := At(s, sink);
    var n := |s.log| - 1;
    assert Held(base).GetOr(Initial()) == base.GetOr(Hot(Initial(), [])).state;
    assert MayReduce(s.log, Held(base), n);
    ReducedShows(s.log, completed, Held(base), n, c.maxActivities);
  }

  lemma SinksAfterStore(c: Config, s: System, sink: nat, cut: bool, completed: bool)
    requires SinksAt(s, sink, cut, completed) && At(s, sink).Loaded?
    ensures SinksAt(Next(c, s, Store(sink)), sink, cut, completed)
  {
    StoredShows(c, s, sink, cut, completed);
    hide LogShape, Shows, Stored, Increasing;
    var next := Next(c, s, Store(sink));
    assert forall k | k != sink :: At(next, k) == At(s, k);
    assert At(next, sink) == Idle;
  }

  /** A cut-off emit of an event without text leaves a projection that still has all text. */
  lemma SinksAfterInterrupt(c: Config, s: System, sink: nat, cut: bool, completed: bool)
    requires SinksOk(s, cut, completed)
    ensures SinksOk(Next(c, s, Interrupt(sink)), cut || LosesText(s, Interrupt(sink)), completed)
  {
    hide LogShape, HotShows, Increasing, Deltas;
    var busy :| SinksAt(s, busy, cut, completed);
    var next := Next(c, s, Interrupt(sink));
    assert forall k :: At(next, k) == if k == sink then Idle else At(s, k);
    if sink == busy && !At(s, sink).Idle? && At(s, sink).entry.event.Delta() == "" {
      SilentStep(s.log, |s.log| - 1);
    }
    assert SinksAt(next, busy, cut || LosesText(s, Interrupt(sink)), completed);
  }

  lemma SinksAfterExpire(c: Config, s: System, cut: bool, completed: bool)
    requires SinksOk(s, cut, completed) && MayTake(s, ExpireHot, cut, completed)
    ensures SinksOk(Next(c, s, ExpireHot), cut || LosesText(s, ExpireHot), completed)
  {
    hide LogShape, Increasing, Deltas;
    var busy :| SinksAt(s, busy, cut, completed);
    var next := Next(c, s, ExpireHot);
    assert forall k :: At(next, k) == At(s, k);
    if s.hot.Some? && !HasText(s) {
      var n := s.hot.value.state.sequence;
      assert forall m | n <= m <= |s.log| && TerminalFree(s.log, m) :: TerminalFree(s.log, n);
    }
    assert SinksAt(next, busy, cut || LosesText(s, ExpireHot), completed);
  }

  lemma SinksAfter(c: Config, s: System, step: Step, cut: bool, completed: bool)
    requires SinksOk(s, cut, completed) && Enabled(c, s, step) && MayTake(s, step, cut, completed)
    ensures SinksOk(Next(c, s, step), cut || LosesText(s, step), completed)
  {
    hide LogShape, HotShows, Increasing, Deltas, IsCurrent, Stored;
    var busy :| SinksAt(s, busy, cut, completed);
    var next := Next(c, s, step);
    match step
    case Allocate(sink, event) => SinksAfterAllocate(c, s, sink, event, cut, completed);
    case Publish(sink, trimmed) =>
      OthersStayIdle(c, s, step, busy);
      SinksAfterPublish(c, s, sink, trimmed, cut, completed);
    case Load(sink) =>
      OthersStayIdle(c, s, step, busy);
      assert At(next, sink) == Loaded(At(s, sink).entry, s.hot);
      assert SinksAt(next, sink, cut, completed);
    case Store(sink) =>
      OthersStayIdle(c, s, step, busy);
      SinksAfterStore(c, s, sink, cut, completed);
    case Interrupt(sink) => SinksAfterInterrupt(c, s, sink, cut, completed);
    case ExpireHot => SinksAfterExpire(c, s, cut, completed);
  }

  /** While nothing is under way, completing the row is in order unless there is a projection that misses text. */
  lemma SinksAfterCommit(s: System, cut: bool)
    requires SinksOk(s, cut, false) && (forall k :: At(s, k).Idle?) && TerminalFree(s.log, |s.log|)
    requires cut ==> s.hot.None?
    ensures SinksOk(s, cut, true)
  {
    hide HotShows, Increasing, Deltas;
    var busy :| SinksAt(s, busy, cut, false);
    assert SinksAt(s, busy, cut, true);
  }
}
