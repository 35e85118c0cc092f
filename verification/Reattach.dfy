/** End to end: emits, cut off or not, reconnects and durable fallbacks in any order, and what the client shows. */
module Reattach {
  import opened Text
  import opened Events
  import opened Projection
  import opened Publisher
  import opened Observer
  import opened Reconstruction
  import opened HotText
  import Client = Observation
  import RichContent

  /** Where the observation of the one client stands; each reads step is a separate step of the world. */
  datatype Watcher =
    | Off
    | Refreshing(durable: Durable)
    | Resolving(durable: Durable, polling: bool)
    | HoldingHot(durable: Durable, polling: bool, hot: State)
    | HoldingLatest(durable: Durable, polling: bool, hot: State, latest: StreamEvent)
    | Polling
    | Following(sequence: nat, cursor: nat, buffer: seq<StreamEvent>)

  /**
   * `cut` tells that text was lost: the emit of a delta was cut off, or a projection with text expired. `shown` is the
   * highest sequence whose effect the client was shown.
   */
  datatype World = World(
    system: System,
    cut: bool,
    durable: Durable,
    watcher: Watcher,
    view: Client.View,
    shown: nat,
    finished: Option<Status>)

  datatype WorldStep =
    | Emit(step: Publisher.Step)
    | Commit(durable: Durable)
    | Connect
    | ReadHot(failed: bool)
    | ReadLatest(failed: bool)
    | ReadRetained(retained: Read<seq<Entry>>)
    | PollAgain
    | ReadTail(read: Read<seq<StreamEvent>>)
    | Yield
    | Disconnect
    | Refresh
    | RefreshHot(failed: bool)

  const START: World := World(EMPTY, false, NOTHING_DURABLE, Off, Client.NEW_VIEW, 0, None)

  // ---------------------------------------------------------------------------
  // The client
  // ---------------------------------------------------------------------------

  function Records(entries: seq<Entry>): seq<Client.Record> {
    if entries == [] then []
    else
      var last := entries[|entries| - 1];
      Records(entries[..|entries| - 1]) + [Client.Record(Some(last.sequence), last.event)]
  }

  function ToClient(frame: Frame): Client.ObservedFrame {
    match frame
    case StateOf(f) =>
      Client.StateFrame(Some(f.state.phase), f.state.status, f.state.partialAnswer, f.state.answer.GetOr(""),
                        f.state.result, f.state.error, Records(f.state.activities), f.realtime)
    case EventOf(entry) => Client.EventFrame(Some(entry.sequence), entry.event)
    case Heartbeat => Client.HeartbeatFrame
    case Unavailable(_) => Client.UnavailableFrame
  }

  /** The sequence a frame brings the client up to. */
  function SequenceOf(frame: Frame): nat {
    match frame
    case StateOf(f) => f.sequence.GetOr(0)
    case EventOf(entry) => entry.sequence
    case Heartbeat => 0
    case Unavailable(_) => 0
  }

  function Receive(titles: Client.Titles, w: World, frame: Frame): World {
    var terminal := Client.TerminalStatus(ToClient(frame));
    w.(view := Client.Applied(titles, w.view, ToClient(frame)),
       shown := Max(w.shown, SequenceOf(frame)),
       finished := if terminal.Some? then terminal else w.finished)
  }

  /** `_apply_durable_result` with what the execution route answers. */
  function ReceiveDurable(w: World, durable: Durable, answer: string, sequence: nat): World {
    w.(view := Client.AppliedDurable(w.view, Some(durable.status), answer, durable.result, durable.error),
       shown := Max(w.shown, sequence),
       finished := if durable.status.IsTerminal() then Some(durable.status) else w.finished)
  }

  // ---------------------------------------------------------------------------
  // The steps
  // ---------------------------------------------------------------------------

  /** An execution that is still under way has no answer yet. */
  predicate Unanswered(durable: Durable) {
    !durable.status.IsTerminal() ==> durable.answer.None?
  }

  /**
   * A run may be completed behind all its events, with the stripped text of its deltas. If text was lost, the hot key
   * must be gone: a projection that misses text would go on showing the rest.
   */
  ghost predicate MayCommit(w: World, durable: Durable) {
    && !w.durable.status.IsTerminal()
    && Unanswered(durable)
    && (durable.status.Completed? ==>
          && (w.cut ==> w.system.hot.None?)
          && (forall k :: At(w.system, k).Idle?)
          && TerminalFree(w.system.log, |w.system.log|)
          && durable.answer == Some(Strip(Deltas(w.system.log, |w.system.log|))))
  }

  /** The completed event carries the stored answer. */
  predicate MayEmit(w: World, event: Event) {
    event.ExecutionCompleted? ==> Some(event.answer) == w.durable.answer
  }

  ghost predicate IsBatch(s: System, cursor: nat, batch: seq<StreamEvent>) {
    var start := Max(s.first, cursor);
    && start + |batch| <= Max(start, |s.published|)
    && forall i | 0 <= i < |batch| :: batch[i] == StreamEvent(start + i + 1, s.published[start + i])
  }

  ghost predicate CanStep(c: Config, w: World, step: WorldStep) {
    match step
    case Emit(s) =>
      && Enabled(c, w.system, s) && MayTake(w.system, s, w.cut, w.durable.status.Completed?)
      && (s.Allocate? ==> MayEmit(w, s.event))
    case Commit(durable) => MayCommit(w, durable)
    case Connect => w.watcher.Off? && w.finished.None?
    case ReadHot(_) => w.watcher.Resolving?
    case ReadLatest(_) => w.watcher.HoldingHot?
    case ReadRetained(retained) =>
      w.watcher.HoldingLatest? && (retained.Ok? ==> forall entry <- retained.value :: entry in w.system.published)
    case PollAgain => w.watcher.Polling?
    case ReadTail(read) =>
      w.watcher.Following? && w.watcher.buffer == [] && (read.Ok? ==> IsBatch(w.system, w.watcher.cursor, read.value))
    case Yield => w.watcher.Following? && w.watcher.buffer != []
    case Disconnect => true
    case Refresh => w.watcher.Off? && w.finished.None?
    case RefreshHot(_) => w.watcher.Refreshing?
  }

  /** What `observe` does with a resolution: the first one always yields its frame, a poll only a changed one. */
  function Deliver(titles: Client.Titles, w: World, resolution: Resolution, polling: bool): World {
    match resolution
    case Unknown => w.(watcher := Off)
    case Gap => Receive(titles, w, Unavailable(SequenceGap)).(watcher := Off)
    case Resolved(frame, cursor) =>
      if frame.IsTerminal() then Receive(titles, w, StateOf(frame)).(watcher := Off)
      else if frame.IsCutOff() then
        Receive(titles, Receive(titles, w, StateOf(frame)), Unavailable(frame.reason.value)).(watcher := Off)
      else if cursor.Some? then
        Receive(titles, w, StateOf(frame)).(watcher := Following(frame.sequence.GetOr(0), cursor.value, []))
      else if polling then w.(watcher := Polling)
      else Receive(titles, w, StateOf(frame)).(watcher := Polling)
  }

  /** One buffered event, as the loop of `observe` treats it. */
  function Yielded(titles: Client.Titles, w: World): World
    requires w.watcher.Following? && w.watcher.buffer != []
  {
    var event := w.watcher.buffer[0];
    var tail := TakeEvent(Tail([], w.watcher.sequence, w.watcher.cursor, true), event);
    var after := if tail.frames == [] then w else Receive(titles, w, tail.frames[0]);
    after.(watcher := if tail.live then Following(tail.sequence, tail.cursor, w.watcher.buffer[1..]) else Off)
  }

  function RefreshedAnswer(durable: Durable, hot: Option<State>): (string, nat) {
    if (durable.status.Running? || durable.status.CancelRequested?) && hot.Some? && hot.value.partialAnswer != "" then
      (hot.value.partialAnswer, hot.value.sequence)
    else (durable.answer.GetOr(""), 0)
  }

  ghost function After(c: Config, titles: Client.Titles, w: World, step: WorldStep): World
    requires CanStep(c, w, step)
  {
    match step
    case Emit(s) => w.(system := Next(c, w.system, s), cut := w.cut || LosesText(w.system, s))
    case Commit(durable) => w.(durable := durable)
    case Connect => w.(watcher := Resolving(w.durable, false))
    case ReadHot(failed) =>
      var hot := HotOf(w.system);
      var watcher := w.watcher;
      if !failed && hot.Some? then w.(watcher := HoldingHot(watcher.durable, watcher.polling, hot.value))
      else
        var read := if failed then Raised else Ok(None);
        var lookup := Lookup(Some(watcher.durable), read, Raised, Raised);
        Deliver(titles, w, Resolve(lookup, None, c.maxActivities), watcher.polling)
    case ReadLatest(failed) =>
      var latest := LatestOf(w.system);
      var watcher := w.watcher;
      if failed || latest.None? then
        Deliver(titles, w, Resolved(StaleFrame(watcher.hot, None), None), watcher.polling)
      else if watcher.hot.sequence < latest.value.entry.sequence then
        w.(watcher := HoldingLatest(watcher.durable, watcher.polling, watcher.hot, latest.value))
      else
        Deliver(titles, w, ResolveAgainst(watcher.hot, latest.value, Raised, None, c.maxActivities), watcher.polling)
    case ReadRetained(retained) =>
      var watcher := w.watcher;
      Deliver(titles, w, ResolveAgainst(watcher.hot, watcher.latest, retained, None, c.maxActivities), watcher.polling)
    case PollAgain => w.(watcher := Resolving(w.durable, true))
    case ReadTail(read) =>
      if read.Raised? then Receive(titles, w, Unavailable(StreamUnavailable)).(watcher := Off)
      else if read.value == [] then Receive(titles, w, Heartbeat)
      else w.(watcher := w.watcher.(buffer := read.value))
    case Yield => Yielded(titles, w)
    case Disconnect => w.(watcher := Off)
    case Refresh => w.(watcher := Refreshing(w.durable))
    case RefreshHot(failed) =>
      if failed then w.(watcher := Off)
      else
        var (answer, sequence) := RefreshedAnswer(w.watcher.durable, HotOf(w.system));
        ReceiveDurable(w, w.watcher.durable, answer, sequence).(watcher := Off)
  }

  /** A refresh merges the projected text while the row is at work and there is some, and else the row's answer. */
  lemma RefreshShows(c: Config, titles: Client.Titles, w: World)
    requires w.watcher.Refreshing?
    ensures var durable, hot, next := w.watcher.durable, HotOf(w.system), After(c, titles, w, RefreshHot(false));
      var projected := durable.status in {Running, CancelRequested} && hot.Some? && hot.value.partialAnswer != "";
      && next.view.content == Client.ApplyStateAnswer(
           w.view.content, if projected then hot.value.partialAnswer else durable.answer.GetOr(""))
      && next.shown == Max(w.shown, if projected then hot.value.sequence else 0)
      && next.watcher.Off? && next.system == w.system && next.durable == w.durable
  {}

  ghost predicate IsHistory(c: Config, titles: Client.Titles, worlds: seq<World>, steps: seq<WorldStep>) {
    && |worlds| == |steps| + 1
    && worlds[0] == START
    && forall i | 0 <= i < |steps| ::
         CanStep(c, worlds[i], steps[i]) && worlds[i + 1] == After(c, titles, worlds[i], steps[i])
  }

  // ---------------------------------------------------------------------------
  // Texts
  // ---------------------------------------------------------------------------

  /** Two stages of the same text merge to the later one. */
  lemma MergeOfStages(log: seq<Event>, m: nat, n: nat)
    requires m <= |log| && n <= |log|
    ensures Client.ApplyStateAnswer(Deltas(log, m), Deltas(log, n)) == Deltas(log, Max(m, n))
  {
    hide Deltas;
    if m <= n {
      DeltasGrow(log, m, n);
    } else {
      DeltasGrow(log, n, m);
    }
  }

  lemma PrefixBothWays(a: string, b: string)
    requires a <= b && b <= a
    ensures a == b
  {}

  lemma StripBetween(full: string, content: string)
    requires Strip(full) <= content <= full
    ensures Strip(content) == Strip(full)
  {
    hide Trim;
    TrimOfPrefix(IsSpace, Strip(full), content);
    TrimOfPrefix(IsSpace, content, full);
    StripIdempotent(full);
    PrefixBothWays(Strip(content), Strip(full));
  }

  lemma StripOfPrefixOfBlank(full: string, content: string)
    requires Strip(full) == "" && content <= full
    ensures Strip(content) == ""
  {
    TrimOfPrefix(IsSpace, content, full);
  }

  /** Merging the final answer into any stage of its text leaves a text that strips to the answer. */
  lemma MergeSettles(full: string, content: string, candidate: string)
    requires content <= full && (candidate == Strip(full) || candidate == full)
    ensures Strip(Client.ApplyStateAnswer(content, candidate)) == Strip(full)
  {
    hide Strip;
    StripIdempotent(full);
    if candidate == full {
      if candidate <= content {
        PrefixBothWays(content, full);
      }
    } else if candidate == "" {
      StripOfPrefixOfBlank(full, content);
    } else if candidate <= content {
      StripBetween(full, content);
    }
  }

  /** Once settled, it stays so. */
  lemma MergeStaysSettled(full: string, content: string, candidate: string)
    requires Strip(content) == Strip(full) && (candidate == Strip(full) || candidate == full)
    ensures Strip(Client.ApplyStateAnswer(content, candidate)) == Strip(full)
  {
    hide Strip;
    StripIdempotent(full);
  }

  // ---------------------------------------------------------------------------
  // The log and the row
  // ---------------------------------------------------------------------------

  /** The log agrees with the stored answer, and a completed event ends it. */
  ghost predicate LogOk(log: seq<Event>, durable: Durable) {
    && Unanswered(durable)
    && (forall i | 0 <= i < |log| && log[i].ExecutionCompleted? ::
          i == |log| - 1 && durable.status.Completed? && durable.answer == Some(log[i].answer))
    && (durable.status.Completed? ==>
          && durable.answer == Some(Strip(Deltas(log, |log|)))
          && forall i | 0 <= i < |log| && log[i].IsTerminal() :: i == |log| - 1 && log[i].ExecutionCompleted?)
  }

  /** What a projection offers at the end of a completed log is the answer, or the text it was stripped from. */
  lemma OfferedAtEnd(log: seq<Event>, durable: Durable, state: State)
    requires LogOk(log, durable) && Shows(log, state)
    requires durable.status.Completed? && !TerminalFree(log, state.sequence)
    ensures state.sequence == |log| > 0 && TerminalFree(log, |log| - 1) && state.status.Completed?
    ensures Candidate(state) == Strip(Deltas(log, |log|)) || Candidate(state) == Deltas(log, |log|)
  {
    hide Strip, Candidate, Deltas;
    var n := state.sequence;
    var i :| 0 <= i < n && log[i].IsTerminal();
    assert i == |log| - 1 && log[n - 1].ExecutionCompleted?;
    assert OffersAnswer(log, state, n);
  }

  // ---------------------------------------------------------------------------
  // What every world keeps
  // ---------------------------------------------------------------------------

  /** Until the end, the content is the text of the events shown; at the end it strips to the answer. */
  ghost predicate TextOk(log: seq<Event>, durable: Durable, content: string, shown: nat, finished: Option<Status>) {
    && shown <= |log|
    && (finished.None? && TerminalFree(log, shown) ==> content == Deltas(log, shown))
    && (durable.status.Completed? && (finished == Some(Completed) || !TerminalFree(log, shown)) ==>
          Some(Strip(content)) == durable.answer)
    && (finished == Some(Completed) ==> durable.status.Completed?)
  }

  ghost predicate SeenDurable(w: World, durable: Durable) {
    Unanswered(durable) && (durable.status.IsTerminal() ==> durable == w.durable)
  }

  /** The client was shown the end by a durable fallback, which does not make it stop. */
  ghost predicate Settled(w: World) {
    w.durable.status.Completed? && w.shown <= |w.system.log| && !TerminalFree(w.system.log, w.shown)
  }

  ghost predicate SeenHot(w: World, hot: State) {
    && 0 < hot.sequence <= Top(w.system.published)
    && Shows(w.system.log, hot)
    && (Settled(w) ==> hot.sequence == |w.system.log|)
  }

  ghost predicate SeenLatest(w: World, latest: StreamEvent) {
    && Genuine(w.system.log, latest.entry)
    && latest.entry.sequence <= Top(w.system.published)
    && w.shown <= latest.entry.sequence
  }

  ghost predicate WatcherOk(w: World) {
    match w.watcher
    case Off => true
    case Polling => true
    case Refreshing(durable) => SeenDurable(w, durable)
    case Resolving(durable, _) => SeenDurable(w, durable)
    case HoldingHot(durable, _, hot) => SeenDurable(w, durable) && SeenHot(w, hot)
    case HoldingLatest(durable, _, hot, latest) =>
      SeenDurable(w, durable) && SeenHot(w, hot) && SeenLatest(w, latest) && hot.sequence < latest.entry.sequence
    case Following(sequence, _, buffer) =>
      && sequence == w.shown
      && forall event <- buffer ::
           Genuine(w.system.log, event.entry) && event.entry.sequence <= Top(w.system.published)
  }

  /** The projection, if it is there, shows the end to a client that was shown it without being told. */
  predicate HotIsLast(s: System) {
    s.hot.Some? ==> s.hot.value.state.sequence == |s.log|
  }

  ghost predicate SystemOk(s: System, cut: bool, durable: Durable) {
    && SinksOk(s, cut, durable.status.Completed?)
    && LogOk(s.log, durable)
    && Top(s.published) <= |s.log|
  }

  ghost predicate WorldOk(w: World) {
    && SystemOk(w.system, w.cut, w.durable)
    && w.shown <= Top(w.system.published)
    && TextOk(w.system.log, w.durable, w.view.content, w.shown, w.finished)
    && WatcherOk(w)
    && (if w.finished.Some? then w.watcher.Off? else Settled(w) ==> HotIsLast(w.system))
  }

  function Ending(status: Status): Option<Status> {
    if status.IsTerminal() then Some(status) else None
  }

  /** A state frame of a projection that shows its sequence. */
  lemma ShowState(log: seq<Event>, durable: Durable, content: string, shown: nat, state: State)
    requires LogOk(log, durable) && TextOk(log, durable, content, shown, None) && Shows(log, state)
    requires durable.status.Completed? && !TerminalFree(log, shown) ==> state.sequence == |log|
    ensures var n := state.sequence;
      && TextOk(log, durable, Client.ApplyStateAnswer(content, Candidate(state)), Max(shown, n), Ending(state.status))
      && TextOk(log, durable, Client.ApplyStateAnswer(content, Candidate(state)), Max(shown, n), None)
      && (durable.status.Completed? && !TerminalFree(log, Max(shown, n)) ==> state.status.Completed?)
  {
    hide Strip, Client.ApplyStateAnswer, Deltas;
    var n := state.sequence;
    if TerminalFree(log, n) {
      MergeOfStages(log, shown, n);
    } else if durable.status.Completed? {
      OfferedAtEnd(log, durable, state);
      DeltasGrow(log, shown, n);
      if TerminalFree(log, shown) {
        MergeSettles(Deltas(log, n), content, Candidate(state));
      } else {
        MergeStaysSettled(Deltas(log, n), content, Candidate(state));
      }
    }
  }

  /** A state frame built from the durable row alone. */
  lemma ShowDurable(log: seq<Event>, durable: Durable, content: string, shown: nat, seen: Durable)
    requires LogOk(log, durable) && TextOk(log, durable, content, shown, None)
    requires Unanswered(seen) && (seen.status.IsTerminal() ==> seen == durable)
    ensures Candidate(Initial(seen)) == seen.answer.GetOr("") && Initial(seen).status == seen.status
    ensures TextOk(log, durable, Client.ApplyStateAnswer(content, seen.answer.GetOr("")), shown, Ending(seen.status))
  {
    hide Strip;
    if seen.status.Completed? {
      var full := Deltas(log, |log|);
      DeltasGrow(log, shown, |log|);
      if TerminalFree(log, shown) {
        MergeSettles(full, content, Strip(full));
      } else {
        MergeStaysSettled(full, content, Strip(full));
      }
    }
  }

  function TextAfter(content: string, event: Event): string {
    match event
    case AssistantDelta(text) => content + text
    case ExecutionCompleted(answer, _) => Client.ApplyStateAnswer(content, answer)
    case ExecutionCancelled(partial) => Client.ApplyStateAnswer(content, partial.GetOr(""))
    case _ => content
  }

  lemma NextDelta(log: seq<Event>, n: nat, content: string)
    requires n < |log| && content == Deltas(log, n) && !log[n].IsTerminal()
    ensures TextAfter(content, log[n]) == Deltas(log, n + 1)
  {
    assert Deltas(log, n) + "" == Deltas(log, n);
  }

  function EndOf(event: Event): Option<Status> {
    match event
    case ExecutionCompleted(_, _) => Some(Completed)
    case ExecutionFailed(_) => Some(Status.Failed)
    case ExecutionCancelled(_) => Some(Cancelled)
    case _ => None
  }

  lemma ShowCompleted(log: seq<Event>, durable: Durable, content: string, shown: nat)
    requires LogOk(log, durable) && shown < |log| && log[shown].ExecutionCompleted? && content == Deltas(log, shown)
    ensures Some(Strip(TextAfter(content, log[shown]))) == durable.answer
  {
    hide Strip, Client.ApplyStateAnswer;
    DeltasGrow(log, shown, |log|);
    MergeSettles(Deltas(log, |log|), content, log[shown].answer);
  }

  /** The next live event. */
  lemma ShowEvent(log: seq<Event>, durable: Durable, content: string, shown: nat)
    requires LogOk(log, durable) && TextOk(log, durable, content, shown, None) && shown < |log|
    ensures TextOk(log, durable, TextAfter(content, log[shown]), shown + 1, EndOf(log[shown]))
    ensures log[shown].IsTerminal() <==> EndOf(log[shown]).Some?
    ensures durable.status.Completed? && !TerminalFree(log, shown + 1) ==> log[shown].IsTerminal()
  {
    hide Strip, Deltas, TextAfter;
    if durable.status.Completed? {
      assert TerminalFree(log, shown);
    }
    if log[shown].ExecutionCompleted? {
      ShowCompleted(log, durable, content, shown);
    } else if !log[shown].IsTerminal() && TerminalFree(log, shown) {
      NextDelta(log, shown, content);
    }
  }

  // ---------------------------------------------------------------------------
  // The frames of a delivery, and what they bring the client
  // ---------------------------------------------------------------------------

  lemma {:induction false} RecordsAre(entries: seq<Entry>)
    ensures |Records(entries)| == |entries|
    ensures forall i | 0 <= i < |entries| ::
      Records(entries)[i] == Client.Record(Some(entries[i].sequence), entries[i].event)
  {
    if entries != [] {
      RecordsAre(entries[..|entries| - 1]);
    }
  }

  /** A state frame brings the client the phase, the result and the error of the projection. */
  lemma StateReachesClient(titles: Client.Titles, view: Client.View, frame: StateFrame)
    ensures var next := Client.Applied(titles, view, ToClient(StateOf(frame)));
      && next.phase == frame.state.phase && next.degraded == !frame.realtime
      && next.result == (if frame.state.result.Some? then frame.state.result else view.result)
      && next.error == (if frame.state.error.GetOr("") != "" then frame.state.error else view.error)
    ensures ToClient(StateOf(frame)).activities == Records(frame.state.activities)
  {
    hide Client.RememberAll, Client.ApplyStateAnswer, Records;
    Client.StateFrameByField(titles, view, ToClient(StateOf(frame)));
  }

  /** The row reaches the client by the durable route. */
  lemma RowReachesClient(w: World, durable: Durable, answer: string, sequence: nat)
    ensures var next := ReceiveDurable(w, durable, answer, sequence);
      && (durable.status.IsTerminal() ==> next.view.phase == PhaseFromStatus(durable.status))
      && next.view.result == (if durable.result.Some? then durable.result else w.view.result)
      && next.view.error == (if durable.error.GetOr("") != "" then durable.error else w.view.error)
  {
    Client.DurableByField(w.view, Some(durable.status), answer, durable.result, durable.error);
  }

  /** The frames that an observation yields for a resolution, in front of those of the live tail. */
  function DeliveredFrames(resolution: Resolution, polling: bool): seq<Frame> {
    match resolution
    case Unknown => []
    case Gap => [Unavailable(SequenceGap)]
    case Resolved(frame, cursor) =>
      if !frame.IsTerminal() && frame.IsCutOff() then [StateOf(frame), Unavailable(frame.reason.value)]
      else if polling && !frame.IsTerminal() && cursor.None? then []
      else [StateOf(frame)]
  }

  function ReceiveAll(titles: Client.Titles, w: World, frames: seq<Frame>): World
    decreases |frames|
  {
    if frames == [] then w else ReceiveAll(titles, Receive(titles, w, frames[0]), frames[1..])
  }

  lemma ReceivesInOrder(titles: Client.Titles, w: World, frame: Frame, other: Frame)
    ensures ReceiveAll(titles, w, [frame]) == Receive(titles, w, frame)
    ensures ReceiveAll(titles, w, [frame, other]) == Receive(titles, Receive(titles, w, frame), other)
  {
    hide Receive;
    assert [frame][1..] == [] && [other][1..] == [] && [frame, other][1..] == [other];
    assert ReceiveAll(titles, Receive(titles, w, frame), [other]) == Receive(titles, Receive(titles, w, frame), other);
  }

  /** A delivery is what the observation yields for its resolution, received frame by frame. */
  lemma DeliveryIsObserved(titles: Client.Titles, w: World, lookup: Lookup, lastSequence: Option<nat>,
                           maxActivities: nat)
    ensures var first, poll := Resolve(lookup, lastSequence, maxActivities), Resolve(lookup, None, maxActivities);
      && Observation(lookup, [], [], lastSequence, maxActivities).frames == DeliveredFrames(first, false)
      && Poll([lookup], [], maxActivities).frames == DeliveredFrames(poll, true)
  {
    hide ResolveAgainst, Initial;
    CursorsAreRealtime(lookup, lastSequence, maxActivities);
    CursorsAreRealtime(lookup, None, maxActivities);
    hide Resolve;
    assert [lookup][1..] == [];
  }

  lemma CursorsAreRealtime(lookup: Lookup, lastSequence: Option<nat>, maxActivities: nat)
    ensures var r := Resolve(lookup, lastSequence, maxActivities);
      r.Resolved? && r.cursor.Some? ==> r.frame.reason.None?
  {
    hide Resolve;
    if Resolve(lookup, lastSequence, maxActivities).Resolved? {
      CursorMeansRealtime(lookup, lastSequence, maxActivities);
    }
  }

  lemma DeliversThese(titles: Client.Titles, w: World, resolution: Resolution, polling: bool)
    requires resolution.Resolved? && resolution.cursor.Some? ==> resolution.frame.reason.None?
    ensures var next := Deliver(titles, w, resolution, polling);
      next.(watcher := w.watcher) == ReceiveAll(titles, w, DeliveredFrames(resolution, polling))
  {
    hide Client.Applied, ToClient, Client.TerminalStatus;
    if resolution.Resolved? {
      var frame := resolution.frame;
      ReceivesInOrder(titles, w, StateOf(frame), Unavailable(frame.reason.GetOr(SequenceGap)));
    }
    if resolution.Gap? {
      ReceivesInOrder(titles, w, Unavailable(SequenceGap), Heartbeat);
    }
  }

  // ---------------------------------------------------------------------------
  // The client's content after a frame
  // ---------------------------------------------------------------------------

  lemma ContentAfterState(titles: Client.Titles, view: Client.View, frame: StateFrame)
    ensures Client.Applied(titles, view, ToClient(StateOf(frame))).content
         == Client.ApplyStateAnswer(view.content, Candidate(frame.state))
    ensures Client.TerminalStatus(ToClient(StateOf(frame))) == Ending(frame.state.status)
  {
    hide Client.RememberAll, Records, Client.ApplyStateAnswer;
    var f := ToClient(StateOf(frame));
    Client.RememberKeepsFlags(titles, Client.StateFields(view, f), f.activities);
  }

  lemma ContentAfterEvent(titles: Client.Titles, view: Client.View, entry: Entry)
    ensures Client.Applied(titles, view, ToClient(EventOf(entry))).content == TextAfter(view.content, entry.event)
    ensures Client.TerminalStatus(ToClient(EventOf(entry))) == EndOf(entry.event)
  {
    var record := Client.Record(Some(entry.sequence), entry.event);
    RecordKeepsContent(titles, Client.AppliedEvent(view, entry.event), record);
    hide Client.RememberRecord, Client.ApplyStateAnswer;
  }

  lemma RecordKeepsContent(titles: Client.Titles, view: Client.View, record: Client.Record)
    ensures Client.RememberRecord(titles, view, record).content == view.content
  {}

  // ---------------------------------------------------------------------------
  // Where the client's content comes from
  // ---------------------------------------------------------------------------

  ghost predicate OffersByHot(log: seq<Event>, text: string) {
    exists state :: Shows(log, state) && text == Candidate(state)
  }

  /** What one step may leave as the content: the old one, that after the next event, or one that a frame offers. */
  ghost predicate Offers(w: World, text: string) {
    || text == w.view.content
    || (w.finished.None? && w.shown < |w.system.log|
        && text == TextAfter(w.view.content, w.system.log[w.shown]))
    || OffersByHot(w.system.log, text)
    || w.durable.answer == Some(text)
  }

  lemma MergeIsOffered(w: World, candidate: string)
    requires Offers(w, candidate) || candidate == ""
    ensures Offers(w, Client.ApplyStateAnswer(w.view.content, candidate))
  {
    hide TextAfter, OffersByHot;
  }

  lemma HotIsOffered(w: World, state: State)
    requires Shows(w.system.log, state)
    ensures Offers(w, Client.ApplyStateAnswer(w.view.content, Candidate(state)))
  {
    hide Shows, Candidate, TextAfter, Client.ApplyStateAnswer;
    assert OffersByHot(w.system.log, Candidate(state));
    MergeIsOffered(w, Candidate(state));
  }

  lemma RowIsOffered(w: World, durable: Durable)
    requires SeenDurable(w, durable)
    ensures Offers(w, Client.ApplyStateAnswer(w.view.content, durable.answer.GetOr("")))
  {
    hide TextAfter, OffersByHot, Client.ApplyStateAnswer;
    MergeIsOffered(w, durable.answer.GetOr(""));
  }

  // ---------------------------------------------------------------------------
  // Deliveries keep the world in order
  // ---------------------------------------------------------------------------

  /** The frame shows its sequence, or the durable row as it was or still is. */
  ghost predicate FrameOk(w: World, frame: StateFrame) {
    match frame.sequence
    case None => exists durable :: SeenDurable(w, durable) && frame.state == Initial(durable)
    case Some(n) => SeenHot(w, frame.state) && frame.state.sequence == n
  }

  /** Everything but the watcher. */
  ghost predicate CoreOk(w: World) {
    WorldOk(w.(watcher := Off))
  }

  lemma CoreOfWorld(w: World)
    requires WorldOk(w)
    ensures CoreOk(w)
  {
    hide SystemOk, TextOk;
  }

  lemma ReceiveStateKeeps(titles: Client.Titles, w: World, frame: StateFrame)
    requires CoreOk(w) && w.finished.None? && FrameOk(w, frame)
    ensures var next := Receive(titles, w, StateOf(frame));
      && CoreOk(next)
      && next.finished == Ending(frame.state.status)
      && (next.finished.None? && Settled(next) ==> Settled(w))
      && next == w.(view := next.view, shown := Max(w.shown, frame.sequence.GetOr(0)), finished := next.finished)
      && Offers(w, next.view.content)
  {
    hide LogOk, Shows, SinksOk, TextOk, Client.Applied, Client.ApplyStateAnswer, ToClient, Candidate, Initial,
      Client.TerminalStatus, Offers;
    ContentAfterState(titles, w.view, frame);
    var log := w.system.log;
    match frame.sequence
    case None =>
      var durable :| SeenDurable(w, durable) && frame.state == Initial(durable);
      ShowDurable(log, w.durable, w.view.content, w.shown, durable);
      RowIsOffered(w, durable);
    case Some(n) =>
      HotIsOffered(w, frame.state);
      ShowState(log, w.durable, w.view.content, w.shown, frame.state);
  }

  lemma ReceiveOtherKeeps(titles: Client.Titles, w: World, frame: Frame)
    requires CoreOk(w) && (frame.Heartbeat? || frame.Unavailable?)
    ensures var next := Receive(titles, w, frame);
      CoreOk(next) && next == w.(view := next.view) && next.view.content == w.view.content
  {
    hide SystemOk, TextOk;
  }

  ghost predicate ResolutionOk(w: World, resolution: Resolution) {
    resolution.Resolved? ==>
      && FrameOk(w, resolution.frame)
      && (resolution.cursor.Some? ==>
            resolution.frame.sequence.Some? && w.shown <= resolution.frame.sequence.value)
  }

  lemma DeliverKeeps(titles: Client.Titles, w: World, resolution: Resolution, polling: bool)
    requires CoreOk(w) && w.finished.None? && ResolutionOk(w, resolution)
    ensures WorldOk(Deliver(titles, w, resolution, polling))
    ensures Offers(w, Deliver(titles, w, resolution, polling).view.content)
  {
    hide OffersByHot, TextAfter, SystemOk, TextOk, Receive, FrameOk, HotIsLast;
    match resolution
    case Unknown =>
    case Gap => ReceiveOtherKeeps(titles, w, Unavailable(SequenceGap));
    case Resolved(frame, cursor) =>
      ReceiveStateKeeps(titles, w, frame);
      if frame.IsCutOff() && !frame.IsTerminal() {
        ReceiveOtherKeeps(titles, Receive(titles, w, StateOf(frame)), Unavailable(frame.reason.value));
      }
  }

  // ---------------------------------------------------------------------------
  // Steps of the sinks and of the database
  // ---------------------------------------------------------------------------

  lemma TextInLongerLog(log: seq<Event>, longer: seq<Event>, durable: Durable, content: string, shown: nat,
                        finished: Option<Status>)
    requires TextOk(log, durable, content, shown, finished) && log <= longer
    ensures TextOk(longer, durable, content, shown, finished)
  {
    hide Strip;
    DeltasInLonger(log, longer, shown);
    assert TerminalFree(log, shown) <==> TerminalFree(longer, shown);
  }

  lemma LogAfterEmit(w: World, event: Event)
    requires LogOk(w.system.log, w.durable) && MayEmit(w, event)
    requires w.durable.status.Completed? <==> event.ExecutionCompleted?
    requires w.durable.status.Completed? ==> TerminalFree(w.system.log, |w.system.log|)
    ensures LogOk(w.system.log + [event], w.durable)
  {
    hide Strip;
    var log := w.system.log;
    var longer := log + [event];
    if w.durable.status.Completed? {
      DeltasInLonger(log, longer, |log|);
      assert Deltas(longer, |longer|) == Deltas(log, |log|) by {
        assert Deltas(log, |log|) + "" == Deltas(log, |log|);
      }
      assert forall i | 0 <= i < |log| :: longer[i] == log[i];
    }
  }

  lemma TopGrows(c: Config, w: World, step: Publisher.Step)
    requires SystemOk(w.system, w.cut, w.durable) && Enabled(c, w.system, step)
    ensures var next := Next(c, w.system, step);
      Top(w.system.published) <= Top(next.published) <= |next.log|
  {
    hide LogShape, HotShows, Increasing, IsCurrent, LogOk;
    var busy :| SinksAt(w.system, busy, w.cut, w.durable.status.Completed?);
    if step.Publish? {
      OthersStayIdle(c, w.system, step, busy);
    }
  }

  lemma LogInStep(c: Config, s: System, step: Publisher.Step)
    requires Enabled(c, s, step)
    ensures var next := Next(c, s, step);
      && next.log == (if step.Allocate? then s.log + [step.event] else s.log)
      && (!step.Store? && !step.ExpireHot? ==> next.hot == s.hot)
      && (step.ExpireHot? ==> next.hot == None)
  {}

  /** A projection that is replaced once the log is over is replaced by one that shows its end. */
  lemma HotStaysLast(c: Config, w: World, step: Publisher.Step)
    requires SystemOk(w.system, w.cut, w.durable) && HotIsLast(w.system)
    requires Enabled(c, w.system, step) && !step.Allocate?
    ensures HotIsLast(Next(c, w.system, step))
  {
    hide LogShape, HotShows, Increasing, IsCurrent, LogOk, Stored;
    LogInStep(c, w.system, step);
    if step.Store? {
      var busy :| SinksAt(w.system, busy, w.cut, w.durable.status.Completed?);
      OthersStayIdle(c, w.system, step, busy);
      StoredShows(c, w.system, busy, w.cut, w.durable.status.Completed?);
    }
  }

  lemma SeenHotLater(w: World, next: World, hot: State)
    requires SeenHot(w, hot) && next.durable == w.durable && next.shown == w.shown && w.shown <= |w.system.log|
    requires w.system.log <= next.system.log && Top(w.system.published) <= Top(next.system.published)
    requires Settled(w) ==> next.system.log == w.system.log
    ensures SeenHot(next, hot)
  {
    hide Shows;
    ShowsInLonger(w.system.log, next.system.log, hot);
    assert TerminalFree(w.system.log, w.shown) <==> TerminalFree(next.system.log, w.shown);
  }

  lemma SettledLogIsFrozen(w: World, step: Publisher.Step)
    requires LogOk(w.system.log, w.durable) && MayTake(w.system, step, w.cut, w.durable.status.Completed?)
    ensures Settled(w) ==> !step.Allocate?
  {
    hide Strip;
  }

  lemma WatcherAfterEmit(w: World, next: World)
    requires WatcherOk(w) && next == w.(system := next.system, cut := next.cut)
    requires w.system.log <= next.system.log && Top(w.system.published) <= Top(next.system.published)
    requires w.watcher.HoldingHot? || w.watcher.HoldingLatest? ==> SeenHot(next, w.watcher.hot)
    ensures WatcherOk(next)
  {
    hide SeenHot;
  }

  lemma EmitKeeps(c: Config, titles: Client.Titles, w: World, step: Publisher.Step)
    requires WorldOk(w) && CanStep(c, w, Emit(step))
    ensures WorldOk(After(c, titles, w, Emit(step)))
  {
    hide LogOk, TextOk, SinksOk, Enabled, Next, MayTake, MayEmit, SeenHot, Shows, LosesText, HotIsLast;
    var s, next := w.system, Next(c, w.system, step);
    var after := After(c, titles, w, Emit(step));
    SinksAfter(c, s, step, w.cut, w.durable.status.Completed?);
    LogGrowsInStep(c, s, step);
    TopGrows(c, w, step);
    LogInStep(c, s, step);
    if step.Allocate? {
      AllocateKeepsLog(w, step);
    }
    SettledLogIsFrozen(w, step);
    TextInLongerLog(s.log, next.log, w.durable, w.view.content, w.shown, w.finished);
    assert TerminalFree(s.log, w.shown) <==> TerminalFree(next.log, w.shown);
    if w.watcher.HoldingHot? || w.watcher.HoldingLatest? {
      SeenHotLater(w, after, w.watcher.hot);
    }
    if w.finished.None? && Settled(w) {
      HotStaysLast(c, w, step);
    }
    WatcherAfterEmit(w, after);
  }

  lemma AllocateKeepsLog(w: World, step: Publisher.Step)
    requires LogOk(w.system.log, w.durable) && step.Allocate? && MayEmit(w, step.event)
    requires MayTake(w.system, step, w.cut, w.durable.status.Completed?)
    ensures LogOk(w.system.log + [step.event], w.durable)
  {
    hide LogOk, MayEmit;
    LogAfterEmit(w, step.event);
  }

  lemma CommitKeeps(w: World, durable: Durable)
    requires WorldOk(w) && MayCommit(w, durable)
    ensures WorldOk(w.(durable := durable))
  {
    hide SinksOk, Strip, Shows, HotIsLast;
    var next := w.(durable := durable);
    assert !Settled(w);
    if durable.status.Completed? {
      assert TerminalFree(w.system.log, w.shown);
      SinksAfterCommit(w.system, w.cut);
    }
    assert !Settled(next);
  }

  // ---------------------------------------------------------------------------
  // Steps of the observer and of the client
  // ---------------------------------------------------------------------------

  lemma ReadHotKeeps(c: Config, titles: Client.Titles, w: World, failed: bool)
    requires WorldOk(w) && CanStep(c, w, ReadHot(failed))
    ensures WorldOk(After(c, titles, w, ReadHot(failed)))
    ensures Offers(w, After(c, titles, w, ReadHot(failed)).view.content)
  {
    hide OffersByHot, TextAfter, SystemOk, TextOk, Shows, Deliver, Initial, ResolveAgainst;
    var hot, durable := HotOf(w.system), w.watcher.durable;
    if !failed && hot.Some? {
      HotIsSeen(w);
    } else {
      var read := if failed then Raised else Ok(None);
      var resolution := Resolve(Lookup(Some(durable), read, Raised, Raised), None, c.maxActivities);
      assert SeenDurable(w, durable) && resolution.frame.state == Initial(durable);
      CoreOfWorld(w);
      DeliverKeeps(titles, w, resolution, w.watcher.polling);
    }
  }

  lemma HotIsSeen(w: World)
    requires SystemOk(w.system, w.cut, w.durable) && HotOf(w.system).Some? && (Settled(w) ==> HotIsLast(w.system))
    ensures SeenHot(w, HotOf(w.system).value)
  {
    hide Shows, IsCurrent, LogOk, LogShape, Increasing;
    var busy :| SinksAt(w.system, busy, w.cut, w.durable.status.Completed?);
    assert HotShows(w.system.log, Top(w.system.published), Held(w.system.hot));
  }

  lemma LatestIsSeen(w: World)
    requires SystemOk(w.system, w.cut, w.durable) && LatestOf(w.system).Some? && w.shown <= Top(w.system.published)
    ensures SeenLatest(w, LatestOf(w.system).value)
  {
    hide Shows, IsCurrent, LogOk, LogShape, Increasing;
    var busy :| SinksAt(w.system, busy, w.cut, w.durable.status.Completed?);
    assert AllGenuine(w.system.log, w.system.published);
  }

  lemma ReadLatestKeeps(c: Config, titles: Client.Titles, w: World, failed: bool)
    requires WorldOk(w) && CanStep(c, w, ReadLatest(failed))
    ensures WorldOk(After(c, titles, w, ReadLatest(failed)))
    ensures Offers(w, After(c, titles, w, ReadLatest(failed)).view.content)
  {
    hide OffersByHot, TextAfter, SystemOk, TextOk, Shows, Deliver;
    var latest, watcher := LatestOf(w.system), w.watcher;
    CoreOfWorld(w);
    if failed || latest.None? {
      DeliverKeeps(titles, w, Resolved(StaleFrame(watcher.hot, None), None), watcher.polling);
    } else {
      LatestIsSeen(w);
      if watcher.hot.sequence >= latest.value.entry.sequence {
        var resolution := ResolveAgainst(watcher.hot, latest.value, Raised, None, c.maxActivities);
        SameSequence(watcher.hot);
        DeliverKeeps(titles, w, resolution, watcher.polling);
      }
    }
  }

  lemma SameSequence(state: State)
    ensures state.(sequence := state.sequence) == state
  {}

  /** Bridging with any part of the stream shows the latest entry. */
  lemma BridgedIsSeen(w: World, hot: State, latest: StreamEvent, retained: seq<Entry>, maxActivities: nat)
    requires SystemOk(w.system, w.cut, w.durable) && SeenHot(w, hot) && SeenLatest(w, latest)
    requires hot.sequence < latest.entry.sequence
    requires forall entry <- retained :: Genuine(w.system.log, entry)
    requires Bridges(Between(retained, hot.sequence, latest.entry.sequence), hot.sequence, latest.entry.sequence)
    ensures var state := Replay(hot, Between(retained, hot.sequence, latest.entry.sequence), maxActivities);
      SeenHot(w, state) && state.sequence == latest.entry.sequence
  {
    hide Shows, Replay, Bridges, SinksOk;
    var relevant := Between(retained, hot.sequence, latest.entry.sequence);
    BetweenAreThose(retained, hot.sequence, latest.entry.sequence);
    GenuineBridgeIsLog(w.system.log, relevant, hot.sequence, latest.entry.sequence);
    assert LogShape(w.system.log, w.durable.status.Completed?) by { ShapeOfSystem(w); }
    ReplayedShows(w.system.log, w.durable.status.Completed?, hot, latest.entry.sequence, maxActivities);
    SettledEnd(w, latest.entry.sequence);
  }

  lemma ShapeOfSystem(w: World)
    requires SystemOk(w.system, w.cut, w.durable)
    ensures LogShape(w.system.log, w.durable.status.Completed?)
  {}

  lemma GenuineInStream(w: World, entries: seq<Entry>)
    requires SystemOk(w.system, w.cut, w.durable) && forall entry <- entries :: entry in w.system.published
    ensures forall entry <- entries :: Genuine(w.system.log, entry) && entry.sequence <= Top(w.system.published)
  {
    hide LogOk, LogShape, HotShows, IsCurrent, Genuine;
    var busy :| SinksAt(w.system, busy, w.cut, w.durable.status.Completed?);
    TopIsHighest(w.system.published);
    assert AllGenuine(w.system.log, w.system.published);
  }

  lemma ReadRetainedKeeps(c: Config, titles: Client.Titles, w: World, retained: Read<seq<Entry>>)
    requires WorldOk(w) && CanStep(c, w, ReadRetained(retained))
    ensures WorldOk(After(c, titles, w, ReadRetained(retained)))
    ensures Offers(w, After(c, titles, w, ReadRetained(retained)).view.content)
  {
    hide Offers, SystemOk, TextOk, Shows, Deliver, Replay, Bridges, Between;
    var watcher := w.watcher;
    var low, high := watcher.hot.sequence, watcher.latest.entry.sequence;
    var resolution := ResolveAgainst(watcher.hot, watcher.latest, retained, None, c.maxActivities);
    CoreOfWorld(w);
    if retained.Ok? {
      GenuineInStream(w, retained.value);
      if Bridges(Between(retained.value, low, high), low, high) {
        BridgedIsSeen(w, watcher.hot, watcher.latest, retained.value, c.maxActivities);
        SameSequence(Replay(watcher.hot, Between(retained.value, low, high), c.maxActivities));
      }
    }
    DeliverKeeps(titles, w, resolution, watcher.polling);
  }

  lemma SettledEnd(w: World, n: nat)
    requires LogOk(w.system.log, w.durable) && w.shown <= n <= |w.system.log|
    ensures Settled(w) ==> n == |w.system.log|
  {
    hide Strip;
  }

  lemma BatchIsGenuine(w: World, cursor: nat, batch: seq<StreamEvent>)
    requires SystemOk(w.system, w.cut, w.durable) && IsBatch(w.system, cursor, batch)
    ensures forall event <- batch ::
      Genuine(w.system.log, event.entry) && event.entry.sequence <= Top(w.system.published)
  {
    hide SystemOk;
    var start := Max(w.system.first, cursor);
    GenuineInStream(w, w.system.published);
    forall i | 0 <= i < |batch|
      ensures Genuine(w.system.log, batch[i].entry) && batch[i].entry.sequence <= Top(w.system.published)
    {
      assert batch[i].entry == w.system.published[start + i];
    }
  }

  lemma ReadTailKeeps(c: Config, titles: Client.Titles, w: World, read: Read<seq<StreamEvent>>)
    requires WorldOk(w) && CanStep(c, w, ReadTail(read))
    ensures WorldOk(After(c, titles, w, ReadTail(read)))
    ensures After(c, titles, w, ReadTail(read)).view.content == w.view.content
  {
    hide SystemOk, TextOk, Receive, IsBatch;
    CoreOfWorld(w);
    if read.Raised? {
      ReceiveOtherKeeps(titles, w, Unavailable(StreamUnavailable));
    } else if read.value == [] {
      ReceiveOtherKeeps(titles, w, Heartbeat);
    } else {
      BatchIsGenuine(w, w.watcher.cursor, read.value);
    }
  }

  lemma YieldOldKeeps(titles: Client.Titles, w: World)
    requires WorldOk(w) && w.watcher.Following? && w.watcher.buffer != []
    requires w.watcher.buffer[0].entry.sequence <= w.shown
    ensures WorldOk(Yielded(titles, w)) && Yielded(titles, w).shown == w.shown
    ensures Yielded(titles, w).view.content == w.view.content
  {
    hide SystemOk, TextOk, HotIsLast;
    assert forall e <- w.watcher.buffer[1..] :: e in w.watcher.buffer;
  }

  lemma YieldGapKeeps(titles: Client.Titles, w: World)
    requires WorldOk(w) && w.watcher.Following? && w.watcher.buffer != []
    requires w.watcher.buffer[0].entry.sequence > w.shown + 1
    ensures WorldOk(Yielded(titles, w)) && Yielded(titles, w).shown == w.shown
    ensures Yielded(titles, w).view.content == w.view.content
  {
    var tail := TakeEvent(Tail([], w.watcher.sequence, w.watcher.cursor, true), w.watcher.buffer[0]);
    assert tail.frames == [Unavailable(SequenceGap)] && !tail.live;
    assert Yielded(titles, w) == Receive(titles, w, Unavailable(SequenceGap)).(watcher := Off);
    CoreOfWorld(w);
    hide SystemOk, TextOk, Receive, Yielded, TakeEvent, SeenHot, Settled, HotIsLast;
    ReceiveOtherKeeps(titles, w, Unavailable(SequenceGap));
  }

  lemma YieldNextKeeps(titles: Client.Titles, w: World)
    requires WorldOk(w) && w.watcher.Following? && w.watcher.buffer != []
    requires w.watcher.buffer[0].entry.sequence == w.shown + 1
    ensures WorldOk(Yielded(titles, w)) && Yielded(titles, w).shown == w.shown + 1
    ensures w.finished.None? && w.shown < |w.system.log|
    ensures Yielded(titles, w).view.content == TextAfter(w.view.content, w.system.log[w.shown])
  {
    hide SinksOk, LogOk, TextOk, Client.Applied, ToClient, Client.TerminalStatus, TextAfter, EndOf, HotIsLast;
    var event := w.watcher.buffer[0];
    assert event in w.watcher.buffer && forall e <- w.watcher.buffer[1..] :: e in w.watcher.buffer;
    ContentAfterEvent(titles, w.view, event.entry);
    ShowEvent(w.system.log, w.durable, w.view.content, w.shown);
    assert Yielded(titles, w).view.content == TextAfter(w.view.content, event.entry.event);
  }

  /** The event frames a client receives continue where it is: no event is lost or repeated. */
  lemma YieldKeeps(c: Config, titles: Client.Titles, w: World)
    requires WorldOk(w) && CanStep(c, w, Yield)
    ensures WorldOk(Yielded(titles, w))
    ensures Yielded(titles, w).shown == w.shown
         || (w.watcher.buffer[0].entry.sequence == w.shown + 1 == Yielded(titles, w).shown)
    ensures Offers(w, Yielded(titles, w).view.content)
  {
    var sequence := w.watcher.buffer[0].entry.sequence;
    hide WorldOk, Yielded, OffersByHot, TextAfter;
    if sequence <= w.shown {
      YieldOldKeeps(titles, w);
    } else if sequence == w.shown + 1 {
      YieldNextKeeps(titles, w);
    } else {
      YieldGapKeeps(titles, w);
    }
  }

  lemma RefreshHotKeeps(c: Config, titles: Client.Titles, w: World, failed: bool)
    requires WorldOk(w) && CanStep(c, w, RefreshHot(failed))
    ensures WorldOk(After(c, titles, w, RefreshHot(failed)))
    ensures Offers(w, After(c, titles, w, RefreshHot(failed)).view.content)
  {
    assert Offers(w, w.view.content);
    hide SinksOk, LogOk, TextOk, Shows, Client.ApplyStateAnswer, Initial, Offers;
    var durable, hot, log := w.watcher.durable, HotOf(w.system), w.system.log;
    if !failed {
      var (answer, n) := RefreshedAnswer(durable, hot);
      if n > 0 {
        HotIsSeen(w);
        HotIsOffered(w, hot.value);
        ShowState(log, w.durable, w.view.content, w.shown, hot.value);
        ShownEnd(w, Max(w.shown, n));
      } else {
        RowIsOffered(w, durable);
        ShowDurable(log, w.durable, w.view.content, w.shown, durable);
        assert answer == durable.answer.GetOr("") by { RefreshedFromRow(w, durable); }
      }
    }
  }

  lemma RefreshedFromRow(w: World, durable: Durable)
    requires WorldOk(w) && w.finished.None? && RefreshedAnswer(durable, HotOf(w.system)).1 == 0
    ensures RefreshedAnswer(durable, HotOf(w.system)).0 == durable.answer.GetOr("")
  {
    hide SystemOk, TextOk, Shows;
    if HotOf(w.system).Some? {
      HotIsSeen(w);
    }
  }

  lemma ShownEnd(w: World, shown: nat)
    requires LogOk(w.system.log, w.durable) && w.shown <= shown <= |w.system.log|
    ensures w.durable.status.Completed? && !TerminalFree(w.system.log, shown) ==> shown == |w.system.log|
  {
    hide Strip;
  }

  lemma StepKeeps(c: Config, titles: Client.Titles, w: World, step: WorldStep)
    requires WorldOk(w) && CanStep(c, w, step)
    ensures WorldOk(After(c, titles, w, step))
    ensures w.shown <= After(c, titles, w, step).shown
    ensures w.finished.Some? ==> After(c, titles, w, step).finished.Some?
    ensures Offers(w, After(c, titles, w, step).view.content)
  {
    hide SinksOk, TextOk, Strip, TextAfter, OffersByHot;
    ShownOnlyGrows(c, titles, w, step);
    match step
    case Emit(s) => EmitKeeps(c, titles, w, s);
    case Commit(durable) => CommitKeeps(w, durable);
    case ReadHot(failed) => ReadHotKeeps(c, titles, w, failed);
    case ReadLatest(failed) => ReadLatestKeeps(c, titles, w, failed);
    case ReadRetained(retained) => ReadRetainedKeeps(c, titles, w, retained);
    case ReadTail(read) => ReadTailKeeps(c, titles, w, read);
    case Yield => YieldKeeps(c, titles, w);
    case RefreshHot(failed) => RefreshHotKeeps(c, titles, w, failed);
    case Connect =>
    case PollAgain =>
    case Disconnect =>
    case Refresh =>
  }

  lemma DeliverOnlyGrows(titles: Client.Titles, w: World, resolution: Resolution, polling: bool)
    ensures w.shown <= Deliver(titles, w, resolution, polling).shown
    ensures w.finished.Some? ==> Deliver(titles, w, resolution, polling).finished.Some?
  {
    hide Client.Applied, ToClient, Client.TerminalStatus;
  }

  lemma ShownOnlyGrows(c: Config, titles: Client.Titles, w: World, step: WorldStep)
    requires CanStep(c, w, step)
    ensures w.shown <= After(c, titles, w, step).shown
    ensures w.finished.Some? ==> After(c, titles, w, step).finished.Some?
  {
    hide Client.Applied, ToClient, Client.TerminalStatus, Deliver, Resolve, ResolveAgainst, Next, Enabled, MayTake,
      LosesText;
    var watcher := w.watcher;
    match step
    case ReadHot(failed) =>
      var read := if failed then Raised else Ok(None);
      DeliverOnlyGrows(titles, w, Resolve(Lookup(Some(watcher.durable), read, Raised, Raised), None, c.maxActivities),
                       watcher.polling);
    case ReadLatest(failed) =>
      DeliverOnlyGrows(titles, w, Resolved(StaleFrame(watcher.hot, None), None), watcher.polling);
      if LatestOf(w.system).Some? {
        var latest := LatestOf(w.system).value;
        DeliverOnlyGrows(titles, w, ResolveAgainst(watcher.hot, latest, Raised, None, c.maxActivities),
                         watcher.polling);
      }
    case ReadRetained(retained) =>
      DeliverOnlyGrows(titles, w, ResolveAgainst(watcher.hot, watcher.latest, retained, None, c.maxActivities),
                       watcher.polling);
    case _ =>
  }

  // ---------------------------------------------------------------------------
  // Whole histories
  // ---------------------------------------------------------------------------

  lemma StartIsOk()
    ensures WorldOk(START)
  {
    hide Strip;
    assert SinksAt(EMPTY, 0, false, false);
  }

  lemma {:induction false} HistoryIsOk(
      c: Config, titles: Client.Titles, worlds: seq<World>, steps: seq<WorldStep>, i: nat)
    requires IsHistory(c, titles, worlds, steps) && i < |worlds|
    ensures WorldOk(worlds[i])
  {
    hide WorldOk, CanStep, After;
    if i == 0 {
      StartIsOk();
    } else {
      HistoryIsOk(c, titles, worlds, steps, i - 1);
      StepKeeps(c, titles, worlds[i - 1], steps[i - 1]);
    }
  }

  lemma {:induction false} ShownGrows(c: Config, titles: Client.Titles, worlds: seq<World>, steps: seq<WorldStep>,
                                      i: nat, j: nat)
    requires IsHistory(c, titles, worlds, steps) && i <= j < |worlds|
    ensures worlds[i].shown <= worlds[j].shown
    ensures worlds[i].finished.Some? ==> worlds[j].finished.Some?
    ensures worlds[i].system.log <= worlds[j].system.log
  {
    hide CanStep, After;
    if i < j {
      ShownGrows(c, titles, worlds, steps, i, j - 1);
      ShownOnlyGrows(c, titles, worlds[j - 1], steps[j - 1]);
      LogOnlyGrows(c, titles, worlds[j - 1], steps[j - 1]);
    }
  }

  lemma LogOnlyGrows(c: Config, titles: Client.Titles, w: World, step: WorldStep)
    requires CanStep(c, w, step)
    ensures w.system.log <= After(c, titles, w, step).system.log
  {
    hide Client.Applied, ToClient, Client.TerminalStatus, Resolve, ResolveAgainst, Next, Enabled, MayTake, LosesText,
      TakeEvent;
    if step.Emit? {
      LogGrowsInStep(c, w.system, step.step);
    }
  }

  /**
   * Over every history of emits, reads, disconnects, reconnects and durable fallbacks: until it is told the
   * end, the client's content is the concatenation of the deltas up to the highest sequence it was shown.
   */
  lemma ContentIsDeltas(c: Config, titles: Client.Titles, worlds: seq<World>, steps: seq<WorldStep>, i: nat)
    requires IsHistory(c, titles, worlds, steps) && i < |worlds|
    ensures var w := worlds[i];
      && w.shown <= |w.system.log|
      && (w.finished.None? && TerminalFree(w.system.log, w.shown) ==> w.view.content == Deltas(w.system.log, w.shown))
  {
    HistoryIsOk(c, titles, worlds, steps, i);
  }

  /** Once the client has been told that the execution completed, its stripped content is the stored answer. */
  lemma CompletedContentIsAnswer(c: Config, titles: Client.Titles, worlds: seq<World>, steps: seq<WorldStep>, i: nat)
    requires IsHistory(c, titles, worlds, steps) && i < |worlds| && worlds[i].finished == Some(Completed)
    ensures Some(Strip(worlds[i].view.content)) == worlds[i].durable.answer
    ensures worlds[i].durable.status.Completed?
    ensures worlds[i].durable.answer == Some(Strip(Deltas(worlds[i].system.log, |worlds[i].system.log|)))
  {
    HistoryIsOk(c, titles, worlds, steps, i);
  }

  /** While an answer streams in, neither the content nor what is rendered of it is ever taken back. */
  lemma StreamedContentOnlyGrows(c: Config, titles: Client.Titles, worlds: seq<World>, steps: seq<WorldStep>,
                                 i: nat, j: nat)
    requires IsHistory(c, titles, worlds, steps) && i <= j < |worlds| && worlds[j].finished.None?
    requires worlds[j].shown <= |worlds[j].system.log| && TerminalFree(worlds[j].system.log, worlds[j].shown)
    ensures worlds[i].view.content <= worlds[j].view.content
    ensures RichContent.Narrative(RichContent.DIRECTIVES, worlds[i].view.content)
         <= RichContent.Narrative(RichContent.DIRECTIVES, worlds[j].view.content)
  {
    hide RichContent.Narrative, CanStep, After;
    var earlier, later := worlds[i], worlds[j];
    ShownGrows(c, titles, worlds, steps, i, j);
    ContentIsDeltas(c, titles, worlds, steps, i);
    ContentIsDeltas(c, titles, worlds, steps, j);
    assert TerminalFree(earlier.system.log, earlier.shown);
    DeltasInLonger(earlier.system.log, later.system.log, earlier.shown);
    DeltasGrow(later.system.log, earlier.shown, later.shown);
    RichContent.DirectivesAreValid();
    RichContent.StreamingNeverRetracts(RichContent.DIRECTIVES, earlier.view.content, later.view.content);
  }

  // ---------------------------------------------------------------------------
  // A history
  // ---------------------------------------------------------------------------

  lemma ExtendHistory(c: Config, titles: Client.Titles, worlds: seq<World>, steps: seq<WorldStep>, step: WorldStep)
    returns (longer: seq<World>, more: seq<WorldStep>)
    requires IsHistory(c, titles, worlds, steps) && CanStep(c, worlds[|steps|], step)
    ensures IsHistory(c, titles, longer, more) && worlds <= longer && |longer| == |more| + 1
    ensures longer[|more|] == After(c, titles, worlds[|steps|], step)
  {
    hide CanStep, After;
    longer, more := worlds + [After(c, titles, worlds[|steps|], step)], steps + [step];
  }

  /** Nothing was lost or trimmed, and no emit is under way. */
  ghost predicate IsCalm(w: World) {
    !w.cut && AllIdle(w.system) && w.system.first == 0 && |w.system.published| == |w.system.log|
  }

  /** The event is emitted, and nothing else happens. */
  ghost predicate IsEmitted(c: Config, w: World, next: World, event: Event) {
    var s, entry := w.system, Entry(|w.system.log| + 1, event);
    && IsCalm(next)
    && next == w.(system := next.system)
    && next.system == s.(log := s.log + [event], published := s.published + [entry],
                         hot := Some(Stored(c, entry, s.hot)), emitters := next.system.emitters)
  }

  /** An emit between which nothing else happens. */
  lemma EmitWhole(c: Config, titles: Client.Titles, worlds: seq<World>, steps: seq<WorldStep>, sink: nat, event: Event)
    returns (longer: seq<World>, more: seq<WorldStep>)
    requires IsHistory(c, titles, worlds, steps) && IsCalm(worlds[|steps|])
    requires var w := worlds[|steps|];
      MayEmit(w, event) && MayTake(w.system, Allocate(sink, event), false, w.durable.status.Completed?)
    ensures IsHistory(c, titles, longer, more) && worlds <= longer && |longer| == |more| + 1
    ensures IsEmitted(c, worlds[|steps|], longer[|more|], event)
  {
    var w := worlds[|steps|];
    assert |worlds| == |steps| + 1;
    hide IsHistory, Stored, Enabled, Next, At, After, CanStep;
    AfterAllocate(c, w.system, sink, event);
    AfterEmit(c, titles, w, Allocate(sink, event));
    longer, more := ExtendHistory(c, titles, worlds, steps, Emit(Allocate(sink, event)));
    AfterPublish(c, longer[|more|].system, sink);
    AfterEmit(c, titles, longer[|more|], Publish(sink, 0));
    longer, more := ExtendHistory(c, titles, longer, more, Emit(Publish(sink, 0)));
    AfterLoadAndStore(c, longer[|more|].system, sink);
    AfterEmit(c, titles, longer[|more|], Load(sink));
    longer, more := ExtendHistory(c, titles, longer, more, Emit(Load(sink)));
    AfterEmit(c, titles, longer[|more|], Store(sink));
    longer, more := ExtendHistory(c, titles, longer, more, Emit(Store(sink)));
  }

  lemma AfterEmit(c: Config, titles: Client.Titles, w: World, step: Publisher.Step)
    requires Enabled(c, w.system, step) && !w.cut && !step.Interrupt? && !step.ExpireHot?
    requires step.Allocate? ==>
      MayEmit(w, step.event) && MayTake(w.system, step, false, w.durable.status.Completed?)
    ensures CanStep(c, w, Emit(step)) && After(c, titles, w, Emit(step)) == w.(system := Next(c, w.system, step))
  {
    hide Next, Enabled;
  }

  /** The client follows the live tail and was shown everything so far. */
  ghost predicate IsFollowing(w: World) {
    var n := |w.system.log|;
    && IsCalm(w) && w.shown == n && w.finished.None?
    && w.watcher == Following(n, n, [])
    && (n > 0 ==> w.system.published[n - 1].sequence == n)
  }

  lemma AfterConnect(c: Config, titles: Client.Titles, w: World)
    requires w.watcher.Off? && w.finished.None?
    ensures CanStep(c, w, Connect) && After(c, titles, w, Connect) == w.(watcher := Resolving(w.durable, false))
  {}

  lemma AfterReadHot(c: Config, titles: Client.Titles, w: World, hot: Hot)
    requires w.watcher == Resolving(w.durable, false) && w.system.hot == Some(hot)
    ensures CanStep(c, w, ReadHot(false))
    ensures After(c, titles, w, ReadHot(false)) == w.(watcher := HoldingHot(w.durable, false, hot.state))
  {
    hide Deliver;
  }

  lemma AfterReadLatest(c: Config, titles: Client.Titles, w: World, hot: State)
    requires w.watcher == HoldingHot(w.durable, false, hot) && hot.sequence == 1 && hot.status.Running?
    requires w.system.first == 0 && |w.system.published| == 1 && w.system.published[0].sequence == 1
    ensures CanStep(c, w, ReadLatest(false))
    ensures After(c, titles, w, ReadLatest(false))
         == Receive(titles, w, StateOf(LiveFrame(hot, 1, None))).(watcher := Following(1, 1, []))
  {
    hide Receive;
  }

  /** The client attaches behind the first event. */
  lemma Attach(c: Config, titles: Client.Titles, worlds: seq<World>, steps: seq<WorldStep>, hot: Hot)
    returns (longer: seq<World>, more: seq<WorldStep>)
    requires IsHistory(c, titles, worlds, steps)
    requires var w := worlds[|steps|];
      && w.watcher.Off? && w.finished.None? && w.shown == 0 && w.system.hot == Some(hot)
      && hot.state.sequence == 1 && hot.state.status.Running?
      && w.system.first == 0 && |w.system.published| == 1 && w.system.published[0].sequence == 1
    ensures IsHistory(c, titles, longer, more) && worlds <= longer && |longer| == |more| + 1
    ensures var next := longer[|more|];
      next == worlds[|steps|].(watcher := Following(1, 1, []), view := next.view, shown := 1)
  {
    assert |worlds| == |steps| + 1;
    hide IsHistory, Client.Applied, ToClient, After, CanStep;
    AfterConnect(c, titles, worlds[|steps|]);
    longer, more := ExtendHistory(c, titles, worlds, steps, Connect);
    AfterReadHot(c, titles, longer[|more|], hot);
    longer, more := ExtendHistory(c, titles, longer, more, ReadHot(false));
    AfterReadLatest(c, titles, longer[|more|], hot.state);
    ContentAfterState(titles, longer[|more|].view, LiveFrame(hot.state, 1, None));
    longer, more := ExtendHistory(c, titles, longer, more, ReadLatest(false));
  }

  /** One more event reaches the client by the tail. */
  lemma FollowOne(c: Config, titles: Client.Titles, worlds: seq<World>, steps: seq<WorldStep>, w: World, event: Event)
    returns (longer: seq<World>, more: seq<WorldStep>)
    requires IsHistory(c, titles, worlds, steps) && IsFollowing(w) && IsEmitted(c, w, worlds[|steps|], event)
    ensures IsHistory(c, titles, longer, more) && worlds <= longer && |longer| == |more| + 1
    ensures var v, next, n := worlds[|steps|], longer[|more|], |w.system.log| + 1;
      && next == v.(watcher := next.watcher, view := next.view, shown := n, finished := EndOf(event))
      && (!event.IsTerminal() ==> IsFollowing(next))
  {
    var v, n := worlds[|steps|], |w.system.log|;
    assert |worlds| == |steps| + 1;
    hide IsHistory, Client.Applied, ToClient, Stored, EndOf;
    var entry := Entry(n + 1, event);
    var batch := [StreamEvent(n + 1, entry)];
    assert v.system.published[n] == entry && IsBatch(v.system, n, batch);
    longer, more := ExtendHistory(c, titles, worlds, steps, ReadTail(Ok(batch)));
    longer, more := ExtendHistory(c, titles, longer, more, Yield);
    ContentAfterEvent(titles, v.view, entry);
    assert batch[1..] == [];
  }

  /** A history in which the client follows the live tail behind the started event. */
  lemma ClientFollows(c: Config, titles: Client.Titles, started: Event)
    returns (worlds: seq<World>, steps: seq<WorldStep>)
    requires StatusOf(started) == Some(Running) && started.Delta() == ""
    ensures IsHistory(c, titles, worlds, steps) && |worlds| == |steps| + 1
    ensures var w := worlds[|steps|];
      IsFollowing(w) && w.system.log == [started] && w.durable == NOTHING_DURABLE
  {
    worlds, steps := [START], [];
    assert IsHistory(c, titles, worlds, steps) && IsCalm(START);
    CalmMayTake(START);
    hide IsHistory, Stored, Client.Applied, IsCalm;
    worlds, steps := EmitWhole(c, titles, worlds, steps, 0, started);
    StoredWithoutText(c, Entry(1, started), None);
    worlds, steps := Attach(c, titles, worlds, steps, Stored(c, Entry(1, started), None));
    CalmAgain(worlds[|steps|]);
  }

  lemma CalmAgain(w: World)
    requires !w.cut && AllIdle(w.system) && w.system.first == 0 && |w.system.published| == |w.system.log|
    ensures IsCalm(w)
  {}

  /** A history in which a delta streams in live. */
  lemma DeltaStreams(c: Config, titles: Client.Titles, started: Event, delta: Event)
    returns (worlds: seq<World>, steps: seq<WorldStep>)
    requires StatusOf(started) == Some(Running) && started.Delta() == "" && delta.AssistantDelta?
    ensures IsHistory(c, titles, worlds, steps) && |worlds| == |steps| + 1
    ensures var w := worlds[|steps|];
      && IsFollowing(w) && w.system.log == [started, delta] && w.durable == NOTHING_DURABLE
      && w.view.content == delta.content
  {
    hide IsHistory, Stored, Client.Applied, EndOf, IsCalm;
    worlds, steps := ClientFollows(c, titles, started);
    var before := worlds[|steps|];
    CalmMayTake(before);
    worlds, steps := EmitWhole(c, titles, worlds, steps, 1, delta);
    worlds, steps := FollowOne(c, titles, worlds, steps, before, delta);
    assert worlds[|steps|].system.log == [started, delta];
    TextOfTwo(started, delta);
    ContentIsDeltas(c, titles, worlds, steps, |steps|);
  }

  lemma CalmMayTake(w: World)
    requires IsCalm(w)
    ensures !w.cut && forall k :: At(w.system, k).Idle?
  {}

  /** A history in which a delta streams in live and the completion is shown behind it. */
  lemma AnswerStreamsAndCompletes(c: Config, titles: Client.Titles)
    returns (worlds: seq<World>, steps: seq<WorldStep>, i: nat)
    ensures IsHistory(c, titles, worlds, steps) && i < |worlds| == |steps| + 1
    ensures worlds[i].finished.None? && worlds[i].view.content == "Done."
    ensures worlds[|steps|].finished == Some(Completed) && Strip(worlds[|steps|].view.content) == "Done."
  {
    var started, delta, completed := ExecutionStarted(None), AssistantDelta("Done."), ExecutionCompleted("Done.", None);
    hide IsHistory, Stored, Client.Applied, Next, Enabled, After, IsCalm, Strip, Deltas;
    worlds, steps := DeltaStreams(c, titles, started, delta);
    i := |steps|;
    TextOfTwo(started, delta);
    StripFixed("Done.");
    var row := Durable(Completed, None, Some("Done."), None, None);
    CalmMayTake(worlds[i]);
    var w := worlds[i].(durable := row);
    worlds, steps := Completes(c, titles, worlds, steps, row);
    assert worlds[|steps|] == w;
    CalmMayTake(w);
    worlds, steps := EmitWhole(c, titles, worlds, steps, 0, completed);
    worlds, steps := FollowOne(c, titles, worlds, steps, w, completed);
    CompletedContentIsAnswer(c, titles, worlds, steps, |steps|);
  }

  lemma Completes(c: Config, titles: Client.Titles, worlds: seq<World>, steps: seq<WorldStep>, row: Durable)
    returns (longer: seq<World>, more: seq<WorldStep>)
    requires IsHistory(c, titles, worlds, steps) && MayCommit(worlds[|steps|], row) && IsFollowing(worlds[|steps|])
    ensures IsHistory(c, titles, longer, more) && worlds <= longer && |longer| == |more| + 1
    ensures longer[|more|] == worlds[|steps|].(durable := row) && IsFollowing(longer[|more|])
  {
    longer, more := ExtendHistory(c, titles, worlds, steps, Commit(row));
  }

  lemma TextOfTwo(a: Event, b: Event)
    requires a.Delta() == ""
    ensures Deltas([a, b], 2) == b.Delta()
  {
    assert Deltas([a, b], 1) == Deltas([a, b], 0) + "";
  }
}
