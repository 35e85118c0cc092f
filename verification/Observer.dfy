/** The observer: it reconstructs the current state from separate reads and follows the live tail. */
module Observer {
  import opened Text
  import opened Events
  import opened Projection
  import opened Publisher

  /** A read from Redis, which may fail. */
  datatype Read<+T> = Raised | Ok(value: T)

  /** An entry with its position in the stream. */
  datatype StreamEvent = StreamEvent(id: nat, entry: Entry)

  datatype Reason = HotStateUnavailable | AwaitingRuntime | StreamUnavailable | SequenceGap

  datatype StateFrame = StateFrame(
    sequence: Option<nat>,
    state: State,
    realtime: bool,
    reason: Option<Reason>,
    reattachedFrom: Option<nat>)
  {
    predicate IsTerminal() {
      state.status.IsTerminal()
    }

    predicate IsCutOff() {
      reason == Some(HotStateUnavailable) || reason == Some(StreamUnavailable)
    }
  }

  /** An unknown execution raises a key error, a gap its own error. */
  datatype Resolution = Unknown | Gap | Resolved(frame: StateFrame, cursor: Option<nat>)

  /** What the four reads of one resolution return. */
  datatype Lookup = Lookup(
    durable: Option<Durable>,
    hot: Read<Option<State>>,
    latest: Read<Option<StreamEvent>>,
    retained: Read<seq<Entry>>)

  datatype Frame =
    | StateOf(frame: StateFrame)
    | EventOf(entry: Entry)
    | Heartbeat
    | Unavailable(reason: Reason)

  // ---------------------------------------------------------------------------
  // The current state
  // ---------------------------------------------------------------------------

  function Between(entries: seq<Entry>, low: nat, high: nat): seq<Entry> {
    if entries == [] then []
    else (if low < entries[0].sequence <= high then [entries[0]] else []) + Between(entries[1..], low, high)
  }

  /** The entries carry exactly the sequences `low + 1` to `high`, in order. */
  predicate Bridges(entries: seq<Entry>, low: nat, high: nat) {
    && low <= high
    && |entries| == high - low
    && forall i | 0 <= i < |entries| :: entries[i].sequence == low + 1 + i
  }

  function DurableFrame(durable: Durable, reason: Reason, lastSequence: Option<nat>): StateFrame {
    StateFrame(None, Initial(durable), false, Some(reason), lastSequence)
  }

  function StaleFrame(projection: State, lastSequence: Option<nat>): StateFrame {
    var sequence := if projection.sequence == 0 then None else Some(projection.sequence);
    StateFrame(sequence, projection, false, Some(StreamUnavailable), lastSequence)
  }

  function LiveFrame(projection: State, high: nat, lastSequence: Option<nat>): StateFrame {
    StateFrame(Some(high), projection.(sequence := high), true, None, lastSequence)
  }

  /** What the resolution comes to, told without its loop: the retained entries bridge the gap or they do not. */
  function Resolve(lookup: Lookup, lastSequence: Option<nat>, maxActivities: nat): Resolution {
    if lookup.durable.None? then Unknown
    else if lookup.hot.Raised? then
      Resolved(DurableFrame(lookup.durable.value, HotStateUnavailable, lastSequence), None)
    else if lookup.hot.value.None? then
      Resolved(DurableFrame(lookup.durable.value, AwaitingRuntime, lastSequence), None)
    else if lookup.latest.Raised? || lookup.latest.value.None? then
      Resolved(StaleFrame(lookup.hot.value.value, lastSequence), None)
    else ResolveAgainst(lookup.hot.value.value, lookup.latest.value.value, lookup.retained, lastSequence, maxActivities)
  }

  function ResolveAgainst(projection: State, latest: StreamEvent, retained: Read<seq<Entry>>,
                          lastSequence: Option<nat>, maxActivities: nat): Resolution {
    var low, high := projection.sequence, latest.entry.sequence;
    if low == high then Resolved(LiveFrame(projection, high, lastSequence), Some(latest.id))
    else if high < low then Resolved(StaleFrame(projection, lastSequence), None)
    else if retained.Raised? then Resolved(StaleFrame(projection, None), None)
    else
      var relevant := Between(retained.value, low, high);
      if Bridges(relevant, low, high) then
        Resolved(LiveFrame(Replay(projection, relevant, maxActivities), high, lastSequence), Some(latest.id))
      else Gap
  }

  /** The first `n` entries follow the sequence `low` without a gap. */
  predicate IsConsecutive(entries: seq<Entry>, low: nat, n: nat)
    requires n <= |entries|
  {
    forall k | 0 <= k < n :: entries[k].sequence == low + 1 + k
  }

  lemma NextReplayed(start: State, relevant: seq<Entry>, i: nat, maxActivities: nat)
    requires i < |relevant|
    ensures IsConsecutive(relevant, start.sequence, i + 1)
       <==> IsConsecutive(relevant, start.sequence, i) && relevant[i].sequence == start.sequence + 1 + i
    ensures Replay(start, relevant[..i + 1], maxActivities)
         == Reduce(Replay(start, relevant[..i], maxActivities), relevant[i], maxActivities)
  {
    hide Replay, Reduce;
    assert relevant[..i + 1] == relevant[..i] + [relevant[i]];
    ReplayOne(start, relevant[..i], relevant[i], maxActivities);
  }

  lemma BridgesIfConsecutive(relevant: seq<Entry>, low: nat, high: nat)
    requires low < high
    ensures Bridges(relevant, low, high)
       <==> relevant != [] && IsConsecutive(relevant, low, |relevant|) && relevant[|relevant| - 1].sequence == high
  {}

  lemma NotConsecutive(relevant: seq<Entry>, low: nat, i: nat)
    requires i < |relevant| && relevant[i].sequence != low + 1 + i
    ensures !IsConsecutive(relevant, low, |relevant|)
  {}

  /** The replay loop of `_resolve_current_state`. */
  method Bridge(start: State, relevant: seq<Entry>, high: nat, maxActivities: nat) returns (projection: Option<State>)
    requires start.sequence < high
    ensures projection == if Bridges(relevant, start.sequence, high) then Some(Replay(start, relevant, maxActivities))
                          else None
  {
    BridgesIfConsecutive(relevant, start.sequence, high);
    assert Replay(start, relevant[..0], maxActivities) == start && IsConsecutive(relevant, start.sequence, 0);
    hide Replay, Reduce, Bridges, IsConsecutive;
    if |relevant| == 0 {
      return None;
    }
    if relevant[0].sequence != start.sequence + 1 {
      NotConsecutive(relevant, start.sequence, 0);
      return None;
    }
    var state := start;
    var expected := start.sequence + 1;
    for i := 0 to |relevant|
      invariant expected == start.sequence + 1 + i && IsConsecutive(relevant, start.sequence, i)
      invariant state == Replay(start, relevant[..i], maxActivities)
    {
      if relevant[i].sequence != expected {
        NotConsecutive(relevant, start.sequence, i);
        return None;
      }
      NextReplayed(start, relevant, i, maxActivities);
      state := Reduce(state, relevant[i], maxActivities);
      expected := expected + 1;
    }
    if relevant[|relevant| - 1].sequence != high {
      return None;
    }
    assert relevant[..|relevant|] == relevant;
    projection := Some(state);
  }

  method ResolveCurrentState(lookup: Lookup, lastSequence: Option<nat>, maxActivities: nat)
    returns (resolution: Resolution)
    ensures resolution == Resolve(lookup, lastSequence, maxActivities)
  {
    hide Reduce, Replay, Initial, Bridges;
    if lookup.durable.None? {
      return Unknown;
    }
    if lookup.hot.Raised? {
      return Resolved(DurableFrame(lookup.durable.value, HotStateUnavailable, lastSequence), None);
    }
    if lookup.hot.value.None? {
      return Resolved(DurableFrame(lookup.durable.value, AwaitingRuntime, lastSequence), None);
    }
    var projection := lookup.hot.value.value;
    if lookup.latest.Raised? || lookup.latest.value.None? {
      return Resolved(StaleFrame(projection, lastSequence), None);
    }
    var latest := lookup.latest.value.value;
    var high := latest.entry.sequence;
    if projection.sequence < high {
      if lookup.retained.Raised? {
        return Resolved(StaleFrame(projection, None), None);
      }
      var relevant := Between(lookup.retained.value, projection.sequence, high);
      var bridged := Bridge(projection, relevant, high, maxActivities);
      if bridged.None? {
        return Gap;
      }
      projection := bridged.value;
    } else if projection.sequence > high {
      return Resolved(StaleFrame(projection, lastSequence), None);
    }
    resolution := Resolved(LiveFrame(projection, high, lastSequence), Some(latest.id));
  }

  // ---------------------------------------------------------------------------
  // What the reads lead to
  // ---------------------------------------------------------------------------

  /** Projection and high watermark were both read. */
  predicate ReadsBoth(lookup: Lookup) {
    lookup.hot.Ok? && lookup.hot.value.Some? && lookup.latest.Ok? && lookup.latest.value.Some?
  }

  /** The projection was read, but the stream does not answer, or lags behind it. */
  predicate StreamFails(lookup: Lookup) {
    && lookup.hot.Ok? && lookup.hot.value.Some?
    && var sequence := lookup.hot.value.value.sequence;
    && (|| lookup.latest.Raised? || lookup.latest.value.None?
        || lookup.latest.value.value.entry.sequence < sequence
        || (sequence < lookup.latest.value.value.entry.sequence && lookup.retained.Raised?))
  }

  /** The reason of a frame is what its reads say, and a frame without a reason is realtime. */
  lemma ReasonIsOfReads(lookup: Lookup, lastSequence: Option<nat>, maxActivities: nat)
    requires lookup.durable.Some?
    ensures var r := Resolve(lookup, lastSequence, maxActivities);
      && !r.Unknown?
      && (r.Gap? ==> ReadsBoth(lookup) && !StreamFails(lookup))
      && (r.Resolved? ==>
            && (r.frame.reason == Some(HotStateUnavailable) <==> lookup.hot.Raised?)
            && (r.frame.reason == Some(AwaitingRuntime) <==> lookup.hot == Ok(None))
            && (r.frame.reason == Some(StreamUnavailable) <==> StreamFails(lookup))
            && (r.frame.reason.None? <==> r.frame.realtime) && r.frame.reason != Some(SequenceGap))
  {
    hide Replay, Bridges, Between, Initial;
  }

  /** What the frame shows: the row, the projection as it was read, or the projection continued to the watermark. */
  lemma FrameIsOfReads(lookup: Lookup, lastSequence: Option<nat>, maxActivities: nat)
    requires lookup.durable.Some? && Resolve(lookup, lastSequence, maxActivities).Resolved?
    ensures var r := Resolve(lookup, lastSequence, maxActivities);
      && (lookup.hot.Raised? || lookup.hot.value.None? ==>
            r.frame.state == Initial(lookup.durable.value) && r.frame.sequence.None?
            && r.frame.reattachedFrom == lastSequence)
      && (StreamFails(lookup) ==>
            && r.frame.state == lookup.hot.value.value
            && r.frame.sequence.GetOr(0) == lookup.hot.value.value.sequence && r.frame.sequence != Some(0)
            && (var stalled := ReadsBoth(lookup)
                               && lookup.hot.value.value.sequence < lookup.latest.value.value.entry.sequence;
                r.frame.reattachedFrom == if stalled then None else lastSequence))
      && (r.frame.realtime ==>
            var latest := lookup.latest.value.value;
            && r.frame.sequence == Some(latest.entry.sequence) && r.frame.state.sequence == latest.entry.sequence
            && r.cursor == Some(latest.id) && r.frame.reattachedFrom == lastSequence)
  {
    hide Replay, Bridges, Between, Initial;
  }

  /** A gap is reported exactly if the retained entries do not lead from the projection to the watermark. */
  lemma GapIsOfReads(lookup: Lookup, lastSequence: Option<nat>, maxActivities: nat)
    requires lookup.durable.Some? && ReadsBoth(lookup) && lookup.retained.Ok?
    ensures var low, high := lookup.hot.value.value.sequence, lookup.latest.value.value.entry.sequence;
      Resolve(lookup, lastSequence, maxActivities).Gap?
      <==> low < high && !Bridges(Between(lookup.retained.value, low, high), low, high)
  {
    hide Replay, Bridges, Between, Initial;
  }

  // ---------------------------------------------------------------------------
  // The live tail
  // ---------------------------------------------------------------------------

  /** How far an observation has come: its frames, its position, and whether it goes on. */
  datatype Tail = Tail(frames: seq<Frame>, sequence: nat, cursor: nat, live: bool)

  function TakeEvent(tail: Tail, event: StreamEvent): Tail {
    var entry := event.entry;
    if !tail.live then tail
    else if entry.sequence <= tail.sequence then tail.(cursor := event.id)
    else if entry.sequence != tail.sequence + 1 then
      tail.(frames := tail.frames + [Unavailable(SequenceGap)], cursor := event.id, live := false)
    else
      Tail(tail.frames + [EventOf(entry)], entry.sequence, event.id, !entry.event.IsTerminal())
  }

  function TakeEvents(tail: Tail, events: seq<StreamEvent>): Tail {
    if events == [] then tail
    else TakeEvent(TakeEvents(tail, events[..|events| - 1]), events[|events| - 1])
  }

  function TakeRead(tail: Tail, read: Read<seq<StreamEvent>>): Tail {
    if !tail.live then tail
    else if read.Raised? then tail.(frames := tail.frames + [Unavailable(StreamUnavailable)], live := false)
    else if read.value == [] then tail.(frames := tail.frames + [Heartbeat])
    else TakeEvents(tail, read.value)
  }

  function TakeReads(tail: Tail, batches: seq<Read<seq<StreamEvent>>>): Tail {
    if batches == [] then tail
    else TakeRead(TakeReads(tail, batches[..|batches| - 1]), batches[|batches| - 1])
  }

  /** One read of the stream, its events yielded one by one. */
  method FollowRead(start: Tail, read: Read<seq<StreamEvent>>) returns (tail: Tail)
    requires start.live
    ensures tail == TakeRead(start, read)
  {
    tail := start;
    if read.Raised? {
      tail := tail.(frames := tail.frames + [Unavailable(StreamUnavailable)], live := false);
      return;
    }
    if read.value == [] {
      tail := tail.(frames := tail.frames + [Heartbeat]);
      return;
    }
    var events := read.value;
    var i := 0;
    while i < |events| && tail.live
      invariant i <= |events| && tail == TakeEvents(start, events[..i])
    {
      var event := events[i];
      assert events[..i + 1][..i] == events[..i];
      tail := tail.(cursor := event.id);
      if event.entry.sequence > tail.sequence {
        var expected := tail.sequence + 1;
        if event.entry.sequence != expected {
          tail := tail.(frames := tail.frames + [Unavailable(SequenceGap)], live := false);
        } else {
          tail := tail.(sequence := event.entry.sequence, frames := tail.frames + [EventOf(event.entry)]);
          if event.entry.event.IsTerminal() {
            tail := tail.(live := false);
          }
        }
      }
      i := i + 1;
    }
    ClosedStaysClosed(start, events, i);
  }

  lemma {:induction false} ClosedStaysClosed(start: Tail, events: seq<StreamEvent>, i: nat)
    requires i <= |events| && (i == |events| || !TakeEvents(start, events[..i]).live)
    ensures TakeEvents(start, events) == TakeEvents(start, events[..i])
  {
    if i == |events| {
      assert events[..i] == events;
    } else {
      var front := events[..|events| - 1];
      assert front[..i] == events[..i];
      ClosedStaysClosed(start, front, i);
    }
  }

  /** The loop of `observe` behind its last state frame, until it ends or the reads run out. */
  method FollowTail(sequence: nat, cursor: nat, batches: seq<Read<seq<StreamEvent>>>) returns (tail: Tail, used: nat)
    ensures tail == TakeReads(Tail([], sequence, cursor, true), batches)
    ensures used <= |batches| && tail == TakeReads(Tail([], sequence, cursor, true), batches[..used])
    ensures tail.live ==> used == |batches|
  {
    ghost var start := Tail([], sequence, cursor, true);
    tail := Tail([], sequence, cursor, true);
    used := 0;
    while used < |batches| && tail.live
      invariant used <= |batches| && tail == TakeReads(start, batches[..used])
    {
      assert batches[..used + 1][..used] == batches[..used];
      tail := FollowRead(tail, batches[used]);
      used := used + 1;
    }
    ClosedTailIsFinal(start, batches, used);
  }

  lemma {:induction false} ClosedTailIsFinal(start: Tail, batches: seq<Read<seq<StreamEvent>>>, used: nat)
    requires used <= |batches| && (used == |batches| || !TakeReads(start, batches[..used]).live)
    ensures TakeReads(start, batches) == TakeReads(start, batches[..used])
  {
    if used == |batches| {
      assert batches[..used] == batches;
    } else {
      var front := batches[..|batches| - 1];
      assert front[..used] == batches[..used];
      ClosedTailIsFinal(start, front, used);
    }
  }

  // ---------------------------------------------------------------------------
  // The whole observation
  // ---------------------------------------------------------------------------

  /** It ended by itself, broke off with a key error, or the client went away. */
  datatype Ending = Ended | Crashed | Disconnected

  datatype Observed = Observed(frames: seq<Frame>, ending: Ending)

  function Follow(frame: StateFrame, cursor: nat, batches: seq<Read<seq<StreamEvent>>>): Observed {
    var tail := TakeReads(Tail([], frame.sequence.GetOr(0), cursor, true), batches);
    Observed([StateOf(frame)] + tail.frames, if tail.live then Disconnected else Ended)
  }

  /** The polls while the runtime has not written its first projection. */
  function Poll(polls: seq<Lookup>, batches: seq<Read<seq<StreamEvent>>>, maxActivities: nat): Observed {
    if polls == [] then Observed([], Disconnected)
    else
      match Resolve(polls[0], None, maxActivities)
      case Unknown => Observed([], Crashed)
      case Gap => Observed([Unavailable(SequenceGap)], Ended)
      case Resolved(candidate, cursor) =>
        if candidate.IsTerminal() then Observed([StateOf(candidate)], Ended)
        else if candidate.IsCutOff() then Observed([StateOf(candidate), Unavailable(candidate.reason.value)], Ended)
        else if cursor.Some? then Follow(candidate, cursor.value, batches)
        else Poll(polls[1..], batches, maxActivities)
  }

  function Observation(first: Lookup, polls: seq<Lookup>, batches: seq<Read<seq<StreamEvent>>>,
                       lastSequence: Option<nat>, maxActivities: nat): Observed {
    match Resolve(first, lastSequence, maxActivities)
    case Unknown => Observed([], Crashed)
    case Gap => Observed([Unavailable(SequenceGap)], Ended)
    case Resolved(frame, cursor) =>
      if frame.IsTerminal() then Observed([StateOf(frame)], Ended)
      else if cursor.Some? then Follow(frame, cursor.value, batches)
      else if frame.IsCutOff() then Observed([StateOf(frame), Unavailable(frame.reason.value)], Ended)
      else
        var polled := Poll(polls, batches, maxActivities);
        polled.(frames := [StateOf(frame)] + polled.frames)
  }

  /** A cursor comes with a realtime frame, and only an absent projection keeps the observer polling. */
  lemma CursorMeansRealtime(lookup: Lookup, lastSequence: Option<nat>, maxActivities: nat)
    requires Resolve(lookup, lastSequence, maxActivities).Resolved?
    ensures var r := Resolve(lookup, lastSequence, maxActivities);
      && (r.cursor.Some? <==> r.frame.realtime)
      && (r.frame.realtime ==> r.frame.sequence.Some? && r.frame.reason.None?)
      && (r.cursor.None? && !r.frame.IsCutOff() ==> r.frame.reason == Some(AwaitingRuntime) && r.frame.sequence.None?)
  {
    hide Replay, Bridges, Initial;
  }

  /** The row is there, is not over, and the runtime has not written its first projection. */
  predicate AwaitsRuntime(lookup: Lookup) {
    lookup.durable.Some? && !lookup.durable.value.status.IsTerminal() && lookup.hot == Ok(None)
  }

  /** An accepted execution that the runtime has not touched is shown as its row says, and polled for. */
  lemma NewExecutionIsPolled(first: Lookup, polls: seq<Lookup>, batches: seq<Read<seq<StreamEvent>>>,
                             lastSequence: Option<nat>, maxActivities: nat)
    requires AwaitsRuntime(first)
    ensures var observed, polled := Observation(first, polls, batches, lastSequence, maxActivities),
                                    Poll(polls, batches, maxActivities);
      && observed.ending == polled.ending
      && observed.frames
         == [StateOf(StateFrame(None, Initial(first.durable.value), false, Some(AwaitingRuntime), lastSequence))]
            + polled.frames
  {
    hide Initial, Poll;
    InitialShowsRow(first.durable.value);
  }

  /** Polls that find nothing yield nothing, whatever their number. */
  lemma {:induction false} PollingGoesOn(waiting: seq<Lookup>, polls: seq<Lookup>, batches: seq<Read<seq<StreamEvent>>>,
                                         maxActivities: nat)
    requires forall poll <- waiting :: AwaitsRuntime(poll)
    ensures Poll(waiting + polls, batches, maxActivities) == Poll(polls, batches, maxActivities)
  {
    hide Initial;
    if waiting == [] {
      assert waiting + polls == polls;
    } else {
      PollingGoesOn(waiting[1..], polls, batches, maxActivities);
      assert waiting[0] in waiting && (waiting + polls)[1..] == waiting[1..] + polls;
      InitialShowsRow(waiting[0].durable.value);
    }
  }

  /** Where the first read of the projection fails, the observation ends behind an unavailable frame. */
  lemma FailedReadEnds(first: Lookup, polls: seq<Lookup>, batches: seq<Read<seq<StreamEvent>>>,
                       lastSequence: Option<nat>, maxActivities: nat)
    requires first.durable.Some? && !first.durable.value.status.IsTerminal() && first.hot.Raised?
    ensures Observation(first, polls, batches, lastSequence, maxActivities)
         == Observed([StateOf(StateFrame(None, Initial(first.durable.value), false, Some(HotStateUnavailable),
                                         lastSequence)),
                      Unavailable(HotStateUnavailable)], Ended)
    ensures polls != [] && polls[0] == first ==>
      Poll(polls, batches, maxActivities)
      == Observed([StateOf(StateFrame(None, Initial(first.durable.value), false, Some(HotStateUnavailable), None)),
                   Unavailable(HotStateUnavailable)], Ended)
  {
    hide Initial;
    InitialShowsRow(first.durable.value);
  }

  /** A stream that fails beside an unfinished projection ends the observation behind that projection. */
  lemma FailedStreamEnds(first: Lookup, polls: seq<Lookup>, batches: seq<Read<seq<StreamEvent>>>,
                         lastSequence: Option<nat>, maxActivities: nat)
    requires first.durable.Some? && StreamFails(first) && !first.hot.value.value.status.IsTerminal()
    ensures var observed := Observation(first, polls, batches, lastSequence, maxActivities);
      && observed.ending == Ended && |observed.frames| == 2 && observed.frames[0].StateOf?
      && observed.frames[0].frame.state == first.hot.value.value
      && observed.frames[1] == Unavailable(StreamUnavailable)
  {
    hide Replay, Bridges, Between, Initial, Follow, Poll;
  }

  /** An unknown execution breaks off at once; a finished one is shown by one frame, realtime or not. */
  lemma UnknownAndFinished(first: Lookup, polls: seq<Lookup>, batches: seq<Read<seq<StreamEvent>>>,
                           lastSequence: Option<nat>, maxActivities: nat)
    ensures first.durable.None? ==>
      Observation(first, polls, batches, lastSequence, maxActivities) == Observed([], Crashed)
    ensures var r := Resolve(first, lastSequence, maxActivities);
      && (r.Resolved? && r.frame.state.status.IsTerminal() ==>
            Observation(first, polls, batches, lastSequence, maxActivities) == Observed([StateOf(r.frame)], Ended))
      && (r.Gap? ==>
            Observation(first, polls, batches, lastSequence, maxActivities)
            == Observed([Unavailable(SequenceGap)], Ended))
  {
    hide Resolve, Follow, Poll;
    if first.durable.None? {
      UnknownIsUnknown(first, lastSequence, maxActivities);
    }
  }

  lemma UnknownIsUnknown(lookup: Lookup, lastSequence: Option<nat>, maxActivities: nat)
    ensures Resolve(lookup, lastSequence, maxActivities).Unknown? <==> lookup.durable.None?
  {
    hide ResolveAgainst, Initial;
    if lookup.durable.Some? {
      ReasonIsOfReads(lookup, lastSequence, maxActivities);
    }
  }

  method FollowLive(frame: StateFrame, cursor: nat, batches: seq<Read<seq<StreamEvent>>>) returns (observed: Observed)
    ensures observed == Follow(frame, cursor, batches)
  {
    var tail, _ := FollowTail(frame.sequence.GetOr(0), cursor, batches);
    observed := Observed([StateOf(frame)] + tail.frames, if tail.live then Disconnected else Ended);
  }

  method PollForRuntime(polls: seq<Lookup>, batches: seq<Read<seq<StreamEvent>>>, maxActivities: nat)
    returns (observed: Observed)
    ensures observed == Poll(polls, batches, maxActivities)
  {
    hide Resolve, TakeReads;
    for i := 0 to |polls|
      invariant Poll(polls, batches, maxActivities) == Poll(polls[i..], batches, maxActivities)
    {
      var resolution := ResolveCurrentState(polls[i], None, maxActivities);
      assert polls[i..][1..] == polls[i + 1..];
      if resolution.Unknown? {
        return Observed([], Crashed);
      }
      if resolution.Gap? {
        return Observed([Unavailable(SequenceGap)], Ended);
      }
      CursorMeansRealtime(polls[i], None, maxActivities);
      var candidate := resolution.frame;
      if candidate.IsTerminal() {
        return Observed([StateOf(candidate)], Ended);
      }
      if candidate.IsCutOff() {
        return Observed([StateOf(candidate), Unavailable(candidate.reason.value)], Ended);
      }
      if candidate.realtime {
        observed := FollowLive(candidate, resolution.cursor.value, batches);
        return;
      }
    }
    observed := Observed([], Disconnected);
  }

  method Observe(first: Lookup, polls: seq<Lookup>, batches: seq<Read<seq<StreamEvent>>>,
                 lastSequence: Option<nat>, maxActivities: nat) returns (observed: Observed)
    ensures observed == Observation(first, polls, batches, lastSequence, maxActivities)
  {
    hide Resolve, TakeReads, Poll;
    var resolution := ResolveCurrentState(first, lastSequence, maxActivities);
    if resolution.Unknown? {
      return Observed([], Crashed);
    }
    if resolution.Gap? {
      return Observed([Unavailable(SequenceGap)], Ended);
    }
    CursorMeansRealtime(first, lastSequence, maxActivities);
    var stateFrame := resolution.frame;
    if stateFrame.IsTerminal() {
      return Observed([StateOf(stateFrame)], Ended);
    }
    if resolution.cursor.None? && stateFrame.IsCutOff() {
      return Observed([StateOf(stateFrame), Unavailable(stateFrame.reason.value)], Ended);
    }
    if resolution.cursor.Some? {
      observed := FollowLive(stateFrame, resolution.cursor.value, batches);
    } else {
      observed := PollForRuntime(polls, batches, maxActivities);
      observed := observed.(frames := [StateOf(stateFrame)] + observed.frames);
    }
  }

  // ---------------------------------------------------------------------------
  // The tail loses nothing and ends properly
  // ---------------------------------------------------------------------------

  /** A frame behind which nothing may follow. */
  predicate Closes(frame: Frame) {
    match frame
    case StateOf(state) => state.IsTerminal()
    case EventOf(entry) => entry.event.IsTerminal()
    case Heartbeat => false
    case Unavailable(_) => true
  }

  function EventsIn(frames: seq<Frame>): seq<Entry> {
    if frames == [] then []
    else
      var last := frames[|frames| - 1];
      EventsIn(frames[..|frames| - 1]) + (if last.EventOf? then [last.entry] else [])
  }

  /** Nothing follows a closing frame, and the observation is live as long as there is none. */
  ghost predicate EndsProperly(frames: seq<Frame>, live: bool) {
    && (forall i | 0 <= i < |frames| - 1 :: !Closes(frames[i]))
    && (live <==> frames == [] || !Closes(frames[|frames| - 1]))
  }

  /** What holds of a tail that started behind sequence `from`. */
  ghost predicate TailOk(tail: Tail, from: nat) {
    && EndsProperly(tail.frames, tail.live)
    && from <= tail.sequence
    && Bridges(EventsIn(tail.frames), from, tail.sequence)
    && forall frame <- tail.frames :: !frame.StateOf?
  }

  lemma EventsInLonger(frames: seq<Frame>, frame: Frame)
    ensures EventsIn(frames + [frame]) == EventsIn(frames) + (if frame.EventOf? then [frame.entry] else [])
  {
    assert (frames + [frame])[..|frames|] == frames;
  }

  lemma TailGrows(tail: Tail, from: nat, frame: Frame, next: Tail)
    requires TailOk(tail, from) && tail.live && !frame.StateOf?
    requires next.frames == tail.frames + [frame] && (next.live <==> !Closes(frame))
    requires frame.EventOf? ==> frame.entry.sequence == tail.sequence + 1 == next.sequence
    requires !frame.EventOf? ==> next.sequence == tail.sequence
    ensures TailOk(next, from)
  {
    EventsInLonger(tail.frames, frame);
  }

  lemma TakeEventKeeps(tail: Tail, event: StreamEvent, from: nat)
    requires TailOk(tail, from)
    ensures TailOk(TakeEvent(tail, event), from)
  {
    hide TailOk;
    if tail.live && event.entry.sequence > tail.sequence {
      var next := TakeEvent(tail, event);
      TailGrows(tail, from, next.frames[|tail.frames|], next);
    } else {
      assert TailOk(TakeEvent(tail, event), from) by {
        SameTail(tail, TakeEvent(tail, event), from);
      }
    }
  }

  lemma SameTail(tail: Tail, next: Tail, from: nat)
    requires TailOk(tail, from) && next.(cursor := tail.cursor) == tail
    ensures TailOk(next, from)
  {}

  lemma {:induction false} TakeEventsKeeps(tail: Tail, events: seq<StreamEvent>, from: nat)
    requires TailOk(tail, from)
    ensures TailOk(TakeEvents(tail, events), from)
  {
    hide TailOk, TakeEvent;
    if events != [] {
      TakeEventsKeeps(tail, events[..|events| - 1], from);
      TakeEventKeeps(TakeEvents(tail, events[..|events| - 1]), events[|events| - 1], from);
    }
  }

  /** The tail yields the sequences behind `from` one by one, and nothing after its end. */
  lemma {:induction false} TailIsLossless(tail: Tail, batches: seq<Read<seq<StreamEvent>>>, from: nat)
    requires TailOk(tail, from)
    ensures TailOk(TakeReads(tail, batches), from)
  {
    hide TailOk, TakeEvents;
    if batches != [] {
      var before, read := TakeReads(tail, batches[..|batches| - 1]), batches[|batches| - 1];
      TailIsLossless(tail, batches[..|batches| - 1], from);
      if before.live {
        if read.Raised? {
          TailGrows(before, from, Unavailable(StreamUnavailable), TakeRead(before, read));
        } else if read.value == [] {
          TailGrows(before, from, Heartbeat, TakeRead(before, read));
        } else {
          TakeEventsKeeps(before, read.value, from);
        }
      }
    }
  }

  lemma EmptyTailIsOk(sequence: nat, cursor: nat)
    ensures TailOk(Tail([], sequence, cursor, true), sequence)
  {}

  // ---------------------------------------------------------------------------
  // Where the tail stands, and why it ends
  // ---------------------------------------------------------------------------

  lemma {:induction false} CursorAfterEvents(tail: Tail, events: seq<StreamEvent>)
    requires TakeEvents(tail, events).live
    ensures tail.live
    ensures TakeEvents(tail, events).cursor == if events == [] then tail.cursor else events[|events| - 1].id
  {
    if events != [] {
      CursorAfterEvents(tail, events[..|events| - 1]);
    }
  }

  /** As long as the tail lives, it will read on behind the last event that was read. */
  lemma {:induction false} CursorIsLastRead(tail: Tail, batches: seq<Read<seq<StreamEvent>>>)
    requires TakeReads(tail, batches).live
    ensures var all := AllOf(batches);
      TakeReads(tail, batches).cursor == if all == [] then tail.cursor else all[|all| - 1].id
  {
    hide TakeEvents;
    if batches != [] {
      var front, read := batches[..|batches| - 1], batches[|batches| - 1];
      CursorIsLastRead(tail, front);
      if read.value != [] {
        CursorAfterEvents(TakeReads(tail, front), read.value);
      } else {
        assert AllOf(front) + [] == AllOf(front);
      }
    }
  }

  function Heartbeats(frames: seq<Frame>): nat {
    if frames == [] then 0
    else Heartbeats(frames[..|frames| - 1]) + (if frames[|frames| - 1].Heartbeat? then 1 else 0)
  }

  function EmptyReads(batches: seq<Read<seq<StreamEvent>>>): nat {
    if batches == [] then 0
    else EmptyReads(batches[..|batches| - 1]) + (if batches[|batches| - 1] == Ok([]) then 1 else 0)
  }

  lemma NextHeartbeats(frames: seq<Frame>, frame: Frame)
    ensures Heartbeats(frames + [frame]) == Heartbeats(frames) + (if frame.Heartbeat? then 1 else 0)
  {
    assert (frames + [frame])[..|frames|] == frames;
  }

  lemma {:induction false} EventsAreNoHeartbeats(tail: Tail, events: seq<StreamEvent>)
    ensures Heartbeats(TakeEvents(tail, events).frames) == Heartbeats(tail.frames)
  {
    hide Heartbeats;
    if events != [] {
      var before, event := TakeEvents(tail, events[..|events| - 1]), events[|events| - 1];
      EventsAreNoHeartbeats(tail, events[..|events| - 1]);
      NextHeartbeats(before.frames, Unavailable(SequenceGap));
      NextHeartbeats(before.frames, EventOf(event.entry));
    }
  }

  /** A living tail yields one heartbeat for every empty read, and no others. */
  lemma {:induction false} HeartbeatsAreEmptyReads(tail: Tail, batches: seq<Read<seq<StreamEvent>>>)
    requires TakeReads(tail, batches).live
    ensures Heartbeats(TakeReads(tail, batches).frames) == Heartbeats(tail.frames) + EmptyReads(batches)
  {
    hide TakeEvents, Heartbeats;
    if batches != [] {
      var before, read := TakeReads(tail, batches[..|batches| - 1]), batches[|batches| - 1];
      HeartbeatsAreEmptyReads(tail, batches[..|batches| - 1]);
      if read.value == [] {
        NextHeartbeats(before.frames, Heartbeat);
      } else {
        EventsAreNoHeartbeats(before, read.value);
      }
    }
  }

  /** An event behind which the next one is missing. */
  ghost predicate LeavesGap(events: seq<StreamEvent>, sequence: nat) {
    exists event <- events :: event.entry.sequence > sequence + 1
  }

  lemma {:induction false} EventsEndFor(tail: Tail, events: seq<StreamEvent>)
    requires tail.live && !TakeEvents(tail, events).live
    ensures var next := TakeEvents(tail, events);
      && next.frames != []
      && var last := next.frames[|next.frames| - 1];
      && (last == Unavailable(SequenceGap) || (last.EventOf? && last.entry.event.IsTerminal()))
      && (last == Unavailable(SequenceGap) ==> LeavesGap(events, next.sequence))
  {
    var front, event := events[..|events| - 1], events[|events| - 1];
    var before := TakeEvents(tail, front);
    if before.live {
      assert event in events;
    } else {
      EventsEndFor(tail, front);
      assert LeavesGap(front, before.sequence) ==> LeavesGap(events, before.sequence) by {
        assert forall event <- front :: event in events;
      }
    }
  }

  /** What a read ends the tail for: the read failed, it leaves a gap, or it brings the end of the execution. */
  lemma ReadEndsFor(tail: Tail, read: Read<seq<StreamEvent>>)
    requires tail.live && !TakeRead(tail, read).live
    ensures var next := TakeRead(tail, read);
      && next.frames != []
      && var last := next.frames[|next.frames| - 1];
      && (last == Unavailable(StreamUnavailable) <==> read.Raised?)
      && (last == Unavailable(SequenceGap) ==> read.Ok? && LeavesGap(read.value, next.sequence))
      && (read.Ok? && last != Unavailable(SequenceGap) ==> last.EventOf? && last.entry.event.IsTerminal())
  {
    hide TakeEvents, LeavesGap;
    if read.Ok? && read.value != [] {
      EventsEndFor(tail, read.value);
    }
  }

  // ---------------------------------------------------------------------------
  // The tail tells the truth
  // ---------------------------------------------------------------------------

  predicate GenuineReads(log: seq<Event>, batches: seq<Read<seq<StreamEvent>>>) {
    forall read <- batches :: read.Ok? ==> forall event <- read.value :: Genuine(log, event.entry)
  }

  /** Genuine entries with consecutive sequences are a piece of the log. */
  lemma GenuineBridgeIsLog(log: seq<Event>, entries: seq<Entry>, low: nat, high: nat)
    requires AllGenuine(log, entries) && Bridges(entries, low, high)
    ensures low < high ==> high <= |log|
    ensures high <= |log| ==> entries == Numbered(log, low, high)
  {
    if low < high {
      assert Genuine(log, entries[high - low - 1]);
    }
    if high <= |log| {
      assert forall i | 0 <= i < |entries| :: Genuine(log, entries[i]);
    }
  }

  lemma TakeEventIsGenuine(log: seq<Event>, tail: Tail, event: StreamEvent)
    requires AllGenuine(log, EventsIn(tail.frames)) && Genuine(log, event.entry)
    ensures AllGenuine(log, EventsIn(TakeEvent(tail, event).frames))
  {
    hide EventsIn;
    var next := TakeEvent(tail, event);
    if |next.frames| > |tail.frames| {
      EventsInLonger(tail.frames, next.frames[|tail.frames|]);
    }
  }

  lemma {:induction false} TakeEventsAreGenuine(log: seq<Event>, tail: Tail, events: seq<StreamEvent>)
    requires AllGenuine(log, EventsIn(tail.frames)) && forall event <- events :: Genuine(log, event.entry)
    ensures AllGenuine(log, EventsIn(TakeEvents(tail, events).frames))
  {
    hide EventsIn, TakeEvent, Genuine;
    if events != [] {
      TakeEventsAreGenuine(log, tail, events[..|events| - 1]);
      TakeEventIsGenuine(log, TakeEvents(tail, events[..|events| - 1]), events[|events| - 1]);
    }
  }

  lemma {:induction false} TailIsGenuine(log: seq<Event>, tail: Tail, batches: seq<Read<seq<StreamEvent>>>)
    requires AllGenuine(log, EventsIn(tail.frames)) && GenuineReads(log, batches)
    ensures AllGenuine(log, EventsIn(TakeReads(tail, batches).frames))
  {
    hide EventsIn, TakeEvents, Genuine;
    if batches != [] {
      var before, read := TakeReads(tail, batches[..|batches| - 1]), batches[|batches| - 1];
      TailIsGenuine(log, tail, batches[..|batches| - 1]);
      if before.live {
        if read.Raised? {
          EventsInLonger(before.frames, Unavailable(StreamUnavailable));
        } else if read.value == [] {
          EventsInLonger(before.frames, Heartbeat);
        } else {
          TakeEventsAreGenuine(log, before, read.value);
        }
      }
    }
  }

  /** Reducing the yielded events over the fold at `h` gives the fold at the last one yielded. */
  lemma TailContinuesFold(log: seq<Event>, h: nat, cursor: nat, batches: seq<Read<seq<StreamEvent>>>,
                          maxActivities: nat)
    requires h <= |log| && GenuineReads(log, batches)
    ensures var tail := TakeReads(Tail([], h, cursor, true), batches);
      && h <= tail.sequence <= |log|
      && EventsIn(tail.frames) == Numbered(log, h, tail.sequence)
      && Replay(Fold(log, h, maxActivities), EventsIn(tail.frames), maxActivities)
         == Fold(log, tail.sequence, maxActivities)
  {
    hide TakeReads, Fold, Replay, EventsIn, GenuineReads, Bridges;
    var start := Tail([], h, cursor, true);
    assert EventsIn([]) == [] by { NoEvents(); }
    var tail := TakeReads(start, batches);
    EmptyTailIsOk(h, cursor);
    TailIsLossless(start, batches, h);
    TailIsGenuine(log, start, batches);
    GenuineBridgeIsLog(log, EventsIn(tail.frames), h, tail.sequence);
    FoldContinues(log, h, tail.sequence, maxActivities);
  }

  lemma NoEvents()
    ensures EventsIn([]) == []
  {}

  // ---------------------------------------------------------------------------
  // Gaps are real, and nothing is skipped in silence
  // ---------------------------------------------------------------------------

  /** All events of these reads, in order. */
  function AllOf(batches: seq<Read<seq<StreamEvent>>>): seq<StreamEvent> {
    if batches == [] then []
    else
      var read := batches[|batches| - 1];
      AllOf(batches[..|batches| - 1]) + (if read.Ok? then read.value else [])
  }

  ghost predicate Covered(events: seq<StreamEvent>, sequence: nat) {
    forall event <- events :: event.entry.sequence <= sequence
  }

  lemma {:induction false} LiveTailCovers(tail: Tail, events: seq<StreamEvent>)
    ensures tail.sequence <= TakeEvents(tail, events).sequence
    ensures TakeEvents(tail, events).live ==> tail.live && Covered(events, TakeEvents(tail, events).sequence)
  {
    if events != [] {
      var front, last := events[..|events| - 1], events[|events| - 1];
      LiveTailCovers(tail, front);
      assert forall event <- events :: event in front || event == last;
    }
  }

  /** As long as the observation is live, every event that was read has been yielded or was covered before. */
  lemma {:induction false} NothingIsSkipped(tail: Tail, batches: seq<Read<seq<StreamEvent>>>)
    ensures tail.sequence <= TakeReads(tail, batches).sequence
    ensures TakeReads(tail, batches).live ==> Covered(AllOf(batches), TakeReads(tail, batches).sequence)
  {
    hide TakeEvents;
    if batches != [] {
      var front, read := batches[..|batches| - 1], batches[|batches| - 1];
      NothingIsSkipped(tail, front);
      if TakeReads(tail, front).live && read.Ok? {
        LiveTailCovers(TakeReads(tail, front), read.value);
      }
    }
  }

  /** Every event that is not covered yet is the next one when its turn comes. */
  ghost predicate Gapless(events: seq<StreamEvent>, sequence: nat) {
    forall i | 0 <= i < |events| ::
      || events[i].entry.sequence <= sequence + 1
      || exists j | 0 <= j < i :: events[j].entry.sequence == events[i].entry.sequence - 1
  }

  predicate ReportsGap(tail: Tail) {
    tail.frames != [] && tail.frames[|tail.frames| - 1] == Unavailable(SequenceGap)
  }

  lemma NothingTaken(tail: Tail)
    ensures TakeEvents(tail, []) == tail
  {}

  lemma NextTaken(tail: Tail, front: seq<StreamEvent>, last: StreamEvent)
    ensures TakeEvents(tail, front + [last]) == TakeEvent(TakeEvents(tail, front), last)
  {
    assert (front + [last])[..|front|] == front;
  }

  lemma NextReportsNoGap(tail: Tail, event: StreamEvent)
    requires !ReportsGap(tail) && (tail.live ==> event.entry.sequence <= tail.sequence + 1)
    ensures !ReportsGap(TakeEvent(tail, event))
  {}

  lemma {:induction false} GaplessEventsReportNoGap(
      tail: Tail, earlier: seq<StreamEvent>, events: seq<StreamEvent>, from: nat)
    requires Gapless(earlier + events, from) && !ReportsGap(tail)
    requires from <= tail.sequence && (tail.live ==> Covered(earlier, tail.sequence))
    ensures !ReportsGap(TakeEvents(tail, events))
  {
    hide TakeEvent, TakeEvents, Gapless, ReportsGap;
    if events == [] {
      NothingTaken(tail);
    } else {
      var front, last := events[..|events| - 1], events[|events| - 1];
      var before := TakeEvents(tail, front);
      assert earlier + events == (earlier + front) + [last] && events == front + [last];
      GaplessPrefix(earlier + front, last, from);
      GaplessEventsReportNoGap(tail, earlier, front, from);
      LiveTailCovers(tail, front);
      if before.live {
        NextIsCovered(earlier, front, last, from, before.sequence);
      }
      NextTaken(tail, front, last);
      NextReportsNoGap(before, last);
    }
  }

  lemma GaplessPrefix(events: seq<StreamEvent>, last: StreamEvent, from: nat)
    requires Gapless(events + [last], from)
    ensures Gapless(events, from)
  {
    assert forall i | 0 <= i < |events| :: events[i] == (events + [last])[i];
  }

  lemma NextIsCovered(earlier: seq<StreamEvent>, front: seq<StreamEvent>, last: StreamEvent, from: nat, sequence: nat)
    requires Gapless(earlier + front + [last], from) && from <= sequence
    requires Covered(earlier, sequence) && Covered(front, sequence)
    ensures last.entry.sequence <= sequence + 1
  {
    var events := earlier + front + [last];
    assert events[|events| - 1] == last;
    assert forall j | 0 <= j < |events| - 1 :: events[j] in earlier || events[j] in front;
  }

  /** If the reads miss nothing, the observation reports no gap. */
  lemma {:induction false} CompleteReadsReportNoGap(tail: Tail, batches: seq<Read<seq<StreamEvent>>>)
    requires Gapless(AllOf(batches), tail.sequence) && !ReportsGap(tail)
    ensures !ReportsGap(TakeReads(tail, batches))
  {
    hide TakeEvents, Gapless;
    if batches != [] {
      var front, read := batches[..|batches| - 1], batches[|batches| - 1];
      var before := TakeReads(tail, front);
      var more := if read.Ok? then read.value else [];
      assert Gapless(AllOf(front), tail.sequence) by {
        GaplessFront(AllOf(front), more, tail.sequence);
      }
      CompleteReadsReportNoGap(tail, front);
      NothingIsSkipped(tail, front);
      if before.live && read.Ok? && read.value != [] {
        GaplessEventsReportNoGap(before, AllOf(front), read.value, tail.sequence);
      }
    }
  }

  lemma GaplessFront(a: seq<StreamEvent>, b: seq<StreamEvent>, from: nat)
    requires Gapless(a + b, from)
    ensures Gapless(a, from)
  {
    assert forall i | 0 <= i < |a| :: a[i] == (a + b)[i];
  }

  // ---------------------------------------------------------------------------
  // The whole observation ends properly
  // ---------------------------------------------------------------------------

  lemma FollowEndsProperly(frame: StateFrame, cursor: nat, batches: seq<Read<seq<StreamEvent>>>)
    requires !frame.IsTerminal()
    ensures var observed := Follow(frame, cursor, batches);
      EndsProperly(observed.frames, observed.ending != Ended)
  {
    hide TakeReads, Bridges, EventsIn;
    var from := frame.sequence.GetOr(0);
    EmptyTailIsOk(from, cursor);
    TailIsLossless(Tail([], from, cursor, true), batches, from);
    var tail := TakeReads(Tail([], from, cursor, true), batches);
    AfterFrame(StateOf(frame), tail.frames, tail.live);
  }

  lemma AfterFrame(frame: Frame, frames: seq<Frame>, live: bool)
    requires !Closes(frame) && EndsProperly(frames, live)
    ensures EndsProperly([frame] + frames, live)
  {
    var all := [frame] + frames;
    assert forall i | 1 <= i < |all| :: all[i] == frames[i - 1];
  }

  lemma {:induction false} PollEndsProperly(
      polls: seq<Lookup>, batches: seq<Read<seq<StreamEvent>>>, maxActivities: nat)
    ensures var observed := Poll(polls, batches, maxActivities);
      EndsProperly(observed.frames, observed.ending != Ended)
  {
    hide Resolve, Follow;
    if polls != [] {
      var r := Resolve(polls[0], None, maxActivities);
      if r.Resolved? && !r.frame.IsTerminal() {
        if !r.frame.IsCutOff() {
          if r.cursor.Some? {
            FollowEndsProperly(r.frame, r.cursor.value, batches);
          } else {
            PollEndsProperly(polls[1..], batches, maxActivities);
          }
        }
      }
    }
  }

  /** Every observation stops at its first terminal state, terminal event or unavailable frame, and only there. */
  lemma ObservationEndsProperly(first: Lookup, polls: seq<Lookup>, batches: seq<Read<seq<StreamEvent>>>,
                                lastSequence: Option<nat>, maxActivities: nat)
    ensures var observed := Observation(first, polls, batches, lastSequence, maxActivities);
      EndsProperly(observed.frames, observed.ending != Ended)
  {
    hide Resolve, Follow, Poll;
    var r := Resolve(first, lastSequence, maxActivities);
    if r.Resolved? && !r.frame.IsTerminal() {
      if r.cursor.Some? {
        FollowEndsProperly(r.frame, r.cursor.value, batches);
      } else if !r.frame.IsCutOff() {
        var polled := Poll(polls, batches, maxActivities);
        PollEndsProperly(polls, batches, maxActivities);
        AfterFrame(StateOf(r.frame), polled.frames, polled.ending != Ended);
      }
    }
  }
}
