/** Snapshot plus tail, read in separate steps while sinks go on writing, refines the fold of the log. */
module Reconstruction {
  import opened Text
  import opened Events
  import opened Projection
  import opened EventStream
  import opened Publisher
  import opened Observer

  function HotOf(s: System): Option<State> {
    if s.hot.None? then None else Some(s.hot.value.state)
  }

  /** The entries the stream still holds. */
  function StreamOf(s: System): seq<Entry> {
    if s.first <= |s.published| then s.published[s.first..] else []
  }

  function LatestOf(s: System): Option<StreamEvent> {
    var n := |s.published|;
    if s.first < n then Some(StreamEvent(n, s.published[n - 1])) else None
  }

  /** The reads see three states of a run, in this order; `retained` may miss any of the entries. */
  ghost predicate ReadsFrom(lookup: Lookup, s1: System, s2: System, s3: System) {
    && (lookup.hot.Ok? ==> lookup.hot.value == HotOf(s1))
    && (lookup.latest.Ok? ==> lookup.latest.value == LatestOf(s2))
    && (lookup.retained.Ok? ==> forall entry <- lookup.retained.value :: entry in s3.published)
  }

  lemma {:induction false} LogGrows(c: Config, run: seq<System>, steps: seq<Step>, i: nat, j: nat)
    requires IsRun(c, run, steps) && i <= j < |run|
    ensures run[i].log <= run[j].log && run[i].published <= run[j].published && run[i].first <= run[j].first
    decreases j
  {
    if i < j {
      LogGrows(c, run, steps, i, j - 1);
      LogGrowsInStep(c, run[j - 1], steps[j - 1]);
    }
  }

  lemma LogGrowsInStep(c: Config, s: System, step: Step)
    requires Enabled(c, s, step)
    ensures var next := Next(c, s, step);
      s.log <= next.log && s.published <= next.published && s.first <= next.first
  {}

  lemma ReplayInLongerLog(c: Config, log: seq<Event>, longer: seq<Event>, hot: Hot)
    requires HotIsReplay(c, log, hot) && log <= longer
    ensures HotIsReplay(c, longer, hot)
  {
    hide Replay, Initial;
  }

  lemma {:induction false} BetweenAreThose(entries: seq<Entry>, low: nat, high: nat)
    ensures forall entry <- Between(entries, low, high) :: entry in entries && low < entry.sequence <= high
  {
    if entries != [] {
      BetweenAreThose(entries[1..], low, high);
    }
  }

  /** The state a realtime frame must show. */
  ghost function Reconstructed(c: Config, log: seq<Event>, hot: Hot, high: nat): State
    requires hot.state.sequence <= high <= |log|
  {
    Replay(Initial(), hot.applied + Numbered(log, hot.state.sequence, high), c.maxActivities).(sequence := high)
  }

  lemma BridgedIsReconstructed(c: Config, log: seq<Event>, hot: Hot, relevant: seq<Entry>, high: nat)
    requires HotIsReplay(c, log, hot) && high <= |log|
    requires AllGenuine(log, relevant) && Bridges(relevant, hot.state.sequence, high)
    ensures Replay(hot.state, relevant, c.maxActivities).(sequence := high) == Reconstructed(c, log, hot, high)
  {
    hide Replay, Initial, Bridges;
    assert hot.state.sequence <= high by { BridgesUpwards(relevant, hot.state.sequence, high); }
    GenuineBridgeIsLog(log, relevant, hot.state.sequence, high);
    ReplayInPieces(Initial(), hot.applied, relevant, c.maxActivities);
  }

  lemma BridgesUpwards(entries: seq<Entry>, low: nat, high: nat)
    requires Bridges(entries, low, high)
    ensures low <= high
  {}

  lemma NothingToBridge(c: Config, log: seq<Event>, hot: Hot)
    requires HotIsReplay(c, log, hot) && hot.state.sequence <= |log|
    ensures hot.state.(sequence := hot.state.sequence) == Reconstructed(c, log, hot, hot.state.sequence)
  {
    hide Replay, Initial;
    assert hot.applied + Numbered(log, hot.state.sequence, hot.state.sequence) == hot.applied;
  }

  /** Whatever of the stream is read, a realtime frame shows the applied entries continued by the log. */
  lemma ResolvedIsReconstructed(
      c: Config, log: seq<Event>, hot: Hot, latest: StreamEvent, retained: Read<seq<Entry>>, lastSequence: Option<nat>)
    requires HotIsReplay(c, log, hot) && Genuine(log, latest.entry)
    requires retained.Ok? ==> forall entry <- retained.value :: Genuine(log, entry)
    ensures match ResolveAgainst(hot.state, latest, retained, lastSequence, c.maxActivities)
      case Unknown => false
      case Gap => hot.state.sequence < latest.entry.sequence
      case Resolved(frame, cursor) =>
        frame.realtime ==>
          && hot.state.sequence <= latest.entry.sequence <= |log|
          && frame.sequence == Some(latest.entry.sequence)
          && cursor == Some(latest.id)
          && frame.state == Reconstructed(c, log, hot, latest.entry.sequence)
  {
    hide Replay, Initial, Bridges, HotIsReplay, Reconstructed;
    var low, high := hot.state.sequence, latest.entry.sequence;
    if low == high {
      NothingToBridge(c, log, hot);
    } else if low < high && retained.Ok? {
      var relevant := Between(retained.value, low, high);
      BetweenAreThose(retained.value, low, high);
      if Bridges(relevant, low, high) {
        BridgedIsReconstructed(c, log, hot, relevant, high);
      }
    }
  }

  /**
   * For every run of any number of sinks, interrupted or not, and every interleaving of the three reads
   * with it: a realtime frame at sequence `h` shows the entries reduced into the projection, continued
   * by exactly the log's events up to `h`; that is the fold of the log if the projection was a fold.
   */
  lemma ReconstructionIsSound(c: Config, run: seq<System>, steps: seq<Step>, i1: nat, i2: nat, i3: nat,
                              lookup: Lookup, lastSequence: Option<nat>)
    requires IsRun(c, run, steps) && i1 <= i2 <= i3 < |run|
    requires ReadsFrom(lookup, run[i1], run[i2], run[i3])
    ensures var r := Resolve(lookup, lastSequence, c.maxActivities);
      r.Resolved? && r.frame.realtime ==>
        && run[i1].hot.Some?
        && var hot, log := run[i1].hot.value, run[i3].log;
        && var high := r.frame.sequence.GetOr(0);
        && hot.state.sequence <= high <= |log|
        && r.frame.state == Reconstructed(c, log, hot, high)
        && (hot.applied == Numbered(log, 0, hot.state.sequence) ==> r.frame.state == Fold(log, high, c.maxActivities))
  {
    hide Replay, Initial, Bridges, HotIsReplay, Reconstructed, ResolveAgainst, Fold, Genuine;
    var r := Resolve(lookup, lastSequence, c.maxActivities);
    if r.Resolved? && r.frame.realtime {
      var hot, log, latest := run[i1].hot.value, run[i3].log, lookup.latest.value.value;
      EveryRunIsSound(c, run, steps, i1);
      EveryRunIsSound(c, run, steps, i3);
      LogGrows(c, run, steps, i1, i3);
      LogGrows(c, run, steps, i2, i3);
      ReplayInLongerLog(c, run[i1].log, log, hot);
      assert latest.entry == run[i3].published[|run[i2].published| - 1];
      ResolvedIsReconstructed(c, log, hot, latest, lookup.retained, lastSequence);
      if hot.applied == Numbered(log, 0, hot.state.sequence) {
        ReconstructedIsFold(c, log, hot, latest.entry.sequence);
      }
    }
  }

  /** The applied entries, continued by the log, in order. */
  lemma ContinuedText(c: Config, steps: seq<Step>, i: nat, log: seq<Event>, hot: Hot, high: nat)
    requires i <= |steps| && hot.state.sequence <= high <= |log| && HotIsReplay(c, log, hot)
    requires Increasing(hot.applied) && AllBelow(hot.applied, hot.state.sequence + 1)
    requires HoldsKept(steps, i, Some(hot)) && forall k | 0 <= k < high :: !log[k].ReplacesText()
    ensures Reconstructed(c, log, hot, high).partialAnswer == Deltas(log, high)
       <==> AllTextKept(steps, i, log, hot.state.sequence)
  {
    hide IsKept, Deltas, TextOf, Replay, Initial, Numbered, HoldsKept, OnlySilentSkipped, AllTextKept;
    var low := hot.state.sequence;
    var all := hot.applied + Numbered(log, low, high);
    ContinuedIsOrdered(log, hot.applied, low, high);
    EarlyEntries(log, all, high);
    ReplayedText(all, c.maxActivities);
    TextOfPart(log, all, high);
    SkippedAreNotKept(steps, i, log, hot, low);
    OnlySkippedBefore(log, hot.applied, low, high);
  }

  lemma ContinuedIsOrdered(log: seq<Event>, applied: seq<Entry>, low: nat, high: nat)
    requires low <= high <= |log| && AllGenuine(log, applied) && Increasing(applied) && AllBelow(applied, low + 1)
    ensures var all := applied + Numbered(log, low, high);
      AllGenuine(log, all) && Increasing(all) && AllBelow(all, high + 1)
  {
    hide Numbered;
  }

  lemma OnlySkippedBefore(log: seq<Event>, applied: seq<Entry>, low: nat, high: nat)
    requires low <= high <= |log|
    ensures OnlySilentSkipped(log, applied + Numbered(log, low, high), high) <==> OnlySilentSkipped(log, applied, low)
  {
    hide Numbered;
    var rest := Numbered(log, low, high);
    var all := applied + rest;
    assert forall i | 0 <= i < |applied| :: all[i] == applied[i];
    forall k: nat | 1 <= k <= high ensures Has(all, k) <==> Has(applied, k) || low < k {
      if low < k {
        assert rest[k - low - 1].sequence == k && all[|applied| + (k - low - 1)] == rest[k - low - 1];
      } else if Has(applied, k) {
        var i :| 0 <= i < |applied| && applied[i].sequence == k;
        assert all[i].sequence == k;
      }
    }
  }

  /**
   * While emits follow one another, however often they are cut off: the text of a realtime frame is complete
   * exactly if every event with text up to the projection it started from was kept in that projection.
   */
  lemma RealtimeTextIsComplete(c: Config, run: seq<System>, steps: seq<Step>, i1: nat, i2: nat, i3: nat,
                               lookup: Lookup, lastSequence: Option<nat>)
    requires IsSequentialRun(c, run, steps) && i1 <= i2 <= i3 < |run|
    requires ReadsFrom(lookup, run[i1], run[i2], run[i3])
    requires Resolve(lookup, lastSequence, c.maxActivities).Resolved?
    requires Resolve(lookup, lastSequence, c.maxActivities).frame.realtime
    requires var high := Resolve(lookup, lastSequence, c.maxActivities).frame.sequence.GetOr(0);
      forall k | 0 <= k < |run[i3].log| && k < high :: !run[i3].log[k].ReplacesText()
    ensures run[i1].hot.Some?
    ensures var frame := Resolve(lookup, lastSequence, c.maxActivities).frame;
      var low, high, log := run[i1].hot.value.state.sequence, frame.sequence.GetOr(0), run[i3].log;
      && low <= high <= |log|
      && (frame.state.partialAnswer == Deltas(log, high) <==> AllTextKept(steps, i1, log, low))
  {
    hide Resolve, Reconstructed, IsKept, Increasing, AllBelow, Deltas, Next, Enabled, Replay, HoldsKept, AllTextKept;
    ReconstructionIsSound(c, run, steps, i1, i2, i3, lookup, lastSequence);
    var hot, log := run[i1].hot.value, run[i3].log;
    HotOfSequentialRun(c, run, steps, i1);
    LogGrows(c, run, steps, i1, i3);
    ReplayInLongerLog(c, run[i1].log, log, hot);
    AppliedAreKept(c, run, steps, i1);
    ContinuedText(c, steps, i1, log, hot, Resolve(lookup, lastSequence, c.maxActivities).frame.sequence.GetOr(0));
  }

  lemma ReconstructedIsFold(c: Config, log: seq<Event>, hot: Hot, high: nat)
    requires hot.state.sequence <= high <= |log|
    requires hot.applied == Numbered(log, 0, hot.state.sequence)
    ensures Reconstructed(c, log, hot, high) == Fold(log, high, c.maxActivities)
  {
    hide Reduce, Initial, Replay;
    assert hot.applied + Numbered(log, hot.state.sequence, high) == Numbered(log, 0, high);
    FoldHasSequence(log, high, c.maxActivities);
    assert Fold(log, high, c.maxActivities) == Replay(Initial(), Numbered(log, 0, high), c.maxActivities);
  }

  lemma FoldHasSequence(log: seq<Event>, n: nat, maxActivities: nat)
    requires n <= |log|
    ensures Fold(log, n, maxActivities).sequence == n
  {
    hide Reduce, Initial, Fold;
    FoldOfNothing(log, maxActivities);
    if n > 0 {
      FoldStep(log, n - 1, maxActivities);
      ReduceByField(Fold(log, n - 1, maxActivities), Entry(n, log[n - 1]), maxActivities);
    }
  }

  // ---------------------------------------------------------------------------
  // When bridging succeeds
  // ---------------------------------------------------------------------------

  function Max(a: nat, b: nat): nat {
    if a < b then b else a
  }

  lemma {:induction false} BetweenOfNumbered(log: seq<Event>, first: nat, last: nat, low: nat, high: nat)
    requires first <= last <= |log| && low <= high
    ensures Between(Numbered(log, first, last), low, high)
         == (if Max(first, low) <= Min(last, high) then Numbered(log, Max(first, low), Min(last, high)) else [])
    decreases last - first
  {
    if first == last {
      assert Numbered(log, first, last) == [];
    } else {
      hide Numbered, Between;
      BetweenOfNumbered(log, first + 1, last, low, high);
      NumberedSplits(log, first, last);
      BetweenSplits(Entry(first + 1, log[first]), Numbered(log, first + 1, last), low, high);
      if low <= first < high {
        NumberedSplits(log, first, Min(last, high));
      } else if first == high {
        assert |Numbered(log, high, high)| == 0;
      }
    }
  }

  lemma NumberedSplits(log: seq<Event>, first: nat, last: nat)
    requires first < last <= |log|
    ensures Numbered(log, first, last) == [Entry(first + 1, log[first])] + Numbered(log, first + 1, last)
  {}

  lemma BetweenSplits(entry: Entry, entries: seq<Entry>, low: nat, high: nat)
    ensures Between([entry] + entries, low, high)
         == (if low < entry.sequence <= high then [entry] else []) + Between(entries, low, high)
  {
    assert ([entry] + entries)[1..] == entries;
  }

  lemma OldestIsNumbered(c: Config, log: seq<Event>, first: nat, n: nat)
    requires first <= n <= |log|
    ensures Oldest(Numbered(log, first, n), c.maxlen) == Numbered(log, first, Min(n, first + c.maxlen))
  {}

  /** `retained` reads the oldest `maxlen` entries: they bridge exactly if they start early and reach far enough. */
  lemma OldestBridges(c: Config, log: seq<Event>, first: nat, n: nat, low: nat, high: nat)
    requires first <= n <= |log| && low < high <= n
    ensures Bridges(Between(Oldest(Numbered(log, first, n), c.maxlen), low, high), low, high)
       <==> first <= low && high <= first + c.maxlen
  {
    var last := Min(n, first + c.maxlen);
    OldestIsNumbered(c, log, first, n);
    BetweenOfNumbered(log, first, last, low, high);
    var a, b := Max(first, low), Min(last, high);
    if a <= b {
      var relevant := Numbered(log, a, b);
      assert |relevant| == b - a;
    }
  }

  const THREE: seq<Event> := [ExecutionStarted(None), ContextLoaded, LlmStarted]

  /** Three emits that nothing disturbs and that the approximate trimming leaves alone. */
  lemma ThreeEmits(c: Config) returns (run: seq<System>, steps: seq<Step>)
    requires c.maxlen == 1
    ensures IsUndisturbedRun(c, run, steps) && |run| == 13
    ensures run[4].hot.Some? && run[4].hot.value.state.sequence == 1
    ensures run[12].log == THREE && |run[12].published| == 3 && run[12].first == 0
  {
    assert IsSequentialRun(c, [EMPTY], []) && IsUndisturbedRun(c, [EMPTY], []) && AllIdle(EMPTY);
    hide IsSequentialRun, IsUndisturbedRun, Stored, Next, Enabled, At, AllIdle;
    run, steps := EmitAll(c, [EMPTY], [], 0, THREE[0]);
    StoredSequence(c, Entry(1, THREE[0]), None);
    run, steps := EmitAll(c, run, steps, 1, THREE[1]);
    run, steps := EmitAll(c, run, steps, 1, THREE[2]);
  }

  lemma StoredSequence(c: Config, entry: Entry, base: Option<Hot>)
    ensures Stored(c, entry, base).state.sequence == entry.sequence
  {
    hide Reduce;
    ReduceByField(base.GetOr(Hot(Initial(), [])).state, entry, c.maxActivities);
  }

  /**
   * A run whose stream outgrew `maxlen` and lost nothing: what it holds bridges the gap behind the projection
   * that was read after its first event, and yet resolving reports a gap.
   */
  lemma NothingIsMissingYetThereIsAGap(c: Config) returns (run: seq<System>, steps: seq<Step>, lookup: Lookup)
    requires c.maxlen == 1
    ensures IsUndisturbedRun(c, run, steps) && |run| == 13
    ensures lookup.hot == Ok(HotOf(run[4])) && lookup.latest == Ok(LatestOf(run[12]))
    ensures lookup.retained == Ok(Oldest(StreamOf(run[12]), c.maxlen))
    ensures |run[12].log| == 3 && StreamOf(run[12]) == Numbered(run[12].log, 0, 3)
    ensures HotOf(run[4]).Some? && HotOf(run[4]).value.sequence == 1
    ensures Bridges(Between(StreamOf(run[12]), 1, 3), 1, 3)
    ensures Resolve(lookup, None, c.maxActivities) == Gap
  {
    hide Numbered, Bridges, Between, Next, Enabled, Oldest, IsUndisturbedRun, Resolve;
    run, steps := ThreeEmits(c);
    lookup := Lookup(Some(NOTHING_DURABLE), Ok(HotOf(run[4])), Ok(LatestOf(run[12])),
                     Ok(Oldest(StreamOf(run[12]), c.maxlen)));
    StreamAt(c, run, steps, 12, 12);
    UndisturbedResolution(c, run, steps, 4, 12, 12, lookup, None);
    BetweenOfNumbered(run[12].log, 0, 3, 1, 3);
    NumberedBridges(run[12].log, 1, 3);
  }

  lemma NumberedBridges(log: seq<Event>, low: nat, high: nat)
    requires low <= high <= |log|
    ensures Bridges(Numbered(log, low, high), low, high)
  {}

  /**
   * While emits follow one another undisturbed, resolving shows the fold of the log at the high watermark,
   * or reports a gap; a gap exactly if the projection is behind and the retained window starts too late or,
   * as `retained` reads its oldest part only, stops too early.
   */
  lemma UndisturbedResolution(c: Config, run: seq<System>, steps: seq<Step>, i1: nat, i2: nat, i3: nat,
                              lookup: Lookup, lastSequence: Option<nat>)
    requires IsUndisturbedRun(c, run, steps) && i1 <= i2 <= i3 < |run| && c.maxlen >= 1
    requires lookup.durable.Some? && run[i1].hot.Some?
    requires lookup.hot == Ok(HotOf(run[i1])) && lookup.latest == Ok(LatestOf(run[i2]))
    requires lookup.retained == Ok(Oldest(StreamOf(run[i3]), c.maxlen))
    ensures LatestOf(run[i2]).Some?
    ensures var r := Resolve(lookup, lastSequence, c.maxActivities);
      var low, high, first := run[i1].hot.value.state.sequence, LatestOf(run[i2]).value.entry.sequence, run[i3].first;
      && low <= high <= |run[i3].log|
      && if low == high || (first <= low && high <= first + c.maxlen) then
           r == Resolved(
             StateFrame(Some(high), Fold(run[i3].log, high, c.maxActivities), true, None, lastSequence), Some(high))
         else r == Gap
  {
    assert IsRun(c, run, steps);
    hide Replay, Initial, Fold, Numbered, ResolveAgainst, Resolve, IsUndisturbedRun, IsRun, Oldest, StreamOf;
    var log, low, high, first := run[i3].log, run[i1].hot.value.state.sequence, |run[i2].published|, run[i3].first;
    HotAt(c, run, steps, i1, i3);
    StreamAt(c, run, steps, i2, i3);
    StreamAt(c, run, steps, i3, i3);
    LogGrows(c, run, steps, i1, i2);
    LogGrows(c, run, steps, i2, i3);
    ResolvesAgainst(lookup, lastSequence, c.maxActivities);
    ResolveUndisturbed(c, log, low, high, first, |run[i3].published|, lastSequence);
  }

  lemma ResolvesAgainst(lookup: Lookup, lastSequence: Option<nat>, maxActivities: nat)
    requires lookup.durable.Some? && lookup.hot.Ok? && lookup.hot.value.Some?
    requires lookup.latest.Ok? && lookup.latest.value.Some?
    ensures Resolve(lookup, lastSequence, maxActivities)
         == ResolveAgainst(lookup.hot.value.value, lookup.latest.value.value, lookup.retained, lastSequence,
                           maxActivities)
  {
    hide ResolveAgainst;
  }

  lemma HotAt(c: Config, run: seq<System>, steps: seq<Step>, i: nat, j: nat)
    requires IsUndisturbedRun(c, run, steps) && i <= j < |run| && run[i].hot.Some?
    ensures var state := run[i].hot.value.state;
      0 < state.sequence <= |run[i].published| && state.sequence <= |run[j].log|
      && state == Fold(run[j].log, state.sequence, c.maxActivities)
  {
    hide Fold, Numbered, Enabled, Next;
    var n, m := CompleteAt(c, run, steps, i);
    LogGrows(c, run, steps, i, j);
    FoldHasSequence(run[i].log, m, c.maxActivities);
    FoldOfLongerLog(run[i].log, run[j].log, m, c.maxActivities);
  }

  lemma StreamAt(c: Config, run: seq<System>, steps: seq<Step>, i: nat, j: nat)
    requires IsUndisturbedRun(c, run, steps) && i <= j < |run| && c.maxlen >= 1
    ensures var s, n := run[i], |run[i].published|;
      && s.first <= n <= |run[j].log|
      && (n > 0 ==> LatestOf(s) == Some(StreamEvent(n, Entry(n, run[j].log[n - 1]))))
      && StreamOf(s) == Numbered(run[j].log, s.first, n)
  {
    hide HotIsFold, HotIsReplay, Enabled, Next, EmitterOk;
    var n, _ := CompleteAt(c, run, steps, i);
    LogGrows(c, run, steps, i, j);
    EveryRunIsSound(c, run, steps, i);
    assert Numbered(run[i].log, 0, n)[run[i].first..] == Numbered(run[j].log, run[i].first, n);
  }

  lemma ResolveUndisturbed(c: Config, log: seq<Event>, low: nat, high: nat, first: nat, n: nat,
                           lastSequence: Option<nat>)
    requires 0 < low <= high <= n <= |log| && first <= n
    ensures ResolveAgainst(Fold(log, low, c.maxActivities), StreamEvent(high, Entry(high, log[high - 1])),
                           Ok(Oldest(Numbered(log, first, n), c.maxlen)), lastSequence, c.maxActivities)
         == if low == high || (first <= low && high <= first + c.maxlen) then
              Resolved(StateFrame(Some(high), Fold(log, high, c.maxActivities), true, None, lastSequence), Some(high))
            else Gap
  {
    hide Replay, Initial, Bridges, Fold, Numbered;
    FoldHasSequence(log, low, c.maxActivities);
    FoldHasSequence(log, high, c.maxActivities);
    if low < high {
      OldestBridges(c, log, first, n, low, high);
      BridgedIsFold(c, log, Between(Oldest(Numbered(log, first, n), c.maxlen), low, high), low, high, first, n);
    }
  }

  lemma BridgedIsFold(c: Config, log: seq<Event>, relevant: seq<Entry>, low: nat, high: nat, first: nat, n: nat)
    requires first <= n <= |log| && low < high <= n
    requires relevant == Between(Oldest(Numbered(log, first, n), c.maxlen), low, high)
    ensures Bridges(relevant, low, high) ==>
      Replay(Fold(log, low, c.maxActivities), relevant, c.maxActivities) == Fold(log, high, c.maxActivities)
  {
    hide Replay, Fold, Initial, Bridges, Between, Oldest;
    if Bridges(relevant, low, high) {
      OldestIsNumbered(c, log, first, n);
      BetweenAreThose(Numbered(log, first, Min(n, first + c.maxlen)), low, high);
      assert AllGenuine(log, relevant);
      GenuineBridgeIsLog(log, relevant, low, high);
      FoldContinues(log, low, high, c.maxActivities);
    }
  }

  lemma CompleteAt(c: Config, run: seq<System>, steps: seq<Step>, i: nat) returns (n: nat, m: nat)
    requires IsUndisturbedRun(c, run, steps) && i < |run|
    ensures Complete(c, run[i], n, m)
    ensures |run[i].published| == n
  {
    UndisturbedRunIsSerial(c, run, steps, i);
    n, m :| Complete(c, run[i], n, m);
  }
}
