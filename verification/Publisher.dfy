/** The event sinks: every emit appends to the stream and then, separately, stores the reduced projection. */
module Publisher {
  import opened Text
  import opened Events
  import opened Projection
  import opened EventStream

  /** `RedisExecutionEventSink`, for one execution; the lock makes an undisturbed emit one block. */
  class Sink {
    const stream: ExecutionEventStream
    const hot: ExecutionHotState
    const maxActivities: nat

    constructor (stream: ExecutionEventStream, hot: ExecutionHotState, maxActivities: nat)
      requires maxActivities >= 1
      ensures this.stream == stream && this.hot == hot && this.maxActivities == maxActivities
    {
      this.stream, this.hot, this.maxActivities := stream, hot, maxActivities;
    }

    /** An emit that nothing interrupts keeps the hot projection equal to the fold of the log. */
    method Emit(event: Event, trimmed: nat, ghost log: seq<Event>)
      requires MayTrim(|stream.entries| + 1, stream.maxlen, trimmed)
      requires |log| == stream.sequence
      requires stream.dropped <= |log| && stream.entries == Numbered(log, stream.dropped, |log|)
      requires hot.projection == if log == [] then None else Some(Fold(log, |log|, maxActivities))
      modifies stream, hot
      ensures stream.sequence == |log + [event]|
      ensures stream.dropped <= |log + [event]|
      ensures stream.entries == Numbered(log + [event], stream.dropped, |log + [event]|)
      ensures hot.projection == Some(Fold(log + [event], |log + [event]|, maxActivities))
    {
      hide Reduce, Fold, Initial;
      var streamEvent := stream.Append(event, trimmed);
      var current := hot.Get();
      var projection := current.GetOr(Initial());
      FoldOfNothing(log, maxActivities);
      FoldOfLongerLog(log, log + [event], |log|, maxActivities);
      FoldStep(log + [event], |log|, maxActivities);
      projection := Reduce(projection, streamEvent, maxActivities);
      hot.Set(projection);
    }
  }

  // ---------------------------------------------------------------------------
  // Sinks of several processes, one step at a time
  // ---------------------------------------------------------------------------

  /** A stored projection, with the entries it reduced, in that order. */
  datatype Hot = Hot(state: State, applied: seq<Entry>)

  /** How far a sink is with the emit it holds its own lock for. */
  datatype Emitter =
    | Idle
    | Allocated(entry: Entry)
    | Published(entry: Entry)
    | Loaded(entry: Entry, base: Option<Hot>)

  /**
   * `log[k - 1]` is the event that got sequence `k`. `published` lists the entries in the order they
   * reached the stream, which still holds those from `first` on.
   */
  datatype System = System(
    log: seq<Event>,
    published: seq<Entry>,
    first: nat,
    hot: Option<Hot>,
    emitters: map<nat, Emitter>)

  datatype Config = Config(maxlen: nat, maxActivities: nat)

  datatype Step =
    | Allocate(sink: nat, event: Event)
    | Publish(sink: nat, trimmed: nat)
    | Load(sink: nat)
    | Store(sink: nat)
    | Interrupt(sink: nat)
    | ExpireHot

  const EMPTY: System := System([], [], 0, None, map[])

  function At(s: System, sink: nat): Emitter {
    if sink in s.emitters then s.emitters[sink] else Idle
  }

  predicate Enabled(c: Config, s: System, step: Step) {
    match step
    case Allocate(sink, _) => At(s, sink).Idle?
    case Publish(sink, trimmed) =>
      At(s, sink).Allocated? && s.first <= |s.published| && MayTrim(|s.published| + 1 - s.first, c.maxlen, trimmed)
    case Load(sink) => At(s, sink).Published?
    case Store(sink) => At(s, sink).Loaded?
    case Interrupt(_) => true
    case ExpireHot => true
  }

  function Stored(c: Config, entry: Entry, base: Option<Hot>): Hot {
    var hot := base.GetOr(Hot(Initial(), []));
    Hot(Reduce(hot.state, entry, c.maxActivities), hot.applied + [entry])
  }

  function Next(c: Config, s: System, step: Step): System
    requires Enabled(c, s, step)
  {
    match step
    case Allocate(sink, event) =>
      var log := s.log + [event];
      s.(log := log, emitters := s.emitters[sink := Allocated(Entry(|log|, event))])
    case Publish(sink, trimmed) =>
      var entry := At(s, sink).entry;
      s.(published := s.published + [entry], first := s.first + trimmed,
         emitters := s.emitters[sink := Published(entry)])
    case Load(sink) =>
      s.(emitters := s.emitters[sink := Loaded(At(s, sink).entry, s.hot)])
    case Store(sink) =>
      var emitter := At(s, sink);
      s.(hot := Some(Stored(c, emitter.entry, emitter.base)), emitters := s.emitters[sink := Idle])
    case Interrupt(sink) => s.(emitters := s.emitters[sink := Idle])
    case ExpireHot => s.(hot := None)
  }

  /** The states of a run. */
  ghost predicate IsRun(c: Config, run: seq<System>, steps: seq<Step>) {
    && |run| == |steps| + 1
    && run[0] == EMPTY
    && forall i | 0 <= i < |steps| :: Enabled(c, run[i], steps[i]) && run[i + 1] == Next(c, run[i], steps[i])
  }

  // ---------------------------------------------------------------------------
  // What every interleaving keeps
  // ---------------------------------------------------------------------------

  /** The entry carries the event that its sequence was allocated for. */
  predicate Genuine(log: seq<Event>, entry: Entry) {
    1 <= entry.sequence <= |log| && log[entry.sequence - 1] == entry.event
  }

  predicate AllGenuine(log: seq<Event>, entries: seq<Entry>) {
    forall i | 0 <= i < |entries| :: Genuine(log, entries[i])
  }

  ghost predicate HotIsReplay(c: Config, log: seq<Event>, hot: Hot) {
    && AllGenuine(log, hot.applied)
    && hot.applied != []
    && hot.state == Replay(Initial(), hot.applied, c.maxActivities)
    && hot.state.sequence == hot.applied[|hot.applied| - 1].sequence
  }

  ghost predicate EmitterOk(c: Config, log: seq<Event>, emitter: Emitter) {
    match emitter
    case Idle => true
    case Allocated(entry) => Genuine(log, entry)
    case Published(entry) => Genuine(log, entry)
    case Loaded(entry, base) => Genuine(log, entry) && (base.Some? ==> HotIsReplay(c, log, base.value))
  }

  ghost predicate Sound(c: Config, s: System) {
    && AllGenuine(s.log, s.published)
    && s.first <= |s.published|
    && Min(c.maxlen, |s.published|) <= |s.published| - s.first
    && (s.hot.Some? ==> HotIsReplay(c, s.log, s.hot.value))
    && forall sink :: EmitterOk(c, s.log, At(s, sink))
  }

  lemma StoredIsReplay(c: Config, log: seq<Event>, entry: Entry, base: Option<Hot>)
    requires Genuine(log, entry) && (base.Some? ==> HotIsReplay(c, log, base.value))
    ensures HotIsReplay(c, log, Stored(c, entry, base))
  {
    hide Reduce, Initial;
    var applied := if base.Some? then base.value.applied else [];
    assert base.None? ==> Initial() == Replay(Initial(), applied, c.maxActivities);
    ReplayOne(Initial(), applied, entry, c.maxActivities);
    ReduceByField(Replay(Initial(), applied, c.maxActivities), entry, c.maxActivities);
  }

  lemma HotInLonger(c: Config, log: seq<Event>, event: Event, hot: Hot)
    requires HotIsReplay(c, log, hot)
    ensures HotIsReplay(c, log + [event], hot)
  {
    hide Replay, Initial;
  }

  lemma EmitterInLonger(c: Config, log: seq<Event>, event: Event, emitter: Emitter)
    requires EmitterOk(c, log, emitter)
    ensures EmitterOk(c, log + [event], emitter)
  {
    hide HotIsReplay;
    if emitter.Loaded? && emitter.base.Some? {
      HotInLonger(c, log, event, emitter.base.value);
    }
  }

  lemma SoundAfterAllocate(c: Config, s: System, sink: nat, event: Event)
    requires Sound(c, s) && Enabled(c, s, Allocate(sink, event))
    ensures Sound(c, Next(c, s, Allocate(sink, event)))
  {
    hide HotIsReplay;
    var next := Next(c, s, Allocate(sink, event));
    forall k ensures EmitterOk(c, next.log, At(next, k)) {
      EmitterInLonger(c, s.log, event, At(s, k));
    }
    if s.hot.Some? {
      HotInLonger(c, s.log, event, s.hot.value);
    }
  }

  lemma SoundAfter(c: Config, s: System, step: Step)
    requires Sound(c, s) && Enabled(c, s, step)
    ensures Sound(c, Next(c, s, step))
  {
    hide HotIsReplay, Stored;
    var next := Next(c, s, step);
    match step
    case Allocate(sink, event) => SoundAfterAllocate(c, s, sink, event);
    case Publish(sink, trimmed) =>
      assert forall k :: At(next, k) == if k == sink then Published(At(s, sink).entry) else At(s, k);
    case Load(sink) =>
      assert forall k :: At(next, k) == if k == sink then Loaded(At(s, sink).entry, s.hot) else At(s, k);
    case Store(sink) =>
      StoredIsReplay(c, s.log, At(s, sink).entry, At(s, sink).base);
      assert forall k :: At(next, k) == if k == sink then Idle else At(s, k);
    case Interrupt(sink) =>
      assert forall k :: At(next, k) == if k == sink then Idle else At(s, k);
    case ExpireHot =>
      assert forall k :: At(next, k) == At(s, k);
  }

  /** In every run, the hot projection is the fold of the entries that were applied to it, all genuine. */
  lemma {:induction false} EveryRunIsSound(c: Config, run: seq<System>, steps: seq<Step>, i: nat)
    requires IsRun(c, run, steps) && i < |run|
    ensures Sound(c, run[i])
  {
    if i > 0 {
      EveryRunIsSound(c, run, steps, i - 1);
      SoundAfter(c, run[i - 1], steps[i - 1]);
    }
  }

  // ---------------------------------------------------------------------------
  // Emits one after the other: the hot projection is the fold of the log
  // ---------------------------------------------------------------------------

  ghost predicate IdleExcept(s: System, sink: nat) {
    forall k | k != sink :: At(s, k).Idle?
  }

  /** No interruption, no expiry, and no emit starts while another is under way. */
  ghost predicate Undisturbed(s: System, step: Step) {
    match step
    case Allocate(_, _) => forall k :: At(s, k).Idle?
    case Interrupt(_) => false
    case ExpireHot => false
    case _ => true
  }

  ghost predicate HotIsFold(c: Config, log: seq<Event>, hot: Option<Hot>, n: nat) {
    && n <= |log|
    && hot == if n == 0 then None else Some(Hot(Fold(log, n, c.maxActivities), Numbered(log, 0, n)))
  }

  ghost predicate EntryIsLast(s: System, entry: Entry) {
    s.log != [] && entry == Entry(|s.log|, s.log[|s.log| - 1])
  }

  ghost predicate SerialAt(c: Config, s: System, sink: nat) {
    && IdleExcept(s, sink)
    && var n := |s.log|;
       match At(s, sink)
       case Idle => s.published == Numbered(s.log, 0, n) && HotIsFold(c, s.log, s.hot, n)
       case Allocated(entry) =>
         EntryIsLast(s, entry) && s.published == Numbered(s.log, 0, n - 1) && HotIsFold(c, s.log, s.hot, n - 1)
       case Published(entry) =>
         EntryIsLast(s, entry) && s.published == Numbered(s.log, 0, n) && HotIsFold(c, s.log, s.hot, n - 1)
       case Loaded(entry, base) =>
         && EntryIsLast(s, entry) && s.published == Numbered(s.log, 0, n)
         && HotIsFold(c, s.log, s.hot, n - 1) && base == s.hot
  }

  ghost predicate Serial(c: Config, s: System) {
    exists sink :: SerialAt(c, s, sink)
  }

  lemma StoredIsFold(c: Config, s: System, n: nat)
    requires n < |s.log| && HotIsFold(c, s.log, s.hot, n)
    ensures Stored(c, Entry(n + 1, s.log[n]), s.hot)
         == Hot(Fold(s.log, n + 1, c.maxActivities), Numbered(s.log, 0, n + 1))
  {
    hide Reduce, Fold, Initial;
    FoldOfNothing(s.log, c.maxActivities);
    FoldStep(s.log, n, c.maxActivities);
  }

  lemma HotIsFoldInLonger(c: Config, s: System, t: System, event: Event, n: nat)
    requires HotIsFold(c, s.log, s.hot, n) && t.log == s.log + [event] && t.hot == s.hot
    ensures HotIsFold(c, t.log, t.hot, n) && Numbered(t.log, 0, n) == Numbered(s.log, 0, n)
  {
    hide Fold;
    assert Numbered(t.log, 0, n) == Numbered(s.log, 0, n);
    FoldOfLongerLog(s.log, t.log, n, c.maxActivities);
  }

  lemma OthersStayIdle(c: Config, s: System, step: Step, sink: nat)
    requires IdleExcept(s, sink) && Enabled(c, s, step)
    requires step.Publish? || step.Load? || step.Store?
    ensures step.sink == sink && IdleExcept(Next(c, s, step), sink)
  {
    assert !At(s, step.sink).Idle?;
    assert forall k | k != sink :: At(Next(c, s, step), k) == At(s, k);
  }

  lemma SerialAfterAllocate(c: Config, s: System, sink: nat, event: Event)
    requires Serial(c, s) && forall k :: At(s, k).Idle?
    ensures SerialAt(c, Next(c, s, Allocate(sink, event)), sink)
  {
    hide HotIsFold;
    var next := Next(c, s, Allocate(sink, event));
    HotIsFoldInLonger(c, s, next, event, |s.log|);
    assert At(next, sink) == Allocated(Entry(|next.log|, event)) && EntryIsLast(next, At(next, sink).entry);
    assert forall k | k != sink :: At(next, k) == At(s, k);
  }

  lemma SerialAfter(c: Config, s: System, step: Step)
    requires Serial(c, s) && Enabled(c, s, step) && Undisturbed(s, step)
    ensures Serial(c, Next(c, s, step))
  {
    hide Stored, HotIsFold, IdleExcept, Numbered;
    var sink :| SerialAt(c, s, sink);
    var next, n := Next(c, s, step), |s.log|;
    match step
    case Allocate(k, event) =>
      SerialAfterAllocate(c, s, k, event);
    case Publish(_, _) =>
      OthersStayIdle(c, s, step, sink);
      assert Numbered(s.log, 0, n) == Numbered(s.log, 0, n - 1) + [Entry(n, s.log[n - 1])];
      assert At(next, sink) == Published(At(s, sink).entry);
      assert SerialAt(c, next, sink);
    case Load(_) =>
      OthersStayIdle(c, s, step, sink);
      assert At(next, sink) == Loaded(At(s, sink).entry, s.hot);
      assert SerialAt(c, next, sink);
    case Store(_) =>
      OthersStayIdle(c, s, step, sink);
      StoredIsFold(c, s, n - 1);
      assert At(next, sink) == Idle;
      assert HotIsFold(c, next.log, next.hot, n) by {
        StoredHotIsFold(c, next.log, next.hot, n);
      }
      assert SerialAt(c, next, sink);
  }

  lemma StoredHotIsFold(c: Config, log: seq<Event>, hot: Option<Hot>, n: nat)
    requires 0 < n <= |log| && hot == Some(Hot(Fold(log, n, c.maxActivities), Numbered(log, 0, n)))
    ensures HotIsFold(c, log, hot, n)
  {}

  ghost predicate IsUndisturbedRun(c: Config, run: seq<System>, steps: seq<Step>) {
    IsRun(c, run, steps) && forall i | 0 <= i < |steps| :: Undisturbed(run[i], steps[i])
  }

  /** What an observer can rely on: the stream is complete, and the hot projection at most one event behind. */
  ghost predicate Complete(c: Config, s: System, n: nat, m: nat) {
    && m <= n <= |s.log| <= n + 1 && n <= m + 1
    && s.published == Numbered(s.log, 0, n)
    && HotIsFold(c, s.log, s.hot, m)
  }

  /** While emits follow one another, the hot projection is the fold of a prefix of the log. */
  lemma {:induction false} UndisturbedRunIsSerial(c: Config, run: seq<System>, steps: seq<Step>, i: nat)
    requires IsUndisturbedRun(c, run, steps) && i < |run|
    ensures Serial(c, run[i])
    ensures exists n, m :: Complete(c, run[i], n, m)
  {
    if i == 0 {
      assert SerialAt(c, run[0], 0);
    } else {
      UndisturbedRunIsSerial(c, run, steps, i - 1);
      SerialAfter(c, run[i - 1], steps[i - 1]);
    }
    SerialIsComplete(c, run[i]);
  }

  lemma SerialIsComplete(c: Config, s: System)
    requires Serial(c, s)
    ensures exists n, m :: Complete(c, s, n, m)
  {
    hide HotIsFold;
    var sink :| SerialAt(c, s, sink);
    var n := |s.log|;
    match At(s, sink)
    case Idle => assert Complete(c, s, n, n);
    case Allocated(_) => assert Complete(c, s, n - 1, n - 1);
    case Published(_) => assert Complete(c, s, n, n - 1);
    case Loaded(_, _) => assert Complete(c, s, n, n - 1);
  }

  // ---------------------------------------------------------------------------
  // Emits one after the other, any of them cut off: what the projection loses
  // ---------------------------------------------------------------------------

  /** No emit starts while another is under way; each may be cut off at any point, and the hot key may expire. */
  ghost predicate OneByOne(s: System, step: Step) {
    step.Allocate? ==> forall k :: At(s, k).Idle?
  }

  ghost predicate IsSequentialRun(c: Config, run: seq<System>, steps: seq<Step>) {
    IsRun(c, run, steps) && forall i | 0 <= i < |steps| :: OneByOne(run[i], steps[i])
  }

  ghost predicate Increasing(entries: seq<Entry>) {
    forall i, j | 0 <= i < j < |entries| :: entries[i].sequence < entries[j].sequence
  }

  ghost predicate AllBelow(entries: seq<Entry>, bound: nat) {
    forall i | 0 <= i < |entries| :: entries[i].sequence < bound
  }

  ghost predicate HotOrdered(hot: Option<Hot>, bound: nat) {
    hot.Some? ==> Increasing(hot.value.applied) && AllBelow(hot.value.applied, bound)
  }

  /** Only this sink is busy; the entries reached stream and projection in order. */
  ghost predicate OrderedAt(s: System, sink: nat) {
    && IdleExcept(s, sink)
    && Increasing(s.published)
    && match At(s, sink)
       case Idle => HotOrdered(s.hot, |s.log| + 1) && AllBelow(s.published, |s.log| + 1)
       case Allocated(entry) =>
         entry.sequence == |s.log| && HotOrdered(s.hot, |s.log|) && AllBelow(s.published, |s.log|)
       case Published(entry) =>
         entry.sequence == |s.log| && HotOrdered(s.hot, |s.log|) && AllBelow(s.published, |s.log| + 1)
       case Loaded(entry, base) =>
         && entry.sequence == |s.log| && HotOrdered(s.hot, |s.log|) && HotOrdered(base, |s.log|)
         && AllBelow(s.published, |s.log| + 1)
  }

  ghost predicate Ordered(s: System) {
    exists sink :: OrderedAt(s, sink)
  }

  lemma OrderedAfterAllocate(c: Config, s: System, sink: nat, event: Event)
    requires Ordered(s) && forall k :: At(s, k).Idle?
    ensures OrderedAt(Next(c, s, Allocate(sink, event)), sink)
  {
    var next := Next(c, s, Allocate(sink, event));
    assert At(next, sink) == Allocated(Entry(|next.log|, event));
    assert forall k | k != sink :: At(next, k) == At(s, k);
  }

  lemma OrderedAfter(c: Config, s: System, step: Step)
    requires Ordered(s) && Enabled(c, s, step) && OneByOne(s, step)
    ensures Ordered(Next(c, s, step))
  {
    hide Reduce, Initial;
    var sink :| OrderedAt(s, sink);
    var next := Next(c, s, step);
    match step
    case Allocate(k, event) =>
      OrderedAfterAllocate(c, s, k, event);
    case Publish(_, _) =>
      OthersStayIdle(c, s, step, sink);
      assert At(next, sink) == Published(At(s, sink).entry) && OrderedAt(next, sink);
    case Load(_) =>
      OthersStayIdle(c, s, step, sink);
      assert At(next, sink) == Loaded(At(s, sink).entry, s.hot) && OrderedAt(next, sink);
    case Store(_) =>
      OthersStayIdle(c, s, step, sink);
      assert At(next, sink) == Idle && OrderedAt(next, sink);
    case Interrupt(k) =>
      assert forall j :: At(next, j) == if j == k then Idle else At(s, j);
      assert OrderedAt(next, sink);
    case ExpireHot =>
      assert forall j :: At(next, j) == At(s, j);
      assert OrderedAt(next, sink);
  }

  lemma {:induction false} SequentialRunIsOrdered(c: Config, run: seq<System>, steps: seq<Step>, i: nat)
    requires IsSequentialRun(c, run, steps) && i < |run|
    ensures Ordered(run[i])
  {
    if i == 0 {
      assert OrderedAt(run[0], 0);
    } else {
      SequentialRunIsOrdered(c, run, steps, i - 1);
      OrderedAfter(c, run[i - 1], steps[i - 1]);
    }
  }

  predicate Has(entries: seq<Entry>, sequence: nat) {
    exists i | 0 <= i < |entries| :: entries[i].sequence == sequence
  }

  function TextOf(entries: seq<Entry>): string {
    if entries == [] then "" else TextOf(entries[..|entries| - 1]) + entries[|entries| - 1].event.Delta()
  }

  lemma {:induction false} ReplayedText(entries: seq<Entry>, maxActivities: nat)
    requires forall i | 0 <= i < |entries| :: !entries[i].event.ReplacesText()
    ensures Replay(Initial(), entries, maxActivities).partialAnswer == TextOf(entries)
  {
    hide Reduce, NextText;
    if entries != [] {
      var front, last := entries[..|entries| - 1], entries[|entries| - 1];
      ReplayedText(front, maxActivities);
      ReduceByField(Replay(Initial(), front, maxActivities), last, maxActivities);
      NextTextIsLonger(TextOf(front), last.event);
    }
  }

  /** Every event up to `n` that was not applied added no text. */
  ghost predicate OnlySilentSkipped(log: seq<Event>, entries: seq<Entry>, n: nat)
    requires n <= |log|
  {
    forall k: nat | 1 <= k <= n && !Has(entries, k) :: log[k - 1].Delta() == ""
  }

  lemma HasBelow(entries: seq<Entry>, n: nat)
    requires Increasing(entries) && AllBelow(entries, n + 1) && Has(entries, n)
    ensures entries != [] && entries[|entries| - 1].sequence == n
    ensures forall k: nat | k < n :: Has(entries, k) <==> Has(entries[..|entries| - 1], k)
    ensures Increasing(entries[..|entries| - 1]) && AllBelow(entries[..|entries| - 1], n)
  {
    var front := entries[..|entries| - 1];
    assert forall i | 0 <= i < |front| :: front[i] == entries[i];
  }

  lemma SkippedWith(log: seq<Event>, entries: seq<Entry>, n: nat)
    requires 0 < n <= |log| && Increasing(entries) && AllBelow(entries, n + 1) && Has(entries, n)
    ensures entries != []
    ensures OnlySilentSkipped(log, entries, n) <==> OnlySilentSkipped(log, entries[..|entries| - 1], n - 1)
  {
    HasBelow(entries, n);
    hide Increasing, AllBelow, Has;
    var front := entries[..|entries| - 1];
    assert forall k: nat | k < n :: Has(entries, k) <==> Has(front, k);
  }

  lemma SkippedWithout(log: seq<Event>, entries: seq<Entry>, n: nat)
    requires 0 < n <= |log| && AllBelow(entries, n + 1) && !Has(entries, n)
    ensures AllBelow(entries, n)
    ensures OnlySilentSkipped(log, entries, n)
       <==> OnlySilentSkipped(log, entries, n - 1) && log[n - 1].Delta() == ""
  {}

  /** A text that is not longer than `b` is `b` with more behind it only if nothing is behind it. */
  lemma NothingBehind(a: string, b: string, more: string)
    requires |a| <= |b|
    ensures a == b + more <==> a == b && more == ""
    ensures |a| <= |b + more|
  {
    assert more == "" ==> b + more == b;
  }

  lemma DeltasStep(log: seq<Event>, n: nat)
    requires 0 < n <= |log|
    ensures Deltas(log, n) == Deltas(log, n - 1) + log[n - 1].Delta()
  {}

  lemma TextStep(entries: seq<Entry>)
    requires entries != []
    ensures TextOf(entries) == TextOf(entries[..|entries| - 1]) + entries[|entries| - 1].event.Delta()
  {}

  lemma FirstIsGenuine(log: seq<Event>, entries: seq<Entry>, n: nat)
    requires entries != [] && AllGenuine(log, entries) && AllBelow(entries, n + 1)
    ensures n >= 1
  {
    assert Genuine(log, entries[0]);
  }

  lemma NothingBelow(log: seq<Event>, entries: seq<Entry>)
    requires AllGenuine(log, entries) && AllBelow(entries, 1)
    ensures TextOf(entries) == Deltas(log, 0) == "" && OnlySilentSkipped(log, entries, 0)
  {
    if entries != [] {
      FirstIsGenuine(log, entries, 0);
    }
  }

  lemma {:induction false} TextOfPart(log: seq<Event>, entries: seq<Entry>, n: nat)
    requires n <= |log| && AllGenuine(log, entries) && Increasing(entries) && AllBelow(entries, n + 1)
    ensures |TextOf(entries)| <= |Deltas(log, n)|
    ensures TextOf(entries) == Deltas(log, n) <==> OnlySilentSkipped(log, entries, n)
  {
    hide Increasing, AllBelow, OnlySilentSkipped, Has, Deltas, TextOf;
    if n == 0 {
      NothingBelow(log, entries);
    } else if Has(entries, n) {
      HasBelow(entries, n);
      SkippedWith(log, entries, n);
      var front, last := entries[..|entries| - 1], entries[|entries| - 1];
      TextOfPart(log, front, n - 1);
      DeltasStep(log, n);
      TextStep(entries);
      SameSuffix(TextOf(front), Deltas(log, n - 1), last.event.Delta());
    } else {
      SkippedWithout(log, entries, n);
      TextOfPart(log, entries, n - 1);
      DeltasStep(log, n);
      NothingBehind(TextOf(entries), Deltas(log, n - 1), log[n - 1].Delta());
    }
  }

  lemma SameSuffix(a: string, b: string, suffix: string)
    ensures a + suffix == b + suffix <==> a == b
  {
    if a + suffix == b + suffix {
      assert a == (a + suffix)[..|a|] && b == (b + suffix)[..|b|];
    }
  }

  // ---------------------------------------------------------------------------
  // Which events the projection holds, told from the steps
  // ---------------------------------------------------------------------------

  /** How many events were numbered in the first `n` steps. */
  function Allocations(steps: seq<Step>, n: nat): nat
    requires n <= |steps|
  {
    if n == 0 then 0 else Allocations(steps, n - 1) + (if steps[n - 1].Allocate? then 1 else 0)
  }

  /** The emit of event `k` reached its second write at step `j`. */
  predicate StoresAt(steps: seq<Step>, j: nat, k: nat)
    requires j < |steps|
  {
    steps[j].Store? && Allocations(steps, j) == k
  }

  /** An emit that had loaded the projection before the expiry at step `e` stored it again before step `n`. */
  ghost predicate IsUndone(steps: seq<Step>, e: nat, n: nat)
    requires n <= |steps|
  {
    exists t: nat :: e < t < n && steps[t].Store? && NoLoad(steps, e + 1, t)
  }

  predicate NoLoad(steps: seq<Step>, from: nat, to: nat)
    requires to <= |steps|
  {
    forall k | from <= k < to :: !steps[k].Load?
  }

  predicate NoStore(steps: seq<Step>, from: nat, to: nat)
    requires to <= |steps|
  {
    forall k | from <= k < to :: !steps[k].Store?
  }

  ghost predicate Lasts(steps: seq<Step>, j: nat, n: nat)
    requires n <= |steps|
  {
    forall e: nat | j < e < n && steps[e].ExpireHot? :: IsUndone(steps, e, n)
  }

  /** The emit of event `k` was completed within the first `n` steps, and no expiry lost it since. */
  ghost predicate IsKept(steps: seq<Step>, n: nat, k: nat)
    requires n <= |steps|
  {
    exists j: nat :: j < n && StoresAt(steps, j, k) && Lasts(steps, j, n)
  }

  lemma UndoneLater(steps: seq<Step>, e: nat, n: nat)
    requires n < |steps| && e < n
    ensures IsUndone(steps, e, n + 1) <==> IsUndone(steps, e, n) || (steps[n].Store? && NoLoad(steps, e + 1, n))
  {
    if IsUndone(steps, e, n) {
      var t: nat :| e < t < n && steps[t].Store? && NoLoad(steps, e + 1, t);
      assert e < t < n + 1 && steps[t].Store? && NoLoad(steps, e + 1, t);
    }
  }

  lemma KeptAfterOther(steps: seq<Step>, n: nat, k: nat)
    requires n < |steps| && !steps[n].Store? && !steps[n].ExpireHot?
    ensures IsKept(steps, n + 1, k) <==> IsKept(steps, n, k)
  {
    hide IsUndone;
    forall e: nat | e < n ensures IsUndone(steps, e, n + 1) <==> IsUndone(steps, e, n) {
      UndoneLater(steps, e, n);
    }
    forall j: nat | j < n ensures Lasts(steps, j, n + 1) <==> Lasts(steps, j, n) {}
  }

  lemma NothingIsKept(steps: seq<Step>, n: nat, k: nat)
    requires n < |steps| && steps[n].ExpireHot?
    ensures !IsKept(steps, n + 1, k)
  {
    assert !IsUndone(steps, n, n + 1);
  }

  /** Storing what was loaded at step `l` keeps what was there then, and the event itself. */
  lemma LastsAfterStore(steps: seq<Step>, l: nat, n: nat, j: nat)
    requires l < n < |steps| && steps[l].Load? && steps[n].Store? && j < l
    requires NoLoad(steps, l + 1, n) && NoStore(steps, l, n)
    ensures Lasts(steps, j, n + 1) <==> Lasts(steps, j, l)
  {
    forall e: nat | j < e < l ensures IsUndone(steps, e, n + 1) <==> IsUndone(steps, e, l) {
      if IsUndone(steps, e, n + 1) {
        var t: nat :| e < t < n + 1 && steps[t].Store? && NoLoad(steps, e + 1, t);
        assert t < l;
      }
      if IsUndone(steps, e, l) {
        var t: nat :| e < t < l && steps[t].Store? && NoLoad(steps, e + 1, t);
        assert e < t < n + 1;
      }
    }
    forall e: nat | l < e < n && steps[e].ExpireHot? ensures IsUndone(steps, e, n + 1) {
      assert e < n && steps[n].Store? && NoLoad(steps, e + 1, n);
    }
  }

  lemma KeptAfterStore(steps: seq<Step>, l: nat, n: nat, k: nat)
    requires l < n < |steps| && steps[l].Load? && steps[n].Store?
    requires NoLoad(steps, l + 1, n) && NoStore(steps, l, n)
    ensures IsKept(steps, n + 1, k) <==> IsKept(steps, l, k) || k == Allocations(steps, n)
  {
    hide Lasts, Allocations;
    forall j: nat | j < l ensures Lasts(steps, j, n + 1) <==> Lasts(steps, j, l) {
      LastsAfterStore(steps, l, n, j);
    }
    LastStoreLasts(steps, n);
    if k == Allocations(steps, n) {
      assert StoresAt(steps, n, k) && Lasts(steps, n, n + 1);
    }
    if IsKept(steps, l, k) {
      var j: nat :| j < l && StoresAt(steps, j, k) && Lasts(steps, j, l);
      assert j < n + 1 && StoresAt(steps, j, k) && Lasts(steps, j, n + 1);
    }
  }

  lemma LastStoreLasts(steps: seq<Step>, n: nat)
    requires n < |steps|
    ensures Lasts(steps, n, n + 1)
  {}

  function AppliedOf(hot: Option<Hot>): seq<Entry> {
    if hot.Some? then hot.value.applied else []
  }

  ghost predicate HoldsKept(steps: seq<Step>, n: nat, hot: Option<Hot>)
    requires n <= |steps|
  {
    forall k: nat :: Has(AppliedOf(hot), k) <==> IsKept(steps, n, k)
  }

  /** The projection was loaded at step `l`, by the emit that is still to store it. */
  ghost predicate LoadedAt(steps: seq<Step>, l: nat, n: nat, base: Option<Hot>)
    requires n <= |steps|
  {
    l < n && steps[l].Load? && NoLoad(steps, l + 1, n) && NoStore(steps, l, n) && HoldsKept(steps, l, base)
  }

  ghost predicate WasLoaded(steps: seq<Step>, n: nat, base: Option<Hot>)
    requires n <= |steps|
  {
    exists l: nat :: LoadedAt(steps, l, n, base)
  }

  ghost predicate KeptOk(steps: seq<Step>, n: nat, s: System)
    requires n <= |steps|
  {
    && |s.log| == Allocations(steps, n)
    && HoldsKept(steps, n, s.hot)
    && forall sink | At(s, sink).Loaded? :: WasLoaded(steps, n, At(s, sink).base)
  }

  lemma HasOneMore(entries: seq<Entry>, entry: Entry, k: nat)
    ensures Has(entries + [entry], k) <==> Has(entries, k) || k == entry.sequence
  {
    var all := entries + [entry];
    assert all[|entries|] == entry && forall i | 0 <= i < |entries| :: all[i] == entries[i];
    if Has(entries, k) {
      var i :| 0 <= i < |entries| && entries[i].sequence == k;
      assert all[i].sequence == k;
    }
  }

  lemma KeptOkAfterStore(c: Config, steps: seq<Step>, n: nat, s: System, sink: nat)
    requires n < |steps| && KeptOk(steps, n, s) && OrderedAt(s, sink)
    requires steps[n] == Store(sink) && Enabled(c, s, steps[n])
    ensures HoldsKept(steps, n + 1, Next(c, s, steps[n]).hot)
  {
    hide IsKept, Reduce, Initial, HotOrdered, Increasing, AllBelow, Has, Allocations, NoLoad, NoStore;
    var emitter, next := At(s, sink), Next(c, s, steps[n]);
    var l: nat :| LoadedAt(steps, l, n, emitter.base);
    assert AppliedOf(next.hot) == AppliedOf(emitter.base) + [emitter.entry];
    forall k: nat ensures Has(AppliedOf(next.hot), k) <==> IsKept(steps, n + 1, k) {
      HasOneMore(AppliedOf(emitter.base), emitter.entry, k);
      KeptAfterStore(steps, l, n, k);
    }
  }

  lemma LoadedStays(steps: seq<Step>, l: nat, n: nat, base: Option<Hot>)
    requires n < |steps| && LoadedAt(steps, l, n, base) && !steps[n].Load? && !steps[n].Store?
    ensures LoadedAt(steps, l, n + 1, base)
  {
    hide HoldsKept;
  }

  lemma LoadedNow(steps: seq<Step>, n: nat, hot: Option<Hot>)
    requires n < |steps| && steps[n].Load? && HoldsKept(steps, n, hot)
    ensures LoadedAt(steps, n, n + 1, hot)
  {
    hide HoldsKept;
  }

  lemma HotKeptAfter(c: Config, steps: seq<Step>, n: nat, s: System)
    requires n < |steps| && KeptOk(steps, n, s) && Ordered(s) && Enabled(c, s, steps[n])
    ensures HoldsKept(steps, n + 1, Next(c, s, steps[n]).hot)
  {
    hide IsKept, Reduce, Initial, HotOrdered, Increasing, AllBelow, Allocations, LoadedAt;
    var step := steps[n];
    if step.Store? {
      var sink :| OrderedAt(s, sink);
      assert step.sink == sink;
      KeptOkAfterStore(c, steps, n, s, sink);
    } else {
      forall k: nat ensures Has(AppliedOf(Next(c, s, step).hot), k) <==> IsKept(steps, n + 1, k) {
        if step.ExpireHot? {
          NothingIsKept(steps, n, k);
        } else {
          KeptAfterOther(steps, n, k);
        }
      }
    }
  }

  lemma KeptOkAfter(c: Config, steps: seq<Step>, n: nat, s: System)
    requires n < |steps| && KeptOk(steps, n, s) && Ordered(s) && Enabled(c, s, steps[n])
    ensures KeptOk(steps, n + 1, Next(c, s, steps[n]))
  {
    HotKeptAfter(c, steps, n, s);
    hide HoldsKept, Stored, LoadedAt, HotOrdered, Increasing, AllBelow;
    var step, next := steps[n], Next(c, s, steps[n]);
    var busy :| OrderedAt(s, busy);
    forall sink | At(next, sink).Loaded? ensures WasLoaded(steps, n + 1, At(next, sink).base) {
      if step.Load? && step.sink == sink {
        LoadedNow(steps, n, s.hot);
      } else {
        assert At(next, sink) == At(s, sink) && sink == busy;
        var l: nat :| LoadedAt(steps, l, n, At(s, sink).base);
        LoadedStays(steps, l, n, At(s, sink).base);
      }
    }
  }

  /** An event is in the projection exactly if its emit was completed and no expiry lost it since. */
  lemma {:induction false} AppliedAreKept(c: Config, run: seq<System>, steps: seq<Step>, i: nat)
    requires IsSequentialRun(c, run, steps) && i < |run|
    ensures KeptOk(steps, i, run[i])
  {
    hide Next, Enabled;
    if i == 0 {
      assert forall k: nat :: !IsKept(steps, 0, k);
    } else {
      AppliedAreKept(c, run, steps, i - 1);
      SequentialRunIsOrdered(c, run, steps, i - 1);
      KeptOkAfter(c, steps, i - 1, run[i - 1]);
    }
  }

  /** Every event with text up to sequence `n` was kept. */
  ghost predicate AllTextKept(steps: seq<Step>, i: nat, log: seq<Event>, n: nat)
    requires i <= |steps| && n <= |log|
  {
    forall k: nat | 1 <= k <= n && log[k - 1].Delta() != "" :: IsKept(steps, i, k)
  }

  lemma HotOfSequentialRun(c: Config, run: seq<System>, steps: seq<Step>, i: nat)
    requires IsSequentialRun(c, run, steps) && i < |run| && run[i].hot.Some?
    ensures var s := run[i];
      var hot := s.hot.value;
      && HotIsReplay(c, s.log, hot)
      && hot.state.sequence <= |s.log|
      && Increasing(hot.applied) && AllBelow(hot.applied, hot.state.sequence + 1)
  {
    EveryRunIsSound(c, run, steps, i);
    SequentialRunIsOrdered(c, run, steps, i);
  }

  /**
   * While emits of any sinks follow one another, however often they are cut off and the hot key expires: the
   * projected text is complete up to the projected sequence exactly if the emit of every event with text was
   * completed and not lost by an expiry since.
   */
  lemma InterruptedTextIsComplete(c: Config, run: seq<System>, steps: seq<Step>, i: nat)
    requires IsSequentialRun(c, run, steps) && i < |run| && run[i].hot.Some?
    requires forall k | 0 <= k < |run[i].log| && k < run[i].hot.value.state.sequence :: !run[i].log[k].ReplacesText()
    ensures var s := run[i];
      var hot := s.hot.value;
      && hot.state.sequence <= |s.log|
      && (hot.state.partialAnswer == Deltas(s.log, hot.state.sequence)
          <==> AllTextKept(steps, i, s.log, hot.state.sequence))
  {
    hide IsKept, Increasing, AllBelow, Deltas, TextOf, Next, Enabled, Replay;
    HotOfSequentialRun(c, run, steps, i);
    var s := run[i];
    var hot := s.hot.value;
    AppliedAreKept(c, run, steps, i);
    SkippedAreNotKept(steps, i, s.log, hot, hot.state.sequence);
    EarlyEntries(s.log, hot.applied, hot.state.sequence);
    ReplayedText(hot.applied, c.maxActivities);
    TextOfPart(s.log, hot.applied, hot.state.sequence);
  }

  lemma SkippedAreNotKept(steps: seq<Step>, i: nat, log: seq<Event>, hot: Hot, n: nat)
    requires i <= |steps| && n <= |log| && HoldsKept(steps, i, Some(hot))
    ensures OnlySilentSkipped(log, hot.applied, n) <==> AllTextKept(steps, i, log, n)
  {
    hide IsKept, Has;
    assert AppliedOf(Some(hot)) == hot.applied;
  }

  lemma EarlyEntries(log: seq<Event>, entries: seq<Entry>, n: nat)
    requires AllGenuine(log, entries) && AllBelow(entries, n + 1)
    requires forall k | 0 <= k < |log| && k < n :: !log[k].ReplacesText()
    ensures forall i | 0 <= i < |entries| :: !entries[i].event.ReplacesText()
  {}

  // ---------------------------------------------------------------------------
  // Concrete runs
  // ---------------------------------------------------------------------------

  ghost predicate AllIdle(s: System) {
    forall k :: At(s, k).Idle?
  }

  lemma Extend(c: Config, run: seq<System>, steps: seq<Step>, step: Step) returns (longer: seq<System>, more: seq<Step>)
    requires IsSequentialRun(c, run, steps)
    requires Enabled(c, run[|steps|], step) && OneByOne(run[|steps|], step)
    ensures IsSequentialRun(c, longer, more) && |longer| == |more| + 1 && more == steps + [step]
    ensures run <= longer
    ensures longer[|more|] == Next(c, run[|steps|], step)
    ensures IsUndisturbedRun(c, run, steps) && Undisturbed(run[|steps|], step) ==> IsUndisturbedRun(c, longer, more)
  {
    hide Enabled, Next, OneByOne, Undisturbed;
    longer, more := run + [Next(c, run[|steps|], step)], steps + [step];
  }

  lemma AfterAllocate(c: Config, s: System, sink: nat, event: Event)
    requires AllIdle(s)
    ensures Enabled(c, s, Allocate(sink, event))
    ensures var t := Next(c, s, Allocate(sink, event));
      && At(t, sink) == Allocated(Entry(|s.log| + 1, event))
      && t == s.(log := s.log + [event], emitters := t.emitters)
      && forall k | k != sink :: At(t, k).Idle?
  {
    var t := Next(c, s, Allocate(sink, event));
    assert forall k | k != sink :: At(t, k) == At(s, k);
  }

  lemma AfterInterrupt(c: Config, s: System, sink: nat)
    requires forall k | k != sink :: At(s, k).Idle?
    ensures Enabled(c, s, Interrupt(sink))
    ensures var t := Next(c, s, Interrupt(sink)); AllIdle(t) && t == s.(emitters := t.emitters)
  {
    var t := Next(c, s, Interrupt(sink));
    assert forall k :: At(t, k) == if k == sink then Idle else At(s, k);
  }

  lemma AfterPublish(c: Config, s: System, sink: nat)
    requires At(s, sink).Allocated? && s.first <= |s.published|
    ensures Enabled(c, s, Publish(sink, 0))
    ensures var t := Next(c, s, Publish(sink, 0));
      && At(t, sink) == Published(At(s, sink).entry)
      && t == s.(published := s.published + [At(s, sink).entry], emitters := t.emitters)
      && forall k | k != sink :: At(t, k) == At(s, k)
  {}

  lemma AfterLoadAndStore(c: Config, s: System, sink: nat)
    requires At(s, sink).Published?
    ensures Enabled(c, s, Load(sink))
    ensures var t := Next(c, s, Load(sink));
      && Enabled(c, t, Store(sink))
      && var u := Next(c, t, Store(sink));
      && u == s.(hot := Some(Stored(c, At(s, sink).entry, s.hot)), emitters := u.emitters)
      && At(u, sink).Idle? && forall k | k != sink :: At(u, k) == At(s, k)
  {
    hide Stored;
  }

  /** The four steps of an emit that nothing cuts off and that trims nothing. */
  lemma EmitAll(c: Config, run: seq<System>, steps: seq<Step>, sink: nat, event: Event)
    returns (longer: seq<System>, more: seq<Step>)
    requires IsSequentialRun(c, run, steps) && AllIdle(run[|steps|]) && run[|steps|].first <= |run[|steps|].published|
    ensures IsSequentialRun(c, longer, more)
    ensures more == steps + [Allocate(sink, event), Publish(sink, 0), Load(sink), Store(sink)]
    ensures run <= longer && |longer| == |more| + 1
    ensures IsUndisturbedRun(c, run, steps) ==> IsUndisturbedRun(c, longer, more)
    ensures var s, t := run[|steps|], longer[|more|];
      var entry := Entry(|s.log| + 1, event);
      && AllIdle(t)
      && t == s.(log := s.log + [event], published := s.published + [entry], hot := Some(Stored(c, entry, s.hot)),
                 emitters := t.emitters)
  {
    assert |run| == |steps| + 1;
    hide IsSequentialRun, IsUndisturbedRun, Stored, Next, Enabled, At;
    var s := run[|steps|];
    AfterAllocate(c, s, sink, event);
    longer, more := Extend(c, run, steps, Allocate(sink, event));
    AfterPublish(c, longer[|more|], sink);
    longer, more := Extend(c, longer, more, Publish(sink, 0));
    AfterLoadAndStore(c, longer[|more|], sink);
    longer, more := Extend(c, longer, more, Load(sink));
    longer, more := Extend(c, longer, more, Store(sink));
  }

  /** An emit that is cut off between its two writes. */
  lemma EmitHalf(c: Config, run: seq<System>, steps: seq<Step>, sink: nat, event: Event)
    returns (longer: seq<System>, more: seq<Step>)
    requires IsSequentialRun(c, run, steps) && AllIdle(run[|steps|]) && run[|steps|].first <= |run[|steps|].published|
    ensures IsSequentialRun(c, longer, more)
    ensures more == steps + [Allocate(sink, event), Publish(sink, 0), Interrupt(sink)]
    ensures run <= longer && |longer| == |more| + 1
    ensures var s, t := run[|steps|], longer[|more|];
      && AllIdle(t)
      && t == s.(log := s.log + [event], published := s.published + [Entry(|s.log| + 1, event)], emitters := t.emitters)
  {
    assert |run| == |steps| + 1;
    hide IsSequentialRun, Next, Enabled, At;
    AfterAllocate(c, run[|steps|], sink, event);
    longer, more := Extend(c, run, steps, Allocate(sink, event));
    AfterPublish(c, longer[|more|], sink);
    longer, more := Extend(c, longer, more, Publish(sink, 0));
    AfterInterrupt(c, longer[|more|], sink);
    longer, more := Extend(c, longer, more, Interrupt(sink));
  }

  const LOST: Event := AssistantDelta("a")

  const BEGIN: Event := ExecutionStarted(None)

  const CANCEL: Event := ExecutionCancelled(None)

  /** Both sinks of an execution: the lifecycle's is 0, the runtime's is 1. */
  const LOSING_STEPS: seq<Step> :=
    [Allocate(0, BEGIN), Publish(0, 0), Load(0), Store(0)]
    + [Allocate(1, LOST), Publish(1, 0), Interrupt(1)]
    + [Allocate(0, CANCEL), Publish(0, 0), Load(0), Store(0)]

  lemma StoredWithoutText(c: Config, entry: Entry, base: Option<Hot>)
    requires base.None? || base.value.state.partialAnswer == ""
    requires NextText("", entry.event) == "" && StatusOf(entry.event).Some?
    ensures var state := Stored(c, entry, base).state;
      state.sequence == entry.sequence && state.partialAnswer == "" && Some(state.status) == StatusOf(entry.event)
  {
    hide Reduce;
    FoldOfNothing([], c.maxActivities);
    ReduceByField(base.GetOr(Hot(Initial(), [])).state, entry, c.maxActivities);
  }

  lemma LosingRun(c: Config) returns (run: seq<System>)
    ensures IsSequentialRun(c, run, LOSING_STEPS) && run[11].log == [BEGIN, LOST, CANCEL]
    ensures run[11].hot == Some(Stored(c, Entry(3, CANCEL), Some(Stored(c, Entry(1, BEGIN), None))))
  {
    assert IsSequentialRun(c, [EMPTY], []) && AllIdle(EMPTY);
    hide IsSequentialRun, IsUndisturbedRun, Stored, Next, Enabled, At, AllIdle;
    var steps;
    run, steps := EmitAll(c, [EMPTY], [], 0, BEGIN);
    run, steps := EmitHalf(c, run, steps, 1, LOST);
    run, steps := EmitAll(c, run, steps, 0, CANCEL);
    assert [] + [Allocate(0, BEGIN), Publish(0, 0), Load(0), Store(0)]
      == [Allocate(0, BEGIN), Publish(0, 0), Load(0), Store(0)];
  }

  /** A cancellation that cuts an emit off between its two writes: the projection ends without the delta. */
  lemma InterruptedDeltaIsLost(c: Config) returns (run: seq<System>)
    ensures IsSequentialRun(c, run, LOSING_STEPS) && run[11].hot.Some?
    ensures run[11].log == [BEGIN, LOST, CANCEL]
    ensures var state := run[11].hot.value.state;
      state.sequence == 3 && state.status.Cancelled? && state.partialAnswer == ""
    ensures Deltas(run[11].log, 3) == "a"
  {
    hide IsSequentialRun, Stored, Deltas;
    run := LosingRun(c);
    StoredWithoutText(c, Entry(1, BEGIN), None);
    StoredWithoutText(c, Entry(3, CANCEL), Some(Stored(c, Entry(1, BEGIN), None)));
    TextOfThree(BEGIN, LOST, CANCEL);
  }

  lemma TextOfThree(a: Event, b: Event, c: Event)
    requires a.Delta() == "" && c.Delta() == ""
    ensures Deltas([a, b, c], 3) == b.Delta()
  {
    var log := [a, b, c];
    assert Deltas(log, 1) == Deltas(log, 0) + "" && Deltas(log, 2) == Deltas(log, 1) + b.Delta();
    assert Deltas(log, 3) == Deltas(log, 2) + "";
  }
}
