/** The discipline of a program run's events: phases, deltas and texts, whatever the outcome. */
module RunDiscipline {
  import opened Text
  import opened Events
  import opened Projection
  import opened AgentProgram

  /** The events of a run that returns: quiet ones, the answer node's, and the two of the finalization. */
  function FullEvents(before: seq<Event>, spoken: seq<string>): seq<Event> {
    before + (Opening() + DeltaEvents(spoken) + Closing()) + Finalization()
  }

  predicate IsDisciplined(before: seq<Event>, spoken: seq<string>, events: seq<Event>) {
    AllQuiet(before) && events == FullEvents(before, spoken)
  }

  /** The phase that the first `n` events lead to. */
  function PhaseAt(start: Phase, events: seq<Event>, n: nat): Phase
    requires n <= |events|
  {
    if n == 0 then start else NextPhase(PhaseAt(start, events, n - 1), PhaseOf(events[n - 1]))
  }

  /** It is the phase of the projection. */
  lemma {:induction false} PhaseAtIsProjected(state: State, events: seq<Event>, entries: seq<Entry>, maxActivities: nat)
    requires |entries| == |events| && forall i | 0 <= i < |entries| :: entries[i].event == events[i]
    ensures Replay(state, entries, maxActivities).phase == PhaseAt(state.phase, events, |events|)
    decreases |entries|
  {
    hide Reduce;
    if entries != [] {
      var front, last := entries[..|entries| - 1], entries[|entries| - 1];
      var earlier := events[..|events| - 1];
      PhaseAtIsProjected(state, earlier, front, maxActivities);
      ReduceByField(Replay(state, front, maxActivities), last, maxActivities);
      SamePhases(state.phase, events, earlier, |earlier|);
    }
  }

  lemma {:induction false} SamePhases(start: Phase, events: seq<Event>, prefix: seq<Event>, n: nat)
    requires prefix <= events && n <= |prefix|
    ensures PhaseAt(start, prefix, n) == PhaseAt(start, events, n)
  {
    if n > 0 {
      SamePhases(start, events, prefix, n - 1);
    }
  }

  /** How far the response has come. */
  function Rank(phase: Phase): nat {
    match phase
    case ResponsePreparing => 1
    case ResponseStreaming => 2
    case Finalizing => 3
    case Done => 4
    case Broken => 4
    case Stopped => 4
    case _ => 0
  }

  lemma {:induction false} DeltaEventsAre(chunks: seq<string>)
    ensures |DeltaEvents(chunks)| == |chunks|
    ensures forall i | 0 <= i < |chunks| :: DeltaEvents(chunks)[i] == AssistantDelta(chunks[i])
  {
    if chunks != [] {
      DeltaEventsAre(chunks[..|chunks| - 1]);
    }
  }

  lemma {:induction false} QuietPhases(start: Phase, events: seq<Event>, n: nat)
    requires n <= |events| && (forall i | 0 <= i < n :: IsQuiet(events[i])) && Rank(start) == 0
    ensures Rank(PhaseAt(start, events, n)) == 0
  {
    if n > 0 {
      QuietPhases(start, events, n - 1);
    }
  }

  /** The parts of a disciplined run by position: the answer's opening at `p`, its closing at `q`. */
  predicate HasShape(events: seq<Event>, p: nat, spoken: seq<string>) {
    var q := p + 3 + |spoken|;
    && |events| == q + 5
    && (forall i | 0 <= i < p :: IsQuiet(events[i]))
    && events[p] == PhaseChanged(Some(Phase.ResponsePreparing)) && events[p + 1] == AnswerStarted
    && events[p + 2] == PhaseChanged(Some(Phase.ResponseStreaming))
    && (forall i | p + 3 <= i < q :: events[i] == AssistantDelta(spoken[i - p - 3]))
    && events[q] == AnswerGenerated && events[q + 1] == AnswerCompleted
    && events[q + 2] == PhaseChanged(Some(Phase.Finalizing)) && events[q + 3] == PhaseChanged(Some(Phase.Finalizing))
    && events[q + 4] == OtherEvent(SnapshotCreated)
  }

  lemma QuietPart(before: seq<Event>, events: seq<Event>)
    requires AllQuiet(before) && |before| <= |events| && forall i | 0 <= i < |before| :: events[i] == before[i]
    ensures forall i | 0 <= i < |before| :: IsQuiet(events[i])
  {
    hide IsQuiet;
    forall i | 0 <= i < |before| ensures IsQuiet(events[i]) {
      assert before[i] in before && events[i] == before[i];
    }
  }

  lemma EdgeParts(events: seq<Event>, p: nat, q: nat)
    requires p + 3 <= q && |events| == q + 5
    requires forall i {:trigger Opening()[i]} | 0 <= i < |Opening()| :: events[p + i] == Opening()[i]
    requires forall i {:trigger Closing()[i]} | 0 <= i < |Closing()| :: events[q + i] == Closing()[i]
    requires forall i {:trigger Finalization()[i]} | 0 <= i < |Finalization()| :: events[q + 3 + i] == Finalization()[i]
    ensures events[p] == PhaseChanged(Some(Phase.ResponsePreparing)) && events[p + 1] == AnswerStarted
    ensures events[p + 2] == PhaseChanged(Some(Phase.ResponseStreaming))
    ensures events[q] == AnswerGenerated && events[q + 1] == AnswerCompleted
    ensures events[q + 2] == events[q + 3] == PhaseChanged(Some(Phase.Finalizing))
    ensures events[q + 4] == OtherEvent(SnapshotCreated)
  {
    assert events[p] == Opening()[0] && events[p + 1] == Opening()[1] && events[p + 2] == Opening()[2];
    assert events[q] == Closing()[0] && events[q + 1] == Closing()[1] && events[q + 2] == Closing()[2];
    assert events[q + 3] == Finalization()[0] && events[q + 4] == Finalization()[1];
  }

  lemma EdgeLengths()
    ensures |Opening()| == 3 && |Closing()| == 3 && |Finalization()| == 2
  {}

  lemma DisciplinedLength(before: seq<Event>, spoken: seq<string>, events: seq<Event>)
    requires IsDisciplined(before, spoken, events)
    ensures |events| == |before| + 3 + |spoken| + 5
  {
    hide DeltaEvents;
    DeltaEventsAre(spoken);
  }

  lemma Regroup<T>(a: seq<T>, b: seq<T>, c: seq<T>, d: seq<T>, e: seq<T>)
    ensures a + (b + c + d) + e == (a + b) + c + (d + e)
  {}

  lemma MiddleOf<T>(a: seq<T>, c: seq<T>, e: seq<T>, k: nat)
    requires k < |c|
    ensures (a + c + e)[|a| + k] == c[k]
  {}

  lemma InThreeParts(before: seq<Event>, spoken: seq<string>)
    ensures FullEvents(before, spoken) == (before + Opening()) + DeltaEvents(spoken) + (Closing() + Finalization())
    ensures |before + Opening()| == |before| + 3
  {
    EdgeLengths();
    Regroup(before, Opening(), DeltaEvents(spoken), Closing(), Finalization());
  }

  lemma DeltaAt(before: seq<Event>, spoken: seq<string>, k: nat)
    requires k < |spoken|
    ensures |FullEvents(before, spoken)| > |before| + 3 + k
    ensures FullEvents(before, spoken)[|before| + 3 + k] == AssistantDelta(spoken[k])
  {
    hide *;
    DeltaEventsAre(spoken);
    InThreeParts(before, spoken);
    MiddleOf(before + Opening(), DeltaEvents(spoken), Closing() + Finalization(), k);
  }

  lemma DisciplinedMiddle(before: seq<Event>, spoken: seq<string>, events: seq<Event>)
    requires IsDisciplined(before, spoken, events) && |events| == |before| + 3 + |spoken| + 5
    ensures forall i | |before| + 3 <= i < |before| + 3 + |spoken| ::
      events[i] == AssistantDelta(spoken[i - |before| - 3])
  {
    hide FullEvents;
    forall i | |before| + 3 <= i < |before| + 3 + |spoken| ensures events[i] == AssistantDelta(spoken[i - |before| - 3])
    {
      DeltaAt(before, spoken, i - |before| - 3);
    }
  }

  lemma DisciplinedEdges(before: seq<Event>, spoken: seq<string>, events: seq<Event>)
    requires IsDisciplined(before, spoken, events) && |events| == |before| + 3 + |spoken| + 5
    ensures forall i | 0 <= i < |before| :: events[i] == before[i]
    ensures forall i {:trigger Opening()[i]} | 0 <= i < |Opening()| :: events[|before| + i] == Opening()[i]
    ensures forall i {:trigger Closing()[i]} | 0 <= i < |Closing()| ::
      events[|before| + 3 + |spoken| + i] == Closing()[i]
    ensures forall i {:trigger Finalization()[i]} | 0 <= i < |Finalization()| ::
      events[|before| + 3 + |spoken| + 3 + i] == Finalization()[i]
  {
    hide DeltaEvents, IsQuiet, AllQuiet, Opening, Closing, Finalization;
    DeltaEventsAre(spoken);
    EdgeLengths();
    PartsOf(before, Opening(), DeltaEvents(spoken), Closing(), Finalization(), events);
  }

  lemma DisciplinedHasShape(before: seq<Event>, spoken: seq<string>, events: seq<Event>)
    requires IsDisciplined(before, spoken, events)
    ensures HasShape(events, |before|, spoken)
  {
    assert AllQuiet(before);
    hide IsQuiet, AllQuiet, Opening, Closing, Finalization, IsDisciplined;
    EdgeLengths();
    DisciplinedLength(before, spoken, events);
    DisciplinedEdges(before, spoken, events);
    QuietPart(before, events);
    EdgeParts(events, |before|, |before| + 3 + |spoken|);
    DisciplinedMiddle(before, spoken, events);
  }

  lemma PartsOf<T>(a: seq<T>, b: seq<T>, c: seq<T>, d: seq<T>, e: seq<T>, s: seq<T>)
    requires s == a + (b + c + d) + e
    ensures |s| == |a| + |b| + |c| + |d| + |e|
    ensures forall i | 0 <= i < |a| :: s[i] == a[i]
    ensures forall i {:trigger b[i]} | 0 <= i < |b| :: s[|a| + i] == b[i]
    ensures forall i {:trigger c[i]} | 0 <= i < |c| :: s[|a| + |b| + i] == c[i]
    ensures forall i {:trigger d[i]} | 0 <= i < |d| :: s[|a| + |b| + |c| + i] == d[i]
    ensures forall i {:trigger e[i]} | 0 <= i < |e| :: s[|a| + |b| + |c| + |d| + i] == e[i]
  {}

  lemma {:induction false} PhasesOfAnswer(start: Phase, p: nat, spoken: seq<string>, events: seq<Event>, n: nat)
    requires HasShape(events, p, spoken) && Rank(start) == 0 && p < n <= |events|
    ensures var q := p + 3 + |spoken|;
      PhaseAt(start, events, n)
      == if n == p + 1 then Phase.ResponsePreparing
         else if n <= q + 1 then Phase.ResponseStreaming
         else Phase.Finalizing
  {
    hide IsQuiet;
    if n == p + 1 {
      QuietPhases(start, events, p);
    } else {
      PhasesOfAnswer(start, p, spoken, events, n - 1);
    }
  }

  lemma FullRunIsDisciplined(start: Phase, before: seq<Event>, spoken: seq<string>, events: seq<Event>)
    requires IsDisciplined(before, spoken, events) && Rank(start) == 0
    ensures |events| == |before| + 3 + |spoken| + 5
    ensures forall n | 0 <= n <= |before| :: Rank(PhaseAt(start, events, n)) == 0
    ensures forall n | |before| < n <= |events| ::
      PhaseAt(start, events, n)
      == if n == |before| + 1 then Phase.ResponsePreparing
         else if n <= |before| + 3 + |spoken| + 1 then Phase.ResponseStreaming
         else Phase.Finalizing
    ensures forall i | 0 <= i < |events| && events[i].AssistantDelta? :: |before| + 3 <= i < |before| + 3 + |spoken|
  {
    DisciplinedHasShape(before, spoken, events);
    hide IsDisciplined, PhaseAt, IsQuiet;
    forall n | |before| < n <= |events|
      ensures PhaseAt(start, events, n)
           == if n == |before| + 1 then Phase.ResponsePreparing
              else if n <= |before| + 3 + |spoken| + 1 then Phase.ResponseStreaming
              else Phase.Finalizing
    {
      PhasesOfAnswer(start, |before|, spoken, events, n);
    }
    forall n | 0 <= n <= |before| ensures Rank(PhaseAt(start, events, n)) == 0 {
      QuietPhases(start, events, n);
    }
    forall i | 0 <= i < |events| && events[i].AssistantDelta? ensures |before| + 3 <= i < |before| + 3 + |spoken| {
      if i < |before| {
        QuietIsNoDelta(events[i]);
      }
    }
  }

  lemma QuietIsNoDelta(event: Event)
    requires IsQuiet(event)
    ensures !event.AssistantDelta? && !event.IsTerminal()
  {}

  /** Whatever the outcome, the events are the first ones of a run that returns. */
  lemma EveryOutcomeIsPrefix(outcome: Outcome, before: seq<Event>, spoken: seq<string>)
    ensures EventsOf(outcome, before, spoken) <= FullEvents(before, spoken)
    ensures |EventsOf(outcome, before, spoken)|
         == |before| + (match outcome
                        case Returned(_, _, _, _, _) => |spoken| + 8
                        case SaveRaised => |spoken| + 7
                        case StreamRaised => |spoken| + 3
                        case _ => 0)
  {
    DeltaEventsAre(spoken);
    EdgeLengths();
    hide DeltaEvents, Opening, Closing, Finalization;
    var full := FullEvents(before, spoken);
    match outcome
    case SaveRaised =>
      assert full == EventsOf(outcome, before, spoken) + Finalization()[1..];
    case StreamRaised =>
      assert full == EventsOf(outcome, before, spoken) + (Closing() + Finalization());
    case _ =>
  }

  /**
   * Whatever the outcome: every delta arrives when the phase is already streaming; the phase does not get as far as
   * the response before the answer node, and only moves forward from there; and where it stands in the end.
   */
  lemma RunIsDisciplined(start: Phase, outcome: Outcome, before: seq<Event>, spoken: seq<string>, events: seq<Event>)
    requires AllQuiet(before) && events == EventsOf(outcome, before, spoken) && Rank(start) == 0
    ensures |before| <= |events|
    ensures forall i | 0 <= i < |events| && events[i].AssistantDelta? ::
      PhaseAt(start, events, i) == Phase.ResponseStreaming
    ensures forall i | 0 <= i <= |before| :: Rank(PhaseAt(start, events, i)) == 0
    ensures forall i, j | 0 <= i <= j <= |events| :: Rank(PhaseAt(start, events, i)) <= Rank(PhaseAt(start, events, j))
    ensures match outcome
      case Returned(_, _, _, _, _) => PhaseAt(start, events, |events|) == Phase.Finalizing
      case SaveRaised => PhaseAt(start, events, |events|) == Phase.Finalizing
      case StreamRaised => PhaseAt(start, events, |events|) == Phase.ResponseStreaming
      case _ => Rank(PhaseAt(start, events, |events|)) == 0
  {
    hide AllQuiet, DeltaEvents, Opening, Closing, Finalization, PhaseAt, EventsOf;
    var full := FullEvents(before, spoken);
    EveryOutcomeIsPrefix(outcome, before, spoken);
    FullRunIsDisciplined(start, before, spoken, full);
    forall n | 0 <= n <= |events| ensures PhaseAt(start, events, n) == PhaseAt(start, full, n) {
      SamePhases(start, full, events, n);
    }
  }

  lemma {:induction false} QuietDeltas(events: seq<Event>, n: nat)
    requires n <= |events| && forall i | 0 <= i < n :: IsQuiet(events[i])
    ensures Deltas(events, n) == ""
  {
    if n > 0 {
      QuietDeltas(events, n - 1);
    }
  }

  lemma NextDeltas(events: seq<Event>, n: nat)
    requires n < |events|
    ensures Deltas(events, n + 1) == Deltas(events, n) + events[n].Delta()
  {}

  lemma ConcatOfPrefix(spoken: seq<string>, k: nat)
    requires k < |spoken|
    ensures Concat(spoken[..0]) == "" && Concat(spoken[..k + 1]) == Concat(spoken[..k]) + spoken[k]
  {
    assert spoken[..k + 1] == spoken[..k] + [spoken[k]];
    NextChunk(spoken[..k], spoken[k]);
  }

  /** The texts of consecutive deltas, behind silence, concatenate. */
  lemma {:induction false} SpokenDeltas(events: seq<Event>, from: nat, spoken: seq<string>, k: nat)
    requires from + k <= |events| && k <= |spoken| && Deltas(events, from) == ""
    requires forall i | 0 <= i < k :: events[from + i] == AssistantDelta(spoken[i])
    ensures Deltas(events, from + k) == Concat(spoken[..k])
  {
    hide Concat, Deltas;
    if k == 0 {
      NoChunks();
      assert spoken[..0] == [];
    } else {
      SpokenDeltas(events, from, spoken, k - 1);
      ConcatOfPrefix(spoken, k - 1);
      NextDeltas(events, from + (k - 1));
    }
  }

  lemma SilentOpening(events: seq<Event>, p: nat)
    requires p + 3 <= |events| && Deltas(events, p) == ""
    requires events[p].Delta() == "" && events[p + 1].Delta() == "" && events[p + 2].Delta() == ""
    ensures Deltas(events, p + 3) == ""
  {
    assert Deltas(events, p + 1) == Deltas(events, p) + "" && Deltas(events, p + 2) == Deltas(events, p + 1) + "";
    assert Deltas(events, p + 3) == Deltas(events, p + 2) + "";
  }

  /** Whatever the outcome, the events' deltas spell what the answer node spoke, nothing else. */
  lemma RunSpeaks(outcome: Outcome, before: seq<Event>, spoken: seq<string>, events: seq<Event>)
    requires AllQuiet(before) && events == EventsOf(outcome, before, spoken)
    ensures Deltas(events, |events|) == if ReachedAnswer(outcome) then Concat(spoken) else ""
    ensures forall i | 0 <= i < |events| :: !events[i].IsTerminal()
  {
    hide AllQuiet, DeltaEvents, Opening, Closing, Finalization, EventsOf, HasShape, Deltas;
    var full, p, n := FullEvents(before, spoken), |before|, |events|;
    EveryOutcomeIsPrefix(outcome, before, spoken);
    DisciplinedLength(before, spoken, full);
    DisciplinedHasShape(before, spoken, full);
    ShapeSpeaks(full, p, spoken);
    NoTerminalEvents(full, p, spoken);
    SameDeltas(full, events, n);
    assert forall i | 0 <= i < |events| :: events[i] == full[i];
  }

  lemma {:induction false} SameDeltas(events: seq<Event>, prefix: seq<Event>, n: nat)
    requires prefix <= events && n <= |prefix|
    ensures Deltas(prefix, n) == Deltas(events, n)
  {
    if n > 0 {
      SameDeltas(events, prefix, n - 1);
    }
  }

  lemma ShapeSpeaks(events: seq<Event>, p: nat, spoken: seq<string>)
    requires HasShape(events, p, spoken)
    ensures var q := p + 3 + |spoken|;
      Deltas(events, p) == "" && Deltas(events, q) == Deltas(events, q + 4) == Deltas(events, q + 5) == Concat(spoken)
  {
    hide Deltas, Concat, IsQuiet;
    QuietDeltas(events, p);
    SilentOpening(events, p);
    assert forall i | 0 <= i < |spoken| :: events[p + 3 + i] == AssistantDelta(spoken[i]);
    SpokenDeltas(events, p + 3, spoken, |spoken|);
    assert spoken[..|spoken|] == spoken;
    SilentTail(events, p + 3 + |spoken|);
  }

  lemma NoTerminalEvents(events: seq<Event>, p: nat, spoken: seq<string>)
    requires HasShape(events, p, spoken)
    ensures forall i | 0 <= i < |events| :: !events[i].IsTerminal()
  {
    forall i | 0 <= i < |events| ensures !events[i].IsTerminal() {
      if i < p {
        assert IsQuiet(events[i]);
      }
    }
  }

  lemma SilentTail(events: seq<Event>, q: nat)
    requires |events| == q + 5
    requires events[q].Delta() == "" && events[q + 1].Delta() == "" && events[q + 2].Delta() == ""
    requires events[q + 3].Delta() == "" && events[q + 4].Delta() == ""
    ensures Deltas(events, q + 4) == Deltas(events, q + 5) == Deltas(events, q)
  {
    assert Deltas(events, q + 1) == Deltas(events, q) + "" && Deltas(events, q + 2) == Deltas(events, q + 1) + "";
    assert Deltas(events, q + 3) == Deltas(events, q + 2) + "" && Deltas(events, q + 4) == Deltas(events, q + 3) + "";
    assert Deltas(events, q + 5) == Deltas(events, q + 4) + "";
  }

  lemma {:induction false} DeltasBehind(first: Event, events: seq<Event>, log: seq<Event>, n: nat)
    requires log == [first] + events && n <= |events| && first.Delta() == ""
    ensures Deltas(log, n + 1) == Deltas(events, n)
  {
    if n == 0 {
      assert Deltas(log, 1) == Deltas(log, 0) + "";
    } else {
      DeltasBehind(first, events, log, n - 1);
      assert log[n] == events[n - 1];
    }
  }

  /**
   * Behind the started event, the log of a run that returns has no terminal event yet, and its text strips to the
   * returned answer.
   */
  lemma RunMayBeCompleted(session: Option<string>, outcome: Outcome, before: seq<Event>, spoken: seq<string>,
                          events: seq<Event>, log: seq<Event>)
    requires outcome.Returned? && Strip(Concat(spoken)) == outcome.answer
    requires AllQuiet(before) && events == EventsOf(outcome, before, spoken)
    requires log == [ExecutionStarted(session)] + events
    ensures Strip(Deltas(log, |log|)) == outcome.answer
    ensures forall i | 0 <= i < |log| :: !log[i].IsTerminal()
  {
    hide Strip, Concat, Deltas, EventsOf;
    RunSpeaks(outcome, before, spoken, events);
    DeltasBehind(ExecutionStarted(session), events, log, |events|);
    assert forall i | 1 <= i < |log| :: log[i] == events[i - 1];
  }
}
