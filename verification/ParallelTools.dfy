/** The concurrent calls of one action node, in every interleaving of their steps. */
module ParallelTools {
  import opened Text
  import opened Events
  import opened Projection
  import opened Conversation
  import opened ContextManager

  /** How far a call is; it holds its semaphore from `Holding` until it is released. */
  datatype Progress = Idle | Holding | Announced | Working | Settled | Released {
    predicate Holds() {
      Holding? || Announced? || Working? || Settled?
    }
  }

  /** Searches are not limited; they are all over before the first external call starts. */
  datatype Batch = Batch(calls: seq<ToolCall>, maxParallel: nat) {
    predicate IsSearch(i: nat)
      requires i < |calls|
    {
      IsContextSearch(calls[i])
    }
  }

  datatype Calls = Calls(progress: seq<Progress>, events: seq<Event>)

  datatype Step =
    | Acquire(call: nat)
    | Announce(call: nat)
    | Begin(call: nat)
    | Note(call: nat)
    | Finish(call: nat, failed: bool)
    | Release(call: nat)

  /** The calls of this name that hold the name's semaphore. */
  function Holders(b: Batch, s: Calls, name: string): set<nat>
    requires |s.progress| == |b.calls|
  {
    set i: nat | i < |b.calls| && b.calls[i].name == name && s.progress[i].Holds()
  }

  predicate Enabled(b: Batch, s: Calls, step: Step)
    requires |s.progress| == |b.calls|
  {
    var i := step.call;
    && i < |b.calls|
    && match step
       case Acquire(_) =>
         && s.progress[i].Idle?
         && (b.IsSearch(i) ||
              (&& (forall j: nat | j < |b.calls| && b.IsSearch(j) :: s.progress[j].Released?)
               && |Holders(b, s, b.calls[i].name)| < b.maxParallel))
       case Announce(_) => s.progress[i].Holding?
       case Begin(_) => s.progress[i].Announced?
       case Note(_) => s.progress[i].Working? && b.IsSearch(i)
       case Finish(_, _) => s.progress[i].Working?
       case Release(_) => s.progress[i].Settled?
  }

  /** What a step emits, if it emits anything. */
  function EventOf(b: Batch, step: Step): Event
    requires step.call < |b.calls| && !step.Acquire? && !step.Release?
  {
    var call := b.calls[step.call];
    match step
    case Announce(_) => PhaseChanged(Some(UsingTool))
    case Begin(_) => ToolStarted(call.name, call.id)
    case Note(_) => OtherEvent(ContextRetrieved)
    case Finish(_, failed) => if failed then ToolFailed(call.id) else ToolCompleted(call.id)
  }

  function Next(b: Batch, s: Calls, step: Step): Calls
    requires |s.progress| == |b.calls| && Enabled(b, s, step)
  {
    var i := step.call;
    match step
    case Acquire(_) => s.(progress := s.progress[i := Holding])
    case Announce(_) => Calls(s.progress[i := Announced], s.events + [EventOf(b, step)])
    case Begin(_) => Calls(s.progress[i := Working], s.events + [EventOf(b, step)])
    case Note(_) => s.(events := s.events + [EventOf(b, step)])
    case Finish(_, _) => Calls(s.progress[i := Settled], s.events + [EventOf(b, step)])
    case Release(_) => s.(progress := s.progress[i := Released])
  }

  function AllIdle(n: nat): seq<Progress> {
    if n == 0 then [] else AllIdle(n - 1) + [Idle]
  }

  ghost predicate IsRun(b: Batch, run: seq<Calls>, steps: seq<Step>) {
    && |run| == |steps| + 1
    && run[0] == Calls(AllIdle(|b.calls|), [])
    && (forall i | 0 <= i < |run| :: |run[i].progress| == |b.calls|)
    && forall i | 0 <= i < |steps| :: Enabled(b, run[i], steps[i]) && run[i + 1] == Next(b, run[i], steps[i])
  }

  // ---------------------------------------------------------------------------
  // The invariant
  // ---------------------------------------------------------------------------

  /** The tool as the projection shows it. */
  function ToolOf(b: Batch, i: nat): ActiveTool
    requires i < |b.calls|
  {
    ActiveTool(b.calls[i].name, b.calls[i].id)
  }

  /** The calls of this name that were started and have not finished. */
  function RunningOf(b: Batch, s: Calls, name: string): set<nat>
    requires |s.progress| == |b.calls|
  {
    set i: nat | i < |b.calls| && b.calls[i].name == name && s.progress[i].Working?
  }

  ghost predicate IsRunning(b: Batch, s: Calls, tool: ActiveTool)
    requires |s.progress| == |b.calls|
  {
    exists i: nat | i < |b.calls| :: s.progress[i].Working? && tool == ToolOf(b, i)
  }

  ghost predicate ToolsOk(b: Batch, s: Calls)
    requires |s.progress| == |b.calls|
  {
    && DistinctCalls(ToolsAfter(s.events))
    && forall tool :: tool in ToolsAfter(s.events) <==> IsRunning(b, s, tool)
  }

  ghost predicate LimitOk(b: Batch, s: Calls)
    requires |s.progress| == |b.calls|
  {
    forall i: nat | i < |b.calls| && !b.IsSearch(i) :: |Holders(b, s, b.calls[i].name)| <= b.maxParallel
  }

  ghost predicate Invariant(b: Batch, s: Calls) {
    && |s.progress| == |b.calls|
    && ToolsOk(b, s)
    && LimitOk(b, s)
    && AllQuiet(s.events)
  }

  lemma {:induction false} AllIdleIs(n: nat)
    ensures |AllIdle(n)| == n && forall i | 0 <= i < n :: AllIdle(n)[i].Idle?
  {
    if n > 0 {
      AllIdleIs(n - 1);
    }
  }

  lemma StartIsOk(b: Batch)
    ensures Invariant(b, Calls(AllIdle(|b.calls|), []))
  {
    AllIdleIs(|b.calls|);
    var s := Calls(AllIdle(|b.calls|), []);
    forall i: nat | i < |b.calls| ensures |Holders(b, s, b.calls[i].name)| <= b.maxParallel {
      assert Holders(b, s, b.calls[i].name) == {};
    }
  }

  /** The step touches no other call, and no other call has its id. */
  lemma OnlyThisCall(b: Batch, s: Calls, t: Calls, i: nat, progress: Progress)
    requires |s.progress| == |b.calls| && i < |b.calls| && t.progress == s.progress[i := progress]
    requires DistinctIds(b.calls)
    ensures forall tool ::
      IsRunning(b, t, tool)
      <==> (progress.Working? && tool == ToolOf(b, i)) || (IsRunning(b, s, tool) && tool.callId != b.calls[i].id)
  {
    forall tool ensures IsRunning(b, t, tool)
      <==> (progress.Working? && tool == ToolOf(b, i)) || (IsRunning(b, s, tool) && tool.callId != b.calls[i].id)
    {
      if IsRunning(b, t, tool) {
        var j: nat :| j < |b.calls| && t.progress[j].Working? && tool == ToolOf(b, j);
        if j != i {
          assert s.progress[j].Working?;
        }
      }
      if progress.Working? && tool == ToolOf(b, i) {
        assert t.progress[i].Working?;
      }
      if IsRunning(b, s, tool) && tool.callId != b.calls[i].id {
        var j: nat :| j < |b.calls| && s.progress[j].Working? && tool == ToolOf(b, j);
        assert t.progress[j].Working?;
      }
    }
  }

  lemma ToolsAfterStep(b: Batch, s: Calls, step: Step)
    requires Invariant(b, s) && Enabled(b, s, step) && DistinctIds(b.calls)
    ensures |Next(b, s, step).progress| == |b.calls| && ToolsOk(b, Next(b, s, step))
  {
    hide Holders, AllQuiet, NextTools, ToolsAfter, IsRunning, DistinctCalls;
    var t, i := Next(b, s, step), step.call;
    if step.Note? {
      SameRunning(b, s, t);
    } else {
      OnlyThisCall(b, s, t, i, t.progress[i]);
      NotRunningBefore(b, s, i);
    }
    if !step.Acquire? && !step.Release? {
      var event := EventOf(b, step);
      NextToolsAfter(s.events, event);
      NextToolsAre(ToolsAfter(s.events), Entry(0, event));
    }
  }

  lemma QuietAfterStep(b: Batch, s: Calls, step: Step)
    requires |s.progress| == |b.calls| && Enabled(b, s, step) && AllQuiet(s.events)
    ensures AllQuiet(Next(b, s, step).events)
  {}

  lemma SameRunning(b: Batch, s: Calls, t: Calls)
    requires |s.progress| == |b.calls| && t.progress == s.progress
    ensures forall tool :: IsRunning(b, t, tool) <==> IsRunning(b, s, tool)
  {}

  /** A call that is not running has no active tool of its id. */
  lemma NotRunningBefore(b: Batch, s: Calls, i: nat)
    requires |s.progress| == |b.calls| && i < |b.calls| && DistinctIds(b.calls)
    ensures !s.progress[i].Working? ==> forall tool | IsRunning(b, s, tool) :: tool.callId != b.calls[i].id
  {}

  lemma HoldersAfterStep(b: Batch, s: Calls, step: Step, name: string)
    requires |s.progress| == |b.calls| && Enabled(b, s, step)
    ensures var t := Next(b, s, step);
      Holders(b, t, name) ==
        if step.Acquire? && b.calls[step.call].name == name then Holders(b, s, name) + {step.call}
        else if step.Release? then Holders(b, s, name) - {step.call}
        else Holders(b, s, name)
  {}

  lemma LimitAfterStep(b: Batch, s: Calls, step: Step, k: nat)
    requires |s.progress| == |b.calls| && Enabled(b, s, step) && k < |b.calls| && !b.IsSearch(k)
    requires |Holders(b, s, b.calls[k].name)| <= b.maxParallel
    ensures |Holders(b, Next(b, s, step), b.calls[k].name)| <= b.maxParallel
  {
    hide Holders, Next;
    HoldersAfterStep(b, s, step, b.calls[k].name);
    if step.Release? {
      Fewer(Holders(b, s, b.calls[k].name), step.call);
    }
  }

  lemma Fewer(set0: set<nat>, i: nat)
    ensures |set0 - {i}| <= |set0|
  {
    if i in set0 {
      assert set0 == (set0 - {i}) + {i};
    } else {
      assert set0 - {i} == set0;
    }
  }

  lemma LimitsAfterStep(b: Batch, s: Calls, step: Step)
    requires |s.progress| == |b.calls| && Enabled(b, s, step) && LimitOk(b, s)
    ensures |Next(b, s, step).progress| == |b.calls| && LimitOk(b, Next(b, s, step))
  {
    var t := Next(b, s, step);
    assert |t.progress| == |b.calls|;
    hide Holders, Next, Enabled;
    forall i: nat | i < |b.calls| && !b.IsSearch(i) ensures |Holders(b, t, b.calls[i].name)| <= b.maxParallel {
      LimitAfterStep(b, s, step, i);
    }
  }

  lemma StepKeeps(b: Batch, s: Calls, step: Step)
    requires Invariant(b, s) && Enabled(b, s, step) && DistinctIds(b.calls)
    ensures Invariant(b, Next(b, s, step))
  {
    hide ToolsOk, LimitOk, Next, Enabled, AllQuiet, DistinctIds;
    LimitsAfterStep(b, s, step);
    ToolsAfterStep(b, s, step);
    QuietAfterStep(b, s, step);
  }

  lemma {:induction false} EveryRunKeeps(b: Batch, run: seq<Calls>, steps: seq<Step>, k: nat)
    requires IsRun(b, run, steps) && DistinctIds(b.calls) && k < |run|
    ensures Invariant(b, run[k])
  {
    hide Invariant, Enabled, Next;
    if k == 0 {
      StartIsOk(b);
    } else {
      EveryRunKeeps(b, run, steps, k - 1);
      StepKeeps(b, run[k - 1], steps[k - 1]);
    }
  }

  // ---------------------------------------------------------------------------
  // What an observer sees
  // ---------------------------------------------------------------------------

  /** The tools of these calls. */
  function ToolsOf(b: Batch, indices: set<nat>): set<ActiveTool> {
    set i: nat | i in indices && i < |b.calls| :: ToolOf(b, i)
  }

  lemma OneMore(tools: set<ActiveTool>, tool: ActiveTool)
    ensures |tools + {tool}| <= |tools| + 1
  {
    if tool in tools {
      assert tools + {tool} == tools;
    }
  }

  lemma SplitTools(b: Batch, indices: set<nat>, i: nat)
    requires i in indices && i < |b.calls|
    ensures ToolsOf(b, indices) == ToolsOf(b, indices - {i}) + {ToolOf(b, i)}
  {
    forall tool | tool in ToolsOf(b, indices) ensures tool in ToolsOf(b, indices - {i}) + {ToolOf(b, i)} {
      var j: nat :| j in indices && j < |b.calls| && tool == ToolOf(b, j);
      assert j == i || j in indices - {i};
    }
  }

  lemma {:induction false} ToolsAreNoMore(b: Batch, indices: set<nat>)
    requires forall i <- indices :: i < |b.calls|
    ensures |ToolsOf(b, indices)| <= |indices|
    decreases indices
  {
    if indices == {} {
      assert ToolsOf(b, indices) == {};
    } else {
      var i :| i in indices;
      SplitTools(b, indices, i);
      hide ToolsOf, ToolOf;
      ToolsAreNoMore(b, indices - {i});
      OneMore(ToolsOf(b, indices - {i}), ToolOf(b, i));
    }
  }

  lemma {:induction false} SubsetIsNoLarger<T>(a: set<T>, b: set<T>)
    requires a <= b
    ensures |a| <= |b|
  {
    if a != {} {
      var x :| x in a;
      SubsetIsNoLarger(a - {x}, b - {x});
    }
  }

  predicate AllReleased(b: Batch, s: Calls)
    requires |s.progress| == |b.calls|
  {
    forall i: nat | i < |b.calls| :: s.progress[i].Released?
  }

  /**
   * In every interleaving: the active tools are the calls started and not finished, each once; of an external
   * tool there are never more than the limit; and when all calls are done there are none.
   */
  lemma ActiveToolsInEveryInterleaving(b: Batch, run: seq<Calls>, steps: seq<Step>, k: nat, name: string)
    requires IsRun(b, run, steps) && DistinctIds(b.calls) && k < |run|
    ensures var tools := ToolsAfter(run[k].events);
      && DistinctCalls(tools)
      && (forall tool :: tool in tools <==> IsRunning(b, run[k], tool))
      && (name != CONTEXT_SEARCH ==> |set tool | tool in tools && tool.tool == name| <= b.maxParallel)
      && (AllReleased(b, run[k]) ==> tools == [])
      && AllQuiet(run[k].events)
  {
    EveryRunKeeps(b, run, steps, k);
    var s := run[k];
    var tools := ToolsAfter(s.events);
    if name != CONTEXT_SEARCH {
      NamedAreLimited(b, s, name);
    }
    if AllReleased(b, s) && tools != [] {
      FirstIsIn(tools);
    }
  }

  lemma FirstIsIn(tools: seq<ActiveTool>)
    requires tools != []
    ensures exists tool :: tool in tools
  {
    assert tools[0] in tools;
  }

  lemma NamedAreLimited(b: Batch, s: Calls, name: string)
    requires Invariant(b, s) && name != CONTEXT_SEARCH
    ensures |set tool | tool in ToolsAfter(s.events) && tool.tool == name| <= b.maxParallel
  {
    hide ToolsAfter, DistinctCalls, AllQuiet;
    var named := set tool | tool in ToolsAfter(s.events) && tool.tool == name;
    var running, holders := RunningOf(b, s, name), Holders(b, s, name);
    assert named <= ToolsOf(b, running) by {
      forall tool | tool in named ensures tool in ToolsOf(b, running) {
        assert IsRunning(b, s, tool);
        var i: nat :| i < |b.calls| && s.progress[i].Working? && tool == ToolOf(b, i);
        assert i in running;
      }
    }
    ToolsAreNoMore(b, running);
    SubsetIsNoLarger(named, ToolsOf(b, running));
    SubsetIsNoLarger(running, holders);
    if running != {} {
      var i :| i in running;
      assert !b.IsSearch(i);
    }
  }

  /** What the calls emitted in some interleaving of their steps, all of them being over or not. */
  ghost predicate AreEventsOf(b: Batch, events: seq<Event>, over: bool) {
    exists run: seq<Calls>, steps: seq<Step> | IsRun(b, run, steps) ::
      run[|steps|].events == events && (over ==> AllReleased(b, run[|steps|]))
  }

  lemma {:induction false} EveryRunIsQuiet(b: Batch, run: seq<Calls>, steps: seq<Step>, k: nat)
    requires IsRun(b, run, steps) && k < |run|
    ensures AllQuiet(run[k].events)
  {
    hide Enabled, Next, AllQuiet;
    if k == 0 {
      NothingIsQuiet();
    } else {
      EveryRunIsQuiet(b, run, steps, k - 1);
      QuietAfterStep(b, run[k - 1], steps[k - 1]);
    }
  }

  lemma NothingIsQuiet()
    ensures AllQuiet([])
  {}

  /** Whatever the interleaving, the calls only emit quiet events, and leave no active tool behind. */
  lemma ToolEventsSettle(b: Batch, events: seq<Event>, over: bool)
    requires AreEventsOf(b, events, over)
    ensures AllQuiet(events)
    ensures over && DistinctIds(b.calls) ==> ToolsAfter(events) == []
  {
    hide AllQuiet, ToolsAfter, DistinctIds;
    var run: seq<Calls>, steps: seq<Step> :|
      IsRun(b, run, steps) && run[|steps|].events == events && (over ==> AllReleased(b, run[|steps|]));
    EveryRunIsQuiet(b, run, steps, |steps|);
    if over && DistinctIds(b.calls) {
      ActiveToolsInEveryInterleaving(b, run, steps, |steps|, "");
    }
  }

  // ---------------------------------------------------------------------------
  // What each call emits
  // ---------------------------------------------------------------------------

  /** The events that the first `n` steps added for this call. */
  function OwnEvents(run: seq<Calls>, steps: seq<Step>, i: nat, n: nat): seq<Event>
    requires n <= |steps| && |run| == |steps| + 1
  {
    if n == 0 then []
    else
      var before, after := run[n - 1].events, run[n].events;
      OwnEvents(run, steps, i, n - 1)
      + (if steps[n - 1].call == i && |before| <= |after| then after[|before|..] else [])
  }

  /** The phase, the start, the retrieved context of a search, and the end, as far as the call has come. */
  ghost predicate IsStory(b: Batch, i: nat, progress: Progress, events: seq<Event>)
    requires i < |b.calls|
  {
    var call := b.calls[i];
    match progress
    case Idle | Holding => events == []
    case Announced => events == [PhaseChanged(Some(UsingTool))]
    case Working => IsBegun(b, i, events)
    case Settled | Released =>
      && events != [] && IsBegun(b, i, events[..|events| - 1])
      && (events[|events| - 1] == ToolCompleted(call.id) || events[|events| - 1] == ToolFailed(call.id))
  }

  ghost predicate IsBegun(b: Batch, i: nat, events: seq<Event>)
    requires i < |b.calls|
  {
    && |events| >= 2
    && events[0] == PhaseChanged(Some(UsingTool)) && events[1] == ToolStarted(b.calls[i].name, b.calls[i].id)
    && (forall k | 2 <= k < |events| :: events[k] == OtherEvent(ContextRetrieved))
    && (|events| > 2 ==> b.calls[i].name == CONTEXT_SEARCH)
  }

  lemma StepTellsStory(b: Batch, s: Calls, step: Step, i: nat, events: seq<Event>)
    requires |s.progress| == |b.calls| && Enabled(b, s, step) && i < |b.calls|
    requires IsStory(b, i, s.progress[i], events)
    ensures var next := Next(b, s, step);
      && |next.progress| == |b.calls| && |s.events| <= |next.events| && next.events[..|s.events|] == s.events
      && IsStory(b, i, next.progress[i],
                 events + (if step.call == i then next.events[|s.events|..] else []))
  {
    assert events + [] == events;
    if step.call == i {
      var next := Next(b, s, step);
      var more := next.events[|s.events|..];
      assert (events + more)[..|events|] == events;
      assert |more| == 1 ==> (events + more)[..|events + more| - 1] == events;
    }
  }

  /** In every interleaving each call emits its phase, its start, what it retrieved and its end, in this order. */
  lemma {:induction false} EachCallTellsItsStory(b: Batch, run: seq<Calls>, steps: seq<Step>, i: nat, n: nat)
    requires IsRun(b, run, steps) && n <= |steps| && i < |b.calls|
    ensures IsStory(b, i, run[n].progress[i], OwnEvents(run, steps, i, n))
  {
    hide Enabled, Next, IsStory;
    if n == 0 {
      AllAreIdle(|b.calls|, i);
      NothingTold(b, i);
    } else {
      EachCallTellsItsStory(b, run, steps, i, n - 1);
      StepTellsStory(b, run[n - 1], steps[n - 1], i, OwnEvents(run, steps, i, n - 1));
    }
  }

  lemma NothingTold(b: Batch, i: nat)
    requires i < |b.calls|
    ensures IsStory(b, i, Idle, [])
  {}

  lemma {:induction false} AllAreIdle(n: nat, i: nat)
    requires i < n
    ensures |AllIdle(n)| == n && AllIdle(n)[i] == Idle
  {
    if n > 1 && i < n - 1 {
      AllAreIdle(n - 1, i);
    } else {
      IdleLength(n - 1);
    }
  }

  lemma {:induction false} IdleLength(n: nat)
    ensures |AllIdle(n)| == n
  {
    if n > 0 {
      IdleLength(n - 1);
    }
  }

  // ---------------------------------------------------------------------------
  // Order and progress
  // ---------------------------------------------------------------------------

  /** An external call that has begun finds all searches over. */
  ghost predicate SearchesAreOver(b: Batch, s: Calls)
    requires |s.progress| == |b.calls|
  {
    forall i: nat, j: nat | i < |b.calls| && j < |b.calls| && b.IsSearch(i) && !b.IsSearch(j) ::
      s.progress[j].Idle? || s.progress[i].Released?
  }

  lemma SearchesStayOver(b: Batch, s: Calls, step: Step)
    requires |s.progress| == |b.calls| && Enabled(b, s, step) && SearchesAreOver(b, s)
    ensures SearchesAreOver(b, Next(b, s, step))
  {
    hide Holders, EventOf;
  }

  lemma {:induction false} SearchesAreOverInRuns(b: Batch, run: seq<Calls>, steps: seq<Step>, k: nat)
    requires IsRun(b, run, steps) && k < |run|
    ensures SearchesAreOver(b, run[k])
  {
    hide Enabled, Next;
    if k == 0 {
      AllIdleIs(|b.calls|);
    } else {
      SearchesAreOverInRuns(b, run, steps, k - 1);
      SearchesStayOver(b, run[k - 1], steps[k - 1]);
    }
  }

  lemma BegunStaysBegun(b: Batch, run: seq<Calls>, steps: seq<Step>, i: nat, j: nat, call: nat)
    requires IsRun(b, run, steps) && i <= j < |run| && call < |b.calls| && !run[i].progress[call].Idle?
    ensures !run[j].progress[call].Idle?
  {
    if i < j {
      BegunStaysBegun(b, run, steps, i, j - 1, call);
    }
  }

  /** In every interleaving, all steps of the searches come before the first one of an external call. */
  lemma SearchesComeFirst(b: Batch, run: seq<Calls>, steps: seq<Step>, i: nat, j: nat)
    requires IsRun(b, run, steps) && i < |steps| && j < |steps|
    requires steps[i].call < |b.calls| && b.calls[steps[i].call].name == CONTEXT_SEARCH
    requires steps[j].call < |b.calls| && b.calls[steps[j].call].name != CONTEXT_SEARCH
    ensures i < j
  {
    assert Enabled(b, run[i], steps[i]) && Enabled(b, run[j], steps[j]) && run[j + 1] == Next(b, run[j], steps[j]);
    if j <= i {
      hide AllIdle, Holders;
      SearchesAreOverInRuns(b, run, steps, i);
      SearchesAreOverInRuns(b, run, steps, j + 1);
      if j < i {
        BegunStaysBegun(b, run, steps, j + 1, i, steps[j].call);
      }
      assert false;
    }
  }

  /** As long as a call is not over, some call can go on; a search that waits can always begin. */
  lemma CallsGoOn(b: Batch, s: Calls) returns (step: Step)
    requires |s.progress| == |b.calls| && b.maxParallel > 0 && !AllReleased(b, s)
    ensures Enabled(b, s, step)
    ensures forall i: nat | i < |b.calls| && s.progress[i].Idle? && b.calls[i].name == CONTEXT_SEARCH ::
      Enabled(b, s, Acquire(i))
  {
    if i: nat :| i < |b.calls| && !s.progress[i].Idle? && !s.progress[i].Released? {
      step := match s.progress[i]
        case Holding => Announce(i)
        case Announced => Begin(i)
        case Working => Finish(i, false)
        case _ => Release(i);
    } else if i: nat :| i < |b.calls| && s.progress[i].Idle? && b.IsSearch(i) {
      step := Acquire(i);
    } else {
      var i: nat :| i < |b.calls| && !s.progress[i].Released?;
      assert Holders(b, s, b.calls[i].name) == {};
      step := Acquire(i);
    }
  }
}
