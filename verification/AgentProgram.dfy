/** The agent loop: agent, reasoning, action and answer nodes over a conversation. */
module AgentProgram {
  import opened Text
  import opened Events
  import opened Projection
  import opened Conversation
  import opened ContextManager
  import opened ParallelTools

  function LimitMessage(): string {
    "Não foi possível concluir a solicitação" + " dentro do limite de iterações."
  }

  function NoAnswerMessage(): string {
    "Não foi possível gerar uma resposta final."
  }

  datatype Stop = MaxIterations | Answered

  datatype AgentState = AgentState(
    messages: seq<Message>,
    iteration: nat,
    pending: seq<ToolCall>,
    activeSkills: seq<string>,
    toolCalls: nat,
    skillUses: nat,
    answer: string,
    stop: Option<Stop>)

  datatype Response = Response(content: string, calls: seq<ToolCall>)

  /**
   * What the world answers during one iteration: the loaded skill text, the stored summary and the model's response
   * (nothing where the source raises), the output of each call that runs a tool, the events of the concurrent
   * calls in the order they were emitted, and whether the outputs of external tools were recorded.
   */
  datatype Turn = Turn(
    skillText: Option<string>,
    summary: Option<string>,
    response: Option<Response>,
    outputs: seq<string>,
    toolEvents: seq<Event>,
    recorded: bool)

  /** The final stream: its chunks, and whether it raises after them. */
  datatype Stream = Stream(chunks: seq<string>, raises: bool)

  datatype Program = Program(
    registry: set<string>, budget: Budget, maxIterations: nat, maxParallel: nat, question: string)

  datatype Node = Agent | Reasoning | Action | Answer | End

  /** A node that was entered, and the state it found. */
  datatype Visit = Visit(node: Node, state: AgentState)

  /** A call of the model in the loop: what it saw, what was persistent of that, and what it asked for. */
  datatype Invocation = Invocation(
    messages: seq<Message>, persistent: seq<Message>, skills: seq<string>, calls: seq<ToolCall>)

  // ---------------------------------------------------------------------------
  // Skills and calls
  // ---------------------------------------------------------------------------

  /** The skills that a response's calls are granted for the next step. */
  function Granted(registry: set<string>, calls: seq<ToolCall>): seq<string> {
    if calls == [] then []
    else
      var before := Granted(registry, calls[..|calls| - 1]);
      match RequestedSkills(registry, calls[|calls| - 1])
      case None => before
      case Some(names) => Unique(before + names)
  }

  function SkillUses(registry: set<string>, calls: seq<ToolCall>): nat {
    if calls == [] then 0
    else
      SkillUses(registry, calls[..|calls| - 1])
      + match RequestedSkills(registry, calls[|calls| - 1]) { case None => 0 case Some(names) => |names| }
  }

  predicate IsExternal(call: ToolCall) {
    !IsSkillRequest(call) && !IsContextSearch(call)
  }

  predicate HasExternal(calls: seq<ToolCall>) {
    exists call <- calls :: IsExternal(call)
  }

  function ToolCallCount(calls: seq<ToolCall>): nat {
    if calls == [] then 0
    else ToolCallCount(calls[..|calls| - 1]) + (if IsSkillRequest(calls[|calls| - 1]) then 0 else 1)
  }

  /** What the calls that ask for skills emit. */
  function SkillEvents(registry: set<string>, calls: seq<ToolCall>): seq<Event> {
    if calls == [] then []
    else
      var last := calls[|calls| - 1];
      SkillEvents(registry, calls[..|calls| - 1]) + (if IsSkillRequest(last) then [SkillEvent(registry, last)] else [])
  }

  function SkillEvent(registry: set<string>, call: ToolCall): Event {
    if RequestedSkills(registry, call).Some? then Event.SkillRequested else ToolFailed(call.id)
  }

  lemma NextCall(registry: set<string>, calls: seq<ToolCall>, i: nat)
    requires i < |calls|
    ensures SkillEvents(registry, calls[..i + 1])
         == SkillEvents(registry, calls[..i])
            + (if IsSkillRequest(calls[i]) then [SkillEvent(registry, calls[i])] else [])
    ensures Granted(registry, calls[..i + 1]) == match RequestedSkills(registry, calls[i])
      case None => Granted(registry, calls[..i])
      case Some(names) => Unique(Granted(registry, calls[..i]) + names)
    ensures SkillUses(registry, calls[..i + 1])
         == SkillUses(registry, calls[..i])
            + match RequestedSkills(registry, calls[i]) { case None => 0 case Some(names) => |names| }
    ensures ToolCallCount(calls[..i + 1]) == ToolCallCount(calls[..i]) + (if IsSkillRequest(calls[i]) then 0 else 1)
  {
    hide RequestedSkills, Unique, IsSkillRequest, SkillEvent;
    assert calls[..i + 1][..i] == calls[..i];
  }

  /** All names that the calls are granted, call by call. */
  function AllNames(registry: set<string>, calls: seq<ToolCall>): seq<string> {
    if calls == [] then []
    else AllNames(registry, calls[..|calls| - 1]) + RequestedSkills(registry, calls[|calls| - 1]).GetOr([])
  }

  /** The next step gets every name once, in the order of asking; each name of each call counts as a use. */
  lemma {:induction false} GrantedAreAsked(registry: set<string>, calls: seq<ToolCall>)
    ensures Granted(registry, calls) == Unique(AllNames(registry, calls))
    ensures SkillUses(registry, calls) == |AllNames(registry, calls)|
    ensures ToolCallCount(calls) == |ToolRuns(calls)|
    ensures forall name ::
      name in Granted(registry, calls) <==> exists call <- calls :: name in RequestedSkills(registry, call).GetOr([])
  {
    hide RequestedSkills, Unique, IsSkillRequest;
    UniqueIsDistinct(AllNames(registry, calls));
    if calls == [] {
      UniqueOfNothing();
    } else {
      var front, last := calls[..|calls| - 1], calls[|calls| - 1];
      var names := RequestedSkills(registry, last).GetOr([]);
      GrantedAreAsked(registry, front);
      assert calls == front + [last];
      UniqueIsDistinct(AllNames(registry, front));
      UniqueOfFront(AllNames(registry, front), names);
      assert AllNames(registry, front) + [] == AllNames(registry, front);
      if !IsSkillRequest(last) {
        OnlySkillRequests(registry, last);
      }
    }
  }

  lemma UniqueOfFront(a: seq<string>, b: seq<string>)
    ensures Unique(Unique(a) + b) == Unique(a + b)
  {
    hide Unique;
    if b == [] {
      assert Unique(a) + b == Unique(a) && a + b == a;
      UniqueAgain(a);
    } else {
      var front, last := b[..|b| - 1], b[|b| - 1];
      UniqueOfFront(a, front);
      assert Unique(a) + b == (Unique(a) + front) + [last] && a + b == (a + front) + [last];
      NextUnique(Unique(a) + front, last);
      NextUnique(a + front, last);
    }
  }

  /** Each skill request emits one event, in call order; the other calls none. */
  lemma {:induction false} SkillEventsInOrder(registry: set<string>, a: seq<ToolCall>, b: seq<ToolCall>)
    ensures SkillEvents(registry, a + b) == SkillEvents(registry, a) + SkillEvents(registry, b)
  {
    hide RequestedSkills;
    if b == [] {
      assert a + b == a;
    } else {
      var front, last := b[..|b| - 1], b[|b| - 1];
      SkillEventsInOrder(registry, a, front);
      assert (a + b)[..|a + b| - 1] == a + front && (a + b)[|a + b| - 1] == last;
    }
  }

  lemma OneSkillEvent(registry: set<string>, call: ToolCall)
    ensures SkillEvents(registry, [call])
         == if call.name != SKILL_REQUEST then []
            else if RequestedSkills(registry, call).Some? then [Event.SkillRequested] else [ToolFailed(call.id)]
  {
    hide RequestedSkills;
    assert [call][..0] == [];
  }

  lemma {:induction false} UniqueAgain(names: seq<string>)
    ensures Unique(Unique(names)) == Unique(names)
  {
    UniqueOfConcat([], names);
    assert [] + Unique(names) == Unique(names) && [] + names == names;
  }

  lemma {:induction false} GrantedIsUnique(registry: set<string>, calls: seq<ToolCall>)
    ensures Unique(Granted(registry, calls)) == Granted(registry, calls)
  {
    hide RequestedSkills, Unique;
    if calls == [] {
      assert Unique([]) == [] by { UniqueOfNothing(); }
    } else {
      var last := RequestedSkills(registry, calls[|calls| - 1]);
      if last.Some? {
        UniqueAgain(Granted(registry, calls[..|calls| - 1]) + last.value);
      } else {
        GrantedIsUnique(registry, calls[..|calls| - 1]);
      }
    }
  }

  lemma UniqueOfNothing()
    ensures Unique([]) == []
  {}

  /** Adds each name that is not there yet. */
  method AddNames(active: seq<string>, names: seq<string>) returns (all: seq<string>)
    requires Unique(active) == active
    ensures all == Unique(active + names)
  {
    all := active;
    assert active + [] == active;
    hide Unique;
    for i := 0 to |names|
      invariant all == Unique(active + names[..i])
    {
      assert active + names[..i + 1] == (active + names[..i]) + [names[i]];
      NextUnique(active + names[..i], names[i]);
      if names[i] !in all {
        all := all + [names[i]];
      }
    }
    assert names[..|names|] == names;
  }

  // ---------------------------------------------------------------------------
  // The action node
  // ---------------------------------------------------------------------------

  function OutputOf(outputs: seq<string>, i: nat): Content {
    Output(if i < |outputs| then outputs[i] else "")
  }

  /** The content a call is answered with. */
  function Reply(registry: set<string>, calls: seq<ToolCall>, outputs: seq<string>, i: nat): Content
    requires i < |calls|
  {
    if IsSkillRequest(calls[i]) then
      match RequestedSkills(registry, calls[i])
      case None => SkillsRefused
      case Some(names) => SkillsGranted(names)
    else OutputOf(outputs, i)
  }

  /** No answer carries skill instructions. */
  predicate Harmless(contents: map<string, Content>) {
    forall id <- contents :: !contents[id].SkillInstructions?
  }

  /** The contents of the calls from a list of indices, in order. */
  method FillOutputs(calls: seq<ToolCall>, outputs: seq<string>, indices: seq<nat>, contents: map<string, Content>)
    returns (filled: map<string, Content>)
    requires forall k <- indices :: k < |calls|
    ensures contents.Keys <= filled.Keys && forall k <- indices :: calls[k].id in filled
    ensures Harmless(contents) ==> Harmless(filled)
    ensures DistinctIds(calls) ==> forall i | 0 <= i < |calls| && calls[i].id in filled ::
      if i in indices then filled[calls[i].id] == OutputOf(outputs, i)
      else calls[i].id in contents && filled[calls[i].id] == contents[calls[i].id]
  {
    filled := contents;
    for n := 0 to |indices|
      invariant Harmless(contents) ==> Harmless(filled)
      invariant contents.Keys <= filled.Keys && forall k <- indices[..n] :: k < |calls| && calls[k].id in filled
      invariant DistinctIds(calls) ==> forall i | 0 <= i < |calls| && calls[i].id in filled ::
        if i in indices[..n] then filled[calls[i].id] == OutputOf(outputs, i)
        else calls[i].id in contents && filled[calls[i].id] == contents[calls[i].id]
    {
      var k := indices[n];
      assert k in indices && indices[..n + 1] == indices[..n] + [k];
      filled := filled[calls[k].id := OutputOf(outputs, k)];
    }
    assert indices[..|indices|] == indices;
  }

  /** The calls so far: which of them are answered, and which wait for a tool. */
  ghost predicate Sorted(program: Program, calls: seq<ToolCall>, n: nat, contents: map<string, Content>,
                         searches: seq<nat>, externals: seq<nat>)
    requires n <= |calls|
  {
    && (forall k | k in searches || k in externals :: k < n && !IsSkillRequest(calls[k]))
    && (forall i | 0 <= i < n ::
          if IsSkillRequest(calls[i]) then calls[i].id in contents else i in searches || i in externals)
    && (DistinctIds(calls) ==> forall i | 0 <= i < n && IsSkillRequest(calls[i]) ::
          calls[i].id in contents && contents[calls[i].id] == Reply(program.registry, calls, [], i))
    && (DistinctIds(calls) ==> forall i | 0 <= i < |calls| && calls[i].id in contents ::
          i < n && IsSkillRequest(calls[i]))
    && |searches| + |externals| == ToolCallCount(calls[..n])
  }

  lemma SortedSkill(program: Program, calls: seq<ToolCall>, n: nat, contents: map<string, Content>,
                    searches: seq<nat>, externals: seq<nat>, content: Content)
    requires n < |calls| && Sorted(program, calls, n, contents, searches, externals)
    requires IsSkillRequest(calls[n]) && content == Reply(program.registry, calls, [], n)
    requires ToolCallCount(calls[..n + 1]) == ToolCallCount(calls[..n])
    ensures Sorted(program, calls, n + 1, contents[calls[n].id := content], searches, externals)
  {
    hide RequestedSkills, ToolCallCount, IsSkillRequest, Reply;
  }

  lemma SortedTool(program: Program, calls: seq<ToolCall>, n: nat, contents: map<string, Content>,
                   searches: seq<nat>, externals: seq<nat>)
    requires n < |calls| && Sorted(program, calls, n, contents, searches, externals)
    requires !IsSkillRequest(calls[n])
    requires ToolCallCount(calls[..n + 1]) == ToolCallCount(calls[..n]) + 1
    ensures Sorted(program, calls, n + 1, contents, searches + [n], externals)
    ensures Sorted(program, calls, n + 1, contents, searches, externals + [n])
  {
    hide RequestedSkills, ToolCallCount, IsSkillRequest, Reply;
    var more, other := searches + [n], externals + [n];
    assert more[|searches|] == n && other[|externals|] == n;
    assert forall k :: k in more <==> k in searches || k == n;
    assert forall k :: k in other <==> k in externals || k == n;
  }

  /** A tool run is answered with its own output. */
  lemma RepliesToTool(registry: set<string>, calls: seq<ToolCall>, outputs: seq<string>, i: nat)
    requires i < |calls| && i < |outputs| && calls[i].name != SKILL_REQUEST
    ensures Reply(registry, calls, outputs, i) == Output(outputs[i])
  {}

  lemma RepliesToSkill(registry: set<string>, calls: seq<ToolCall>, i: nat)
    requires i < |calls| && IsSkillRequest(calls[i])
    ensures Reply(registry, calls, [], i) == match RequestedSkills(registry, calls[i])
      case None => SkillsRefused
      case Some(names) => SkillsGranted(names)
  {}

  lemma NothingSorted(program: Program, calls: seq<ToolCall>)
    ensures Sorted(program, calls, 0, map[], [], [])
    ensures Granted(program.registry, calls[..0]) == [] && SkillUses(program.registry, calls[..0]) == 0
    ensures SkillEvents(program.registry, calls[..0]) == [] && !HasExternal(calls[..0])
  {}

  lemma NextExternal(calls: seq<ToolCall>, i: nat)
    requires i < |calls|
    ensures HasExternal(calls[..i + 1]) <==> HasExternal(calls[..i]) || IsExternal(calls[i])
  {
    assert calls[..i + 1] == calls[..i] + [calls[i]];
  }

  /** One skill request: its answer, and the skills it adds. */
  method GrantRequest(program: Program, calls: seq<ToolCall>, i: nat, active: seq<string>)
    returns (content: Content, all: seq<string>, count: nat, event: Event)
    requires i < |calls| && IsSkillRequest(calls[i]) && active == Granted(program.registry, calls[..i])
    ensures content == Reply(program.registry, calls, [], i) && !content.SkillInstructions?
    ensures event == SkillEvent(program.registry, calls[i]) && IsQuiet(event)
    ensures all == Granted(program.registry, calls[..i + 1])
    ensures SkillUses(program.registry, calls[..i + 1]) == SkillUses(program.registry, calls[..i]) + count
  {
    hide RequestedSkills, Granted, SkillUses, ToolCallCount, Unique, IsSkillRequest, Reply;
    NextCall(program.registry, calls, i);
    RepliesToSkill(program.registry, calls, i);
    GrantedIsUnique(program.registry, calls[..i]);
    var names := RequestSkills(program.registry, calls[i]);
    if names.Some? {
      all := AddNames(active, names.value);
      content, count, event := SkillsGranted(names.value), |names.value|, Event.SkillRequested;
    } else {
      content, all, count, event := SkillsRefused, active, 0, ToolFailed(calls[i].id);
    }
  }

  /** What the first loop of the action node has done with the first `n` calls. */
  ghost predicate SortedSoFar(program: Program, calls: seq<ToolCall>, n: nat, contents: map<string, Content>,
                              active: seq<string>, uses: nat, searches: seq<nat>, externals: seq<nat>,
                              events: seq<Event>)
    requires n <= |calls|
  {
    && Sorted(program, calls, n, contents, searches, externals)
    && (externals != [] <==> HasExternal(calls[..n]))
    && active == Granted(program.registry, calls[..n]) && uses == SkillUses(program.registry, calls[..n])
    && events == SkillEvents(program.registry, calls[..n]) && AllQuiet(events) && Harmless(contents)
  }

  lemma SkillIsSorted(program: Program, calls: seq<ToolCall>, n: nat, contents: map<string, Content>,
                      active: seq<string>, uses: nat, searches: seq<nat>, externals: seq<nat>, events: seq<Event>,
                      content: Content, all: seq<string>, count: nat, event: Event)
    requires n < |calls| && SortedSoFar(program, calls, n, contents, active, uses, searches, externals, events)
    requires IsSkillRequest(calls[n]) && content == Reply(program.registry, calls, [], n) && !content.SkillInstructions?
    requires event == SkillEvent(program.registry, calls[n]) && IsQuiet(event)
    requires all == Granted(program.registry, calls[..n + 1])
    requires SkillUses(program.registry, calls[..n + 1]) == SkillUses(program.registry, calls[..n]) + count
    ensures SortedSoFar(program, calls, n + 1, contents[calls[n].id := content], all, uses + count, searches, externals,
                        events + [event])
  {
    NextCall(program.registry, calls, n);
    NextExternal(calls, n);
    assert !IsExternal(calls[n]);
    hide RequestedSkills, Granted, SkillUses, SkillEvents, SkillEvent, ToolCallCount, Unique, Sorted, IsSkillRequest,
      IsContextSearch, Reply, IsQuiet, HasExternal, IsExternal;
    SortedSkill(program, calls, n, contents, searches, externals, content);
  }

  lemma ToolIsSorted(program: Program, calls: seq<ToolCall>, n: nat, contents: map<string, Content>,
                     active: seq<string>, uses: nat, searches: seq<nat>, externals: seq<nat>, events: seq<Event>)
    requires n < |calls| && SortedSoFar(program, calls, n, contents, active, uses, searches, externals, events)
    requires !IsSkillRequest(calls[n])
    ensures if IsContextSearch(calls[n]) then
              SortedSoFar(program, calls, n + 1, contents, active, uses, searches + [n], externals, events)
            else SortedSoFar(program, calls, n + 1, contents, active, uses, searches, externals + [n], events)
  {
    NextCall(program.registry, calls, n);
    NextExternal(calls, n);
    OnlySkillRequests(program.registry, calls[n]);
    assert IsExternal(calls[n]) <==> !IsContextSearch(calls[n]);
    hide RequestedSkills, Granted, SkillUses, SkillEvents, SkillEvent, ToolCallCount, Unique, Sorted, IsSkillRequest,
      IsContextSearch, Reply, IsQuiet, HasExternal, IsExternal;
    SortedTool(program, calls, n, contents, searches, externals);
    assert events + [] == events;
  }

  /** The first loop of the action node. */
  method SortCalls(program: Program, calls: seq<ToolCall>)
    returns (contents: map<string, Content>, active: seq<string>, uses: nat, searches: seq<nat>, externals: seq<nat>,
             events: seq<Event>)
    ensures Sorted(program, calls, |calls|, contents, searches, externals)
    ensures externals != [] <==> HasExternal(calls)
    ensures active == Granted(program.registry, calls) && uses == SkillUses(program.registry, calls)
    ensures events == SkillEvents(program.registry, calls) && AllQuiet(events) && Harmless(contents)
  {
    contents, active, uses, searches, externals, events := map[], [], 0, [], [], [];
    NothingSorted(program, calls);
    assert SortedSoFar(program, calls, 0, contents, active, uses, searches, externals, events);
    for i := 0 to |calls|
      invariant SortedSoFar(program, calls, i, contents, active, uses, searches, externals, events)
    {
      hide RequestedSkills, Granted, SkillUses, SkillEvents, SkillEvent, Sorted, IsSkillRequest, IsContextSearch, Reply,
        IsQuiet, AllQuiet, Harmless, HasExternal;
      if IsSkillRequest(calls[i]) {
        var content, all, count, event := GrantRequest(program, calls, i, active);
        SkillIsSorted(program, calls, i, contents, active, uses, searches, externals, events, content, all, count,
                      event);
        active, uses, events := all, uses + count, events + [event];
        contents := contents[calls[i].id := content];
      } else {
        ToolIsSorted(program, calls, i, contents, active, uses, searches, externals, events);
        if IsContextSearch(calls[i]) {
          searches := searches + [i];
        } else {
          externals := externals + [i];
        }
      }
    }
    assert calls[..|calls|] == calls;
  }

  lemma OnlySkillRequests(registry: set<string>, call: ToolCall)
    requires !IsSkillRequest(call)
    ensures RequestedSkills(registry, call).None?
  {}

  /** The node raises: an external tool's output cannot be recorded. */
  predicate ActionRaises(calls: seq<ToolCall>, turn: Turn) {
    HasExternal(calls) && !turn.recorded
  }

  /** Calls of context search and of skills need no recording; any other call does. */
  lemma {:induction false} ActionRaisesWithoutRecord(calls: seq<ToolCall>, turn: Turn)
    ensures ActionRaises(calls, turn)
       <==> !turn.recorded && exists call <- calls :: call.name !in {SKILL_REQUEST, CONTEXT_SEARCH}
  {
    if i :| 0 <= i < |calls| && IsExternal(calls[i]) {
      assert calls[i] in calls && calls[i].name !in {SKILL_REQUEST, CONTEXT_SEARCH};
    }
  }

  /** The messages that answer the calls, and what the next steps start from. */
  ghost predicate IsActed(program: Program, state: AgentState, turn: Turn, next: AgentState) {
    var calls, n := state.pending, |state.messages|;
    && |next.messages| == n + |calls| && state.messages <= next.messages
    && BeginsWithAnswers(next.messages[n..], calls)
    && (forall i | n <= i < |next.messages| :: !next.messages[i].content.SkillInstructions?)
    && (DistinctIds(calls) ==> forall i | 0 <= i < |calls| ::
          next.messages[n + i].content == Reply(program.registry, calls, turn.outputs, i))
    && next == state.(
         messages := next.messages,
         pending := [],
         activeSkills := Granted(program.registry, calls),
         toolCalls := state.toolCalls + ToolCallCount(calls),
         skillUses := state.skillUses + SkillUses(program.registry, calls))
  }

  /** Every call has its content, and the right one for distinct ids. */
  ghost predicate AreReplies(program: Program, calls: seq<ToolCall>, turn: Turn, contents: map<string, Content>) {
    && Harmless(contents)
    && (forall i | 0 <= i < |calls| :: calls[i].id in contents)
    && (DistinctIds(calls) ==> forall i | 0 <= i < |calls| ::
          contents[calls[i].id] == Reply(program.registry, calls, turn.outputs, i))
  }

  /** The contents of all calls, as the two kinds of tool runs fill them in. */
  method FillAll(program: Program, calls: seq<ToolCall>, turn: Turn, contents: map<string, Content>,
                 searches: seq<nat>, externals: seq<nat>) returns (filled: map<string, Content>)
    requires Sorted(program, calls, |calls|, contents, searches, externals) && Harmless(contents)
    ensures AreReplies(program, calls, turn, filled)
  {
    SortedBounds(program, calls, contents, searches, externals);
    hide Sorted, Reply, Harmless, DistinctIds, ToolCallCount;
    var searched := FillOutputs(calls, turn.outputs, searches, contents);
    filled := FillOutputs(calls, turn.outputs, externals, searched);
    ContentsAreTotal(program, calls, turn.outputs, contents, searches, externals, searched, filled);
  }

  /** The node; nothing if it raises. */
  method ActionNode(program: Program, state: AgentState, turn: Turn)
    returns (next: Option<AgentState>, events: seq<Event>)
    requires AllQuiet(turn.toolEvents)
    ensures events == SkillEvents(program.registry, state.pending) + turn.toolEvents && AllQuiet(events)
    ensures next.None? <==> ActionRaises(state.pending, turn)
    ensures next.Some? ==> IsActed(program, state, turn, next.value)
  {
    hide RequestedSkills, Granted, SkillUses, SkillEvents, ToolCallCount, HasExternal, Sorted, Reply, IsQuiet, AllQuiet,
      DistinctIds, BeginsWithAnswers, Harmless, AreReplies, IsActed;
    var calls := state.pending;
    var contents, active, uses, searches, externals, sortEvents := SortCalls(program, calls);
    events := sortEvents + turn.toolEvents;
    QuietInPieces(sortEvents, turn.toolEvents);
    if externals != [] && !turn.recorded {
      return None, events;
    }
    var filled := FillAll(program, calls, turn, contents, searches, externals);
    RepliesAreTotal(program, calls, turn, filled);
    var messages := AnswerCalls(state.messages, calls, filled);
    var acted := state.(messages := messages, pending := [], activeSkills := active,
                        toolCalls := state.toolCalls + |externals| + |searches|, skillUses := state.skillUses + uses);
    SortedBounds(program, calls, contents, searches, externals);
    AnsweredIsActed(program, state, turn, filled, acted);
    next := Some(acted);
  }

  lemma RepliesAreTotal(program: Program, calls: seq<ToolCall>, turn: Turn, contents: map<string, Content>)
    requires AreReplies(program, calls, turn, contents)
    ensures forall call <- calls :: call.id in contents
  {}

  lemma AnsweredIsActed(program: Program, state: AgentState, turn: Turn, contents: map<string, Content>,
                        next: AgentState)
    requires AreReplies(program, state.pending, turn, contents) && forall call <- state.pending :: call.id in contents
    requires |next.messages| == |state.messages| + |state.pending| && state.messages <= next.messages
    requires forall k | 0 <= k < |state.pending| ::
      next.messages[|state.messages| + k]
      == Message(Tool, contents[state.pending[k].id], [], state.pending[k].id)
    requires next == state.(
      messages := next.messages,
      pending := [],
      activeSkills := Granted(program.registry, state.pending),
      toolCalls := state.toolCalls + ToolCallCount(state.pending),
      skillUses := state.skillUses + SkillUses(program.registry, state.pending))
    ensures IsActed(program, state, turn, next)
  {
    hide Granted, ToolCallCount, SkillUses, Reply, Harmless, DistinctIds, BeginsWithAnswers;
    AnswersAreHarmless(state.messages, next.messages, state.pending, contents);
  }

  lemma SortedBounds(program: Program, calls: seq<ToolCall>, contents: map<string, Content>,
                     searches: seq<nat>, externals: seq<nat>)
    requires Sorted(program, calls, |calls|, contents, searches, externals)
    ensures (forall k <- searches :: k < |calls|) && (forall k <- externals :: k < |calls|)
    ensures |externals| + |searches| == ToolCallCount(calls)
  {
    assert calls[..|calls|] == calls;
  }

  lemma AnswersAreHarmless(before: seq<Message>, messages: seq<Message>, calls: seq<ToolCall>,
                           contents: map<string, Content>)
    requires Harmless(contents) && forall call <- calls :: call.id in contents
    requires |messages| == |before| + |calls|
    requires forall k | 0 <= k < |calls| ::
      messages[|before| + k] == Message(Tool, contents[calls[k].id], [], calls[k].id)
    ensures BeginsWithAnswers(messages[|before|..], calls)
    ensures forall i | |before| <= i < |messages| :: !messages[i].content.SkillInstructions?
  {
    forall i | |before| <= i < |messages| ensures !messages[i].content.SkillInstructions? {
      assert messages[|before| + (i - |before|)].content == contents[calls[i - |before|].id];
    }
  }

  /** The loop that answers the calls in their order. */
  method AnswerCalls(before: seq<Message>, calls: seq<ToolCall>, contents: map<string, Content>)
    returns (messages: seq<Message>)
    requires forall call <- calls :: call.id in contents
    ensures |messages| == |before| + |calls| && before <= messages
    ensures forall k | 0 <= k < |calls| ::
      messages[|before| + k] == Message(Tool, contents[calls[k].id], [], calls[k].id)
  {
    messages := before;
    for i := 0 to |calls|
      invariant |messages| == |before| + i && before <= messages
      invariant forall k | 0 <= k < i ::
        messages[|before| + k] == Message(Tool, contents[calls[k].id], [], calls[k].id)
    {
      messages := messages + [Message(Tool, contents[calls[i].id], [], calls[i].id)];
    }
  }

  /** The lookup of a call's content never fails, and finds the right one if the calls have distinct ids. */
  lemma ContentsAreTotal(program: Program, calls: seq<ToolCall>, outputs: seq<string>, contents: map<string, Content>,
                         searches: seq<nat>, externals: seq<nat>, searched: map<string, Content>,
                         filled: map<string, Content>)
    requires Sorted(program, calls, |calls|, contents, searches, externals)
    requires contents.Keys <= searched.Keys <= filled.Keys
    requires forall k <- searches :: k < |calls| && calls[k].id in searched
    requires forall k <- externals :: k < |calls| && calls[k].id in filled
    requires DistinctIds(calls) ==> forall i | 0 <= i < |calls| && calls[i].id in searched ::
      if i in searches then searched[calls[i].id] == OutputOf(outputs, i)
      else calls[i].id in contents && searched[calls[i].id] == contents[calls[i].id]
    requires DistinctIds(calls) ==> forall i | 0 <= i < |calls| && calls[i].id in filled ::
      if i in externals then filled[calls[i].id] == OutputOf(outputs, i)
      else calls[i].id in searched && filled[calls[i].id] == searched[calls[i].id]
    ensures forall i | 0 <= i < |calls| :: calls[i].id in filled
    ensures DistinctIds(calls) ==> forall i | 0 <= i < |calls| ::
      filled[calls[i].id] == Reply(program.registry, calls, outputs, i)
  {
    hide ToolCallCount, RequestedSkills, OutputOf, IsSkillRequest;
    forall i | 0 <= i < |calls| ensures calls[i].id in filled {
      assert IsSkillRequest(calls[i]) || i in searches || i in externals;
    }
    if DistinctIds(calls) {
      forall i | 0 <= i < |calls| ensures filled[calls[i].id] == Reply(program.registry, calls, outputs, i) {
        assert IsSkillRequest(calls[i]) ==> i !in searches && i !in externals;
      }
    }
  }

  // ---------------------------------------------------------------------------
  // The answer node
  // ---------------------------------------------------------------------------

  function Concat(chunks: seq<string>): string {
    if chunks == [] then "" else Concat(chunks[..|chunks| - 1]) + chunks[|chunks| - 1]
  }

  function DeltaEvents(chunks: seq<string>): seq<Event> {
    if chunks == [] then [] else DeltaEvents(chunks[..|chunks| - 1]) + [AssistantDelta(chunks[|chunks| - 1])]
  }

  function Opening(): seq<Event> {
    [PhaseChanged(Some(Phase.ResponsePreparing)), AnswerStarted, PhaseChanged(Some(Phase.ResponseStreaming))]
  }

  function Closing(): seq<Event> {
    [AnswerGenerated, AnswerCompleted, PhaseChanged(Some(Phase.Finalizing))]
  }

  lemma NextChunk(chunks: seq<string>, chunk: string)
    ensures Concat(chunks + [chunk]) == Concat(chunks) + chunk
    ensures DeltaEvents(chunks + [chunk]) == DeltaEvents(chunks) + [AssistantDelta(chunk)]
  {
    assert (chunks + [chunk])[..|chunks|] == chunks;
  }

  lemma NoChunks()
    ensures Concat([]) == "" && DeltaEvents([]) == []
  {}

  lemma MessagesAreStripped()
    ensures Strip(LimitMessage()) == LimitMessage() && LimitMessage() != ""
    ensures Strip(NoAnswerMessage()) == NoAnswerMessage() && NoAnswerMessage() != ""
  {
    var head, tail := "Não foi possível concluir a solicitação", " dentro do limite de iterações.";
    assert head[0] == 'N' && tail[|tail| - 1] == '.' && LimitMessage() == head + tail;
    StripFixed(LimitMessage());
    StripFixed(NoAnswerMessage());
  }

  /** A stripped answer behind white space strips to itself. */
  lemma AnswerAfterBlank(blank: string, answer: string)
    requires IsBlank(blank) && Strip(answer) == answer
    ensures Strip(blank + answer) == answer
  {
    BlankIsAllSpace(blank);
    StripPadded(blank, answer, "");
    assert blank + answer + "" == blank + answer;
  }

  function Draft(state: AgentState): string {
    Strip(state.answer)
  }

  /** The streaming loop: the chunks that carry text, emitted one by one. */
  method StreamAnswer(chunks: seq<string>) returns (spoken: seq<string>)
    ensures Concat(spoken) == Concat(chunks) && "" !in spoken
  {
    spoken := [];
    NoChunks();
    assert chunks[..0] == [];
    hide Concat, DeltaEvents;
    for i := 0 to |chunks|
      invariant Concat(spoken) == Concat(chunks[..i]) && "" !in spoken
    {
      assert chunks[..i + 1] == chunks[..i] + [chunks[i]];
      NextChunk(chunks[..i], chunks[i]);
      if chunks[i] == "" {
        assert Concat(chunks[..i]) + "" == Concat(chunks[..i]);
        continue;
      }
      NextChunk(spoken, chunks[i]);
      spoken := spoken + [chunks[i]];
    }
    assert chunks[..|chunks|] == chunks;
  }

  function Fallback(state: AgentState): string {
    if Draft(state) != "" then Draft(state) else NoAnswerMessage()
  }

  lemma FallbackIsStripped(state: AgentState)
    ensures Strip(Fallback(state)) == Fallback(state) && Fallback(state) != ""
  {
    MessagesAreStripped();
    StripIdempotent(state.answer);
  }

  lemma OneChunk(chunk: string)
    ensures Concat([chunk]) == chunk
  {
    NextChunk([], chunk);
    assert [] + [chunk] == [chunk] && "" + chunk == chunk;
  }

  /** The streamed answer, or the fallback as one more delta if nothing but white space was streamed. */
  method SpeakStream(stream: Stream, fallback: string) returns (spoken: seq<string>, answer: string)
    requires Strip(fallback) == fallback && fallback != ""
    ensures Strip(Concat(spoken)) == answer == Strip(answer) && answer != "" && "" !in spoken
    ensures answer == if !IsBlank(Concat(stream.chunks)) then Strip(Concat(stream.chunks)) else fallback
  {
    hide Strip, Concat;
    spoken := StreamAnswer(stream.chunks);
    answer := Strip(Concat(spoken));
    StripIdempotent(Concat(spoken));
    if answer == "" {
      answer := fallback;
      NextChunk(spoken, answer);
      AnswerAfterBlank(Concat(spoken), answer);
      spoken := spoken + [answer];
    }
  }

  /** What the answer node says: the deltas, and the answer they strip to. */
  method Speak(state: AgentState, stream: Stream) returns (spoken: seq<string>, answer: string)
    ensures Strip(Concat(spoken)) == answer == Strip(answer) && answer != "" && "" !in spoken
    ensures state.stop == Some(MaxIterations) ==> spoken == [answer] && answer == Fallback(state)
    ensures state.stop != Some(MaxIterations) ==>
      answer == if !IsBlank(Concat(stream.chunks)) then Strip(Concat(stream.chunks)) else Fallback(state)
  {
    hide Strip, Concat, IsBlank, Fallback;
    var fallback := Fallback(state);
    FallbackIsStripped(state);
    if state.stop == Some(MaxIterations) {
      answer := fallback;
      spoken := [answer];
      OneChunk(answer);
    } else {
      spoken, answer := SpeakStream(stream, fallback);
    }
  }

  method AnswerNode(state: AgentState, stream: Stream)
    returns (next: AgentState, spoken: seq<string>, events: seq<Event>, raised: bool)
    requires WellFormed(state.messages)
    ensures raised <==> state.stop != Some(MaxIterations) && stream.raises
    ensures "" !in spoken
    ensures raised ==>
      next == state && events == Opening() + DeltaEvents(spoken) && Concat(spoken) == Concat(stream.chunks)
    ensures !raised ==>
      && events == Opening() + DeltaEvents(spoken) + Closing()
      && Strip(Concat(spoken)) == next.answer != ""
      && WellFormed(next.messages)
      && next == state.(messages := next.messages, answer := next.answer, stop := Some(state.stop.GetOr(Answered)))
    ensures !raised && state.stop == Some(MaxIterations) && Draft(state) != "" ==>
      spoken == [next.answer] && next.answer == Draft(state)
    ensures !raised && state.stop != Some(MaxIterations) ==>
      next.answer == if !IsBlank(Concat(stream.chunks)) then Strip(Concat(stream.chunks)) else Fallback(state)
  {
    hide Strip, Draft, Concat, DeltaEvents, Opening, Closing;
    raised := state.stop != Some(MaxIterations) && stream.raises;
    if raised {
      spoken := StreamAnswer(stream.chunks);
      events := Opening() + DeltaEvents(spoken);
      next := state;
      return;
    }
    var answer: string;
    spoken, answer := Speak(state, stream);
    events := Opening() + DeltaEvents(spoken) + Closing();
    var messages := state.messages;
    var said := Say(Assistant, Plain(answer));
    if messages != [] && messages[|messages| - 1].role.Assistant? && messages[|messages| - 1].toolCalls == [] {
      WellFormedFront(messages);
      WellFormedAppend(messages[..|messages| - 1], said);
      messages := messages[..|messages| - 1] + [said];
    } else {
      WellFormedAppend(messages, said);
      messages := messages + [said];
    }
    next := state.(messages := messages, answer := answer, stop := Some(state.stop.GetOr(Answered)));
  }

  // ---------------------------------------------------------------------------
  // The agent and the reasoning node
  // ---------------------------------------------------------------------------

  method AgentNode(program: Program, state: AgentState) returns (next: AgentState, events: seq<Event>)
    ensures AllQuiet(events)
    ensures state.iteration >= program.maxIterations ==>
      && next == state.(answer := if Draft(state) != "" then Draft(state) else LimitMessage(),
                        stop := Some(MaxIterations))
      && events == [OtherEvent(IterationLimitReached)]
    ensures state.iteration < program.maxIterations ==>
      && next == state.(iteration := state.iteration + 1, pending := [])
      && events == [PhaseChanged(Some(Phase.Reasoning)), IterationStarted(next.iteration)]
  {
    if state.iteration >= program.maxIterations {
      var answer := Draft(state);
      if answer == "" {
        answer := LimitMessage();
      }
      events := [OtherEvent(IterationLimitReached)];
      next := state.(answer := answer, stop := Some(MaxIterations));
    } else {
      events := [PhaseChanged(Some(Phase.Reasoning)), IterationStarted(state.iteration + 1)];
      next := state.(iteration := state.iteration + 1, pending := []);
    }
  }

  /** No message carries skill instructions. */
  predicate NoInstructions(messages: seq<Message>) {
    forall message <- messages :: !message.content.SkillInstructions?
  }

  /** One call of the model: within budget, the active skills in front of an otherwise persistent conversation. */
  ghost predicate InvocationOk(program: Program, invocation: Invocation) {
    && WellFormed(invocation.messages) && WellFormed(invocation.persistent)
    && !IsOverBudget(program.budget, invocation.messages)
    && NoInstructions(invocation.persistent)
    && exists text :: invocation.messages == WithSkill(invocation.persistent, SkillMessage(invocation.skills, text))
  }

  /** The conversation with the active skills in front, before any compaction. */
  function WithActiveSkills(state: AgentState, turn: Turn, messages: seq<Message>): seq<Message> {
    WithSkill(messages, SkillMessage(state.activeSkills, turn.skillText.GetOr("")))
  }

  predicate NeedsCompaction(program: Program, state: AgentState, turn: Turn) {
    IsOverBudget(program.budget, WithActiveSkills(state, turn, state.messages))
  }

  /** The reasoning context can be prepared. */
  predicate MayInvoke(program: Program, state: AgentState, turn: Turn) {
    MayPrepare(program.budget, state.messages, state.activeSkills, turn.skillText, turn.summary, program.question)
  }

  /** What the model's call keeps of the conversation. */
  function Persistent(program: Program, state: AgentState, turn: Turn): seq<Message> {
    if NeedsCompaction(program, state, turn) then
      Compacted(state.messages, turn.summary.GetOr(""), program.question)
    else state.messages
  }

  /** The events up to the call of the model. */
  function InvocationEvents(skills: seq<string>, compacted: bool): seq<Event> {
    [PhaseChanged(Some(if skills != [] then UsingSkill else Phase.Reasoning))]
    + (if compacted then [OtherEvent(BudgetExceeded), OtherEvent(SnapshotCreated)] else [])
    + (if skills != [] then [SkillContextLoaded(skills)] else [])
    + [PhaseChanged(Some(Phase.Reasoning)), LlmStarted]
  }

  /** The node as far as the call of the model; nothing if it raises before. */
  method InvokeModel(program: Program, state: AgentState, turn: Turn)
    returns (prepared: Option<Prepared>, events: seq<Event>)
    requires WellFormed(state.messages) && NoInstructions(state.messages)
    ensures AllQuiet(events) && NoToolStarts(events)
    ensures prepared.Some? <==> MayInvoke(program, state, turn)
    ensures prepared.Some? ==>
      && InvocationOk(program, Invocation(prepared.value.reasoning, prepared.value.persistent, state.activeSkills, []))
      && prepared.value.persistent == Persistent(program, state, turn)
      && prepared.value.reasoning == WithActiveSkills(state, turn, prepared.value.persistent)
      && events == InvocationEvents(state.activeSkills, NeedsCompaction(program, state, turn))
    ensures prepared.None? ==> events == InvocationEvents(state.activeSkills, false)[..1]
  {
    hide WithSkill, Compacted, IsOverBudget, WellFormed, MayPrepare;
    events := [PhaseChanged(Some(if state.activeSkills != [] then UsingSkill else Phase.Reasoning))];
    prepared := PrepareReasoning(program.budget, state.messages, state.activeSkills, turn.skillText, turn.summary,
                                 program.question);
    if prepared.None? {
      return;
    }
    if prepared.value.compacted {
      CompactedHasNoInstructions(state.messages, turn.summary.value, program.question);
      events := events + [OtherEvent(BudgetExceeded), OtherEvent(SnapshotCreated)];
    }
    if state.activeSkills != [] {
      events := events + [SkillContextLoaded(state.activeSkills)];
    }
    events := events + [PhaseChanged(Some(Phase.Reasoning)), LlmStarted];
  }

  lemma CompactedHasNoInstructions(messages: seq<Message>, summary: string, question: string)
    requires NoInstructions(messages)
    ensures NoInstructions(Compacted(messages, summary, question))
  {}

  function CallsOf(turn: Turn): seq<ToolCall> {
    if turn.response.Some? then turn.response.value.calls else []
  }

  /** The events of the reasoning node, up to where it raises if it does. */
  function ReasoningEvents(program: Program, state: AgentState, turn: Turn): seq<Event> {
    if !MayInvoke(program, state, turn) then InvocationEvents(state.activeSkills, false)[..1]
    else
      InvocationEvents(state.activeSkills, NeedsCompaction(program, state, turn))
      + (if state.activeSkills != [] then [SkillContextReleased] else [])
      + (if turn.response.Some? then [OtherEvent(LlmCompleted), OtherEvent(DecisionMade)] else [])
  }

  method ReasoningNode(program: Program, state: AgentState, turn: Turn)
    returns (next: Option<AgentState>, invocation: Option<Invocation>, events: seq<Event>)
    requires WellFormed(state.messages) && NoInstructions(state.messages)
    ensures AllQuiet(events) && NoToolStarts(events)
    ensures invocation.Some? <==> MayInvoke(program, state, turn)
    ensures next.Some? <==> MayInvoke(program, state, turn) && turn.response.Some?
    ensures invocation.Some? ==>
      && InvocationOk(program, invocation.value)
      && invocation.value.skills == state.activeSkills && invocation.value.calls == CallsOf(turn)
      && invocation.value.persistent == Persistent(program, state, turn)
      && invocation.value.messages == WithActiveSkills(state, turn, invocation.value.persistent)
    ensures events == ReasoningEvents(program, state, turn)
    ensures next.Some? ==>
      var calls, content := turn.response.value.calls, turn.response.value.content;
      next.value == state.(
        messages := invocation.value.persistent + [Message(Assistant, Plain(content), calls, "")],
        activeSkills := [],
        pending := if calls != [] then calls else state.pending,
        answer := if calls != [] then state.answer else Strip(content),
        stop := if calls != [] then state.stop else Some(Answered))
  {
    hide WithSkill, Compacted, Strip, MayInvoke, NeedsCompaction, WithActiveSkills, Persistent, WellFormed,
      InvocationEvents;
    next, invocation := None, None;
    var prepared;
    prepared, events := InvokeModel(program, state, turn);
    if prepared.None? {
      return;
    }
    var calls := CallsOf(turn);
    invocation := Some(Invocation(prepared.value.reasoning, prepared.value.persistent, state.activeSkills, calls));
    if state.activeSkills != [] {
      events := events + [SkillContextReleased];
    }
    if turn.response.None? {
      return;
    }
    var content := turn.response.value.content;
    events := events + [OtherEvent(LlmCompleted), OtherEvent(DecisionMade)];
    var messages := prepared.value.persistent + [Message(Assistant, Plain(content), calls, "")];
    if calls != [] {
      next := Some(state.(messages := messages, pending := calls, activeSkills := []));
    } else {
      next := Some(state.(messages := messages, activeSkills := [], answer := Strip(content), stop := Some(Answered)));
    }
  }

  /** Which events surround a call of the model at `n`, and which there are if it is not called. */
  lemma ReasoningEventsTell(program: Program, state: AgentState, turn: Turn) returns (n: nat)
    ensures var events, skills := ReasoningEvents(program, state, turn), state.activeSkills;
      var first := PhaseChanged(Some(if skills != [] then UsingSkill else Phase.Reasoning));
      && (!MayInvoke(program, state, turn) ==> events == [first])
      && (MayInvoke(program, state, turn) ==>
            var compacts := NeedsCompaction(program, state, turn);
            && 1 < n < |events| && events[0] == first
            && events[n - 1] == PhaseChanged(Some(Phase.Reasoning)) && events[n] == LlmStarted
            && events[1..n - 1] == (if compacts then [OtherEvent(BudgetExceeded), OtherEvent(SnapshotCreated)] else [])
                                   + (if skills != [] then [SkillContextLoaded(skills)] else [])
            && events[n + 1..]
               == (if skills != [] then [SkillContextReleased] else [])
                  + (if turn.response.Some? then [OtherEvent(LlmCompleted), OtherEvent(DecisionMade)] else []))
  {
    hide MayInvoke, NeedsCompaction;
    var compacts, skills := NeedsCompaction(program, state, turn), state.activeSkills;
    var first := PhaseChanged(Some(if skills != [] then UsingSkill else Phase.Reasoning));
    var budget := if compacts then [OtherEvent(BudgetExceeded), OtherEvent(SnapshotCreated)] else [];
    var loaded := if skills != [] then [SkillContextLoaded(skills)] else [];
    var released := if skills != [] then [SkillContextReleased] else [];
    var decided := if turn.response.Some? then [OtherEvent(LlmCompleted), OtherEvent(DecisionMade)] else [];
    n := |budget + loaded| + 2;
    if MayInvoke(program, state, turn) {
      var call := [PhaseChanged(Some(Phase.Reasoning)), LlmStarted];
      assert ReasoningEvents(program, state, turn) == [first] + budget + loaded + call + released + decided;
      Grouped([first], budget, loaded, call, released, decided);
      AroundCall(first, budget + loaded, call, released + decided);
    }
  }

  lemma Grouped(a: seq<Event>, b: seq<Event>, c: seq<Event>, d: seq<Event>, e: seq<Event>, f: seq<Event>)
    ensures a + b + c + d + e + f == a + (b + c) + d + (e + f)
  {}

  lemma AroundCall(first: Event, inner: seq<Event>, call: seq<Event>, rest: seq<Event>)
    requires |call| == 2
    ensures var events, n := [first] + inner + call + rest, |inner| + 2;
      && n < |events| && events[0] == first && events[1..n - 1] == inner
      && events[n - 1] == call[0] && events[n] == call[1] && events[n + 1..] == rest
  {}

  // ---------------------------------------------------------------------------
  // The run
  // ---------------------------------------------------------------------------

  /**
   * The answer and its counts, or what raised: loading the context, the reasoning or the action node in this state,
   * the final stream, or storing the answer and its snapshot.
   */
  datatype Outcome =
    | Returned(answer: string, iterations: nat, toolCalls: nat, skillUses: nat, stop: Stop)
    | LoadRaised
    | ReasoningRaised(state: AgentState)
    | ActionRaised(state: AgentState)
    | StreamRaised
    | SaveRaised

  /** What happened: the nodes entered, the calls of the model in the loop, the events, and the deltas' texts. */
  datatype Trace = Trace(visits: seq<Visit>, invocations: seq<Invocation>, events: seq<Event>, spoken: seq<string>)

  /** How many nodes can still be entered. */
  function Remaining(node: Node, iteration: nat, maxIterations: nat): nat {
    var left := if iteration < maxIterations then 3 * (maxIterations - iteration) else 0;
    match node
    case Agent => left + 2
    case Reasoning => left + 4
    case Action => left + 3
    case Answer => 1
    case End => 0
  }

  function TotalCalls(invocations: seq<Invocation>): nat {
    if invocations == [] then 0
    else TotalCalls(invocations[..|invocations| - 1]) + ToolCallCount(invocations[|invocations| - 1].calls)
  }

  function TotalUses(program: Program, invocations: seq<Invocation>): nat {
    if invocations == [] then 0
    else
      TotalUses(program, invocations[..|invocations| - 1])
      + SkillUses(program.registry, invocations[|invocations| - 1].calls)
  }

  lemma NextTotal(program: Program, invocations: seq<Invocation>, invocation: Invocation)
    ensures TotalCalls(invocations + [invocation]) == TotalCalls(invocations) + ToolCallCount(invocation.calls)
    ensures TotalUses(program, invocations + [invocation])
         == TotalUses(program, invocations) + SkillUses(program.registry, invocation.calls)
  {
    assert (invocations + [invocation])[..|invocations|] == invocations;
  }

  function AllCallsOf(invocations: seq<Invocation>): seq<ToolCall> {
    if invocations == [] then []
    else AllCallsOf(invocations[..|invocations| - 1]) + invocations[|invocations| - 1].calls
  }

  /** The counts of a run are those of all its calls. */
  lemma {:induction false} TotalsAreOfAllCalls(program: Program, invocations: seq<Invocation>)
    ensures TotalCalls(invocations) == |ToolRuns(AllCallsOf(invocations))|
    ensures TotalUses(program, invocations) == |AllNames(program.registry, AllCallsOf(invocations))|
  {
    hide ToolCallCount, SkillUses, ToolRuns, AllNames;
    if invocations == [] {
      NothingCalled(program.registry);
    } else {
      var front, last := invocations[..|invocations| - 1], invocations[|invocations| - 1];
      TotalsAreOfAllCalls(program, front);
      GrantedAreAsked(program.registry, last.calls);
      CallsInPieces(program.registry, AllCallsOf(front), last.calls);
    }
  }

  lemma NothingCalled(registry: set<string>)
    ensures ToolRuns([]) == [] && AllNames(registry, []) == []
  {}

  lemma {:induction false} CallsInPieces(registry: set<string>, a: seq<ToolCall>, b: seq<ToolCall>)
    ensures ToolRuns(a + b) == ToolRuns(a) + ToolRuns(b)
    ensures AllNames(registry, a + b) == AllNames(registry, a) + AllNames(registry, b)
  {
    hide *;
    if b == [] {
      assert a + b == a;
      NothingCalled(registry);
    } else {
      var front, last := b[..|b| - 1], b[|b| - 1];
      CallsInPieces(registry, a, front);
      assert a + b == (a + front) + [last] && b == front + [last];
      OneMoreCall(registry, a + front, last);
      OneMoreCall(registry, front, last);
    }
  }

  lemma OneMoreCall(registry: set<string>, calls: seq<ToolCall>, call: ToolCall)
    ensures ToolRuns(calls + [call]) == ToolRuns(calls) + (if IsSkillRequest(call) then [] else [call])
    ensures AllNames(registry, calls + [call]) == AllNames(registry, calls) + RequestedSkills(registry, call).GetOr([])
  {
    hide RequestedSkills, IsSkillRequest;
    assert (calls + [call])[..|calls|] == calls;
  }

  /** The skills that the last response asked for. */
  function SkillsAfter(program: Program, invocations: seq<Invocation>): seq<string> {
    if invocations == [] then [] else Granted(program.registry, invocations[|invocations| - 1].calls)
  }

  /** Every step has exactly the skills that the step before it was granted. */
  ghost predicate SkillsFollow(program: Program, invocations: seq<Invocation>) {
    forall k | 0 <= k < |invocations| :: invocations[k].skills == SkillsAfter(program, invocations[..k])
  }

  predicate AllActed(invocations: seq<Invocation>) {
    forall invocation <- invocations :: invocation.calls != []
  }

  ghost predicate TraceOk(program: Program, visits: seq<Visit>, invocations: seq<Invocation>) {
    && (forall visit <- visits :: visit.node.Action? || WellFormed(visit.state.messages))
    && (forall invocation <- invocations :: InvocationOk(program, invocation))
    && SkillsFollow(program, invocations)
  }

  ghost predicate NodeOk(program: Program, node: Node, state: AgentState, invocations: seq<Invocation>) {
    && NoInstructions(state.messages)
    && state.iteration <= program.maxIterations
    && match node
       case Agent =>
         && WellFormed(state.messages) && state.pending == [] && state.answer == "" && state.stop.None?
         && |invocations| == state.iteration && AllActed(invocations)
         && state.activeSkills == SkillsAfter(program, invocations) && state.toolCalls == TotalCalls(invocations)
         && state.skillUses == TotalUses(program, invocations)
       case Reasoning =>
         && WellFormed(state.messages) && state.pending == [] && state.answer == "" && state.stop.None?
         && |invocations| + 1 == state.iteration && AllActed(invocations)
         && state.activeSkills == SkillsAfter(program, invocations) && state.toolCalls == TotalCalls(invocations)
         && state.skillUses == TotalUses(program, invocations)
       case Action =>
         && state.messages != [] && state.pending != [] && state.answer == "" && state.stop.None?
         && WellFormed(state.messages[..|state.messages| - 1])
         && var last := state.messages[|state.messages| - 1];
         && last.role.Assistant? && last.toolCalls == state.pending
         && |invocations| == state.iteration > 0 && AllActed(invocations)
         && invocations[|invocations| - 1].calls == state.pending
         && state.toolCalls == TotalCalls(invocations[..|invocations| - 1])
         && state.skillUses == TotalUses(program, invocations[..|invocations| - 1])
       case Answer =>
         && WellFormed(state.messages) && |invocations| == state.iteration
         && state.toolCalls == TotalCalls(invocations) && state.skillUses == TotalUses(program, invocations)
         && (match state.stop
             case None => false
             case Some(MaxIterations) =>
               state.answer == LimitMessage() && state.iteration == program.maxIterations && AllActed(invocations)
             case Some(Answered) => invocations != [] && invocations[|invocations| - 1].calls == [])
       case End => true
  }

  /** What the world answers during an iteration; behind the last turn, the model raises. */
  function TurnAt(turns: seq<Turn>, k: int): Turn {
    if 0 <= k < |turns| then turns[k] else Turn(None, None, None, [], [], true)
  }

  /** The calls of the model got the world's answers, turn by turn. */
  ghost predicate FollowsTurns(turns: seq<Turn>, invocations: seq<Invocation>) {
    forall k | 0 <= k < |invocations| :: invocations[k].calls == CallsOf(TurnAt(turns, k))
  }

  /** The reasoning node raises in this state. */
  predicate ReasoningRaises(program: Program, state: AgentState, turn: Turn) {
    !MayInvoke(program, state, turn) || turn.response.None?
  }

  /** The tool events are those of the turn's concurrent calls, in some interleaving. */
  ghost predicate ToolsRan(program: Program, turn: Turn) {
    var calls := CallsOf(turn);
    AreEventsOf(Batch(ToolRuns(calls), program.maxParallel), turn.toolEvents, !ActionRaises(calls, turn))
  }

  /** No response asks for two tool runs with the same call id. */
  predicate HasDistinctRuns(turn: Turn) {
    DistinctIds(ToolRuns(CallsOf(turn)))
  }

  ghost predicate AllRan(program: Program, turns: seq<Turn>) {
    forall turn <- turns :: ToolsRan(program, turn)
  }

  predicate AllDistinct(turns: seq<Turn>) {
    forall turn <- turns :: HasDistinctRuns(turn)
  }

  // ---------------------------------------------------------------------------
  // The path of a run
  // ---------------------------------------------------------------------------

  /** The turn of the iteration that a state is in. */
  function TurnOf(turns: seq<Turn>, state: AgentState): Turn {
    TurnAt(turns, state.iteration - 1)
  }

  /** The events of one node, up to where it raises if it does. */
  function NodeEvents(program: Program, node: Node, state: AgentState, turn: Turn): seq<Event> {
    match node
    case Agent =>
      if state.iteration >= program.maxIterations then [OtherEvent(IterationLimitReached)]
      else [PhaseChanged(Some(Phase.Reasoning)), IterationStarted(state.iteration + 1)]
    case Reasoning => ReasoningEvents(program, state, turn)
    case Action => SkillEvents(program.registry, state.pending) + turn.toolEvents
    case _ => []
  }

  /** The call of the model that one node makes, if any. */
  function NodeInvocations(program: Program, node: Node, state: AgentState, turn: Turn): seq<Invocation> {
    if node.Reasoning? && MayInvoke(program, state, turn) then
      var persistent := Persistent(program, state, turn);
      [Invocation(WithActiveSkills(state, turn, persistent), persistent, state.activeSkills, CallsOf(turn))]
    else []
  }

  function EventsAlong(program: Program, turns: seq<Turn>, visits: seq<Visit>): seq<Event> {
    if visits == [] then []
    else
      var last := visits[|visits| - 1];
      EventsAlong(program, turns, visits[..|visits| - 1])
      + NodeEvents(program, last.node, last.state, TurnOf(turns, last.state))
  }

  function InvocationsAlong(program: Program, turns: seq<Turn>, visits: seq<Visit>): seq<Invocation> {
    if visits == [] then []
    else
      var last := visits[|visits| - 1];
      InvocationsAlong(program, turns, visits[..|visits| - 1])
      + NodeInvocations(program, last.node, last.state, TurnOf(turns, last.state))
  }

  /** What the agent node leaves, and where it leads. */
  predicate AgentLeads(program: Program, state: AgentState, next: Visit) {
    if state.iteration >= program.maxIterations then
      next == Visit(Answer, state.(answer := if Draft(state) != "" then Draft(state) else LimitMessage(),
                                   stop := Some(MaxIterations)))
    else next == Visit(Node.Reasoning, state.(iteration := state.iteration + 1, pending := []))
  }

  /** What the reasoning node leaves, and where it leads. */
  predicate ReasoningLeads(program: Program, state: AgentState, turn: Turn, next: Visit) {
    && MayInvoke(program, state, turn) && turn.response.Some?
    && var Response(content, calls) := turn.response.value;
    && next.state == state.(
         messages := Persistent(program, state, turn) + [Message(Assistant, Plain(content), calls, "")],
         activeSkills := [],
         pending := if calls != [] then calls else state.pending,
         answer := if calls != [] then state.answer else Strip(content),
         stop := if calls != [] then state.stop else Some(Answered))
    && next.node == if next.state.pending != [] then Action else Answer
  }

  ghost predicate Leads(program: Program, turn: Turn, visit: Visit, next: Visit) {
    match visit.node
    case Agent => AgentLeads(program, visit.state, next)
    case Reasoning => ReasoningLeads(program, visit.state, turn, next)
    case Action => next.node.Agent? && IsActed(program, visit.state, turn, next.state)
    case _ => false
  }

  /** Every node finds the state that the one before it left, from the loaded messages on. */
  ghost predicate IsPath(program: Program, messages: seq<Message>, turns: seq<Turn>, visits: seq<Visit>) {
    && (visits != [] ==> visits[0] == Visit(Agent, InitialState(messages)))
    && forall i | 0 < i < |visits| ::
         Leads(program, TurnOf(turns, visits[i - 1].state), visits[i - 1], visits[i])
  }

  /** The calls of the model and the events are exactly those of the visited nodes, in their order. */
  ghost predicate IsToldBy(program: Program, turns: seq<Turn>, visits: seq<Visit>, invocations: seq<Invocation>,
                           events: seq<Event>)
  {
    invocations == InvocationsAlong(program, turns, visits) && events == EventsAlong(program, turns, visits)
  }

  lemma NextVisit(program: Program, turns: seq<Turn>, visits: seq<Visit>, visit: Visit)
    ensures EventsAlong(program, turns, visits + [visit])
         == EventsAlong(program, turns, visits)
            + NodeEvents(program, visit.node, visit.state, TurnOf(turns, visit.state))
    ensures InvocationsAlong(program, turns, visits + [visit])
         == InvocationsAlong(program, turns, visits)
            + NodeInvocations(program, visit.node, visit.state, TurnOf(turns, visit.state))
  {
    hide NodeEvents, NodeInvocations, TurnOf;
    assert (visits + [visit])[..|visits|] == visits;
  }

  lemma LongerPath(program: Program, messages: seq<Message>, turns: seq<Turn>, visits: seq<Visit>, next: Visit)
    requires IsPath(program, messages, turns, visits) && visits != []
    requires var last := visits[|visits| - 1]; Leads(program, TurnOf(turns, last.state), last, next)
    ensures IsPath(program, messages, turns, visits + [next])
  {
    hide Leads, TurnOf, InitialState;
  }

  lemma TurnAtRan(program: Program, turns: seq<Turn>, k: int)
    requires AllRan(program, turns)
    ensures ToolsRan(program, TurnAt(turns, k))
    ensures AllDistinct(turns) ==> HasDistinctRuns(TurnAt(turns, k))
  {
    if !(0 <= k < |turns|) {
      NothingRan(program.maxParallel);
    }
  }

  lemma NothingRan(maxParallel: nat)
    ensures AreEventsOf(Batch([], maxParallel), [], true)
  {
    var b := Batch([], maxParallel);
    assert ParallelTools.IsRun(b, [Calls([], [])], []);
  }

  lemma {:induction false} SkillEventsStartNothing(registry: set<string>, calls: seq<ToolCall>)
    ensures NoToolStarts(SkillEvents(registry, calls))
  {
    if calls != [] {
      SkillEventsStartNothing(registry, calls[..|calls| - 1]);
    }
  }

  lemma AfterAgent(program: Program, state: AgentState, next: AgentState, invocations: seq<Invocation>)
    requires NodeOk(program, Agent, state, invocations)
    requires state.iteration >= program.maxIterations ==>
      next == state.(answer := if Draft(state) != "" then Draft(state) else LimitMessage(), stop := Some(MaxIterations))
    requires state.iteration < program.maxIterations ==>
      next == state.(iteration := state.iteration + 1, pending := [])
    ensures NodeOk(program, if next.stop == Some(MaxIterations) then Answer else Node.Reasoning, next, invocations)
    ensures next.stop == Some(MaxIterations) <==> state.iteration >= program.maxIterations
  {
    assert state.answer == "" ==> Draft(state) == "";
    hide LimitMessage, WellFormed, SkillsAfter, TotalCalls, TotalUses, Draft, NoInstructions, AllActed;
  }

  lemma AfterReasoning(program: Program, state: AgentState, next: AgentState, invocations: seq<Invocation>,
                       invocation: Invocation, response: Response)
    requires NodeOk(program, Node.Reasoning, state, invocations) && InvocationOk(program, invocation)
    requires invocation.calls == response.calls
    requires next == state.(
      messages := invocation.persistent + [Message(Assistant, Plain(response.content), response.calls, "")],
      activeSkills := [],
      pending := if response.calls != [] then response.calls else state.pending,
      answer := if response.calls != [] then state.answer else Strip(response.content),
      stop := if response.calls != [] then state.stop else Some(Answered))
    ensures NodeOk(program, if next.pending != [] then Action else Answer, next, invocations + [invocation])
  {
    hide LimitMessage, WellFormed, SkillsAfter, TotalCalls, TotalUses, Strip, WithSkill, IsOverBudget, SkillMessage,
      ToolCallCount;
    var all := invocations + [invocation];
    NextTotal(program, invocations, invocation);
    assert all[..|all| - 1] == invocations;
    assert next.messages[..|next.messages| - 1] == invocation.persistent;
    if response.calls == [] {
      WellFormedAppend(invocation.persistent, next.messages[|next.messages| - 1]);
      NoCalls(program);
    }
  }

  lemma NoCalls(program: Program)
    ensures ToolCallCount([]) == 0 && SkillUses(program.registry, []) == 0
  {}

  lemma AfterAction(program: Program, state: AgentState, turn: Turn, next: AgentState, invocations: seq<Invocation>)
    requires NodeOk(program, Action, state, invocations) && IsActed(program, state, turn, next)
    ensures NodeOk(program, Agent, next, invocations) && next.iteration == state.iteration
  {
    hide Reply, SkillUses, DistinctIds, WellFormed, TotalCalls, TotalUses, Granted, ToolCallCount, LimitMessage;
    var n := |state.messages|;
    var base, request, answers := state.messages[..n - 1], state.messages[n - 1], next.messages[n..];
    WellFormedExchange(base, request, answers);
    assert next.messages == base + [request] + answers;
    var front, last := invocations[..|invocations| - 1], invocations[|invocations| - 1];
    assert invocations == front + [last];
    NextTotal(program, front, last);
  }

  lemma NextSkills(program: Program, visits: seq<Visit>, invocations: seq<Invocation>, invocation: Invocation)
    requires TraceOk(program, visits, invocations) && InvocationOk(program, invocation)
    requires invocation.skills == SkillsAfter(program, invocations)
    ensures TraceOk(program, visits, invocations + [invocation])
  {
    hide InvocationOk, SkillsAfter;
    var all := invocations + [invocation];
    assert all[..|invocations|] == invocations;
    assert forall k | 0 <= k < |invocations| :: all[..k] == invocations[..k];
  }

  /** `initial_messages`: the sessions the runner loads carry a snapshot, and no other history. */
  function InitialMessages(prompt: string, snapshot: Option<string>, question: string): seq<Message> {
    [Say(System, Plain(prompt))]
    + (if snapshot.Some? then [Say(Developer, Snapshot(snapshot.value))] else [])
    + [Say(User, Plain(question))]
  }

  lemma InitialMessagesAreWellFormed(prompt: string, snapshot: Option<string>, question: string)
    ensures WellFormed(InitialMessages(prompt, snapshot, question))
    ensures NoInstructions(InitialMessages(prompt, snapshot, question))
  {
    var system := Say(System, Plain(prompt));
    SingleIsWellFormed(system);
    if snapshot.Some? {
      WellFormedAppend([system], Say(Developer, Snapshot(snapshot.value)));
    } else {
      assert [system] + [] == [system];
    }
    WellFormedAppend(
      [system] + (if snapshot.Some? then [Say(Developer, Snapshot(snapshot.value))] else []),
      Say(User, Plain(question)));
  }

  function InitialState(messages: seq<Message>): AgentState {
    AgentState(messages, 0, [], [], 0, 0, "", None)
  }

  lemma InitialStateIsOk(program: Program, messages: seq<Message>)
    requires WellFormed(messages) && NoInstructions(messages)
    ensures NodeOk(program, Agent, InitialState(messages), [])
    ensures TraceOk(program, [], [])
  {}

  /** The agent node within the run. */
  method AgentStep(program: Program, state: AgentState, invocations: seq<Invocation>)
    returns (next: AgentState, node: Node, events: seq<Event>)
    requires NodeOk(program, Agent, state, invocations)
    ensures NodeOk(program, node, next, invocations) && (node == Answer || node == Node.Reasoning)
    ensures Remaining(node, next.iteration, program.maxIterations)
          < Remaining(Agent, state.iteration, program.maxIterations)
    ensures AllQuiet(events) && NoToolStarts(events)
    ensures AgentLeads(program, state, Visit(node, next))
    ensures forall turn :: events == NodeEvents(program, Agent, state, turn)
  {
    hide NodeOk, Draft, LimitMessage;
    next, events := AgentNode(program, state);
    AfterAgent(program, state, next, invocations);
    node := if next.stop == Some(MaxIterations) then Answer else Node.Reasoning;
  }

  /** The reasoning node within the run: where it leads, and what it adds to the trace; nothing if it raises. */
  method ReasoningStep(program: Program, state: AgentState, turn: Turn, visits: seq<Visit>,
                       invocations: seq<Invocation>)
    returns (next: Option<AgentState>, node: Node, all: seq<Invocation>, events: seq<Event>)
    requires NodeOk(program, Node.Reasoning, state, invocations) && TraceOk(program, visits, invocations)
    ensures TraceOk(program, visits, all) && AllQuiet(events) && NoToolStarts(events)
    ensures next.None? <==> ReasoningRaises(program, state, turn)
    ensures all == invocations + NodeInvocations(program, Node.Reasoning, state, turn)
    ensures events == NodeEvents(program, Node.Reasoning, state, turn)
    ensures next.Some? ==>
      && NodeOk(program, node, next.value, all) && ReasoningLeads(program, state, turn, Visit(node, next.value))
      && (node == Action || node == Answer) && next.value.iteration == state.iteration
  {
    NodeFacts(program, Node.Reasoning, state, invocations);
    hide NodeOk, TraceOk, InvocationOk, WellFormed, IsQuiet, MayInvoke, Persistent, WithActiveSkills, ReasoningEvents;
    var invocation;
    next, invocation, events := ReasoningNode(program, state, turn);
    all, node := invocations, Answer;
    if invocation.Some? {
      NextSkills(program, visits, invocations, invocation.value);
      all := invocations + [invocation.value];
      if next.Some? {
        AfterReasoning(program, state, next.value, invocations, invocation.value, turn.response.value);
        node := if next.value.pending != [] then Action else Answer;
      }
    }
  }

  /** The action node within the run; nothing if it raises. */
  method ActionStep(program: Program, state: AgentState, turn: Turn, invocations: seq<Invocation>)
    returns (next: Option<AgentState>, events: seq<Event>)
    requires NodeOk(program, Action, state, invocations)
    requires ToolsRan(program, turn) && state.pending == CallsOf(turn)
    ensures AllQuiet(events)
    ensures next.None? <==> ActionRaises(state.pending, turn)
    ensures next.Some? ==> NodeOk(program, Agent, next.value, invocations) && next.value.iteration == state.iteration
    ensures next.Some? ==> IsActed(program, state, turn, next.value)
    ensures next.Some? && HasDistinctRuns(turn) ==> ToolsAfter(events) == []
    ensures events == NodeEvents(program, Action, state, turn)
  {
    hide NodeOk, ActionRaises, CallsOf, IsActed, DistinctIds, ToolsAfter, NoToolStarts, AreEventsOf, AllQuiet;
    var over := !ActionRaises(state.pending, turn);
    ToolEventsSettle(Batch(ToolRuns(state.pending), program.maxParallel), turn.toolEvents, over);
    next, events := ActionNode(program, state, turn);
    if next.Some? {
      AfterAction(program, state, turn, next.value, invocations);
      if HasDistinctRuns(turn) {
        SkillEventsStartNothing(program.registry, state.pending);
        NothingStarted(SkillEvents(program.registry, state.pending));
        ToolsInPieces(SkillEvents(program.registry, state.pending), turn.toolEvents);
      }
    }
  }

  lemma TurnsAreFollowed(program: Program, turns: seq<Turn>, node: Node, state: AgentState,
                         invocations: seq<Invocation>, all: seq<Invocation>)
    requires FollowsTurns(turns, invocations)
    requires all == invocations + NodeInvocations(program, node, state, TurnAt(turns, |invocations|))
    ensures FollowsTurns(turns, all)
  {
    hide TurnAt, CallsOf, MayInvoke, Persistent, WithActiveSkills;
    forall k | 0 <= k < |all| ensures all[k].calls == CallsOf(TurnAt(turns, k)) {
      if k < |invocations| {
        assert all[k] == invocations[k];
      }
    }
  }

  lemma PendingIsOfTurn(program: Program, state: AgentState, turns: seq<Turn>, invocations: seq<Invocation>)
    requires NodeOk(program, Action, state, invocations) && FollowsTurns(turns, invocations)
    ensures state.pending == CallsOf(TurnAt(turns, state.iteration - 1))
  {
    hide TurnAt, CallsOf, WellFormed, TotalCalls, TotalUses;
  }

  /** This node raises in this state. */
  predicate NodeRaises(program: Program, node: Node, state: AgentState, turn: Turn) {
    match node
    case Reasoning => ReasoningRaises(program, state, turn)
    case Action => ActionRaises(state.pending, turn)
    case _ => false
  }

  /** One node of the loop; nothing if it raises. */
  method NodeStep(program: Program, node: Node, state: AgentState, turn: Turn, visits: seq<Visit>,
                  invocations: seq<Invocation>)
    returns (next: Option<AgentState>, after: Node, all: seq<Invocation>, events: seq<Event>)
    requires node != Answer && node != End
    requires NodeOk(program, node, state, invocations) && TraceOk(program, visits, invocations)
    requires ToolsRan(program, turn) && (node == Action ==> state.pending == CallsOf(turn))
    ensures TraceOk(program, visits, all) && AllQuiet(events)
    ensures all == invocations + NodeInvocations(program, node, state, turn)
    ensures events == NodeEvents(program, node, state, turn)
    ensures next.None? <==> NodeRaises(program, node, state, turn)
    ensures next.Some? ==>
      && after != End && NodeOk(program, after, next.value, all)
      && Leads(program, turn, Visit(node, state), Visit(after, next.value))
      && Remaining(after, next.value.iteration, program.maxIterations)
       < Remaining(node, state.iteration, program.maxIterations)
    ensures next.Some? && HasDistinctRuns(turn) ==> ToolsAfter(events) == []
  {
    hide NodeOk, TraceOk, AllQuiet, ToolsRan, HasDistinctRuns, ReasoningRaises, ActionRaises, CallsOf, NoToolStarts,
      ToolsAfter, NodeEvents, AgentLeads, ReasoningLeads, IsActed, MayInvoke, Persistent, WithActiveSkills;
    all := invocations;
    OnlyReasoningInvokes(program, node, state, turn, invocations);
    hide NodeInvocations;
    match node {
      case Agent =>
        var state';
        state', after, events := AgentStep(program, state, invocations);
        next := Some(state');
        NothingStarted(events);
      case Reasoning =>
        next, after, all, events := ReasoningStep(program, state, turn, visits, invocations);
        NothingStarted(events);
      case Action =>
        after := Agent;
        next, events := ActionStep(program, state, turn, invocations);
    }
  }

  ghost predicate Follows(turns: seq<Turn>, invocations: seq<Invocation>, events: seq<Event>) {
    && FollowsTurns(turns, invocations)
    && AllQuiet(events)
    && (AllDistinct(turns) ==> ToolsAfter(events) == [])
  }

  lemma StartFollows(turns: seq<Turn>)
    ensures Follows(turns, [], [])
  {}

  /** The next node may be entered with this turn. */
  lemma MayStep(program: Program, turns: seq<Turn>, node: Node, state: AgentState, visits: seq<Visit>,
                invocations: seq<Invocation>, events: seq<Event>)
    requires node != Answer && node != End && NodeOk(program, node, state, invocations)
    requires TraceOk(program, visits, invocations) && Follows(turns, invocations, events)
    requires AllRan(program, turns)
    ensures TraceOk(program, visits + [Visit(node, state)], invocations)
    ensures var turn := TurnAt(turns, state.iteration - 1);
      ToolsRan(program, turn) && (node == Action ==> state.pending == CallsOf(turn))
  {
    NodeFacts(program, node, state, invocations);
    hide NodeOk, TraceOk, WellFormed, ToolsRan, TurnAt;
    VisitIsOk(program, visits, invocations, Visit(node, state));
    TurnAtRan(program, turns, state.iteration - 1);
    if node == Action {
      PendingIsOfTurn(program, state, turns, invocations);
    }
  }

  /** What one more node adds still follows the turns. */
  lemma StepFollows(program: Program, turns: seq<Turn>, node: Node, state: AgentState, invocations: seq<Invocation>,
                    events: seq<Event>, all: seq<Invocation>, more: seq<Event>, raised: bool)
    requires node != Answer && node != End && NodeOk(program, node, state, invocations)
    requires AllRan(program, turns)
    requires Follows(turns, invocations, events) && AllQuiet(more)
    requires var turn := TurnAt(turns, state.iteration - 1);
      && all == invocations + NodeInvocations(program, node, state, turn)
      && (!raised && HasDistinctRuns(turn) ==> ToolsAfter(more) == [])
    ensures FollowsTurns(turns, all) && AllQuiet(events + more)
    ensures !raised ==> Follows(turns, all, events + more)
    ensures node == Node.Reasoning ==> state.iteration - 1 == |invocations| < program.maxIterations
    ensures node == Action ==> state.iteration == |invocations| <= program.maxIterations
  {
    NodeFacts(program, node, state, invocations);
    TurnAtRan(program, turns, state.iteration - 1);
    ActionIteration(program, node, state, invocations);
    OnlyReasoningInvokes(program, node, state, TurnAt(turns, state.iteration - 1), invocations);
    hide NodeOk, TurnAt, ToolsRan, AllQuiet, HasDistinctRuns, ToolsAfter, NodeInvocations, FollowsTurns;
    if all != invocations {
      TurnsAreFollowed(program, turns, node, state, invocations, all);
    }
    QuietInPieces(events, more);
    if !raised && AllDistinct(turns) {
      ToolsInPieces(events, more);
    }
  }

  lemma OnlyReasoningInvokes(program: Program, node: Node, state: AgentState, turn: Turn, invocations: seq<Invocation>)
    ensures !node.Reasoning? ==> invocations + NodeInvocations(program, node, state, turn) == invocations
    ensures |NodeInvocations(program, node, state, turn)| <= 1
  {
    hide MayInvoke, Persistent, WithActiveSkills;
  }

  lemma ActionIteration(program: Program, node: Node, state: AgentState, invocations: seq<Invocation>)
    requires NodeOk(program, node, state, invocations)
    ensures node == Action ==> state.iteration == |invocations|
  {}

  /** What holds in front of every node. */
  ghost predicate RunOk(program: Program, messages: seq<Message>, turns: seq<Turn>, node: Node, state: AgentState,
                        visits: seq<Visit>, invocations: seq<Invocation>, events: seq<Event>)
  {
    && node != End && NodeOk(program, node, state, invocations)
    && IsPath(program, messages, turns, visits + [Visit(node, state)])
    && IsToldBy(program, turns, visits, invocations, events)
    && TraceOk(program, visits, invocations) && Follows(turns, invocations, events)
    && |visits| + Remaining(node, state.iteration, program.maxIterations) <= 3 * program.maxIterations + 2
  }

  /** What holds where this node raised. */
  ghost predicate RaisedOk(program: Program, messages: seq<Message>, turns: seq<Turn>, node: Node, state: AgentState,
                           visits: seq<Visit>, invocations: seq<Invocation>, events: seq<Event>)
  {
    && IsPath(program, messages, turns, visits) && IsToldBy(program, turns, visits, invocations, events)
    && TraceOk(program, visits, invocations) && FollowsTurns(turns, invocations) && AllQuiet(events)
    && |invocations| <= program.maxIterations && |visits| < 3 * program.maxIterations + 2
    && node != Answer && NodeRaises(program, node, state, TurnAt(turns, state.iteration - 1))
    && visits != [] && visits[|visits| - 1] == Visit(node, state)
    && (|invocations| == state.iteration - 1 || |invocations| == state.iteration)
  }

  /** One node more, and what it adds to the trace; nothing if it raises. */
  method EnterNode(program: Program, ghost messages: seq<Message>, turns: seq<Turn>, node: Node, state: AgentState,
                   visits: seq<Visit>, invocations: seq<Invocation>, events: seq<Event>)
    returns (next: Option<AgentState>, after: Node, entered: seq<Visit>, all: seq<Invocation>, more: seq<Event>)
    requires RunOk(program, messages, turns, node, state, visits, invocations, events) && node != Answer
    requires AllRan(program, turns)
    ensures next.Some? ==>
      && RunOk(program, messages, turns, after, next.value, entered, all, more)
      && Remaining(after, next.value.iteration, program.maxIterations)
       < Remaining(node, state.iteration, program.maxIterations)
    ensures next.None? ==> RaisedOk(program, messages, turns, node, state, entered, all, more)
  {
    MayStep(program, turns, node, state, visits, invocations, events);
    hide *;
    entered := visits + [Visit(node, state)];
    var turn := TurnAt(turns, state.iteration - 1);
    var added;
    next, after, all, added := NodeStep(program, node, state, turn, entered, invocations);
    more := events + added;
    if next.None? {
      NodeRaised(program, messages, turns, node, state, visits, invocations, events, all, added);
    } else {
      NodeLeft(program, messages, turns, node, state, visits, invocations, events, after, next.value, all, added);
    }
  }

  lemma NodeRaised(program: Program, messages: seq<Message>, turns: seq<Turn>, node: Node, state: AgentState,
                   visits: seq<Visit>, invocations: seq<Invocation>, events: seq<Event>, all: seq<Invocation>,
                   added: seq<Event>)
    requires RunOk(program, messages, turns, node, state, visits, invocations, events) && node != Answer
    requires AllRan(program, turns) && TraceOk(program, visits + [Visit(node, state)], all) && AllQuiet(added)
    requires var turn := TurnAt(turns, state.iteration - 1);
      && NodeRaises(program, node, state, turn)
      && all == invocations + NodeInvocations(program, node, state, turn)
      && added == NodeEvents(program, node, state, turn)
    ensures RaisedOk(program, messages, turns, node, state, visits + [Visit(node, state)], all, events + added)
  {
    var turn := TurnAt(turns, state.iteration - 1);
    RemainingIsLeft(node, state.iteration, program.maxIterations);
    NodeMayRaise(program, node, state, turn);
    OnlyReasoningInvokes(program, node, state, turn, invocations);
    hide NodeOk, TraceOk, AllQuiet, AllRan, NodeRaises, FollowsTurns, TurnAt, ToolsAfter, NodeInvocations, NodeEvents,
      Remaining, IsPath, IsToldBy, AllDistinct, HasDistinctRuns, Follows;
    StepFollows(program, turns, node, state, invocations, events, all, added, true);
    OneNodeMore(program, turns, visits, Visit(node, state), invocations, events, all, events + added);
  }

  lemma NodeLeft(program: Program, messages: seq<Message>, turns: seq<Turn>, node: Node, state: AgentState,
                 visits: seq<Visit>, invocations: seq<Invocation>, events: seq<Event>, after: Node, next: AgentState,
                 all: seq<Invocation>, added: seq<Event>)
    requires RunOk(program, messages, turns, node, state, visits, invocations, events) && node != Answer
    requires AllRan(program, turns) && TraceOk(program, visits + [Visit(node, state)], all) && AllQuiet(added)
    requires var turn := TurnAt(turns, state.iteration - 1);
      && all == invocations + NodeInvocations(program, node, state, turn)
      && added == NodeEvents(program, node, state, turn)
      && Leads(program, turn, Visit(node, state), Visit(after, next))
      && (HasDistinctRuns(turn) ==> ToolsAfter(added) == [])
    requires after != End && NodeOk(program, after, next, all)
    requires Remaining(after, next.iteration, program.maxIterations)
           < Remaining(node, state.iteration, program.maxIterations)
    ensures RunOk(program, messages, turns, after, next, visits + [Visit(node, state)], all, events + added)
  {
    hide NodeOk, TraceOk, AllQuiet, AllRan, FollowsTurns, TurnAt, ToolsAfter, NodeInvocations, NodeEvents, Remaining,
      IsPath, IsToldBy, AllDistinct, HasDistinctRuns, Follows, Leads;
    StepFollows(program, turns, node, state, invocations, events, all, added, false);
    OneNodeMore(program, turns, visits, Visit(node, state), invocations, events, all, events + added);
    LongerPath(program, messages, turns, visits + [Visit(node, state)], Visit(after, next));
  }

  /** What a node adds to the trace is told by its visit. */
  lemma OneNodeMore(program: Program, turns: seq<Turn>, visits: seq<Visit>, visit: Visit, invocations: seq<Invocation>,
                    events: seq<Event>, all: seq<Invocation>, more: seq<Event>)
    requires IsToldBy(program, turns, visits, invocations, events)
    requires var turn := TurnOf(turns, visit.state);
      && all == invocations + NodeInvocations(program, visit.node, visit.state, turn)
      && more == events + NodeEvents(program, visit.node, visit.state, turn)
    ensures IsToldBy(program, turns, visits + [visit], all, more)
  {
    hide NodeEvents, NodeInvocations, TurnOf;
    NextVisit(program, turns, visits, visit);
  }

  lemma RunStarts(program: Program, messages: seq<Message>, turns: seq<Turn>)
    requires WellFormed(messages) && NoInstructions(messages)
    ensures RunOk(program, messages, turns, Agent, InitialState(messages), [], [], [])
  {
    hide WellFormed, NoInstructions;
    InitialStateIsOk(program, messages);
    StartFollows(turns);
    RemainingAtStart(program.maxIterations);
    assert [] + [Visit(Agent, InitialState(messages))] == [Visit(Agent, InitialState(messages))];
  }

  /** The loop over the nodes up to the answer node, or up to the node that raises. */
  method RunNodes(program: Program, messages: seq<Message>, turns: seq<Turn>)
    returns (state: AgentState, node: Node, visits: seq<Visit>, invocations: seq<Invocation>, events: seq<Event>)
    requires WellFormed(messages) && NoInstructions(messages)
    requires AllRan(program, turns)
    ensures node == Answer ==>
      && NodeOk(program, Answer, state, invocations) && TraceOk(program, visits, invocations)
      && Follows(turns, invocations, events) && |visits| < 3 * program.maxIterations + 2
      && IsPath(program, messages, turns, visits + [Visit(Answer, state)])
      && IsToldBy(program, turns, visits + [Visit(Answer, state)], invocations, events)
    ensures node != Answer ==> RaisedOk(program, messages, turns, node, state, visits, invocations, events)
  {
    node, state := Agent, InitialState(messages);
    visits, invocations, events := [], [], [];
    RunStarts(program, messages, turns);
    hide *;
    while node != Answer
      invariant RunOk(program, messages, turns, node, state, visits, invocations, events)
      decreases Remaining(node, state.iteration, program.maxIterations)
    {
      var next, after;
      next, after, visits, invocations, events :=
        EnterNode(program, messages, turns, node, state, visits, invocations, events);
      if next.None? {
        NotAnswered(program, messages, turns, node, state, visits, invocations, events);
        return;
      }
      node, state := after, next.value;
    }
    AnswerIsReached(program, messages, turns, state, visits, invocations, events);
  }

  lemma NotAnswered(program: Program, messages: seq<Message>, turns: seq<Turn>, node: Node, state: AgentState,
                    visits: seq<Visit>, invocations: seq<Invocation>, events: seq<Event>)
    requires RaisedOk(program, messages, turns, node, state, visits, invocations, events)
    ensures node != Answer
  {}

  lemma AnswerIsReached(program: Program, messages: seq<Message>, turns: seq<Turn>, state: AgentState,
                        visits: seq<Visit>, invocations: seq<Invocation>, events: seq<Event>)
    requires RunOk(program, messages, turns, Answer, state, visits, invocations, events)
    ensures NodeOk(program, Answer, state, invocations) && TraceOk(program, visits, invocations)
    ensures Follows(turns, invocations, events) && |visits| < 3 * program.maxIterations + 2
    ensures IsPath(program, messages, turns, visits + [Visit(Answer, state)])
    ensures IsToldBy(program, turns, visits + [Visit(Answer, state)], invocations, events)
  {
    hide NodeOk, TraceOk, Follows, IsPath;
    NextVisit(program, turns, visits, Visit(Answer, state));
  }

  lemma FollowsMeans(turns: seq<Turn>, invocations: seq<Invocation>, events: seq<Event>)
    requires Follows(turns, invocations, events)
    ensures FollowsTurns(turns, invocations) && AllQuiet(events)
    ensures AllDistinct(turns) ==> ToolsAfter(events) == []
  {}

  lemma RemainingAtStart(maxIterations: nat)
    ensures Remaining(Agent, 0, maxIterations) == 3 * maxIterations + 2
  {}

  lemma RemainingIsLeft(node: Node, iteration: nat, maxIterations: nat)
    requires node != End
    ensures Remaining(node, iteration, maxIterations) >= if node == Answer then 1 else 2
  {}

  lemma QuietInPieces(a: seq<Event>, b: seq<Event>)
    requires AllQuiet(a) && AllQuiet(b)
    ensures AllQuiet(a + b)
  {
    hide IsQuiet;
  }

  lemma NothingFollowed(turns: seq<Turn>)
    ensures FollowsTurns(turns, []) && AllQuiet([]) && ToolsAfter([]) == []
  {}

  lemma NodeFacts(program: Program, node: Node, state: AgentState, invocations: seq<Invocation>)
    requires NodeOk(program, node, state, invocations) && node != End
    ensures |invocations| <= program.maxIterations && state.iteration <= program.maxIterations
    ensures node.Reasoning? ==> |invocations| < program.maxIterations && state.iteration == |invocations| + 1
    ensures node.Reasoning? ==> WellFormed(state.messages) && NoInstructions(state.messages)
    ensures node.Reasoning? ==> state.activeSkills == SkillsAfter(program, invocations)
    ensures node.Action? ==> state.iteration > 0
    ensures node.Action? || WellFormed(state.messages)
  {
    hide WellFormed, TotalCalls, TotalUses, SkillsAfter, LimitMessage;
  }

  lemma VisitIsOk(program: Program, visits: seq<Visit>, invocations: seq<Invocation>, visit: Visit)
    requires TraceOk(program, visits, invocations) && (visit.node.Action? || WellFormed(visit.state.messages))
    ensures TraceOk(program, visits + [visit], invocations)
  {
    hide InvocationOk, WellFormed;
  }

  lemma AnswerFacts(program: Program, state: AgentState, invocations: seq<Invocation>)
    requires NodeOk(program, Answer, state, invocations)
    ensures WellFormed(state.messages) && state.stop.Some?
    ensures |invocations| == state.iteration <= program.maxIterations && state.toolCalls == TotalCalls(invocations)
    ensures state.skillUses == TotalUses(program, invocations)
    ensures state.stop == Some(MaxIterations) ==>
      Draft(state) == LimitMessage() != "" && state.iteration == program.maxIterations && AllActed(invocations)
    ensures state.stop == Some(Answered) ==> invocations != [] && invocations[|invocations| - 1].calls == []
  {
    hide WellFormed, TotalCalls, TotalUses, LimitMessage;
    MessagesAreStripped();
  }

  function RecursionLimit(maxIterations: nat): nat {
    if 4 * maxIterations + 8 > 32 then 4 * maxIterations + 8 else 32
  }

  lemma RecursionIsBounded(maxIterations: nat)
    ensures RecursionLimit(maxIterations) in {32, 4 * maxIterations + 8}
    ensures RecursionLimit(maxIterations) >= 32 && RecursionLimit(maxIterations) >= 4 * maxIterations + 8
  {}

  function Finalization(): seq<Event> {
    [PhaseChanged(Some(Phase.Finalizing)), OtherEvent(SnapshotCreated)]
  }

  /** The answer node was entered. */
  predicate ReachedAnswer(outcome: Outcome) {
    outcome.StreamRaised? || outcome.SaveRaised? || outcome.Returned?
  }

  /** The events of a run: `before` in front of the answer node, then as much of the answer as there was. */
  function EventsOf(outcome: Outcome, before: seq<Event>, spoken: seq<string>): seq<Event> {
    match outcome
    case Returned(_, _, _, _, _) => before + (Opening() + DeltaEvents(spoken) + Closing()) + Finalization()
    case SaveRaised => before + (Opening() + DeltaEvents(spoken) + Closing()) + Finalization()[..1]
    case StreamRaised => before + (Opening() + DeltaEvents(spoken))
    case _ => before
  }

  /** What loading the context brings: the system prompt and the last snapshot. */
  datatype Loaded = Loaded(prompt: string, snapshot: Option<string>)

  /** From the loaded context on: the path, and what it tells of the calls of the model and the events. */
  ghost predicate IsTraced(program: Program, loaded: Loaded, turns: seq<Turn>, trace: Trace, before: seq<Event>) {
    var messages := InitialMessages(loaded.prompt, loaded.snapshot, program.question);
    && IsPath(program, messages, turns, trace.visits)
    && trace.invocations == InvocationsAlong(program, turns, trace.visits)
    && before
       == [PhaseChanged(Some(Phase.LoadingContext)), ContextLoaded] + EventsAlong(program, turns, trace.visits)
  }

  /** The answer that a stream leads to, in the state that the answer node found. */
  function Streamed(state: AgentState, stream: Stream): string {
    if !IsBlank(Concat(stream.chunks)) then Strip(Concat(stream.chunks)) else Fallback(state)
  }

  /** What the answer node and the stores behind it leave: the text, the counts, and where the limit was reached. */
  ghost predicate IsAnswered(program: Program, stream: Stream, saved: bool, outcome: Outcome, trace: Trace) {
    && (outcome.StreamRaised? ==>
          && stream.raises && Concat(trace.spoken) == Concat(stream.chunks)
          && trace.invocations != [] && trace.invocations[|trace.invocations| - 1].calls == [])
    && (outcome.SaveRaised? ==> !saved && Strip(Concat(trace.spoken)) != "")
    && (outcome.Returned? ==>
          && saved
          && Strip(Concat(trace.spoken)) == outcome.answer
          && outcome.iterations == |trace.invocations|
          && outcome.toolCalls == TotalCalls(trace.invocations)
          && outcome.skillUses == TotalUses(program, trace.invocations))
    && (outcome.Returned? && outcome.stop.MaxIterations? ==>
          && outcome.answer == LimitMessage() && trace.spoken == [outcome.answer]
          && |trace.invocations| == program.maxIterations && AllActed(trace.invocations))
    && (outcome.Returned? && outcome.stop.Answered? ==>
          && !stream.raises
          && trace.invocations != [] && trace.invocations[|trace.invocations| - 1].calls == []
          && trace.visits != [] && outcome.answer == Streamed(trace.visits[|trace.visits| - 1].state, stream))
  }

  /**
   * What holds of a run, whatever its outcome: its bounds, the shape of its messages, its skills and tools, its events,
   * where and why it raised, and what it returned.
   */
  ghost predicate IsRunOf(program: Program, loaded: Option<Loaded>, turns: seq<Turn>, stream: Stream, saved: bool,
                          outcome: Outcome, trace: Trace, before: seq<Event>)
  {
    && (outcome.LoadRaised? <==> loaded.None?)
    && (loaded.Some? ==> IsTraced(program, loaded.value, turns, trace, before))
    && TraceOk(program, trace.visits, trace.invocations) && FollowsTurns(turns, trace.invocations)
    && |trace.invocations| <= program.maxIterations
    && |trace.visits| <= 3 * program.maxIterations + 2 < RecursionLimit(program.maxIterations)
    && trace.events == EventsOf(outcome, before, trace.spoken) && AllQuiet(before) && "" !in trace.spoken
    && (outcome.LoadRaised? ==>
          trace.visits == [] && trace.invocations == [] && before == [PhaseChanged(Some(Phase.LoadingContext))])
    && (outcome.ReasoningRaised? || outcome.ActionRaised? ==>
          var node := if outcome.ActionRaised? then Action else Node.Reasoning;
          && NodeRaises(program, node, outcome.state, TurnAt(turns, outcome.state.iteration - 1))
          && trace.visits != [] && trace.visits[|trace.visits| - 1] == Visit(node, outcome.state)
          && (|trace.invocations| == outcome.state.iteration - 1 || |trace.invocations| == outcome.state.iteration))
    && (ReachedAnswer(outcome) <==> trace.visits != [] && trace.visits[|trace.visits| - 1].node == Answer)
    && (!ReachedAnswer(outcome) ==> trace.spoken == [])
    && (ReachedAnswer(outcome) && AllDistinct(turns) ==> ToolsAfter(before) == [])
    && IsAnswered(program, stream, saved, outcome, trace)
  }

  /**
   * `execute`. The stores make it raise before the loop, where `loaded` is nothing, and behind the answer, unless
   * `saved`; in between a node or the final stream may. Otherwise it returns the answer with its counts. Whatever
   * the outcome, `before` are the events in front of the answer node's.
   */
  method Execute(program: Program, loaded: Option<Loaded>, turns: seq<Turn>, stream: Stream, saved: bool)
    returns (outcome: Outcome, trace: Trace, before: seq<Event>)
    requires AllRan(program, turns)
    ensures IsRunOf(program, loaded, turns, stream, saved, outcome, trace, before)
  {
    if loaded.None? {
      before := [PhaseChanged(Some(Phase.LoadingContext))];
      NothingFollowed(turns);
      NothingTraced(program);
      OpeningIsQuiet();
      return LoadRaised, Trace([], [], before, []), before;
    }
    hide *;
    outcome, trace, before := ExecuteLoaded(program, loaded.value, turns, stream, saved);
  }

  /** The run behind the loaded context. */
  method ExecuteLoaded(program: Program, loaded: Loaded, turns: seq<Turn>, stream: Stream, saved: bool)
    returns (outcome: Outcome, trace: Trace, before: seq<Event>)
    requires AllRan(program, turns)
    ensures IsRunOf(program, Some(loaded), turns, stream, saved, outcome, trace, before)
  {
    hide *;
    var messages := InitialMessages(loaded.prompt, loaded.snapshot, program.question);
    InitialMessagesAreWellFormed(loaded.prompt, loaded.snapshot, program.question);
    var opening := [PhaseChanged(Some(Phase.LoadingContext)), ContextLoaded];
    var state, node, visits, invocations, events := RunNodes(program, messages, turns);
    before := opening + events;
    if node != Answer {
      outcome := if node == Action then ActionRaised(state) else ReasoningRaised(state);
      trace := Trace(visits, invocations, before, []);
      RaisedIsRun(program, loaded, turns, stream, saved, node, state, visits, invocations, events);
    } else {
      AnswerFacts(program, state, invocations);
      var entered := visits + [Visit(Answer, state)];
      DraftAtLimit(state);
      outcome, trace := Conclude(state, entered, invocations, before, stream, saved);
      AnsweredIsRun(program, loaded, turns, stream, saved, state, visits, invocations, events, outcome, trace);
    }
  }

  lemma DraftAtLimit(state: AgentState)
    requires state.stop == Some(MaxIterations) ==> Draft(state) == LimitMessage() != ""
    ensures state.stop == Some(MaxIterations) ==> Draft(state) != ""
  {}

  lemma ToldIsTraced(program: Program, loaded: Loaded, turns: seq<Turn>, trace: Trace, events: seq<Event>)
    requires IsPath(program, InitialMessages(loaded.prompt, loaded.snapshot, program.question), turns, trace.visits)
    requires IsToldBy(program, turns, trace.visits, trace.invocations, events)
    ensures IsTraced(program, loaded, turns, trace, [PhaseChanged(Some(Phase.LoadingContext)), ContextLoaded] + events)
  {
    hide IsPath, InvocationsAlong, EventsAlong, InitialMessages;
  }

  lemma RaisedIsRun(program: Program, loaded: Loaded, turns: seq<Turn>, stream: Stream, saved: bool, node: Node,
                    state: AgentState, visits: seq<Visit>, invocations: seq<Invocation>, events: seq<Event>)
    requires var messages := InitialMessages(loaded.prompt, loaded.snapshot, program.question);
      RaisedOk(program, messages, turns, node, state, visits, invocations, events)
    ensures var before := [PhaseChanged(Some(Phase.LoadingContext)), ContextLoaded] + events;
      var outcome := if node == Action then ActionRaised(state) else ReasoningRaised(state);
      IsRunOf(program, Some(loaded), turns, stream, saved, outcome, Trace(visits, invocations, before, []), before)
  {
    var opening := [PhaseChanged(Some(Phase.LoadingContext)), ContextLoaded];
    ToldIsTraced(program, loaded, turns, Trace(visits, invocations, opening + events, []), events);
    var outcome := if node == Action then ActionRaised(state) else ReasoningRaised(state);
    RaisedBefore(program, stream, saved, outcome, Trace(visits, invocations, opening + events, []), opening + events);
    hide NodeOk, TraceOk, FollowsTurns, NodeRaises, AllQuiet, TurnAt, IsTraced, IsPath, IsToldBy, InitialMessages,
      EventsOf, IsAnswered, AllDistinct, ToolsAfter;
    OpeningIsQuiet();
    QuietInPieces([PhaseChanged(Some(Phase.LoadingContext)), ContextLoaded], events);
    NodeMayRaise(program, node, state, TurnAt(turns, state.iteration - 1));
  }

  lemma RaisedBefore(program: Program, stream: Stream, saved: bool, outcome: Outcome, trace: Trace, before: seq<Event>)
    requires outcome.ReasoningRaised? || outcome.ActionRaised?
    ensures EventsOf(outcome, before, trace.spoken) == before && IsAnswered(program, stream, saved, outcome, trace)
  {}

  /** What `Conclude` says of the trace it completes. */
  ghost predicate IsConcluded(state: AgentState, before: seq<Event>, stream: Stream, saved: bool, outcome: Outcome,
                              trace: Trace)
  {
    && ReachedAnswer(outcome)
    && trace.events == EventsOf(outcome, before, trace.spoken) && "" !in trace.spoken
    && (outcome.StreamRaised? <==> stream.raises && state.stop == Some(Answered))
    && (outcome.StreamRaised? ==> Concat(trace.spoken) == Concat(stream.chunks))
    && (outcome.SaveRaised? ==> !saved && Strip(Concat(trace.spoken)) != "")
    && (outcome.Returned? ==>
          && saved && Strip(Concat(trace.spoken)) == outcome.answer && state.stop.Some?
          && outcome == Returned(outcome.answer, state.iteration, state.toolCalls, state.skillUses, state.stop.value)
          && (if state.stop.value.MaxIterations? then trace.spoken == [outcome.answer] && outcome.answer == Draft(state)
              else outcome.answer == Streamed(state, stream)))
  }

  lemma AnsweredIsRun(program: Program, loaded: Loaded, turns: seq<Turn>, stream: Stream, saved: bool,
                      state: AgentState, visits: seq<Visit>, invocations: seq<Invocation>, events: seq<Event>,
                      outcome: Outcome, trace: Trace)
    requires var messages := InitialMessages(loaded.prompt, loaded.snapshot, program.question);
      IsPath(program, messages, turns, trace.visits) && IsToldBy(program, turns, trace.visits, invocations, events)
    requires NodeOk(program, Answer, state, invocations) && TraceOk(program, visits, invocations)
    requires Follows(turns, invocations, events) && |visits| < 3 * program.maxIterations + 2
    requires trace.visits == visits + [Visit(Answer, state)] && trace.invocations == invocations
    requires var before := [PhaseChanged(Some(Phase.LoadingContext)), ContextLoaded] + events;
      IsConcluded(state, before, stream, saved, outcome, trace)
    ensures var before := [PhaseChanged(Some(Phase.LoadingContext)), ContextLoaded] + events;
      IsRunOf(program, Some(loaded), turns, stream, saved, outcome, trace, before)
  {
    var opening := [PhaseChanged(Some(Phase.LoadingContext)), ContextLoaded];
    OpeningIsQuiet();
    FollowsMeans(turns, invocations, events);
    AnswerFacts(program, state, invocations);
    ToldIsTraced(program, loaded, turns, trace, events);
    ConcludedIsAnswered(program, state, opening + events, stream, saved, outcome, trace);
    hide NodeOk, TraceOk, FollowsTurns, Follows, NodeRaises, AllQuiet, TurnAt, WellFormed, ToolsAfter, AllDistinct,
      EventsOf, IsTraced, IsPath, IsToldBy, InitialMessages, IsAnswered, Strip, Concat, Streamed, Draft;
    QuietInPieces(opening, events);
    if AllDistinct(turns) {
      ToolsInPieces(opening, events);
    }
    VisitIsOk(program, visits, invocations, Visit(Answer, state));
  }

  lemma ConcludedIsAnswered(program: Program, state: AgentState, before: seq<Event>, stream: Stream, saved: bool,
                            outcome: Outcome, trace: Trace)
    requires NodeOk(program, Answer, state, trace.invocations)
    requires trace.visits != [] && trace.visits[|trace.visits| - 1].state == state
    requires IsConcluded(state, before, stream, saved, outcome, trace)
    ensures IsAnswered(program, stream, saved, outcome, trace)
  {
    AnswerFacts(program, state, trace.invocations);
    hide NodeOk, WellFormed, Draft, Strip, Concat, Streamed, LimitMessage, TotalCalls, TotalUses, AllActed, EventsOf;
  }

  /** The answer node and what is stored behind it. */
  method Conclude(state: AgentState, visits: seq<Visit>, invocations: seq<Invocation>, before: seq<Event>,
                  stream: Stream, saved: bool) returns (outcome: Outcome, trace: Trace)
    requires WellFormed(state.messages) && state.stop.Some?
    requires state.stop == Some(MaxIterations) ==> Draft(state) != ""
    ensures trace.visits == visits && trace.invocations == invocations
    ensures IsConcluded(state, before, stream, saved, outcome, trace)
  {
    hide WellFormed, Strip, Concat, DeltaEvents, Draft, Opening, Closing, Fallback, IsBlank;
    assert state.stop != Some(MaxIterations) ==> state.stop.value.Answered?;
    var next, spoken, events, raised := AnswerNode(state, stream);
    if raised {
      return StreamRaised, Trace(visits, invocations, before + events, spoken);
    }
    events := before + events;
    if !saved {
      return SaveRaised, Trace(visits, invocations, events + [PhaseChanged(Some(Phase.Finalizing))], spoken);
    }
    trace := Trace(visits, invocations, events + Finalization(), spoken);
    outcome := Returned(next.answer, next.iteration, next.toolCalls, next.skillUses, next.stop.value);
  }

  lemma NodeMayRaise(program: Program, node: Node, state: AgentState, turn: Turn)
    requires NodeRaises(program, node, state, turn)
    ensures node == Node.Reasoning || node == Action
  {}

  lemma NothingTraced(program: Program)
    ensures TraceOk(program, [], [])
  {}

  lemma OpeningIsQuiet()
    ensures AllQuiet([PhaseChanged(Some(Phase.LoadingContext))])
    ensures AllQuiet([PhaseChanged(Some(Phase.LoadingContext)), ContextLoaded])
    ensures ToolsAfter([PhaseChanged(Some(Phase.LoadingContext)), ContextLoaded]) == []
  {
    NothingStarted([PhaseChanged(Some(Phase.LoadingContext)), ContextLoaded]);
  }

  // ---------------------------------------------------------------------------
  // What every call of the model carries
  // ---------------------------------------------------------------------------

  /** A user message carries the question, as given or inside the request to continue. */
  predicate HasQuestion(program: Program, messages: seq<Message>) {
    exists message <- messages ::
      && message.role.User?
      && (message.content == Plain(program.question) || message.content == Plain(CONTINUE_REQUEST + program.question))
  }

  /** The system prompt in front, and the question. */
  predicate Carries(program: Program, loaded: Loaded, messages: seq<Message>) {
    && messages != [] && messages[0] == Message(System, Plain(loaded.prompt), [], "")
    && HasQuestion(program, messages)
  }

  /** Everything that was loaded: the prompt, the snapshot if there is one, and the question as it was given. */
  predicate CarriesAll(program: Program, loaded: Loaded, messages: seq<Message>) {
    && messages != [] && messages[0] == Message(System, Plain(loaded.prompt), [], "")
    && (loaded.snapshot.Some? ==> Message(Developer, Snapshot(loaded.snapshot.value), [], "") in messages)
    && Message(User, Plain(program.question), [], "") in messages
  }

  /** The conversation is compacted at this visit. */
  predicate CompactsAt(program: Program, turns: seq<Turn>, visit: Visit) {
    && visit.node.Reasoning? && MayInvoke(program, visit.state, TurnOf(turns, visit.state))
    && NeedsCompaction(program, visit.state, TurnOf(turns, visit.state))
  }

  lemma InitialCarriesAll(program: Program, loaded: Loaded)
    ensures CarriesAll(program, loaded, InitialMessages(loaded.prompt, loaded.snapshot, program.question))
  {
    var messages := InitialMessages(loaded.prompt, loaded.snapshot, program.question);
    assert messages[|messages| - 1] == Message(User, Plain(program.question), [], "");
    if loaded.snapshot.Some? {
      assert messages[1] == Message(Developer, Snapshot(loaded.snapshot.value), [], "");
    }
  }

  lemma AllCarry(program: Program, loaded: Loaded, messages: seq<Message>)
    requires CarriesAll(program, loaded, messages)
    ensures Carries(program, loaded, messages)
  {}

  lemma CarriedInLonger(program: Program, loaded: Loaded, messages: seq<Message>, longer: seq<Message>)
    requires messages <= longer && messages != []
    ensures Carries(program, loaded, messages) ==> Carries(program, loaded, longer)
    ensures CarriesAll(program, loaded, messages) ==> CarriesAll(program, loaded, longer)
  {
    assert forall message <- messages :: message in longer;
  }

  /** What a reasoning node keeps of a conversation that carries the question carries it too. */
  lemma PersistentCarries(program: Program, loaded: Loaded, state: AgentState, turn: Turn)
    requires Carries(program, loaded, state.messages)
    ensures Carries(program, loaded, Persistent(program, state, turn))
    ensures !NeedsCompaction(program, state, turn) ==> Persistent(program, state, turn) == state.messages
  {
    hide NeedsCompaction, Compacted;
    if NeedsCompaction(program, state, turn) {
      CompactedKeeps(state.messages, turn.summary.GetOr(""), program.question);
      var after := Compacted(state.messages, turn.summary.GetOr(""), program.question);
      assert after[..1][0] == after[0] && state.messages[..1][0] == state.messages[0];
      assert after[2] in after;
    }
  }

  /** From one visit to the next. */
  lemma NextCarries(program: Program, loaded: Loaded, turn: Turn, visit: Visit, next: Visit)
    requires Leads(program, turn, visit, next) && Carries(program, loaded, visit.state.messages)
    ensures Carries(program, loaded, next.state.messages)
    ensures CarriesAll(program, loaded, visit.state.messages)
            && !(visit.node.Reasoning? && NeedsCompaction(program, visit.state, turn)) ==>
              CarriesAll(program, loaded, next.state.messages)
  {
    hide Carries, CarriesAll, Persistent, NeedsCompaction, MayInvoke, Draft, Strip, Reply, Granted, ToolCallCount,
      SkillUses, BeginsWithAnswers, DistinctIds;
    CarryingIsSomething(program, loaded, visit.state.messages);
    if visit.node.Reasoning? {
      PersistentCarries(program, loaded, visit.state, turn);
      CarryingIsSomething(program, loaded, Persistent(program, visit.state, turn));
      CarriedInLonger(program, loaded, Persistent(program, visit.state, turn), next.state.messages);
    } else {
      CarriedInLonger(program, loaded, visit.state.messages, next.state.messages);
    }
  }

  lemma CarryingIsSomething(program: Program, loaded: Loaded, messages: seq<Message>)
    requires Carries(program, loaded, messages)
    ensures messages != []
  {}

  lemma {:induction false} EveryVisitCarries(program: Program, loaded: Loaded, turns: seq<Turn>, visits: seq<Visit>,
                                             i: nat)
    requires IsPath(program, InitialMessages(loaded.prompt, loaded.snapshot, program.question), turns, visits)
    requires i < |visits|
    ensures Carries(program, loaded, visits[i].state.messages)
    ensures (forall k | 0 <= k < i :: !CompactsAt(program, turns, visits[k])) ==>
      CarriesAll(program, loaded, visits[i].state.messages)
  {
    hide Carries, CarriesAll, Leads, InitialMessages, TurnOf, MayInvoke, NeedsCompaction;
    if i == 0 {
      InitialCarriesAll(program, loaded);
      AllCarry(program, loaded, visits[0].state.messages);
    } else {
      var visit, turn := visits[i - 1], TurnOf(turns, visits[i - 1].state);
      EveryVisitCarries(program, loaded, turns, visits, i - 1);
      NextCarries(program, loaded, turn, visit, visits[i]);
      if visit.node.Reasoning? {
        ReasoningLeadsOn(program, turn, visit, visits[i]);
      }
    }
  }

  lemma ReasoningLeadsOn(program: Program, turn: Turn, visit: Visit, next: Visit)
    requires Leads(program, turn, visit, next) && visit.node.Reasoning?
    ensures MayInvoke(program, visit.state, turn)
  {
    hide MayInvoke, Persistent, Strip;
  }

  /** Every call of the model is that of a visit. */
  lemma {:induction false} InvocationIsVisit(program: Program, turns: seq<Turn>, visits: seq<Visit>, k: nat)
    returns (i: nat)
    requires k < |InvocationsAlong(program, turns, visits)|
    ensures i < |visits| && visits[i].node.Reasoning?
    ensures var state := visits[i].state;
      var turn, invocation := TurnOf(turns, state), InvocationsAlong(program, turns, visits)[k];
      && MayInvoke(program, state, turn)
      && invocation.persistent == Persistent(program, state, turn)
      && invocation.messages == WithActiveSkills(state, turn, invocation.persistent)
  {
    hide MayInvoke, Persistent, WithActiveSkills, TurnOf, CallsOf;
    var front := visits[..|visits| - 1];
    if k < |InvocationsAlong(program, turns, front)| {
      i := InvocationIsVisit(program, turns, front, k);
    } else {
      i := |visits| - 1;
    }
  }

  /**
   * In every run, whatever its outcome, every call of the model has the system prompt in front and the user's question
   * behind it, in what it sees and in what persists; without a compaction, also the loaded snapshot.
   */
  lemma EveryCallCarriesTheQuestion(program: Program, loaded: Loaded, turns: seq<Turn>, stream: Stream, saved: bool,
                                    outcome: Outcome, trace: Trace, before: seq<Event>, k: nat)
    requires IsRunOf(program, Some(loaded), turns, stream, saved, outcome, trace, before)
    requires k < |trace.invocations|
    ensures Carries(program, loaded, trace.invocations[k].persistent)
    ensures Carries(program, loaded, trace.invocations[k].messages)
    ensures (forall visit <- trace.visits :: !CompactsAt(program, turns, visit)) ==>
      CarriesAll(program, loaded, trace.invocations[k].persistent)
  {
    RunIsTraced(program, loaded, turns, stream, saved, outcome, trace, before);
    hide *;
    var i := InvocationIsVisit(program, turns, trace.visits, k);
    var state, turn := trace.visits[i].state, TurnOf(turns, trace.visits[i].state);
    EveryVisitCarries(program, loaded, turns, trace.visits, i);
    PersistentCarries(program, loaded, state, turn);
    ShownCarries(program, loaded, state, turn, trace.invocations[k].persistent);
    if forall visit <- trace.visits :: !CompactsAt(program, turns, visit) {
      assert forall j | 0 <= j < i :: !CompactsAt(program, turns, trace.visits[j]);
      assert !CompactsAt(program, turns, trace.visits[i]);
      NotCompacted(program, turns, trace.visits[i]);
    }
  }

  lemma NotCompacted(program: Program, turns: seq<Turn>, visit: Visit)
    requires visit.node.Reasoning? && MayInvoke(program, visit.state, TurnOf(turns, visit.state))
    requires !CompactsAt(program, turns, visit)
    ensures !NeedsCompaction(program, visit.state, TurnOf(turns, visit.state))
  {}

  lemma RunIsTraced(program: Program, loaded: Loaded, turns: seq<Turn>, stream: Stream, saved: bool,
                    outcome: Outcome, trace: Trace, before: seq<Event>)
    requires IsRunOf(program, Some(loaded), turns, stream, saved, outcome, trace, before)
    ensures IsPath(program, InitialMessages(loaded.prompt, loaded.snapshot, program.question), turns, trace.visits)
    ensures trace.invocations == InvocationsAlong(program, turns, trace.visits)
  {
    hide IsPath, InvocationsAlong, EventsAlong, InitialMessages, TraceOk, FollowsTurns, NodeRaises, IsAnswered,
      EventsOf;
  }

  lemma ShownCarries(program: Program, loaded: Loaded, state: AgentState, turn: Turn, messages: seq<Message>)
    requires Carries(program, loaded, messages)
    ensures Carries(program, loaded, WithActiveSkills(state, turn, messages))
  {
    var all := WithActiveSkills(state, turn, messages);
    SkillsAreInjected(messages, state.activeSkills, turn.skillText.GetOr(""));
    var message :| message in messages && message.role.User? &&
      (message.content == Plain(program.question) || message.content == Plain(CONTINUE_REQUEST + program.question));
    if state.activeSkills != [] {
      assert all[..1][0] == all[0] && messages[..1][0] == messages[0];
      var i :| 0 <= i < |messages| && messages[i] == message;
      assert i >= 1 && all[2..][i - 1] == all[i + 1] && messages[1..][i - 1] == message;
      assert all[i + 1] in all;
    }
  }

  // ---------------------------------------------------------------------------
  // A run
  // ---------------------------------------------------------------------------

  /** The state in front of the first reasoning node. */
  function FirstThought(program: Program, loaded: Loaded): AgentState {
    InitialState(InitialMessages(loaded.prompt, loaded.snapshot, program.question)).(iteration := 1)
  }

  /** The first step of every run with a positive limit. */
  lemma FirstStep(program: Program, loaded: Loaded, turns: seq<Turn>)
    returns (messages: seq<Message>, visits: seq<Visit>, events: seq<Event>)
    requires program.maxIterations >= 1 && AllRan(program, turns)
    ensures messages == InitialMessages(loaded.prompt, loaded.snapshot, program.question)
    ensures RunOk(program, messages, turns, Node.Reasoning, FirstThought(program, loaded), visits, [], events)
  {
    messages := InitialMessages(loaded.prompt, loaded.snapshot, program.question);
    InitialMessagesAreWellFormed(loaded.prompt, loaded.snapshot, program.question);
    hide InitialMessages;
    var start, next := InitialState(messages), FirstThought(program, loaded);
    RunStarts(program, messages, turns);
    AfterAgent(program, start, next, []);
    VisitIsOk(program, [], [], Visit(Agent, start));
    events := NodeEvents(program, Agent, start, TurnOf(turns, start));
    NothingStarted(events);
    visits := [] + [Visit(Agent, start)];
    assert [] + events == events;
    NodeLeft(program, messages, turns, Agent, start, [], [], [], Node.Reasoning, next, [], events);
  }

  /** The second step, if the model is called without compaction and asks for nothing. */
  lemma DirectResponse(program: Program, messages: seq<Message>, turns: seq<Turn>, state: AgentState,
                       visits: seq<Visit>, events: seq<Event>)
    returns (next: AgentState, entered: seq<Visit>, invocations: seq<Invocation>, more: seq<Event>)
    requires RunOk(program, messages, turns, Node.Reasoning, state, visits, [], events)
    requires AllRan(program, turns) && state.activeSkills == [] && state.iteration == 1 && turns != []
    requires !NeedsCompaction(program, state, turns[0])
    requires turns[0].response.Some? && turns[0].response.value.calls == []
    ensures RunOk(program, messages, turns, Answer, next, entered, invocations, more)
    ensures next.stop == Some(Answered) && next.iteration == 1
    ensures next.toolCalls == state.toolCalls && next.skillUses == state.skillUses
  {
    var turn, response := turns[0], turns[0].response.value;
    assert TurnAt(turns, 0) == turn;
    var visit := Visit(Node.Reasoning, state);
    var invocation := Invocation(state.messages, state.messages, [], []);
    next := state.(messages := state.messages + [Message(Assistant, Plain(response.content), [], "")],
                   answer := Strip(response.content), stop := Some(Answered));
    entered, invocations := visits + [visit], [] + [invocation];
    var added := NodeEvents(program, Node.Reasoning, state, turn);
    more := events + added;
    NodeFacts(program, Node.Reasoning, state, []);
    DirectInvocation(program, state, turn);
    VisitIsOk(program, visits, [], visit);
    NextSkills(program, entered, [], invocation);
    AfterReasoning(program, state, next, [], invocation, response);
    assert [] + [invocation] == invocations;
    QuietReasoning(program, state, turn);
    NodeLeft(program, messages, turns, Node.Reasoning, state, visits, [], events, Answer, next, invocations, added);
  }

  lemma QuietReasoning(program: Program, state: AgentState, turn: Turn)
    requires state.activeSkills == [] && !NeedsCompaction(program, state, turn)
    ensures AllQuiet(ReasoningEvents(program, state, turn)) && ToolsAfter(ReasoningEvents(program, state, turn)) == []
  {
    NothingStarted(ReasoningEvents(program, state, turn));
  }

  lemma DirectInvocation(program: Program, state: AgentState, turn: Turn)
    requires state.activeSkills == [] && !NeedsCompaction(program, state, turn)
    requires WellFormed(state.messages) && NoInstructions(state.messages)
    requires turn.response.Some? && turn.response.value.calls == []
    ensures var invocation := Invocation(state.messages, state.messages, [], []);
      InvocationOk(program, invocation) && NodeInvocations(program, Node.Reasoning, state, turn) == [invocation]
    ensures MayInvoke(program, state, turn) && Persistent(program, state, turn) == state.messages
  {
    hide WellFormed, NoInstructions;
    assert WithActiveSkills(state, turn, state.messages) == state.messages;
    assert SkillMessage([], "") == None && WithSkill(state.messages, SkillMessage([], "")) == state.messages;
  }

  /** A model that is called within budget and answers at once makes the program return the streamed text. */
  lemma AnswersAtOnce(program: Program, loaded: Loaded, turn: Turn, text: string)
    returns (outcome: Outcome, trace: Trace, before: seq<Event>)
    requires program.maxIterations >= 1 && ToolsRan(program, turn)
    requires !NeedsCompaction(program, FirstThought(program, loaded), turn)
    requires turn.response.Some? && turn.response.value.calls == []
    requires Strip(text) == text != ""
    ensures IsRunOf(program, Some(loaded), [turn], Stream([text], false), true, outcome, trace, before)
    ensures outcome == Returned(text, 1, 0, 0, Answered)
  {
    var turns, stream, state := [turn], Stream([text], false), FirstThought(program, loaded);
    TurnsRan(program, turn);
    hide *;
    FirstThoughtIs(program, loaded);
    var messages, visits, events := FirstStep(program, loaded, turns);
    var next, invocations;
    next, visits, invocations, events := DirectResponse(program, messages, turns, state, visits, events);
    AnswerIsReached(program, messages, turns, next, visits, invocations, events);
    before := [PhaseChanged(Some(Phase.LoadingContext)), ContextLoaded] + events;
    outcome := Returned(text, 1, 0, 0, Answered);
    trace := Trace(visits + [Visit(Answer, next)], invocations, EventsOf(outcome, before, [text]), [text]);
    DirectAnswer(next, text, before, outcome, trace);
    AnsweredIsRun(program, loaded, turns, stream, true, next, visits, invocations, events, outcome, trace);
  }

  lemma TurnsRan(program: Program, turn: Turn)
    requires ToolsRan(program, turn)
    ensures AllRan(program, [turn])
  {}

  lemma FirstThoughtIs(program: Program, loaded: Loaded)
    ensures var state := FirstThought(program, loaded);
      state.iteration == 1 && state.activeSkills == [] && state.toolCalls == state.skillUses == 0
  {}

  lemma DirectAnswer(state: AgentState, text: string, before: seq<Event>, outcome: Outcome, trace: Trace)
    requires state.stop == Some(Answered) && state.iteration == 1 && state.toolCalls == state.skillUses == 0
    requires outcome == Returned(text, 1, 0, 0, Answered) && Strip(text) == text != ""
    requires trace.events == EventsOf(outcome, before, [text]) && trace.spoken == [text]
    ensures IsConcluded(state, before, Stream([text], false), true, outcome, trace)
  {
    hide Strip, Concat, EventsOf;
    OneChunk(text);
  }
}
