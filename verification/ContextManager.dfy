/** What a reasoning step sees: ephemeral skills, the token budget, compaction. */
module ContextManager {
  import opened Text
  import opened Conversation

  const SKILL_REQUEST: string := "use_skill"
  const CONTEXT_SEARCH: string := "global_context_search"

  predicate IsSkillRequest(call: ToolCall) {
    call.name == SKILL_REQUEST
  }

  predicate IsContextSearch(call: ToolCall) {
    call.name == CONTEXT_SEARCH
  }

  /** The calls that run a tool, in order. */
  function ToolRuns(calls: seq<ToolCall>): seq<ToolCall> {
    if calls == [] then []
    else
      var last := calls[|calls| - 1];
      ToolRuns(calls[..|calls| - 1]) + (if IsSkillRequest(last) then [] else [last])
  }

  /** The tool runs are the calls that ask for no skills. */
  lemma {:induction false} ToolRunsAre(calls: seq<ToolCall>)
    ensures forall call: ToolCall :: call in ToolRuns(calls) <==> call in calls && call.name != SKILL_REQUEST
    ensures forall call: ToolCall | call.name != SKILL_REQUEST ::
      multiset(ToolRuns(calls))[call] == multiset(calls)[call]
  {
    if calls != [] {
      var front, last := calls[..|calls| - 1], calls[|calls| - 1];
      ToolRunsAre(front);
      assert calls == front + [last];
      assert ToolRuns(calls) == ToolRuns(front) + (if last.name == SKILL_REQUEST then [] else [last]);
    }
  }

  // ---------------------------------------------------------------------------
  // Skills
  // ---------------------------------------------------------------------------

  /** The distinct elements in the order of their first occurrence. */
  function Unique(names: seq<string>): seq<string> {
    if names == [] then []
    else
      var front, last := Unique(names[..|names| - 1]), names[|names| - 1];
      if last in front then front else front + [last]
  }

  lemma NextUnique(names: seq<string>, name: string)
    ensures Unique(names + [name]) == if name in Unique(names) then Unique(names) else Unique(names) + [name]
  {
    assert (names + [name])[..|names|] == names;
  }

  lemma {:induction false} UniqueIsDistinct(names: seq<string>)
    ensures forall i, j | 0 <= i < j < |Unique(names)| :: Unique(names)[i] != Unique(names)[j]
    ensures forall name :: name in Unique(names) <==> name in names
  {
    if names != [] {
      var front, last := names[..|names| - 1], names[|names| - 1];
      UniqueIsDistinct(front);
      assert names == front + [last];
      assert forall name :: name in names <==> name in front || name == last;
    }
  }

  lemma {:induction false} UniqueOfConcat(a: seq<string>, b: seq<string>)
    ensures Unique(a + Unique(b)) == Unique(a + b)
  {
    if b == [] {
      assert a + b == a && Unique(b) == [];
    } else {
      var front, last := b[..|b| - 1], b[|b| - 1];
      UniqueOfConcat(a, front);
      assert a + b == (a + front) + [last];
      NextUnique(a + front, last);
      UniqueIsDistinct(front);
      UniqueIsDistinct(a + front);
      if last !in front {
        assert Unique(b) == Unique(front) + [last];
        assert a + Unique(b) == (a + Unique(front)) + [last];
        NextUnique(a + Unique(front), last);
      } else {
        assert last in a + front;
      }
    }
  }

  /** The position of a name's first occurrence. */
  function FirstIndex(names: seq<string>, name: string): (i: nat)
    requires name in names
    ensures i < |names| && names[i] == name && name !in names[..i]
  {
    if names[0] == name then 0
    else
      assert names == [names[0]] + names[1..];
      1 + FirstIndex(names[1..], name)
  }

  lemma FirstIndexIs(names: seq<string>, i: nat)
    requires i < |names| && names[i] !in names[..i]
    ensures FirstIndex(names, names[i]) == i
  {
    var k := FirstIndex(names, names[i]);
    assert names[k] == names[i];
  }

  /** The distinct names stand in the order in which they were first asked for. */
  lemma {:induction false} UniqueIsInOrder(names: seq<string>, k: nat, l: nat)
    requires k < l < |Unique(names)|
    ensures Unique(names)[k] in names && Unique(names)[l] in names
    ensures FirstIndex(names, Unique(names)[k]) < FirstIndex(names, Unique(names)[l])
  {
    UniqueIsDistinct(names);
    var front, last, all := names[..|names| - 1], names[|names| - 1], Unique(names);
    UniqueIsDistinct(front);
    assert all[k] in Unique(names) && all[l] in Unique(names);
    if l < |Unique(front)| {
      UniqueIsInOrder(front, k, l);
      SameFirstIndex(front, names, all[k]);
      SameFirstIndex(front, names, all[l]);
    } else {
      assert all[k] in Unique(front);
      SameFirstIndex(front, names, all[k]);
      FirstIndexIs(names, |names| - 1);
    }
  }

  lemma SameFirstIndex(front: seq<string>, names: seq<string>, name: string)
    requires front <= names && name in front
    ensures name in names && FirstIndex(names, name) == FirstIndex(front, name)
  {
    var i := FirstIndex(front, name);
    assert names[i] == name && names[..i] == front[..i];
    FirstIndexIs(names, i);
  }

  function StripAll(items: seq<string>): seq<string> {
    if items == [] then [] else StripAll(items[..|items| - 1]) + [Strip(items[|items| - 1])]
  }

  /** The request names at least one skill, and only registered ones. */
  predicate MayRequest(registry: set<string>, items: seq<string>) {
    items != [] && MayAskAll(registry, items)
  }

  predicate MayAskAll(registry: set<string>, items: seq<string>) {
    forall item <- items :: MayAsk(registry, item)
  }

  predicate MayAsk(registry: set<string>, item: string) {
    !IsBlank(item) && Strip(item) in registry
  }

  /** The skills a call is granted, if its request is valid. */
  function RequestedSkills(registry: set<string>, call: ToolCall): Option<seq<string>> {
    if call.name == SKILL_REQUEST && call.skills.Some? && MayRequest(registry, call.skills.value) then
      Some(Unique(StripAll(call.skills.value)))
    else None
  }

  lemma {:induction false} StripAllAre(items: seq<string>)
    ensures |StripAll(items)| == |items| && forall i | 0 <= i < |items| :: StripAll(items)[i] == Strip(items[i])
  {
    hide Strip;
    if items != [] {
      StripAllAre(items[..|items| - 1]);
    }
  }

  /**
   * A skill request is granted exactly if it lists at least one name and every one of them, stripped, is registered and
   * not empty; then it is granted exactly those names, each once.
   */
  lemma GrantedAreRegistered(registry: set<string>, call: ToolCall)
    ensures RequestedSkills(registry, call).Some?
       <==> && call.name == SKILL_REQUEST && call.skills.Some? && call.skills.value != []
            && forall item <- call.skills.value :: Strip(item) != "" && Strip(item) in registry
    ensures RequestedSkills(registry, call).Some? ==>
      var names := RequestedSkills(registry, call).value;
      && (forall i, j | 0 <= i < j < |names| :: names[i] != names[j])
      && (forall name :: name in names <==> exists item <- call.skills.value :: Strip(item) == name)
  {
    hide Strip, Unique;
    if call.skills.Some? {
      var items := call.skills.value;
      StripAllAre(items);
      UniqueIsDistinct(StripAll(items));
      forall name ensures name in StripAll(items) <==> exists item <- items :: Strip(item) == name {
        if name in StripAll(items) {
          var i :| 0 <= i < |items| && StripAll(items)[i] == name;
          assert items[i] in items;
        }
        if exists item <- items :: Strip(item) == name {
          var item :| item in items && Strip(item) == name;
          var i :| 0 <= i < |items| && items[i] == item;
          assert StripAll(items)[i] == name;
        }
      }
    }
  }

  lemma NextGrant(items: seq<string>, i: nat)
    requires i < |items|
    ensures var before := Unique(StripAll(items[..i]));
      Unique(StripAll(items[..i + 1])) == if Strip(items[i]) in before then before else before + [Strip(items[i])]
  {
    hide Strip, Unique;
    assert items[..i + 1][..i] == items[..i];
    NextUnique(StripAll(items[..i]), Strip(items[i]));
  }

  /** The loop of `requested_skills`. */
  method GrantSkills(registry: set<string>, items: seq<string>) returns (granted: Option<seq<string>>)
    requires items != []
    ensures granted == if MayRequest(registry, items) then Some(Unique(StripAll(items))) else None
  {
    var names: seq<string> := [];
    assert Unique(StripAll(items[..0])) == [];
    hide Strip, IsBlank, Unique, StripAll, MayAsk, MayRequest, MayAskAll;
    for i := 0 to |items|
      invariant MayAskAll(registry, items[..i])
      invariant names == Unique(StripAll(items[..i]))
    {
      var name := Strip(items[i]);
      if IsBlank(items[i]) || name !in registry {
        MayAskMeans(registry, items[i]);
        OneIsRefused(registry, items, i);
        return None;
      }
      MayAskMeans(registry, items[i]);
      MayAskNext(registry, items, i);
      NextGrant(items, i);
      if name !in names {
        names := names + [name];
      }
    }
    assert items[..|items|] == items;
    NoneIsRefused(registry, items);
    granted := Some(names);
  }

  lemma OneIsRefused(registry: set<string>, items: seq<string>, i: nat)
    requires i < |items| && !MayAsk(registry, items[i])
    ensures !MayRequest(registry, items)
  {}

  lemma NoneIsRefused(registry: set<string>, items: seq<string>)
    requires items != [] && MayAskAll(registry, items)
    ensures MayRequest(registry, items)
  {
    hide MayAsk;
  }

  lemma MayAskNext(registry: set<string>, items: seq<string>, i: nat)
    requires i < |items| && MayAskAll(registry, items[..i]) && MayAsk(registry, items[i])
    ensures MayAskAll(registry, items[..i + 1])
  {
    hide MayAsk;
    assert items[..i + 1] == items[..i] + [items[i]];
  }

  lemma MayAskMeans(registry: set<string>, item: string)
    ensures MayAsk(registry, item) <==> !IsBlank(item) && Strip(item) in registry
  {}

  /** `requested_skills`; nothing stands for its errors. */
  method RequestSkills(registry: set<string>, call: ToolCall) returns (granted: Option<seq<string>>)
    ensures granted == RequestedSkills(registry, call)
  {
    if call.name != SKILL_REQUEST || call.skills.None? || call.skills.value == [] {
      return None;
    }
    granted := GrantSkills(registry, call.skills.value);
  }

  /** `_with_ephemeral_skill` */
  function WithSkill(messages: seq<Message>, skill: Option<Message>): seq<Message> {
    if skill.None? then messages
    else if messages != [] && messages[0].role.System? then [messages[0]] + [skill.value] + messages[1..]
    else [skill.value] + messages
  }

  lemma WithSkillIsWellFormed(messages: seq<Message>, skill: Option<Message>)
    requires WellFormed(messages) && (skill.Some? ==> skill.value.role.Developer?)
    ensures WellFormed(WithSkill(messages, skill))
  {
    if skill.Some? {
      SingleIsWellFormed(skill.value);
      if messages != [] && messages[0].role.System? {
        SingleIsWellFormed(messages[0]);
        WellFormedConcat([messages[0]], [skill.value]);
        WellFormedConcat([messages[0]] + [skill.value], messages[1..]);
      } else {
        WellFormedConcat([skill.value], messages);
      }
    }
  }

  /** The skill message, for the skills that are active. */
  function SkillMessage(names: seq<string>, text: string): Option<Message> {
    if names == [] then None else Some(Say(Developer, SkillInstructions(names, text)))
  }

  /** The instructions of active skills stand behind a leading system message, or in front; nothing else moves. */
  lemma SkillsAreInjected(messages: seq<Message>, names: seq<string>, text: string)
    ensures var all := WithSkill(messages, SkillMessage(names, text));
      if names == [] then all == messages
      else
        var at := if messages != [] && messages[0].role.System? then 1 else 0;
        && |all| == |messages| + 1
        && all[at] == Message(Developer, SkillInstructions(names, text), [], "")
        && all[..at] == messages[..at] && all[at + 1..] == messages[at..]
  {}

  // ---------------------------------------------------------------------------
  // The budget
  // ---------------------------------------------------------------------------

  /** The share of the context window that dynamic messages may take, at least one token. */
  function DynamicBudget(window: nat, percentage: real): (budget: nat)
    requires window >= 1 && 0.0 < percentage <= 100.0
    ensures budget >= 1 && budget as real + 1.0 > window as real * percentage / 100.0
    ensures budget == 1 || budget as real <= window as real * percentage / 100.0
  {
    assert window as real * percentage >= 0.0;
    var share := (window as real * percentage / 100.0).Floor;
    if share < 1 then 1 else share
  }

  lemma BudgetFitsWindow(window: nat, percentage: real)
    requires window >= 1 && 0.0 < percentage <= 100.0
    ensures 1 <= DynamicBudget(window, percentage) <= window
    ensures percentage == 100.0 ==> DynamicBudget(window, percentage) == window
  {
    assert window as real * percentage <= window as real * 100.0;
  }

  /** Everything but a leading system message counts against the budget. */
  function DynamicMessages(messages: seq<Message>): seq<Message> {
    if messages != [] && messages[0].role.System? then messages[1..] else messages
  }

  /** The estimator is foreign: any function of the messages. */
  datatype Budget = Budget(tokens: seq<Message> -> nat, limit: nat)

  predicate IsOverBudget(budget: Budget, messages: seq<Message>) {
    budget.tokens(DynamicMessages(messages)) > budget.limit
  }

  /** A leading system message does not count, every other message does. */
  lemma OnlySystemIsFree(budget: Budget, first: Message, rest: seq<Message>)
    ensures IsOverBudget(budget, [first] + rest)
       <==> budget.tokens(if first.role.System? then rest else [first] + rest) > budget.limit
    ensures IsOverBudget(budget, []) <==> budget.tokens([]) > budget.limit
  {
    assert ([first] + rest)[1..] == rest;
  }

  /** The loop of `_measure_budget`, and the verdict of the budget manager. */
  method MeasureBudget(budget: Budget, messages: seq<Message>) returns (over: bool)
    ensures over <==> IsOverBudget(budget, messages)
  {
    var mandatory: seq<Message>, dynamic: seq<Message> := [], [];
    for i := 0 to |messages|
      invariant mandatory + dynamic == messages[..i]
      invariant mandatory == if i > 0 && messages[0].role.System? then [messages[0]] else []
    {
      if i == 0 && messages[i].role.System? {
        mandatory := mandatory + [messages[i]];
      } else {
        dynamic := dynamic + [messages[i]];
      }
    }
    assert messages[..|messages|] == messages;
    assert dynamic == DynamicMessages(messages);
    over := budget.tokens(dynamic) > budget.limit;
  }

  const CONTINUE_REQUEST: string := "Continue the current execution from the session snapshot above. Current request: "

  /** `_compact_messages` */
  function Compacted(messages: seq<Message>, summary: string, question: string): seq<Message> {
    (if messages != [] && messages[0].role.System? then [messages[0]] else [])
    + [Say(Developer, Snapshot(summary))] + [Say(User, Plain(CONTINUE_REQUEST + question))]
  }

  /** Compaction keeps a leading system message, and puts the summary and the request to continue behind it. */
  lemma CompactedKeeps(messages: seq<Message>, summary: string, question: string)
    ensures var after := Compacted(messages, summary, question);
      var n := if messages != [] && messages[0].role.System? then 1 else 0;
      && |after| == n + 2 && after[..n] == messages[..n]
      && after[n] == Message(Developer, Snapshot(summary), [], "")
      && after[n + 1] == Message(User, Plain(CONTINUE_REQUEST + question), [], "")
  {}

  lemma CompactedIsWellFormed(messages: seq<Message>, summary: string, question: string)
    ensures WellFormed(Compacted(messages, summary, question))
  {
    var head := if messages != [] && messages[0].role.System? then [messages[0]] else [];
    assert WellFormed(head) by {
      if head != [] {
        SingleIsWellFormed(head[0]);
      }
    }
    WellFormedAppend(head, Say(Developer, Snapshot(summary)));
    WellFormedAppend(head + [Say(Developer, Snapshot(summary))], Say(User, Plain(CONTINUE_REQUEST + question)));
  }

  /** The skills load and, if the conversation must be compacted, the summary is stored and brings it within budget. */
  predicate MayPrepare(budget: Budget, messages: seq<Message>, names: seq<string>, skillText: Option<string>,
                       summary: Option<string>, question: string)
  {
    var skill := SkillMessage(names, skillText.GetOr(""));
    && (names != [] ==> skillText.Some?)
    && (IsOverBudget(budget, WithSkill(messages, skill)) ==>
          summary.Some? && !IsOverBudget(budget, WithSkill(Compacted(messages, summary.value, question), skill)))
  }

  /** What a reasoning step gets. */
  datatype Prepared = Prepared(persistent: seq<Message>, reasoning: seq<Message>, compacted: bool)

  /**
   * `prepare_reasoning`. `skillText` are the active skills' instructions, or nothing if loading them raises;
   * `summary` is the summary that a snapshot stores, or nothing if the summarizer or a store raises. The method
   * returns nothing if it raises, which is also the case if even the compacted conversation is over budget.
   */
  method PrepareReasoning(budget: Budget, messages: seq<Message>, names: seq<string>, skillText: Option<string>,
                          summary: Option<string>, question: string) returns (prepared: Option<Prepared>)
    requires WellFormed(messages)
    ensures prepared.Some? <==> MayPrepare(budget, messages, names, skillText, summary, question)
    ensures prepared.Some? ==>
      var skill := SkillMessage(names, skillText.GetOr(""));
      && WellFormed(prepared.value.persistent) && WellFormed(prepared.value.reasoning)
      && prepared.value.reasoning == WithSkill(prepared.value.persistent, skill)
      && !IsOverBudget(budget, prepared.value.reasoning)
      && (prepared.value.compacted <==> IsOverBudget(budget, WithSkill(messages, skill)))
      && (if prepared.value.compacted then
            summary.Some? && prepared.value.persistent == Compacted(messages, summary.value, question)
          else prepared.value.persistent == messages)
  {
    if names != [] && skillText.None? {
      return None;
    }
    var skill := SkillMessage(names, skillText.GetOr(""));
    WithSkillIsWellFormed(messages, skill);
    var persistent := messages;
    var reasoning := WithSkill(persistent, skill);
    var over := MeasureBudget(budget, reasoning);
    var compacted := over;
    if over {
      if summary.None? {
        return None;
      }
      CompactedIsWellFormed(messages, summary.value, question);
      persistent := Compacted(messages, summary.value, question);
      WithSkillIsWellFormed(persistent, skill);
      reasoning := WithSkill(persistent, skill);
      over := MeasureBudget(budget, reasoning);
      if over {
        return None;
      }
    }
    prepared := Some(Prepared(persistent, reasoning, compacted));
  }
}
