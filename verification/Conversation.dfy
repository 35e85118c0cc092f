/** The messages of an agent's conversation and the shape that providers demand of them. */
module Conversation {
  import opened Text

  datatype Role = System | Developer | User | Assistant | Tool

  /** `skills` is the argument of that name, if it is a list of strings. */
  datatype ToolCall = ToolCall(id: string, name: string, skills: Option<seq<string>>)

  /** The texts that matter are told apart by what they are for. */
  datatype Content =
    | Plain(text: string)
    | SkillInstructions(names: seq<string>, text: string)
    | Snapshot(summary: string)
    | SkillsGranted(names: seq<string>)
    | SkillsRefused
    | Output(text: string)

  datatype Message = Message(role: Role, content: Content, toolCalls: seq<ToolCall>, toolCallId: string)

  predicate DistinctIds(calls: seq<ToolCall>) {
    forall i, j | 0 <= i < j < |calls| :: calls[i].id != calls[j].id
  }

  function Say(role: Role, content: Content): Message {
    Message(role, content, [], "")
  }

  /** A tool message for this call. */
  predicate Answers(message: Message, call: ToolCall) {
    message.role.Tool? && message.toolCallId == call.id
  }

  /** The messages begin with one tool message per call, in call order. */
  predicate BeginsWithAnswers(messages: seq<Message>, calls: seq<ToolCall>) {
    |calls| <= |messages| && forall i | 0 <= i < |calls| :: Answers(messages[i], calls[i])
  }

  predicate HasCalls(message: Message) {
    message.role.Assistant? && message.toolCalls != []
  }

  /**
   * Every assistant message with tool calls is followed at once by exactly one tool message per call,
   * in call order, and there are no other tool messages.
   */
  predicate WellFormed(messages: seq<Message>) {
    if messages == [] then true
    else if messages[0].role.Tool? then false
    else if HasCalls(messages[0]) then
      var n := |messages[0].toolCalls|;
      BeginsWithAnswers(messages[1..], messages[0].toolCalls) && WellFormed(messages[n + 1..])
    else WellFormed(messages[1..])
  }

  lemma {:induction false} WellFormedConcat(a: seq<Message>, b: seq<Message>)
    requires WellFormed(a) && WellFormed(b)
    ensures WellFormed(a + b)
    decreases |a|
  {
    if a == [] {
      assert a + b == b;
    } else if HasCalls(a[0]) {
      var n := |a[0].toolCalls|;
      WellFormedConcat(a[n + 1..], b);
      assert (a + b)[n + 1..] == a[n + 1..] + b && (a + b)[1..] == a[1..] + b;
    } else {
      WellFormedConcat(a[1..], b);
      assert (a + b)[1..] == a[1..] + b;
    }
  }

  lemma SingleIsWellFormed(message: Message)
    requires !message.role.Tool? && !HasCalls(message)
    ensures WellFormed([message])
  {
    assert [message][1..] == [];
  }

  lemma WellFormedAppend(messages: seq<Message>, message: Message)
    requires WellFormed(messages) && !message.role.Tool? && !HasCalls(message)
    ensures WellFormed(messages + [message])
  {
    SingleIsWellFormed(message);
    WellFormedConcat(messages, [message]);
  }

  /** An assistant message with its answers keeps the conversation well formed. */
  lemma WellFormedExchange(messages: seq<Message>, request: Message, answers: seq<Message>)
    requires WellFormed(messages) && HasCalls(request)
    requires |answers| == |request.toolCalls| && BeginsWithAnswers(answers, request.toolCalls)
    ensures WellFormed(messages + [request] + answers)
  {
    var exchange := [request] + answers;
    assert exchange[1..] == answers && exchange[|answers| + 1..] == [];
    WellFormedConcat(messages, exchange);
    assert messages + [request] + answers == messages + exchange;
  }

  /** A last message that carries no calls can be taken away. */
  lemma {:induction false} WellFormedFront(messages: seq<Message>)
    requires WellFormed(messages) && messages != []
    requires !messages[|messages| - 1].role.Tool?
    ensures WellFormed(messages[..|messages| - 1])
    decreases |messages|
  {
    var front := messages[..|messages| - 1];
    if |messages| > 1 {
      var n := if HasCalls(messages[0]) then |messages[0].toolCalls| else 0;
      if n > 0 {
        assert messages[1..][n - 1] == messages[n];
      }
      assert n + 1 < |messages|;
      assert front[n + 1..] == messages[n + 1..][..|messages| - n - 2];
      WellFormedFront(messages[n + 1..]);
      assert forall i | 0 <= i < n :: front[1..][i] == messages[1..][i];
    }
  }

  /** The tool message for a call stands right behind the calls, where its call stands among them. */
  lemma {:induction false} ToolMessagesHaveCalls(messages: seq<Message>, k: nat) returns (i: nat)
    requires WellFormed(messages) && k < |messages| && messages[k].role.Tool?
    ensures i < k && HasCalls(messages[i]) && k - i - 1 < |messages[i].toolCalls|
    ensures Answers(messages[k], messages[i].toolCalls[k - i - 1])
    decreases |messages|
  {
    var n := if HasCalls(messages[0]) then |messages[0].toolCalls| else 0;
    if k <= n {
      i := 0;
      assert messages[1..][k - 1] == messages[k];
    } else {
      var j := ToolMessagesHaveCalls(messages[n + 1..], k - n - 1);
      i := j + n + 1;
    }
  }

  lemma AnswersAreTools(messages: seq<Message>, i: nat)
    requires messages != [] && BeginsWithAnswers(messages[1..], messages[0].toolCalls)
    requires 1 <= i <= |messages[0].toolCalls|
    ensures i < |messages| && messages[i].role.Tool?
  {
    assert messages[1..][i - 1] == messages[i];
  }

  /** Every call is answered in its place. */
  lemma {:induction false} CallsAreAnswered(messages: seq<Message>, i: nat, j: nat)
    requires WellFormed(messages) && i < |messages| && HasCalls(messages[i]) && j < |messages[i].toolCalls|
    ensures i + 1 + j < |messages| && Answers(messages[i + 1 + j], messages[i].toolCalls[j])
    decreases |messages|
  {
    var n := if HasCalls(messages[0]) then |messages[0].toolCalls| else 0;
    if i == 0 {
      assert messages[1..][j] == messages[1 + j];
    } else {
      if i <= n {
        AnswersAreTools(messages, i);
      }
      CallsAreAnswered(messages[n + 1..], i - n - 1, j);
    }
  }
}
