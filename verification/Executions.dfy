/** The guarded status transitions of an execution row. */
module Executions {
  import opened Text
  import opened Events

  /** The columns the transitions touch; `sessionId` only says which session owns the row. */
  datatype Row = Row(
    sessionId: nat,
    status: Status,
    answer: Option<string>,
    error: Option<string>,
    result: Option<string>)

  function NewRow(sessionId: nat): Row {
    Row(sessionId, Pending, None, None, None)
  }

  function MarkedRunning(row: Row): Row {
    if row.status.CancelRequested? || row.status.IsTerminal() then row
    else row.(status := Running, error := None)
  }

  function CancelRequestedOf(row: Row): Row {
    if row.status.IsTerminal() then row else row.(status := CancelRequested)
  }

  function MarkedCancelled(row: Row, answer: Option<string>): Row {
    if row.status.IsTerminal() then row
    else row.(status := Cancelled, answer := if answer.Some? then answer else row.answer)
  }

  function MarkedCompleted(row: Row, answer: string, result: Option<string>): Row {
    if row.status.CancelRequested? || row.status.IsTerminal() then row
    else row.(status := Completed, answer := Some(answer), result := result)
  }

  function MarkedFailed(row: Row, error: string): Row {
    if row.status.CancelRequested? || row.status.IsTerminal() then row
    else row.(status := Failed, error := Some(Truncated(error, 4000)))
  }

  // ---------------------------------------------------------------------------
  // What each transition stores
  // ---------------------------------------------------------------------------

  lemma RunningStores(row: Row)
    ensures MarkedRunning(row) == match row.status
      case Pending | Running => Row(row.sessionId, Running, row.answer, None, row.result)
      case _ => row
  {}

  lemma CancellationStores(row: Row, answer: Option<string>)
    ensures var after := MarkedCancelled(row, answer);
      && (row.status.IsTerminal() ==> after == row)
      && (!row.status.IsTerminal() ==>
            && after == Row(row.sessionId, Cancelled, after.answer, row.error, row.result)
            && (answer.Some? ==> after.answer == answer) && (answer.None? ==> after.answer == row.answer))
  {}

  lemma CompletionStores(row: Row, answer: string, result: Option<string>)
    ensures MarkedCompleted(row, answer, result) == match row.status
      case Pending | Running => Row(row.sessionId, Completed, Some(answer), row.error, result)
      case _ => row
  {}

  lemma FailureStores(row: Row, error: string)
    ensures var after := MarkedFailed(row, error);
      match row.status
      case Pending | Running =>
        && after == Row(row.sessionId, Failed, row.answer, after.error, row.result)
        && after.error.Some? && after.error.value <= error && |after.error.value| <= 4000
        && (|error| <= 4000 ==> after.error.value == error)
      case _ => after == row
  {}

  lemma RequestStores(row: Row)
    ensures CancelRequestedOf(row)
         == if row.status.IsTerminal() then row
            else Row(row.sessionId, CancelRequested, row.answer, row.error, row.result)
  {}

  /** The status changes that the five transitions allow. */
  predicate MayChange(from: Status, next: Status) {
    match from
    case Pending => true
    case Running => !next.Pending?
    case CancelRequested => next.CancelRequested? || next.Cancelled?
    case _ => next == from
  }

  datatype Transition =
    | MarkRunning
    | RequestCancel
    | MarkCancelled(partial: Option<string>)
    | MarkCompleted(answer: string, result: Option<string>)
    | MarkFailed(error: string)

  function Changed(row: Row, transition: Transition): Row {
    match transition
    case MarkRunning => MarkedRunning(row)
    case RequestCancel => CancelRequestedOf(row)
    case MarkCancelled(partial) => MarkedCancelled(row, partial)
    case MarkCompleted(answer, result) => MarkedCompleted(row, answer, result)
    case MarkFailed(error) => MarkedFailed(row, error)
  }

  function ChangedAll(row: Row, transitions: seq<Transition>): Row {
    if transitions == [] then row
    else Changed(ChangedAll(row, transitions[..|transitions| - 1]), transitions[|transitions| - 1])
  }

  /** A finished row never changes again, and a row asked to cancel can only become cancelled. */
  lemma {:induction false} StatusesAreOrdered(row: Row, transitions: seq<Transition>)
    ensures var after := ChangedAll(row, transitions);
      && (row.status.IsTerminal() ==> after == row)
      && (row.status.CancelRequested? ==> after == row || after.status.Cancelled?)
      && MayChange(row.status, after.status)
  {
    if transitions != [] {
      StatusesAreOrdered(row, transitions[..|transitions| - 1]);
    }
  }

  /** Cancel wins: after a request, no completion or failure gets through, and the next cancellation does. */
  lemma CancelWins(row: Row, transitions: seq<Transition>)
    requires !row.status.IsTerminal()
    ensures var asked := CancelRequestedOf(row);
      var after := ChangedAll(asked, transitions);
      && (after.status.Cancelled? <==> exists transition <- transitions :: transition.MarkCancelled?)
      && (!after.status.Cancelled? ==> after == asked)
  {
    var asked := CancelRequestedOf(row);
    if exists transition <- transitions :: transition.MarkCancelled? {
      CancelledSomewhere(asked, transitions);
    } else {
      NotCancelled(asked, transitions);
    }
  }

  lemma {:induction false} CancelledSomewhere(row: Row, transitions: seq<Transition>)
    requires row.status.CancelRequested? && exists transition <- transitions :: transition.MarkCancelled?
    ensures ChangedAll(row, transitions).status.Cancelled?
  {
    var front, last := transitions[..|transitions| - 1], transitions[|transitions| - 1];
    StatusesAreOrdered(row, front);
    if !last.MarkCancelled? {
      assert exists transition <- front :: transition.MarkCancelled? by {
        var transition :| transition in transitions && transition.MarkCancelled?;
        assert transition in front;
      }
      CancelledSomewhere(row, front);
    }
  }

  lemma {:induction false} NotCancelled(row: Row, transitions: seq<Transition>)
    requires row.status.CancelRequested? && forall transition <- transitions :: !transition.MarkCancelled?
    ensures ChangedAll(row, transitions) == row
  {
    if transitions != [] {
      NotCancelled(row, transitions[..|transitions| - 1]);
      assert transitions[|transitions| - 1] in transitions;
    }
  }

  // ---------------------------------------------------------------------------
  // The entity and its repository operations
  // ---------------------------------------------------------------------------

  class AgentExecution {
    const sessionId: nat
    var status: Status
    var answer: Option<string>
    var error: Option<string>
    var result: Option<string>

    constructor (sessionId: nat)
      ensures Contents() == NewRow(sessionId)
    {
      this.sessionId := sessionId;
      status, answer, error, result := Pending, None, None, None;
    }

    ghost function Contents(): Row
      reads this
    {
      Row(sessionId, status, answer, error, result)
    }

    method MarkRunning()
      modifies this
      ensures Contents() == MarkedRunning(old(Contents()))
    {
      if status.CancelRequested? {
        return;
      }
      if status.IsTerminal() {
        return;
      }
      status := Running;
      error := None;
    }

    method RequestCancel() returns (accepted: bool)
      modifies this
      ensures Contents() == CancelRequestedOf(old(Contents()))
      ensures accepted <==> !old(status).IsTerminal()
    {
      if status.IsTerminal() {
        return false;
      }
      status := CancelRequested;
      return true;
    }

    method MarkCancelled(partial: Option<string>)
      modifies this
      ensures Contents() == MarkedCancelled(old(Contents()), partial)
    {
      if status.Completed? || status.Failed? || status.Cancelled? {
        return;
      }
      status := Cancelled;
      if partial.Some? {
        answer := partial;
      }
    }

    method MarkCompleted(finalAnswer: string, outcome: Option<string>)
      modifies this
      ensures Contents() == MarkedCompleted(old(Contents()), finalAnswer, outcome)
    {
      if status.CancelRequested? || status.Cancelled? || status.Failed? || status.Completed? {
        return;
      }
      status := Completed;
      answer := Some(finalAnswer);
      result := outcome;
    }

    method MarkFailed(reason: string)
      modifies this
      ensures Contents() == MarkedFailed(old(Contents()), reason)
    {
      if status.CancelRequested? || status.Cancelled? || status.Completed? || status.Failed? {
        return;
      }
      status := Failed;
      error := Some(Truncated(reason, 4000));
    }
  }
}
