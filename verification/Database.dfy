/** The tables as the repositories see them: rows that are updated in place. */
module Database {
  import opened Text
  import opened Executions
  import opened Outbox
  import opened Transactions

  class Tables {
    var sessions: set<nat>
    var executions: map<nat, AgentExecution>
    var messages: map<nat, OutboxMessage>

    /** No row is stored under two identifiers. */
    ghost predicate Valid()
      reads this
    {
      DistinctExecutions() && DistinctMessages()
    }

    ghost predicate DistinctExecutions()
      reads this`executions
    {
      forall a, b | a in executions && b in executions && a != b :: executions[a] != executions[b]
    }

    ghost predicate DistinctMessages()
      reads this`messages
    {
      forall a, b | a in messages && b in messages && a != b :: messages[a] != messages[b]
    }

    ghost function ExecutionRows(): map<nat, Row>
      reads this`executions, executions.Values
    {
      map e | e in executions :: executions[e].Contents()
    }

    ghost function MessageRows(): map<nat, Message>
      reads this`messages, messages.Values
    {
      map m | m in messages :: messages[m].Contents()
    }

    ghost function Contents(): Db
      reads this, executions.Values, messages.Values
    {
      Db(sessions, ExecutionRows(), MessageRows())
    }

    constructor ()
      ensures Valid() && Contents() == Db({}, map[], map[])
    {
      sessions, executions, messages := {}, map[], map[];
    }

    method ProcessMessage(id: nat)
      requires DistinctMessages()
      modifies messages.Values
      ensures MessageRows() == Transactions.Processed(old(MessageRows()), id)
    {
      if id in messages {
        messages[id].MarkProcessed();
      }
    }

    method FailMessage(id: nat, error: string)
      requires DistinctMessages()
      modifies messages.Values
      ensures MessageRows() == FailedMessage(old(MessageRows()), id)
    {
      if id in messages {
        messages[id].MarkFailed(error);
      }
    }

    method ReleaseMessage(id: nat, error: string, now: real, delay: real)
      requires DistinctMessages()
      modifies messages.Values
      ensures MessageRows() == ReleasedMessage(old(MessageRows()), id)
      ensures id in messages ==> messages[id].availableAt == now + delay
    {
      if id in messages {
        messages[id].ReleaseWithError(error, now, delay);
      }
    }

    /** `mark_running` */
    method RunRow(id: nat)
      requires DistinctExecutions() && id in executions
      modifies executions.Values
      ensures ExecutionRows() == old(ExecutionRows())[id := MarkedRunning(old(ExecutionRows())[id])]
    {
      executions[id].MarkRunning();
    }

    /** `mark_cancelled` */
    method CancelRow(id: nat, partial: Option<string>)
      requires DistinctExecutions() && id in executions
      modifies executions.Values
      ensures ExecutionRows() == old(ExecutionRows())[id := MarkedCancelled(old(ExecutionRows())[id], partial)]
    {
      executions[id].MarkCancelled(partial);
    }

    /** `mark_completed` */
    method CompleteRow(id: nat, answer: string, result: Option<string>)
      requires DistinctExecutions() && id in executions
      modifies executions.Values
      ensures ExecutionRows() == old(ExecutionRows())[id := MarkedCompleted(old(ExecutionRows())[id], answer, result)]
    {
      executions[id].MarkCompleted(answer, result);
    }

    /** `mark_failed` */
    method FailRow(id: nat, error: string)
      requires DistinctExecutions() && id in executions
      modifies executions.Values
      ensures ExecutionRows() == old(ExecutionRows())[id := Executions.MarkedFailed(old(ExecutionRows())[id], error)]
    {
      executions[id].MarkFailed(error);
    }

    /** The first transaction of `_handle_message`. */
    method Open(claim: Claim, maxAttempts: nat, policy: RetryPolicy, now: real) returns (outcome: Opened)
      requires Valid()
      modifies executions.Values, messages.Values
      ensures (Contents(), outcome) == OpenTxn(old(Contents()), claim, maxAttempts)
      ensures outcome.Missing? && claim.attempts < maxAttempts && claim.message in messages ==>
        messages[claim.message].availableAt == now + Delay(policy, claim.attempts)
    {
      RowsAre();
      OpenCases(Contents(), claim, maxAttempts);
      hide ExecutionRows, MessageRows, DistinctExecutions, DistinctMessages, OpenTxn, Transactions.Processed,
        FailedMessage, ReleasedMessage, MarkedRunning, Executions.MarkedCancelled, Delay, NewMessage, NewRow;
      if !claim.isRequest {
        ProcessMessage(claim.message);
        return Skipped;
      }
      if claim.executionId !in executions {
        if claim.attempts >= maxAttempts {
          FailMessage(claim.message, "Execution not found");
        } else {
          ReleaseMessage(claim.message, "Execution not found", now, Delay(policy, claim.attempts));
        }
        return Missing;
      }
      if executions[claim.executionId].status.CancelRequested? {
        CancelRow(claim.executionId, None);
        ProcessMessage(claim.message);
        return FoundCancelled;
      }
      RunRow(claim.executionId);
      return MarkedAsRunning;
    }

    lemma RowsAre()
      ensures executions.Keys == ExecutionRows().Keys
      ensures forall e <- executions :: ExecutionRows()[e] == executions[e].Contents()
    {}

    /** `_mark_cancelled` */
    method MarkCancelled(claim: Claim)
      requires Valid()
      modifies executions.Values, messages.Values
      ensures Contents() == CancelTxn(old(Contents()), claim)
    {
      RowsAre();
      hide ExecutionRows, MessageRows, DistinctExecutions, DistinctMessages;
      if claim.executionId in executions {
        CancelRow(claim.executionId, None);
      }
      ProcessMessage(claim.message);
    }

    /** `_mark_terminal_failure` */
    method MarkTerminalFailure(claim: Claim, error: string, internalError: string)
      requires Valid()
      modifies executions.Values, messages.Values
      ensures Contents() == FailTxn(old(Contents()), claim, error)
    {
      RowsAre();
      hide ExecutionRows, MessageRows, DistinctExecutions, DistinctMessages;
      if claim.executionId in executions {
        FailRow(claim.executionId, error);
      }
      FailMessage(claim.message, internalError);
    }

    /** The transaction behind a result. */
    method Finish(claim: Claim, answer: string, result: Option<string>) returns (cancelled: bool)
      requires Valid()
      modifies executions.Values, messages.Values
      ensures (Contents(), cancelled) == FinishTxn(old(Contents()), claim, answer, result)
    {
      RowsAre();
      FinishCases(Contents(), claim, answer, result);
      hide ExecutionRows, MessageRows, DistinctExecutions, DistinctMessages, FinishTxn, Transactions.Processed,
        Executions.MarkedCompleted, Executions.MarkedCancelled;
      cancelled := claim.executionId in executions && executions[claim.executionId].status.CancelRequested?;
      if cancelled {
        CancelRow(claim.executionId, Some(answer));
      } else if claim.executionId in executions {
        CompleteRow(claim.executionId, answer, result);
      }
      ProcessMessage(claim.message);
    }

    /** `ExecutionRepository.create` */
    method InsertExecution(sessionId: nat, executionId: nat)
      requires DistinctExecutions() && executionId !in executions
      modifies this`executions
      ensures DistinctExecutions()
      ensures ExecutionRows() == old(ExecutionRows())[executionId := NewRow(sessionId)]
    {
      var execution := new AgentExecution(sessionId);
      executions := executions[executionId := execution];
    }

    /** `enqueue` */
    method Enqueue(id: nat, executionId: nat, now: real)
      requires DistinctMessages() && id !in messages
      modifies this`messages
      ensures DistinctMessages() && id in messages && messages[id].availableAt == now
      ensures MessageRows() == old(MessageRows())[id := NewMessage(true, executionId)]
    {
      var message := new OutboxMessage(true, executionId, now);
      messages := messages[id := message];
    }

    /** The inserts of the routes that accept a question. */
    method Accept(sessionId: nat, executionId: nat, message: nat, now: real)
      requires Valid() && executionId !in executions && message !in messages
      modifies this`executions, this`messages
      ensures Valid() && Contents() == AcceptTxn(old(Contents()), sessionId, executionId, message)
    {
      InsertExecution(sessionId, executionId);
      Enqueue(message, executionId, now);
    }

    method StartSession(sessionId: nat, executionId: nat, message: nat, now: real)
      requires Valid() && executionId !in executions && message !in messages
      modifies this
      ensures Valid() && Contents() == StartSessionTxn(old(Contents()), sessionId, executionId, message)
    {
      sessions := sessions + {sessionId};
      Accept(sessionId, executionId, message, now);
    }

    method CreateExecution(sessionId: nat, executionId: nat, message: nat, now: real) returns (found: bool)
      requires Valid() && executionId !in executions && message !in messages
      modifies this
      ensures Valid() && found == CreateTxn(old(Contents()), sessionId, executionId, message).Some?
      ensures Contents()
           == CreateTxn(old(Contents()), sessionId, executionId, message).GetOr(old(Contents()))
    {
      found := sessionId in sessions;
      if found {
        Accept(sessionId, executionId, message, now);
      }
    }

    method CancelExecution(executionId: nat) returns (found: bool)
      requires Valid()
      modifies executions.Values
      ensures found == AskCancelTxn(old(Contents()), executionId).Some?
      ensures Contents() == AskCancelTxn(old(Contents()), executionId).GetOr(old(Contents()))
    {
      found := executionId in executions;
      if found {
        var _ := executions[executionId].RequestCancel();
      }
    }

    method HasActiveExecutions(sessionId: nat) returns (active: bool)
      requires Valid()
      ensures active <==> !IsQuietSession(Contents(), sessionId)
    {
      var found := set e | e in executions && executions[e].sessionId == sessionId
                           && !executions[e].status.IsTerminal();
      active := found != {};
      if active {
        var e :| e in found;
        assert InSession(Contents(), e, sessionId);
      } else {
        forall e | e in executions && InSession(Contents(), e, sessionId) ensures executions[e].status.IsTerminal() {
          assert e !in found;
        }
      }
    }

    method ExecutionIds(sessionId: nat) returns (ids: set<nat>)
      requires Valid()
      ensures forall e :: e in ids <==> InSession(Contents(), e, sessionId)
    {
      ids := set e | e in executions && executions[e].sessionId == sessionId;
    }

    /** `delete_by_aggregate_ids` */
    method DeleteMessages(ids: set<nat>)
      requires DistinctMessages()
      modifies this`messages
      ensures DistinctMessages()
      ensures MessageRows() == WithoutMessages(old(MessageRows()), ids)
    {
      messages := map m | m in messages && messages[m].executionId !in ids :: messages[m];
    }

    /** The session's row goes, and with it those of its executions. */
    method DeleteRows(sessionId: nat, ids: set<nat>)
      requires DistinctExecutions()
      modifies this`sessions, this`executions
      ensures DistinctExecutions() && sessions == old(sessions) - {sessionId}
      ensures ExecutionRows() == old(ExecutionRows()) - ids
    {
      executions := executions - ids;
      sessions := sessions - {sessionId};
    }

    method DeleteSession(sessionId: nat) returns (answer: DeleteAnswer)
      requires Valid()
      modifies this
      ensures Valid() && (answer, Contents()) == DeleteTxn(old(Contents()), sessionId)
    {
      hide ExecutionRows, MessageRows, DistinctExecutions, DistinctMessages;
      if sessionId !in sessions {
        return NotFound;
      }
      var active := HasActiveExecutions(sessionId);
      if active {
        return Conflict;
      }
      var ids := ExecutionIds(sessionId);
      DeletedInSteps(Contents(), sessionId, ids);
      DeleteMessages(ids);
      DeleteRows(sessionId, ids);
      answer := Deleted;
    }
  }

  /** The branches of the opening transaction. */
  lemma OpenCases(db: Db, claim: Claim, maxAttempts: nat)
    ensures !claim.isRequest ==>
      OpenTxn(db, claim, maxAttempts) == (db.(messages := Transactions.Processed(db.messages, claim.message)), Skipped)
    ensures claim.isRequest && claim.executionId !in db.executions && claim.attempts >= maxAttempts ==>
      OpenTxn(db, claim, maxAttempts) == (db.(messages := FailedMessage(db.messages, claim.message)), Missing)
    ensures claim.isRequest && claim.executionId !in db.executions && claim.attempts < maxAttempts ==>
      OpenTxn(db, claim, maxAttempts) == (db.(messages := ReleasedMessage(db.messages, claim.message)), Missing)
    ensures claim.isRequest && claim.executionId in db.executions ==>
      var row := db.executions[claim.executionId];
      OpenTxn(db, claim, maxAttempts) ==
        if row.status.CancelRequested? then
          (db.(executions := db.executions[claim.executionId := Executions.MarkedCancelled(row, None)],
               messages := Transactions.Processed(db.messages, claim.message)), FoundCancelled)
        else (db.(executions := db.executions[claim.executionId := MarkedRunning(row)]), MarkedAsRunning)
  {
    hide Transactions.Processed, FailedMessage, ReleasedMessage, MarkedRunning, Executions.MarkedCancelled;
  }

  /** The branches of the transaction behind a result. */
  lemma FinishCases(db: Db, claim: Claim, answer: string, result: Option<string>)
    ensures var e, messages := claim.executionId, Transactions.Processed(db.messages, claim.message);
      if e !in db.executions then FinishTxn(db, claim, answer, result) == (db.(messages := messages), false)
      else
        var row := db.executions[e];
        FinishTxn(db, claim, answer, result) ==
          if row.status.CancelRequested? then
            (db.(executions := db.executions[e := Executions.MarkedCancelled(row, Some(answer))], messages := messages),
             true)
          else
            (db.(executions := db.executions[e := Executions.MarkedCompleted(row, answer, result)],
                 messages := messages), false)
  {
    hide Transactions.Processed, Executions.MarkedCompleted, Executions.MarkedCancelled;
  }

  function WithoutMessages(messages: map<nat, Message>, ids: set<nat>): map<nat, Message> {
    map m | m in messages && messages[m].executionId !in ids :: messages[m]
  }

  lemma DeletedInSteps(db: Db, sessionId: nat, ids: set<nat>)
    requires sessionId in db.sessions && IsQuietSession(db, sessionId)
    requires forall e :: e in ids <==> InSession(db, e, sessionId)
    ensures DeleteTxn(db, sessionId)
         == (Deleted, Db(db.sessions - {sessionId}, db.executions - ids, WithoutMessages(db.messages, ids)))
  {
    var after := DeleteTxn(db, sessionId).1;
    assert after.executions == db.executions - ids;
    assert after.messages == WithoutMessages(db.messages, ids);
  }
}
