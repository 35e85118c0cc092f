/** The database transactions of the execution consumer and of the API routes, each one atomic. */
module Transactions {
  import opened Text
  import E = Events
  import opened Executions
  import opened Outbox

  datatype Db = Db(sessions: set<nat>, executions: map<nat, Row>, messages: map<nat, Message>)

  /** A message as its runner claimed it. */
  datatype Claim = Claim(message: nat, isRequest: bool, executionId: nat, attempts: nat)

  datatype Opened = Skipped | Missing | FoundCancelled | MarkedAsRunning

  function Processed(messages: map<nat, Message>, id: nat): map<nat, Message> {
    if id in messages then messages[id := MarkedProcessed(messages[id])] else messages
  }

  function FailedMessage(messages: map<nat, Message>, id: nat): map<nat, Message> {
    if id in messages then messages[id := Outbox.MarkedFailed(messages[id])] else messages
  }

  function ReleasedMessage(messages: map<nat, Message>, id: nat): map<nat, Message> {
    if id in messages then messages[id := Released(messages[id])] else messages
  }

  /** The first transaction of `_handle_message`. */
  function OpenTxn(db: Db, claim: Claim, maxAttempts: nat): (Db, Opened) {
    var messages := db.messages;
    if !claim.isRequest then (db.(messages := Processed(messages, claim.message)), Skipped)
    else if claim.executionId !in db.executions then
      var after := if claim.attempts >= maxAttempts then FailedMessage(messages, claim.message)
                   else ReleasedMessage(messages, claim.message);
      (db.(messages := after), Missing)
    else
      var row := db.executions[claim.executionId];
      if row.status.CancelRequested? then
        (WithRow(db, claim.executionId, MarkedCancelled(row, None)).(messages := Processed(messages, claim.message)),
         FoundCancelled)
      else (WithRow(db, claim.executionId, MarkedRunning(row)), MarkedAsRunning)
  }

  function WithRow(db: Db, executionId: nat, row: Row): Db {
    db.(executions := db.executions[executionId := row])
  }

  /** `_mark_cancelled` */
  function CancelTxn(db: Db, claim: Claim): Db {
    var e := claim.executionId;
    var after := if e in db.executions then WithRow(db, e, MarkedCancelled(db.executions[e], None)) else db;
    after.(messages := Processed(db.messages, claim.message))
  }

  /** `_mark_terminal_failure` */
  function FailTxn(db: Db, claim: Claim, error: string): Db {
    var e := claim.executionId;
    var after := if e in db.executions then WithRow(db, e, Executions.MarkedFailed(db.executions[e], error)) else db;
    after.(messages := FailedMessage(db.messages, claim.message))
  }

  /** The transaction behind a result; the flag says that it came to a cancellation. */
  function FinishTxn(db: Db, claim: Claim, answer: string, result: Option<string>): (Db, bool) {
    var messages := Processed(db.messages, claim.message);
    var e := claim.executionId;
    if e !in db.executions then (db.(messages := messages), false)
    else
      var row := db.executions[e];
      if row.status.CancelRequested? then
        (WithRow(db, e, MarkedCancelled(row, Some(answer))).(messages := messages), true)
      else (WithRow(db, e, MarkedCompleted(row, answer, result)).(messages := messages), false)
  }

  // ---------------------------------------------------------------------------
  // What the consumer's transactions store
  // ---------------------------------------------------------------------------

  /** Nothing changes but this execution's row and this message, which are still there. */
  ghost predicate ChangesOnly(db: Db, after: Db, e: nat, m: nat) {
    && after.sessions == db.sessions
    && after.executions.Keys == db.executions.Keys && after.messages.Keys == db.messages.Keys
    && (forall other <- db.executions :: other != e ==> after.executions[other] == db.executions[other])
    && (forall other <- db.messages :: other != m ==> after.messages[other] == db.messages[other])
  }

  /** The message, if it is there, gets this status, and nobody holds it any more. */
  ghost predicate Settles(db: Db, after: Db, m: nat, status: MessageStatus) {
    m in db.messages && m in after.messages ==>
      after.messages[m] == db.messages[m].(status := status, lockedBy := None)
  }

  /** The opening transaction starts a row that nobody asked to cancel, and cancels one that somebody did. */
  lemma OpenStores(db: Db, claim: Claim, maxAttempts: nat)
    ensures var (after, outcome) := OpenTxn(db, claim, maxAttempts);
      var e, m := claim.executionId, claim.message;
      && ChangesOnly(db, after, e, m)
      && (outcome.Skipped? <==> !claim.isRequest)
      && (outcome.Missing? <==> claim.isRequest && e !in db.executions)
      && (outcome.Skipped? ==> after.executions == db.executions && Settles(db, after, m, MessageStatus.Processed))
      && (outcome.Missing? ==>
            after.executions == db.executions
            && Settles(db, after, m,
                       if claim.attempts >= maxAttempts then MessageStatus.Failed else MessageStatus.Pending))
      && (claim.isRequest && e in db.executions ==>
            var row := db.executions[e];
            && (outcome.FoundCancelled? <==> row.status.CancelRequested?)
            && (outcome.FoundCancelled? ==>
                  after.executions[e] == row.(status := E.Cancelled) && Settles(db, after, m, MessageStatus.Processed))
            && (outcome.MarkedAsRunning? ==>
                  && after.messages == db.messages
                  && after.executions[e] == if row.status.IsTerminal() then row
                                            else row.(status := E.Running, error := None)))
  {}

  /** The transaction behind a result stores exactly the answer and the result, or with a request only the answer. */
  lemma FinishStores(db: Db, claim: Claim, answer: string, result: Option<string>)
    ensures var (after, cancelled) := FinishTxn(db, claim, answer, result);
      var e, m := claim.executionId, claim.message;
      && ChangesOnly(db, after, e, m) && Settles(db, after, m, MessageStatus.Processed)
      && (cancelled <==> e in db.executions && db.executions[e].status.CancelRequested?)
      && (e in db.executions ==>
            var row := db.executions[e];
            after.executions[e] == match row.status
              case Pending | Running => row.(status := E.Completed, answer := Some(answer), result := result)
              case CancelRequested => row.(status := E.Cancelled, answer := Some(answer))
              case _ => row)
  {}

  lemma CancelStores(db: Db, claim: Claim)
    ensures var after := CancelTxn(db, claim);
      var e, m := claim.executionId, claim.message;
      && ChangesOnly(db, after, e, m) && Settles(db, after, m, MessageStatus.Processed)
      && (e in db.executions ==>
            var row := db.executions[e];
            after.executions[e] == if row.status.IsTerminal() then row else row.(status := E.Cancelled))
  {}

  /** A failure is stored with its error unless the row was asked to cancel. */
  lemma FailStores(db: Db, claim: Claim, error: string)
    ensures var after := FailTxn(db, claim, error);
      var e, m := claim.executionId, claim.message;
      && ChangesOnly(db, after, e, m) && Settles(db, after, m, MessageStatus.Failed)
      && (e in db.executions ==>
            var row := db.executions[e];
            if row.status.Pending? || row.status.Running? then
              after.executions[e] == row.(status := E.Failed, error := Some(Truncated(error, 4000)))
            else after.executions[e] == row)
  {}

  // ---------------------------------------------------------------------------
  // The routes
  // ---------------------------------------------------------------------------

  /** An accepted question: the execution and its request, in one transaction. */
  function AcceptTxn(db: Db, sessionId: nat, executionId: nat, message: nat): Db {
    db.(executions := db.executions[executionId := NewRow(sessionId)],
        messages := db.messages[message := NewMessage(true, executionId)])
  }

  /** The route for one more question; nothing stands for its not-found answer. */
  function CreateTxn(db: Db, sessionId: nat, executionId: nat, message: nat): Option<Db> {
    if sessionId in db.sessions then Some(AcceptTxn(db, sessionId, executionId, message)) else None
  }

  /** The route for an empty session. */
  function AddSessionTxn(db: Db, sessionId: nat): Db {
    db.(sessions := db.sessions + {sessionId})
  }

  /** The route for a session with its first question. */
  function StartSessionTxn(db: Db, sessionId: nat, executionId: nat, message: nat): Db {
    AcceptTxn(AddSessionTxn(db, sessionId), sessionId, executionId, message)
  }

  /** The cancel route; nothing stands for its not-found answer. */
  function AskCancelTxn(db: Db, executionId: nat): Option<Db> {
    if executionId in db.executions then
      Some(db.(executions := db.executions[executionId := CancelRequestedOf(db.executions[executionId])]))
    else None
  }

  predicate InSession(db: Db, executionId: nat, sessionId: nat) {
    executionId in db.executions && db.executions[executionId].sessionId == sessionId
  }

  /** No execution of the session is active. */
  predicate IsQuietSession(db: Db, sessionId: nat) {
    forall e <- db.executions :: InSession(db, e, sessionId) ==> db.executions[e].status.IsTerminal()
  }

  datatype DeleteAnswer = NotFound | Conflict | Deleted

  /** The delete route: the session, its executions and their messages go, unless one is active. */
  function DeleteTxn(db: Db, sessionId: nat): (DeleteAnswer, Db) {
    if sessionId !in db.sessions then (NotFound, db)
    else if !IsQuietSession(db, sessionId) then (Conflict, db)
    else
      (Deleted, Db(
        db.sessions - {sessionId},
        map e | e in db.executions && !InSession(db, e, sessionId) :: db.executions[e],
        map m | m in db.messages && !InSession(db, db.messages[m].executionId, sessionId) :: db.messages[m]))
  }

  /** Exactly the session, its executions and the messages for them are gone. */
  lemma DeletedIsGone(db: Db, sessionId: nat)
    ensures var (answer, after) := DeleteTxn(db, sessionId);
      && (answer.NotFound? <==> sessionId !in db.sessions)
      && (answer.Conflict? <==> sessionId in db.sessions && exists e <- db.executions ::
            db.executions[e].sessionId == sessionId && !db.executions[e].status.IsTerminal())
      && (!answer.Deleted? ==> after == db)
      && (answer.Deleted? ==>
            && after.sessions == db.sessions - {sessionId}
            && (forall e :: e in after.executions <==> e in db.executions && db.executions[e].sessionId != sessionId)
            && (forall e <- after.executions :: after.executions[e] == db.executions[e])
            && (forall m :: m in after.messages <==>
                  (&& m in db.messages
                   && (db.messages[m].executionId in db.executions ==>
                         db.executions[db.messages[m].executionId].sessionId != sessionId)))
            && (forall m <- after.messages :: after.messages[m] == db.messages[m]))
  {}

  /** An accepted question is a pending execution of the session and a fresh request for it; nothing else changes. */
  lemma AcceptedIsPending(db: Db, sessionId: nat, executionId: nat, message: nat)
    ensures CreateTxn(db, sessionId, executionId, message).Some? <==> sessionId in db.sessions
    ensures sessionId in db.sessions ==>
      CreateTxn(db, sessionId, executionId, message)
      == Some(Db(db.sessions,
                 db.executions[executionId := Row(sessionId, E.Pending, None, None, None)],
                 db.messages[message := Message(true, executionId, Pending, None, 0)]))
  {}

  /** A cancellation is asked for exactly where the execution exists, and leaves a finished one alone. */
  lemma AskedIsRequested(db: Db, executionId: nat)
    ensures AskCancelTxn(db, executionId).Some? <==> executionId in db.executions
    ensures executionId in db.executions ==>
      var row := db.executions[executionId];
      AskCancelTxn(db, executionId)
      == Some(if row.status.IsTerminal() then db
              else db.(executions := db.executions[executionId := row.(status := E.CancelRequested)]))
  {
    if executionId in db.executions {
      assert db.executions[executionId := db.executions[executionId]] == db.executions;
    }
  }

  /** What one look at the row tells the cancellation poll: cancelled, over, or nothing yet. */
  datatype Look = SeesCancel | SeesEnd | SeesNothing

  function LookAt(row: Option<Row>): Look {
    if row.None? then SeesEnd
    else if row.value.status.CancelRequested? || row.value.status.Cancelled? then SeesCancel
    else if row.value.status.IsTerminal() then SeesEnd
    else SeesNothing
  }

  function Lookup(db: Db, executionId: nat): Option<Row> {
    if executionId in db.executions then Some(db.executions[executionId]) else None
  }

  lemma LookMeans(row: Option<Row>)
    ensures LookAt(row).SeesCancel?
       <==> row.Some? && (row.value.status == E.CancelRequested || row.value.status == E.Cancelled)
    ensures LookAt(row).SeesNothing? <==> row.Some? && (row.value.status == E.Pending || row.value.status == E.Running)
  {}

  /** The polling loop over what its transactions find; without a verdict it is still polling. */
  method WaitForCancellation(found: seq<Option<Row>>) returns (verdict: Option<bool>)
    ensures verdict.Some? <==> exists i | 0 <= i < |found| :: !LookAt(found[i]).SeesNothing?
    ensures verdict.Some? ==> exists i | 0 <= i < |found| ::
      && !LookAt(found[i]).SeesNothing? && (forall j | 0 <= j < i :: LookAt(found[j]).SeesNothing?)
      && verdict.value == LookAt(found[i]).SeesCancel?
  {
    for i := 0 to |found|
      invariant forall j | 0 <= j < i :: LookAt(found[j]).SeesNothing?
    {
      var execution := found[i];
      if execution.None? {
        return Some(false);
      }
      if execution.value.status.CancelRequested? || execution.value.status.Cancelled? {
        return Some(true);
      }
      if execution.value.status.Completed? || execution.value.status.Failed? {
        return Some(false);
      }
    }
    verdict := None;
  }
}
