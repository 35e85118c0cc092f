/** Any number of runners and an API that may cancel at any moment, one database transaction per step. */
module Lifecycle {
  import opened Text
  import E = Events
  import opened Executions
  import opened Outbox
  import opened Transactions

  datatype LifeEvent = Started | Completed | Broken | Stopped {
    predicate IsTerminal() {
      !Started?
    }
  }

  /** Where a runner stands with the message it handles. */
  datatype Job =
    | Free
    | Starting(claim: Claim)
    | Watching(claim: Claim)
    | Draining(claim: Claim)
    | Stopping(claim: Claim)
    | Checking(claim: Claim)
    | Failing(claim: Claim)
    | Finishing(claim: Claim, answer: string)
    | Emitting(executionId: nat, event: LifeEvent)

  datatype Runner = Runner(queue: seq<Claim>, job: Job)

  /**
   * `usedSessions`, `usedExecutions` and `usedMessages` are the identifiers ever handed out, `messageOf` the request
   * that a route created with an execution, `started` the executions whose runtime was started, `concluded` those
   * whose terminal transaction committed, and `events` what was emitted.
   */
  datatype System = System(
    db: Db,
    runners: map<nat, Runner>,
    usedSessions: set<nat>,
    usedExecutions: set<nat>,
    usedMessages: set<nat>,
    messageOf: map<nat, nat>,
    started: seq<nat>,
    concluded: set<nat>,
    events: seq<(nat, LifeEvent)>)

  const NOTHING: System := System(Db({}, map[], map[]), map[], {}, {}, {}, map[], [], {}, [])

  datatype Step =
    | AddSession(session: nat)
    | StartSession(session: nat, executionId: nat, message: nat)
    | CreateExecution(session: nat, executionId: nat, message: nat)
    | InjectOrphan(message: nat, isRequest: bool, executionId: nat)
    | AskCancel(executionId: nat)
    | DeleteSession(session: nat)
    | ClaimBatch(runner: nat, batch: seq<nat>)
    | Open(runner: nat)
    | StartRuntime(runner: nat, raises: bool)
    | Poll(runner: nat)
    | Return(runner: nat, answer: string)
    | Raise(runner: nat)
    | Interrupt(runner: nat)
    | Check(runner: nat)
    | CommitCancelled(runner: nat)
    | CommitFailure(runner: nat, error: string)
    | CommitResult(runner: nat, result: Option<string>)
    | Emit(runner: nat, lost: bool)

  function RunnerAt(s: System, r: nat): Runner {
    if r in s.runners then s.runners[r] else Runner([], Free)
  }

  function JobAt(s: System, r: nat): Job {
    RunnerAt(s, r).job
  }

  function WithJob(s: System, r: nat, job: Job): System {
    s.(runners := s.runners[r := RunnerAt(s, r).(job := job)])
  }

  predicate Distinct(ids: seq<nat>) {
    forall i, j | 0 <= i < j < |ids| :: ids[i] != ids[j]
  }

  predicate Enabled(s: System, step: Step) {
    match step
    case AddSession(session) => session !in s.usedSessions
    case StartSession(session, e, m) =>
      session !in s.usedSessions && e !in s.usedExecutions && m !in s.usedMessages
    case CreateExecution(session, e, m) =>
      CreateTxn(s.db, session, e, m).Some? && e !in s.usedExecutions && m !in s.usedMessages
    case InjectOrphan(m, isRequest, e) => m !in s.usedMessages && (isRequest ==> e !in s.db.executions)
    case AskCancel(e) => AskCancelTxn(s.db, e).Some?
    case DeleteSession(session) => DeleteTxn(s.db, session).0.Deleted?
    case ClaimBatch(r, batch) =>
      && RunnerAt(s, r) == Runner([], Free)
      && Distinct(batch)
      && forall m <- batch :: m in s.db.messages && s.db.messages[m].status.Pending?
    case Open(r) => JobAt(s, r).Free? && RunnerAt(s, r).queue != []
    case StartRuntime(r, _) => JobAt(s, r).Starting?
    case Poll(r) => JobAt(s, r).Watching?
    case Return(r, _) => JobAt(s, r).Watching? || JobAt(s, r).Draining?
    case Raise(r) => JobAt(s, r).Watching? || JobAt(s, r).Draining?
    case Interrupt(r) => JobAt(s, r).Watching? || JobAt(s, r).Draining?
    case Check(r) => JobAt(s, r).Checking?
    case CommitCancelled(r) => JobAt(s, r).Stopping?
    case CommitFailure(r, _) => JobAt(s, r).Failing?
    case CommitResult(r, _) => JobAt(s, r).Finishing?
    case Emit(r, _) => JobAt(s, r).Emitting?
  }

  function ClaimOf(s: System, m: nat): Claim
    requires m in s.db.messages
  {
    var message := s.db.messages[m];
    Claim(m, message.isRequest, message.executionId, message.attempts + 1)
  }

  function ClaimsOf(s: System, batch: seq<nat>): seq<Claim>
    requires forall m <- batch :: m in s.db.messages
  {
    if batch == [] then [] else ClaimsOf(s, batch[..|batch| - 1]) + [ClaimOf(s, batch[|batch| - 1])]
  }

  function AfterOpen(s: System, r: nat, maxAttempts: nat): System
    requires Enabled(s, Open(r))
  {
    var claim := RunnerAt(s, r).queue[0];
    var (db, outcome) := OpenTxn(s.db, claim, maxAttempts);
    var e := claim.executionId;
    var job := match outcome
      case Skipped => Free
      case Missing => Free
      case FoundCancelled => Emitting(e, Stopped)
      case MarkedAsRunning => Starting(claim);
    s.(db := db,
       runners := s.runners[r := Runner(RunnerAt(s, r).queue[1..], job)],
       concluded := if outcome.FoundCancelled? then s.concluded + {e} else s.concluded)
  }

  function WithSession(s: System, session: nat): System {
    s.(db := AddSessionTxn(s.db, session), usedSessions := s.usedSessions + {session})
  }

  function WithRequest(s: System, session: nat, e: nat, m: nat): System {
    s.(db := AcceptTxn(s.db, session, e, m),
       usedExecutions := s.usedExecutions + {e}, usedMessages := s.usedMessages + {m}, messageOf := s.messageOf[e := m])
  }

  function Next(s: System, step: Step, maxAttempts: nat): System
    requires Enabled(s, step)
  {
    match step
    case AddSession(session) => WithSession(s, session)
    case StartSession(session, e, m) => WithRequest(WithSession(s, session), session, e, m)
    case CreateExecution(session, e, m) => WithRequest(s, session, e, m)
    case InjectOrphan(m, isRequest, e) =>
      s.(db := s.db.(messages := s.db.messages[m := NewMessage(isRequest, e)]),
         usedExecutions := s.usedExecutions + {e}, usedMessages := s.usedMessages + {m})
    case AskCancel(e) => s.(db := AskCancelTxn(s.db, e).value)
    case DeleteSession(session) =>
      s.(db := DeleteTxn(s.db, session).1)
    case ClaimBatch(r, batch) =>
      var messages := map m | m in s.db.messages ::
        if m in batch then Claimed(s.db.messages[m], r) else s.db.messages[m];
      s.(db := s.db.(messages := messages), runners := s.runners[r := Runner(ClaimsOf(s, batch), Free)])
    case Open(r) => AfterOpen(s, r, maxAttempts)
    case StartRuntime(r, raises) =>
      var claim := JobAt(s, r).claim;
      var announced := s.(events := s.events + [(claim.executionId, Started)]);
      if raises then WithJob(announced, r, Checking(claim))
      else WithJob(announced.(started := s.started + [claim.executionId]), r, Watching(claim))
    case Poll(r) =>
      var claim := JobAt(s, r).claim;
      var look := LookAt(Lookup(s.db, claim.executionId));
      if look.SeesCancel? then WithJob(s, r, Stopping(claim))
      else if look.SeesEnd? then WithJob(s, r, Draining(claim))
      else s
    case Return(r, answer) => WithJob(s, r, Finishing(JobAt(s, r).claim, answer))
    case Raise(r) => WithJob(s, r, Checking(JobAt(s, r).claim))
    case Interrupt(r) => WithJob(s, r, Stopping(JobAt(s, r).claim))
    case Check(r) =>
      var claim := JobAt(s, r).claim;
      if LookAt(Lookup(s.db, claim.executionId)).SeesCancel? then WithJob(s, r, Stopping(claim))
      else WithJob(s, r, Failing(claim))
    case CommitCancelled(r) =>
      var claim := JobAt(s, r).claim;
      Concluded(WithJob(s.(db := CancelTxn(s.db, claim)), r, Emitting(claim.executionId, Stopped)), claim.executionId)
    case CommitFailure(r, error) =>
      var claim := JobAt(s, r).claim;
      var failed := s.(db := FailTxn(s.db, claim, error));
      Concluded(WithJob(failed, r, Emitting(claim.executionId, Broken)), claim.executionId)
    case CommitResult(r, result) =>
      var claim := JobAt(s, r).claim;
      var (db, cancelled) := FinishTxn(s.db, claim, JobAt(s, r).answer, result);
      var event := if cancelled then Stopped else Completed;
      Concluded(WithJob(s.(db := db), r, Emitting(claim.executionId, event)), claim.executionId)
    case Emit(r, lost) =>
      var emitting := JobAt(s, r);
      var events := if lost then s.events else s.events + [(emitting.executionId, emitting.event)];
      WithJob(s.(events := events), r, Free)
  }

  function Concluded(s: System, e: nat): System {
    s.(concluded := s.concluded + {e})
  }

  ghost predicate IsRun(run: seq<System>, steps: seq<Step>, maxAttempts: nat) {
    && |run| == |steps| + 1
    && run[0] == NOTHING
    && forall i | 0 <= i < |steps| :: Enabled(run[i], steps[i]) && run[i + 1] == Next(run[i], steps[i], maxAttempts)
  }

  // ---------------------------------------------------------------------------
  // The joint invariant
  // ---------------------------------------------------------------------------

  /** The claims a runner still has to settle. */
  function Held(runner: Runner): seq<Claim> {
    (if runner.job.Free? || runner.job.Emitting? then [] else [runner.job.claim]) + runner.queue
  }

  /** The message asks for an execution that exists. */
  predicate Routed(s: System, message: Message) {
    message.isRequest && message.executionId in s.db.executions
  }

  function StatusOf(s: System, e: nat): E.Status
    requires e in s.db.executions
  {
    s.db.executions[e].status
  }

  predicate Unopened(s: System, e: nat)
    requires e in s.db.executions
  {
    (StatusOf(s, e).Pending? || StatusOf(s, e).CancelRequested?) && e !in s.started && e !in s.concluded
  }

  predicate Underway(s: System, e: nat)
    requires e in s.db.executions
  {
    (StatusOf(s, e).Running? || StatusOf(s, e).CancelRequested?) && e !in s.concluded
  }

  ghost predicate Holds(s: System, r: nat, m: nat) {
    exists claim <- Held(RunnerAt(s, r)) :: claim.message == m
  }

  ghost predicate MessageOk(s: System, m: nat, maxAttempts: nat)
    requires m in s.db.messages
  {
    var message := s.db.messages[m];
    var e := message.executionId;
    && (Routed(s, message) ==> e in s.messageOf && s.messageOf[e] == m)
    && message.attempts <= maxAttempts
    && (message.status.Pending? || message.attempts >= 1)
    && match message.status
       case Pending =>
         && message.lockedBy.None? && message.attempts < maxAttempts
         && (Routed(s, message) ==> message.attempts == 0 && Unopened(s, e))
       case Processing =>
         && message.lockedBy.Some? && Holds(s, message.lockedBy.value, m)
         && (Routed(s, message) ==> message.attempts == 1 && !StatusOf(s, e).IsTerminal() && e !in s.concluded)
       case Processed =>
         && message.lockedBy.None?
         && (Routed(s, message) ==>
               e in s.concluded && (StatusOf(s, e).Completed? || StatusOf(s, e).Cancelled?))
       case Failed =>
         && message.lockedBy.None? && message.isRequest
         && (if Routed(s, message) then
               e in s.concluded && message.attempts == 1 && (StatusOf(s, e).Failed? || StatusOf(s, e).CancelRequested?)
             else message.attempts == maxAttempts)
  }

  /** The claim and the message agree, as far as the message still exists. */
  ghost predicate Linked(s: System, r: nat, claim: Claim, maxAttempts: nat) {
    && claim.message in s.usedMessages
    && 1 <= claim.attempts <= maxAttempts
    && (claim.isRequest ==> claim.message in s.db.messages)
    && (claim.message in s.db.messages ==>
          s.db.messages[claim.message]
          == Message(claim.isRequest, claim.executionId, Processing, Some(r), claim.attempts))
  }

  ghost predicate QueuedOk(s: System, claim: Claim) {
    claim.isRequest && claim.executionId in s.db.executions ==> Unopened(s, claim.executionId)
  }

  ghost predicate WorkingOk(s: System, claim: Claim) {
    claim.isRequest && claim.executionId in s.db.executions && Underway(s, claim.executionId)
  }

  /** What was announced is what the row says, as long as the row exists. */
  ghost predicate Truthful(s: System, e: nat, event: LifeEvent) {
    e in s.db.executions ==>
      match event
      case Started => true
      case Completed => StatusOf(s, e).Completed?
      case Stopped => StatusOf(s, e).Cancelled?
      case Broken => StatusOf(s, e).Failed? || StatusOf(s, e).CancelRequested?
  }

  ghost predicate Announced(s: System, e: nat) {
    exists i | 0 <= i < |s.events| :: s.events[i].0 == e && s.events[i].1.IsTerminal()
  }

  ghost predicate JobOk(s: System, job: Job) {
    match job
    case Free => true
    case Starting(claim) => WorkingOk(s, claim) && claim.executionId !in s.started
    case Emitting(e, event) => event.IsTerminal() && e in s.concluded && Truthful(s, e, event) && !Announced(s, e)
    case _ => WorkingOk(s, job.claim)
  }

  ghost predicate RunnerOk(s: System, r: nat, maxAttempts: nat) {
    var runner := RunnerAt(s, r);
    && JobOk(s, runner.job)
    && (forall claim <- Held(runner) :: Linked(s, r, claim, maxAttempts))
    && (forall i, j | 0 <= i < j < |Held(runner)| :: Held(runner)[i].message != Held(runner)[j].message)
    && (forall claim <- runner.queue :: QueuedOk(s, claim))
  }

  ghost predicate EventsOk(s: System) {
    && (forall i | 0 <= i < |s.events| && s.events[i].1.IsTerminal() ::
          s.events[i].0 in s.concluded && Truthful(s, s.events[i].0, s.events[i].1))
    && (forall i, j | 0 <= i < j < |s.events| && s.events[i].1.IsTerminal() && s.events[j].1.IsTerminal() ::
          s.events[i].0 != s.events[j].0)
    && (forall r, q | r != q && JobAt(s, r).Emitting? && JobAt(s, q).Emitting? ::
          JobAt(s, r).executionId != JobAt(s, q).executionId)
  }

  ghost predicate NamesOk(s: System) {
    && s.db.executions.Keys <= s.usedExecutions
    && s.db.messages.Keys <= s.usedMessages
    && (forall m <- s.db.messages :: s.db.messages[m].isRequest ==> s.db.messages[m].executionId in s.usedExecutions)
    && (forall e <- s.started :: e in s.usedExecutions)
    && s.concluded <= s.usedExecutions
    && Distinct(s.started)
  }

  /** Every execution still has the request it was created with. */
  ghost predicate RequestsOk(s: System) {
    forall e <- s.db.executions ::
      && e in s.messageOf && s.messageOf[e] in s.db.messages
      && s.db.messages[s.messageOf[e]].isRequest && s.db.messages[s.messageOf[e]].executionId == e
  }

  ghost predicate Invariant(s: System, maxAttempts: nat) {
    && NamesOk(s)
    && RequestsOk(s)
    && EventsOk(s)
    && (forall m <- s.db.messages :: MessageOk(s, m, maxAttempts))
    && (forall r :: RunnerOk(s, r, maxAttempts))
  }

  // ---------------------------------------------------------------------------
  // Steps of one runner
  // ---------------------------------------------------------------------------

  /** The execution is the claim's to change. */
  predicate Owns(s: System, claim: Claim) {
    claim.isRequest && claim.executionId in s.db.executions
  }

  /** Only this runner, its first claim's message and its first claim's execution change. */
  ghost predicate IsLocal(s: System, t: System, r: nat, claim: Claim) {
    && (forall q | q != r :: RunnerAt(t, q) == RunnerAt(s, q))
    && Held(RunnerAt(s, r)) != [] && Held(RunnerAt(s, r))[0] == claim
    && (Held(RunnerAt(t, r)) == Held(RunnerAt(s, r)) || Held(RunnerAt(t, r)) == Held(RunnerAt(s, r))[1..])
    && t.db.messages.Keys == s.db.messages.Keys
    && (forall m <- s.db.messages :: m != claim.message ==> t.db.messages[m] == s.db.messages[m])
    && t.db.executions.Keys == s.db.executions.Keys
    && (forall e <- s.db.executions ::
          t.db.executions[e] != s.db.executions[e] ==> Owns(s, claim) && e == claim.executionId)
    && t.usedExecutions == s.usedExecutions && t.usedMessages == s.usedMessages && t.messageOf == s.messageOf
    && (t.started == s.started || (t.started == s.started + [claim.executionId] && Owns(s, claim)))
    && (t.concluded == s.concluded || (t.concluded == s.concluded + {claim.executionId} && Owns(s, claim)))
    && (t.events == s.events || t.events == s.events + [(claim.executionId, Started)])
  }

  /** A claim that owns its execution is the only way to it. */
  lemma OwnerIsUnique(s: System, r: nat, claim: Claim, maxAttempts: nat)
    requires Invariant(s, maxAttempts) && claim in Held(RunnerAt(s, r)) && Owns(s, claim)
    ensures claim.executionId in s.messageOf && s.messageOf[claim.executionId] == claim.message
    ensures claim.executionId !in s.concluded && !StatusOf(s, claim.executionId).IsTerminal()
    ensures claim.attempts == 1
  {
    hide NamesOk, RequestsOk, EventsOk;
    assert RunnerOk(s, r, maxAttempts) && Linked(s, r, claim, maxAttempts);
    assert MessageOk(s, claim.message, maxAttempts);
  }

  lemma OtherRunnersKeep(s: System, t: System, r: nat, claim: Claim, q: nat, maxAttempts: nat)
    requires Invariant(s, maxAttempts) && IsLocal(s, t, r, claim) && q != r
    ensures JobOk(t, JobAt(t, q)) || JobAt(t, q).Emitting?
    ensures forall other <- Held(RunnerAt(t, q)) :: Linked(t, q, other, maxAttempts)
    ensures forall other <- RunnerAt(t, q).queue :: QueuedOk(t, other)
  {
    hide NamesOk, RequestsOk, EventsOk, MessageOk;
    assert RunnerOk(s, q, maxAttempts) && RunnerOk(s, r, maxAttempts);
    assert Linked(s, r, claim, maxAttempts);
    if Owns(s, claim) {
      OwnerIsUnique(s, r, claim, maxAttempts);
    }
    forall other | other in Held(RunnerAt(s, q))
      ensures other.message in s.db.messages ==> other.message != claim.message
      ensures Owns(s, other) && Owns(s, claim) ==> other.executionId != claim.executionId
    {
      assert Linked(s, q, other, maxAttempts);
      if Owns(s, other) {
        OwnerIsUnique(s, q, other, maxAttempts);
      }
    }
    var job := JobAt(s, q);
    if !job.Free? && !job.Emitting? {
      assert job.claim in Held(RunnerAt(s, q));
    }
    assert forall other <- RunnerAt(s, q).queue :: other in Held(RunnerAt(s, q));
  }

  lemma OtherMessagesKeep(s: System, t: System, r: nat, claim: Claim, m: nat, maxAttempts: nat)
    requires Invariant(s, maxAttempts) && IsLocal(s, t, r, claim) && m in s.db.messages && m != claim.message
    ensures MessageOk(t, m, maxAttempts)
  {
    hide NamesOk, RequestsOk, EventsOk, JobOk, QueuedOk;
    assert MessageOk(s, m, maxAttempts) && RunnerOk(s, r, maxAttempts);
    var message := s.db.messages[m];
    if Owns(s, claim) {
      OwnerIsUnique(s, r, claim, maxAttempts);
    }
    assert Routed(t, message) <==> Routed(s, message);
    if message.lockedBy.Some? {
      var q := message.lockedBy.value;
      if message.status.Processing? {
        HeldElsewhere(s, t, r, claim, q, m);
      }
    }
  }

  lemma HeldElsewhere(s: System, t: System, r: nat, claim: Claim, q: nat, m: nat)
    requires IsLocal(s, t, r, claim) && Holds(s, q, m) && m != claim.message
    ensures Holds(t, q, m)
  {
    var held :| held in Held(RunnerAt(s, q)) && held.message == m;
    if q == r {
      assert held in Held(RunnerAt(s, r))[1..];
    }
  }

  lemma AnnouncedAfter(s: System, t: System, claim: Claim, e: nat)
    requires t.events == s.events || t.events == s.events + [(claim.executionId, Started)]
    ensures Announced(t, e) <==> Announced(s, e)
  {
    assert forall i | 0 <= i < |s.events| :: t.events[i] == s.events[i];
    if Announced(s, e) {
      var i :| 0 <= i < |s.events| && s.events[i].0 == e && s.events[i].1.IsTerminal();
      assert t.events[i].0 == e && t.events[i].1.IsTerminal();
    }
  }

  lemma OtherJobsKeep(s: System, t: System, r: nat, claim: Claim, q: nat, maxAttempts: nat)
    requires Invariant(s, maxAttempts) && IsLocal(s, t, r, claim) && q != r
    ensures JobOk(t, JobAt(t, q))
  {
    hide NamesOk, RequestsOk, EventsOk, MessageOk, Linked, QueuedOk;
    OtherRunnersKeep(s, t, r, claim, q, maxAttempts);
    assert RunnerOk(s, q, maxAttempts) && RunnerOk(s, r, maxAttempts);
    var job := JobAt(s, q);
    if job.Emitting? {
      if Owns(s, claim) {
        OwnerIsUnique(s, r, claim, maxAttempts);
      }
      AnnouncedAfter(s, t, claim, job.executionId);
    }
  }

  lemma EventsAfterLocal(s: System, t: System, r: nat, claim: Claim, maxAttempts: nat)
    requires Invariant(s, maxAttempts) && IsLocal(s, t, r, claim)
    requires JobAt(t, r).Emitting? ==> JobAt(t, r).executionId == claim.executionId && Owns(s, claim)
    ensures EventsOk(t)
  {
    hide NamesOk, RequestsOk, MessageOk, Linked, QueuedOk;
    assert RunnerOk(s, r, maxAttempts);
    if Owns(s, claim) {
      OwnerIsUnique(s, r, claim, maxAttempts);
    }
    assert forall i | 0 <= i < |s.events| :: t.events[i] == s.events[i];
    forall q | q != r && JobAt(t, q).Emitting? && JobAt(t, r).Emitting?
      ensures JobAt(t, q).executionId != JobAt(t, r).executionId
    {
      assert RunnerOk(s, q, maxAttempts) && JobAt(t, q) == JobAt(s, q);
    }
    assert forall q | q != r :: JobAt(t, q) == JobAt(s, q);
  }

  /** A local step that leaves its own runner and message in order leaves everything in order. */
  lemma LocalKeeps(s: System, t: System, r: nat, claim: Claim, maxAttempts: nat)
    requires Invariant(s, maxAttempts) && IsLocal(s, t, r, claim)
    requires RunnerOk(t, r, maxAttempts)
    requires claim.message in t.db.messages ==>
      && MessageOk(t, claim.message, maxAttempts)
      && t.db.messages[claim.message].isRequest == s.db.messages[claim.message].isRequest
      && t.db.messages[claim.message].executionId == s.db.messages[claim.message].executionId
    requires JobAt(t, r).Emitting? ==> JobAt(t, r).executionId == claim.executionId && Owns(s, claim)
    requires t.started == s.started || claim.executionId !in s.started
    ensures Invariant(t, maxAttempts)
  {
    EventsAfterLocal(s, t, r, claim, maxAttempts);
    forall m | m in t.db.messages ensures MessageOk(t, m, maxAttempts) {
      if m != claim.message {
        OtherMessagesKeep(s, t, r, claim, m, maxAttempts);
      }
    }
    forall q ensures RunnerOk(t, q, maxAttempts) {
      if q != r {
        assert RunnerOk(s, q, maxAttempts);
        OtherJobsKeep(s, t, r, claim, q, maxAttempts);
        OtherRunnersKeep(s, t, r, claim, q, maxAttempts);
        assert RunnerAt(t, q) == RunnerAt(s, q);
      }
    }
    NamesAfterLocal(s, t, r, claim);
  }

  lemma NamesAfterLocal(s: System, t: System, r: nat, claim: Claim)
    requires NamesOk(s) && RequestsOk(s) && IsLocal(s, t, r, claim)
    requires claim.message in t.db.messages ==>
      && t.db.messages[claim.message].isRequest == s.db.messages[claim.message].isRequest
      && t.db.messages[claim.message].executionId == s.db.messages[claim.message].executionId
    requires t.started == s.started || claim.executionId !in s.started
    ensures NamesOk(t) && RequestsOk(t)
  {
    hide Held;
    forall m | m in t.db.messages
      ensures t.db.messages[m].isRequest == s.db.messages[m].isRequest
      ensures t.db.messages[m].executionId == s.db.messages[m].executionId
    {
      if m != claim.message {
        assert t.db.messages[m] == s.db.messages[m];
      }
    }
  }

  // ---------------------------------------------------------------------------
  // The steps of a runner with a claim
  // ---------------------------------------------------------------------------

  /** The job moves on, the database stays. */
  lemma JobStepKeeps(s: System, r: nat, job: Job, maxAttempts: nat)
    requires Invariant(s, maxAttempts)
    requires !JobAt(s, r).Free? && !JobAt(s, r).Emitting?
    requires !job.Free? && !job.Emitting? && !job.Starting? && job.claim == JobAt(s, r).claim
    ensures Invariant(WithJob(s, r, job), maxAttempts)
  {
    hide NamesOk, RequestsOk, EventsOk;
    var t, claim := WithJob(s, r, job), job.claim;
    assert RunnerOk(s, r, maxAttempts);
    assert Held(RunnerAt(t, r)) == Held(RunnerAt(s, r));
    assert claim in Held(RunnerAt(s, r)) && Linked(s, r, claim, maxAttempts);
    if claim.message in s.db.messages {
      assert MessageOk(s, claim.message, maxAttempts);
      SameHolders(s, t, r, claim);
    }
    LocalKeeps(s, t, r, claim, maxAttempts);
  }

  lemma SameHolders(s: System, t: System, r: nat, claim: Claim)
    requires claim in Held(RunnerAt(t, r))
    ensures Holds(t, r, claim.message)
  {}

  lemma StartIsLocal(s: System, r: nat, raises: bool, maxAttempts: nat)
    requires JobAt(s, r).Starting? && WorkingOk(s, JobAt(s, r).claim)
    ensures var t, claim := Next(s, StartRuntime(r, raises), maxAttempts), JobAt(s, r).claim;
      && IsLocal(s, t, r, claim)
      && RunnerAt(t, r) == Runner(RunnerAt(s, r).queue, if raises then Checking(claim) else Watching(claim))
      && t.db == s.db && t.concluded == s.concluded
      && t.usedMessages == s.usedMessages && t.messageOf == s.messageOf
  {
    var t := Next(s, StartRuntime(r, raises), maxAttempts);
    assert Held(RunnerAt(t, r)) == Held(RunnerAt(s, r));
  }

  /** What is under way and claimed stays so when its runtime starts. */
  lemma WorkingStays(s: System, t: System, r: nat, claim: Claim, maxAttempts: nat)
    requires WorkingOk(s, claim) && Linked(s, r, claim, maxAttempts)
    requires claim.message in s.db.messages && MessageOk(s, claim.message, maxAttempts)
    requires Holds(t, r, claim.message) && t.db == s.db && t.concluded == s.concluded
    requires t.usedMessages == s.usedMessages && t.messageOf == s.messageOf
    ensures WorkingOk(t, claim) && Linked(t, r, claim, maxAttempts) && MessageOk(t, claim.message, maxAttempts)
  {
    hide Holds;
  }

  lemma StartKeeps(s: System, r: nat, raises: bool, maxAttempts: nat)
    requires Invariant(s, maxAttempts) && JobAt(s, r).Starting?
    ensures Invariant(Next(s, StartRuntime(r, raises), maxAttempts), maxAttempts)
  {
    var t, claim, queue := Next(s, StartRuntime(r, raises), maxAttempts), JobAt(s, r).claim, RunnerAt(s, r).queue;
    assert RunnerOk(s, r, maxAttempts);
    WorkingOwns(s, r, maxAttempts);
    StartIsLocal(s, r, raises, maxAttempts);
    assert Held(RunnerAt(t, r)) == Held(RunnerAt(s, r)) == [claim] + queue;
    assert claim in Held(RunnerAt(s, r)) && claim.executionId !in s.started;
    assert MessageOk(s, claim.message, maxAttempts) && Linked(s, r, claim, maxAttempts);
    hide Invariant, NamesOk, RequestsOk, EventsOk, MessageOk, Linked, QueuedOk, IsLocal, Next, Enabled, WorkingOk;
    SameHolders(s, t, r, claim);
    WorkingStays(s, t, r, claim, maxAttempts);
    RestStaysLinked(s, t, r, claim, maxAttempts);
    OwnsWhatItWorksOn(s, claim);
    QueueAvoids(s, r, claim, maxAttempts);
    QueueStaysOk(s, t, r, claim, queue);
    RunnerIsOk(t, r, claim, queue, RunnerAt(t, r).job, maxAttempts);
    LocalKeeps(s, t, r, claim, maxAttempts);
  }

  lemma OwnsWhatItWorksOn(s: System, claim: Claim)
    requires WorkingOk(s, claim)
    ensures Owns(s, claim)
  {}

  /** Queued claims stay in order, as their executions are others. */
  lemma QueueStaysOk(s: System, t: System, r: nat, claim: Claim, queue: seq<Claim>)
    requires IsLocal(s, t, r, claim)
    requires forall other <- queue :: QueuedOk(s, other)
    requires forall other <- queue :: Owns(s, other) ==> other.executionId != claim.executionId || !Owns(s, claim)
    ensures forall other <- queue :: QueuedOk(t, other)
  {
    hide Held;
  }

  /** Nothing queued at the runner concerns the execution of the claim it works on. */
  lemma QueueAvoids(s: System, r: nat, claim: Claim, maxAttempts: nat)
    requires Invariant(s, maxAttempts) && Owns(s, claim)
    requires Held(RunnerAt(s, r)) != [] && Held(RunnerAt(s, r))[0] == claim
    ensures forall other <- Held(RunnerAt(s, r))[1..] :: Owns(s, other) ==> other.executionId != claim.executionId
  {
    hide NamesOk, RequestsOk, EventsOk, MessageOk, Linked, JobOk, QueuedOk;
    var held := Held(RunnerAt(s, r));
    assert RunnerOk(s, r, maxAttempts);
    OwnerIsUnique(s, r, claim, maxAttempts);
    forall i | 1 <= i < |held| && Owns(s, held[i]) ensures held[i].executionId != claim.executionId {
      OwnerIsUnique(s, r, held[i], maxAttempts);
    }
  }

  // ---------------------------------------------------------------------------
  // Terminal transactions
  // ---------------------------------------------------------------------------

  lemma LinkStays(s: System, t: System, r: nat, claim: Claim, other: Claim, maxAttempts: nat)
    requires IsLocal(s, t, r, claim) && Linked(s, r, other, maxAttempts) && other.message != claim.message
    ensures Linked(t, r, other, maxAttempts)
  {
    hide Held, RunnerAt, Owns;
  }

  lemma OthersHaveOtherMessages(held: seq<Claim>, other: Claim)
    requires forall i, j | 0 <= i < j < |held| :: held[i].message != held[j].message
    requires held != [] && other in held[1..]
    ensures other in held && other.message != held[0].message
  {
    var i :| 1 <= i < |held| && held[i] == other;
  }

  /** The claims behind the first one stay linked when only the first one's message changes. */
  lemma RestStaysLinked(s: System, t: System, r: nat, claim: Claim, maxAttempts: nat)
    requires RunnerOk(s, r, maxAttempts) && IsLocal(s, t, r, claim)
    ensures forall other <- Held(RunnerAt(s, r))[1..] :: Linked(t, r, other, maxAttempts)
  {
    var held := Held(RunnerAt(s, r));
    assert (forall i, j | 0 <= i < j < |held| :: held[i].message != held[j].message)
      && forall other <- held :: Linked(s, r, other, maxAttempts);
    assert held != [] && held[0] == claim;
    hide *;
    forall other | other in held[1..] ensures Linked(t, r, other, maxAttempts) {
      OthersHaveOtherMessages(held, other);
      LinkStays(s, t, r, claim, other, maxAttempts);
    }
  }

  lemma NotYetAnnounced(s: System, e: nat)
    requires EventsOk(s) && e !in s.concluded
    ensures !Announced(s, e)
  {}

  /** A transaction that settles its claim and leaves the terminal event to emit. */
  lemma ConcludeKeeps(s: System, t: System, r: nat, claim: Claim, event: LifeEvent, maxAttempts: nat)
    requires Invariant(s, maxAttempts) && IsLocal(s, t, r, claim) && Owns(s, claim)
    requires RunnerAt(t, r) == Runner(Held(RunnerAt(s, r))[1..], Emitting(claim.executionId, event))
    requires RunnerAt(t, r).queue == RunnerAt(s, r).queue || RunnerAt(t, r).queue == RunnerAt(s, r).queue[1..]
    requires event.IsTerminal() && t.concluded == s.concluded + {claim.executionId} && t.started == s.started
    requires t.events == s.events
    requires Truthful(t, claim.executionId, event)
    requires claim.message in s.db.messages && claim.message in t.db.messages
    requires var before, after := s.db.messages[claim.message], t.db.messages[claim.message];
      if event.Broken? then after == Outbox.MarkedFailed(before) else after == MarkedProcessed(before)
    requires event.Broken? || StatusOf(t, claim.executionId).Completed? || StatusOf(t, claim.executionId).Cancelled?
    ensures Invariant(t, maxAttempts)
  {
    hide NamesOk, RequestsOk;
    assert RunnerOk(s, r, maxAttempts);
    var e := claim.executionId;
    OwnerIsUnique(s, r, claim, maxAttempts);
    assert Linked(s, r, claim, maxAttempts) && MessageOk(s, claim.message, maxAttempts);
    NotYetAnnounced(s, e);
    AnnouncedAfter(s, t, claim, e);
    QueueAvoids(s, r, claim, maxAttempts);
    QueueStaysOk(s, t, r, claim, RunnerAt(t, r).queue);
    RestStaysLinked(s, t, r, claim, maxAttempts);
    assert Held(RunnerAt(t, r)) == Held(RunnerAt(s, r))[1..];
    LocalKeeps(s, t, r, claim, maxAttempts);
  }

  lemma WorkingOwns(s: System, r: nat, maxAttempts: nat)
    requires Invariant(s, maxAttempts) && !JobAt(s, r).Free? && !JobAt(s, r).Emitting?
    ensures WorkingOk(s, JobAt(s, r).claim) && JobAt(s, r).claim.message in s.db.messages
    ensures Held(RunnerAt(s, r)) == [JobAt(s, r).claim] + RunnerAt(s, r).queue
    ensures Held(RunnerAt(s, r))[1..] == RunnerAt(s, r).queue
  {
    assert RunnerOk(s, r, maxAttempts);
    assert JobAt(s, r).claim in Held(RunnerAt(s, r));
  }

  lemma CommitCancelledKeeps(s: System, r: nat, maxAttempts: nat)
    requires Invariant(s, maxAttempts) && JobAt(s, r).Stopping?
    ensures Invariant(Next(s, CommitCancelled(r), maxAttempts), maxAttempts)
  {
    hide Invariant;
    WorkingOwns(s, r, maxAttempts);
    ConcludeKeeps(s, Next(s, CommitCancelled(r), maxAttempts), r, JobAt(s, r).claim, Stopped, maxAttempts);
  }

  lemma CommitFailureKeeps(s: System, r: nat, error: string, maxAttempts: nat)
    requires Invariant(s, maxAttempts) && JobAt(s, r).Failing?
    ensures Invariant(Next(s, CommitFailure(r, error), maxAttempts), maxAttempts)
  {
    hide Invariant;
    WorkingOwns(s, r, maxAttempts);
    ConcludeKeeps(s, Next(s, CommitFailure(r, error), maxAttempts), r, JobAt(s, r).claim, Broken, maxAttempts);
  }

  lemma CommitResultKeeps(s: System, r: nat, result: Option<string>, maxAttempts: nat)
    requires Invariant(s, maxAttempts) && JobAt(s, r).Finishing?
    ensures Invariant(Next(s, CommitResult(r, result), maxAttempts), maxAttempts)
  {
    hide Invariant;
    WorkingOwns(s, r, maxAttempts);
    var claim := JobAt(s, r).claim;
    var event := if StatusOf(s, claim.executionId).CancelRequested? then Stopped else Completed;
    ConcludeKeeps(s, Next(s, CommitResult(r, result), maxAttempts), r, claim, event, maxAttempts);
  }

  lemma EmitKeeps(s: System, r: nat, lost: bool, maxAttempts: nat)
    requires Invariant(s, maxAttempts) && JobAt(s, r).Emitting?
    ensures Invariant(Next(s, Emit(r, lost), maxAttempts), maxAttempts)
  {
    hide NamesOk, RequestsOk, QueuedOk, Linked, WorkingOk;
    var t := Next(s, Emit(r, lost), maxAttempts);
    var e := JobAt(s, r).executionId;
    assert forall q :: Held(RunnerAt(t, q)) == Held(RunnerAt(s, q));
    assert RunnerOk(s, r, maxAttempts);
    forall q ensures RunnerOk(t, q, maxAttempts) {
      assert RunnerOk(s, q, maxAttempts);
      if q != r && JobAt(s, q).Emitting? {
        assert JobAt(s, q).executionId != e;
        AnnouncedAfterEmit(s, t, e, JobAt(s, r).event, JobAt(s, q).executionId);
      }
      SameLinks(s, t, q, maxAttempts);
    }
    forall m | m in t.db.messages ensures MessageOk(t, m, maxAttempts) {
      assert MessageOk(s, m, maxAttempts);
      SameMessage(s, t, m, maxAttempts);
    }
    EventsAfterEmit(s, t, r, maxAttempts);
    assert NamesOk(t) && RequestsOk(t) by { SameNames(s, t); }
  }

  lemma SameNames(s: System, t: System)
    requires NamesOk(s) && RequestsOk(s)
    requires t == s.(runners := t.runners, events := t.events)
    ensures NamesOk(t) && RequestsOk(t)
  {}

  lemma SameMessage(s: System, t: System, m: nat, maxAttempts: nat)
    requires m in s.db.messages && MessageOk(s, m, maxAttempts)
    requires t == s.(runners := t.runners, events := t.events)
    requires forall q :: Held(RunnerAt(t, q)) == Held(RunnerAt(s, q))
    ensures MessageOk(t, m, maxAttempts)
  {
    hide Held;
  }

  lemma SameLinks(s: System, t: System, q: nat, maxAttempts: nat)
    requires RunnerOk(s, q, maxAttempts)
    requires t == s.(runners := t.runners, events := t.events)
    ensures forall claim <- Held(RunnerAt(s, q)) :: Linked(t, q, claim, maxAttempts)
    ensures forall claim <- RunnerAt(s, q).queue :: QueuedOk(t, claim)
    ensures forall claim :: WorkingOk(t, claim) <==> WorkingOk(s, claim)
  {
    hide Held, JobOk;
  }

  lemma AnnouncedAfterEmit(s: System, t: System, e: nat, event: LifeEvent, other: nat)
    requires t.events == s.events || t.events == s.events + [(e, event)]
    requires other != e && !Announced(s, other)
    ensures !Announced(t, other)
  {
    forall i | 0 <= i < |t.events| ensures !(t.events[i].0 == other && t.events[i].1.IsTerminal()) {
      if i < |s.events| {
        assert t.events[i] == s.events[i];
      }
    }
  }

  lemma EventsAfterEmit(s: System, t: System, r: nat, maxAttempts: nat)
    requires EventsOk(s) && JobAt(s, r).Emitting? && JobOk(s, JobAt(s, r))
    requires t == Next(s, Emit(r, false), maxAttempts) || t == Next(s, Emit(r, true), maxAttempts)
    ensures EventsOk(t)
  {
    var e, event := JobAt(s, r).executionId, JobAt(s, r).event;
    assert forall i | 0 <= i < |s.events| :: t.events[i] == s.events[i];
    assert forall i | 0 <= i < |s.events| && s.events[i].1.IsTerminal() :: s.events[i].0 != e;
    assert forall q :: JobAt(t, q) == if q == r then Free else JobAt(s, q);
  }

  // ---------------------------------------------------------------------------
  // Opening a message
  // ---------------------------------------------------------------------------

  lemma FirstQueued(s: System, r: nat, maxAttempts: nat) returns (claim: Claim)
    requires Invariant(s, maxAttempts) && Enabled(s, Open(r))
    ensures claim == RunnerAt(s, r).queue[0] && Held(RunnerAt(s, r)) == RunnerAt(s, r).queue
    ensures Linked(s, r, claim, maxAttempts) && QueuedOk(s, claim)
    ensures claim.message in s.db.messages ==> MessageOk(s, claim.message, maxAttempts)
  {
    claim := RunnerAt(s, r).queue[0];
    assert RunnerOk(s, r, maxAttempts);
    assert claim in Held(RunnerAt(s, r));
  }

  lemma OpenPendingIsLocal(s: System, r: nat, claim: Claim, maxAttempts: nat)
    requires Enabled(s, Open(r)) && claim == RunnerAt(s, r).queue[0]
    requires OpenTxn(s.db, claim, maxAttempts).1.MarkedAsRunning? && Held(RunnerAt(s, r)) == RunnerAt(s, r).queue
    ensures var t := Next(s, Open(r), maxAttempts);
      && IsLocal(s, t, r, claim) && Owns(s, claim) && Owns(t, claim)
      && RunnerAt(t, r) == Runner(RunnerAt(s, r).queue[1..], Starting(claim))
      && t.db.messages == s.db.messages && t.started == s.started && t.concluded == s.concluded
      && !StatusOf(s, claim.executionId).CancelRequested?
      && t.db.executions[claim.executionId] == MarkedRunning(s.db.executions[claim.executionId])
  {
    assert [claim] + RunnerAt(s, r).queue[1..] == RunnerAt(s, r).queue;
  }

  /** A waiting execution that is started is under way, and its message stays claimed. */
  lemma WaitingStarts(s: System, t: System, r: nat, claim: Claim, maxAttempts: nat)
    requires Owns(s, claim) && Owns(t, claim) && QueuedOk(s, claim)
    requires claim.message in s.db.messages && MessageOk(s, claim.message, maxAttempts)
    requires Linked(s, r, claim, maxAttempts) && Holds(t, r, claim.message)
    requires t.db.messages == s.db.messages && t.usedMessages == s.usedMessages && t.messageOf == s.messageOf
    requires t.started == s.started && t.concluded == s.concluded
    requires !StatusOf(s, claim.executionId).CancelRequested?
    requires t.db.executions[claim.executionId] == MarkedRunning(s.db.executions[claim.executionId])
    ensures WorkingOk(t, claim) && claim.executionId !in t.started
    ensures Linked(t, r, claim, maxAttempts) && MessageOk(t, claim.message, maxAttempts)
  {
    hide Holds;
  }

  lemma RunnerIsOk(t: System, r: nat, claim: Claim, rest: seq<Claim>, job: Job, maxAttempts: nat)
    requires RunnerAt(t, r) == Runner(rest, job) && !job.Free? && !job.Emitting? && job.claim == claim
    requires JobOk(t, job) && Linked(t, r, claim, maxAttempts)
    requires forall other <- rest :: Linked(t, r, other, maxAttempts) && QueuedOk(t, other)
    requires forall i, j | 0 <= i < j < |[claim] + rest| :: ([claim] + rest)[i].message != ([claim] + rest)[j].message
    ensures RunnerOk(t, r, maxAttempts)
  {
    hide JobOk, Linked, QueuedOk;
    assert Held(RunnerAt(t, r)) == [claim] + rest;
  }

  /** The execution was found waiting: it runs now, and the message stays claimed. */
  lemma OpenPendingKeeps(s: System, r: nat, maxAttempts: nat)
    requires Invariant(s, maxAttempts) && Enabled(s, Open(r))
    requires OpenTxn(s.db, RunnerAt(s, r).queue[0], maxAttempts).1.MarkedAsRunning?
    ensures Invariant(Next(s, Open(r), maxAttempts), maxAttempts)
  {
    var t, rest := Next(s, Open(r), maxAttempts), RunnerAt(s, r).queue[1..];
    var claim := FirstQueued(s, r, maxAttempts);
    OpenPendingIsLocal(s, r, claim, maxAttempts);
    assert RunnerOk(s, r, maxAttempts);
    assert Held(RunnerAt(t, r)) == [claim] + rest == Held(RunnerAt(s, r));
    hide Invariant, NamesOk, RequestsOk, EventsOk, MessageOk, Linked, QueuedOk, IsLocal, Next, Enabled, JobOk;
    SameHolders(s, t, r, claim);
    LinkedMessage(s, r, claim, maxAttempts);
    SameIdentifiers(s, t, r, claim);
    WaitingStarts(s, t, r, claim, maxAttempts);
    RestStaysLinked(s, t, r, claim, maxAttempts);
    QueueAvoids(s, r, claim, maxAttempts);
    QueueStaysOk(s, t, r, claim, rest);
    StartingIsOk(t, claim);
    RunnerIsOk(t, r, claim, rest, Starting(claim), maxAttempts);
    LocalKeeps(s, t, r, claim, maxAttempts);
  }

  lemma LinkedMessage(s: System, r: nat, claim: Claim, maxAttempts: nat)
    requires Linked(s, r, claim, maxAttempts) && Owns(s, claim)
    ensures claim.message in s.db.messages
  {}

  lemma SameIdentifiers(s: System, t: System, r: nat, claim: Claim)
    requires IsLocal(s, t, r, claim)
    ensures t.usedMessages == s.usedMessages && t.messageOf == s.messageOf
  {}

  lemma StartingIsOk(t: System, claim: Claim)
    requires WorkingOk(t, claim) && claim.executionId !in t.started
    ensures JobOk(t, Starting(claim))
  {}

  lemma OpenCancelledKeeps(s: System, r: nat, maxAttempts: nat)
    requires Invariant(s, maxAttempts) && Enabled(s, Open(r))
    requires OpenTxn(s.db, RunnerAt(s, r).queue[0], maxAttempts).1.FoundCancelled?
    ensures Invariant(Next(s, Open(r), maxAttempts), maxAttempts)
  {
    var claim := FirstQueued(s, r, maxAttempts);
    hide Invariant;
    ConcludeKeeps(s, Next(s, Open(r), maxAttempts), r, claim, Stopped, maxAttempts);
  }

  lemma OtherMessageAfterOpen(s: System, t: System, claim: Claim, r: nat, maxAttempts: nat)
    requires t.db == OpenTxn(s.db, claim, maxAttempts).0 && !Owns(s, claim)
    requires Linked(s, r, claim, maxAttempts) && claim.message in t.db.messages
    ensures MessageOk(t, claim.message, maxAttempts)
    ensures t.db.messages[claim.message].isRequest == s.db.messages[claim.message].isRequest
    ensures t.db.messages[claim.message].executionId == s.db.messages[claim.message].executionId
  {
    hide Held;
  }

  lemma OpenOtherIsLocal(s: System, r: nat, claim: Claim, maxAttempts: nat)
    requires Enabled(s, Open(r)) && claim == RunnerAt(s, r).queue[0] && !Owns(s, claim)
    ensures IsLocal(s, Next(s, Open(r), maxAttempts), r, claim)
    ensures JobAt(Next(s, Open(r), maxAttempts), r).Free?
    ensures RunnerAt(Next(s, Open(r), maxAttempts), r).queue == RunnerAt(s, r).queue[1..]
    ensures Next(s, Open(r), maxAttempts).db == OpenTxn(s.db, claim, maxAttempts).0
    ensures Next(s, Open(r), maxAttempts).started == s.started
  {}

  /** An orphan or a foreign message: released, failed for good, or processed. */
  lemma OpenOtherKeeps(s: System, r: nat, maxAttempts: nat)
    requires Invariant(s, maxAttempts) && Enabled(s, Open(r)) && !Owns(s, RunnerAt(s, r).queue[0])
    ensures Invariant(Next(s, Open(r), maxAttempts), maxAttempts)
  {
    var claim := FirstQueued(s, r, maxAttempts);
    var t, rest := Next(s, Open(r), maxAttempts), RunnerAt(s, r).queue[1..];
    assert RunnerOk(s, r, maxAttempts);
    OpenOtherIsLocal(s, r, claim, maxAttempts);
    hide Invariant, NamesOk, RequestsOk, EventsOk, MessageOk, Linked, IsLocal, Next;
    assert Held(RunnerAt(t, r)) == rest == Held(RunnerAt(s, r))[1..];
    RestStaysLinked(s, t, r, claim, maxAttempts);
    QueueStaysOk(s, t, r, claim, rest);
    if claim.message in t.db.messages {
      OtherMessageAfterOpen(s, t, claim, r, maxAttempts);
    }
    LocalKeeps(s, t, r, claim, maxAttempts);
  }

  lemma OpenKeeps(s: System, r: nat, maxAttempts: nat)
    requires Invariant(s, maxAttempts) && Enabled(s, Open(r))
    ensures Invariant(Next(s, Open(r), maxAttempts), maxAttempts)
  {
    hide Invariant;
    match OpenTxn(s.db, RunnerAt(s, r).queue[0], maxAttempts).1
    case MarkedAsRunning => OpenPendingKeeps(s, r, maxAttempts);
    case FoundCancelled => OpenCancelledKeeps(s, r, maxAttempts);
    case _ => OpenOtherKeeps(s, r, maxAttempts);
  }

  // ---------------------------------------------------------------------------
  // The routes
  // ---------------------------------------------------------------------------

  /** The runners and the history are untouched. */
  ghost predicate IsApiStep(s: System, t: System) {
    t.runners == s.runners && t.started == s.started && t.concluded == s.concluded && t.events == s.events
    && s.usedMessages <= t.usedMessages
  }

  /** The executions that anybody still refers to look the same, or newly ask for cancellation. */
  ghost predicate SameOrAsked(s: System, t: System, e: nat) {
    && (e in t.db.executions <==> e in s.db.executions)
    && (e in s.db.executions ==>
          || t.db.executions[e] == s.db.executions[e]
          || (!StatusOf(s, e).IsTerminal() && StatusOf(t, e).CancelRequested?))
  }

  lemma RunnerAfterApi(s: System, t: System, q: nat, maxAttempts: nat)
    requires RunnerOk(s, q, maxAttempts) && IsApiStep(s, t)
    requires forall claim <- Held(RunnerAt(s, q)) ::
      && (claim.isRequest ==> claim.message in t.db.messages && SameOrAsked(s, t, claim.executionId))
      && (claim.message in t.db.messages ==>
            claim.message in s.db.messages && t.db.messages[claim.message] == s.db.messages[claim.message])
    requires JobAt(s, q).Emitting? ==>
      var e := JobAt(s, q).executionId;
      e in t.db.executions ==> e in s.db.executions && SameOrAsked(s, t, e)
    ensures RunnerOk(t, q, maxAttempts)
  {
    var job := JobAt(s, q);
    assert forall claim <- Held(RunnerAt(s, q)) :: Linked(s, q, claim, maxAttempts);
    if !job.Free? && !job.Emitting? {
      assert job.claim in Held(RunnerAt(s, q));
    }
    assert forall claim <- RunnerAt(s, q).queue :: claim in Held(RunnerAt(s, q));
    assert forall e :: Announced(t, e) <==> Announced(s, e);
  }

  lemma EventsAfterApi(s: System, t: System)
    requires EventsOk(s) && IsApiStep(s, t)
    requires forall e <- s.concluded :: e in t.db.executions ==> e in s.db.executions && SameOrAsked(s, t, e)
    ensures EventsOk(t)
  {
    assert forall q :: JobAt(t, q) == JobAt(s, q);
    forall i | 0 <= i < |t.events| && t.events[i].1.IsTerminal()
      ensures t.events[i].0 in t.concluded && Truthful(t, t.events[i].0, t.events[i].1)
    {
      assert Truthful(s, s.events[i].0, s.events[i].1);
    }
  }

  lemma MessageAfterApi(s: System, t: System, m: nat, maxAttempts: nat)
    requires m in s.db.messages && m in t.db.messages && t.db.messages[m] == s.db.messages[m]
    requires MessageOk(s, m, maxAttempts) && IsApiStep(s, t)
    requires var message := s.db.messages[m];
      && (message.isRequest ==> SameOrAsked(s, t, message.executionId))
      && (Routed(s, message) ==>
            message.executionId in t.messageOf && t.messageOf[message.executionId] == s.messageOf[message.executionId])
    ensures MessageOk(t, m, maxAttempts)
  {
    hide Held;
    assert forall q :: RunnerAt(t, q) == RunnerAt(s, q);
    var message := s.db.messages[m];
    if message.status.Processing? {
      assert Holds(t, message.lockedBy.value, m);
    }
  }

  /** Every claim of every runner is linked. */
  lemma ClaimsAreLinked(s: System, maxAttempts: nat)
    requires Invariant(s, maxAttempts)
    ensures forall q, claim | claim in Held(RunnerAt(s, q)) :: Linked(s, q, claim, maxAttempts)
  {
    hide Held, MessageOk, EventsOk, NamesOk, RequestsOk, Linked, JobOk, QueuedOk;
    forall q, claim | claim in Held(RunnerAt(s, q)) ensures Linked(s, q, claim, maxAttempts) {
      assert RunnerOk(s, q, maxAttempts);
    }
  }

  lemma SessionKeeps(s: System, session: nat, maxAttempts: nat)
    requires Invariant(s, maxAttempts)
    ensures Invariant(WithSession(s, session), maxAttempts)
  {
    hide Held, JobOk, RunnerOk, MessageOk, EventsOk;
    var t := WithSession(s, session);
    assert forall other :: SameOrAsked(s, t, other);
    ClaimsAreLinked(s, maxAttempts);
    forall q ensures RunnerOk(t, q, maxAttempts) {
      assert RunnerOk(s, q, maxAttempts);
      RunnerAfterApi(s, t, q, maxAttempts);
    }
    forall m | m in t.db.messages ensures MessageOk(t, m, maxAttempts) {
      assert MessageOk(s, m, maxAttempts);
      RoutedMessage(s, m, maxAttempts);
      MessageAfterApi(s, t, m, maxAttempts);
    }
    EventsAfterApi(s, t);
  }

  lemma RequestKeeps(s: System, session: nat, e: nat, m: nat, maxAttempts: nat)
    requires Invariant(s, maxAttempts) && maxAttempts >= 1 && e !in s.usedExecutions && m !in s.usedMessages
    ensures Invariant(WithRequest(s, session, e, m), maxAttempts)
  {
    hide Held, JobOk, RunnerOk, MessageOk, EventsOk;
    var t := WithRequest(s, session, e, m);
    assert forall other | other != e :: SameOrAsked(s, t, other);
    ClaimsAreLinked(s, maxAttempts);
    forall q ensures RunnerOk(t, q, maxAttempts) {
      RunnerAfterApi(s, t, q, maxAttempts) by {
        assert RunnerOk(s, q, maxAttempts);
        assert JobAt(s, q).Emitting? ==> JobAt(s, q).executionId in s.concluded by {
          EmittingIsConcluded(s, q, maxAttempts);
        }
      }
    }
    forall other | other in t.db.messages ensures MessageOk(t, other, maxAttempts) {
      if other == m {
        NewMessageOk(t, m, maxAttempts);
      } else {
        assert MessageOk(s, other, maxAttempts);
        MessageAfterApi(s, t, other, maxAttempts);
      }
    }
    EventsAfterApi(s, t);
  }

  lemma NewMessageOk(t: System, m: nat, maxAttempts: nat)
    requires maxAttempts >= 1 && m in t.db.messages
    requires var message := t.db.messages[m];
      && message == NewMessage(message.isRequest, message.executionId)
      && (Routed(t, message) ==>
            && message.executionId in t.messageOf && t.messageOf[message.executionId] == m
            && Unopened(t, message.executionId))
    ensures MessageOk(t, m, maxAttempts)
  {}

  lemma EmittingIsConcluded(s: System, q: nat, maxAttempts: nat)
    requires RunnerOk(s, q, maxAttempts)
    ensures JobAt(s, q).Emitting? ==> JobAt(s, q).executionId in s.concluded
  {}

  lemma InjectKeeps(s: System, m: nat, isRequest: bool, e: nat, maxAttempts: nat)
    requires Invariant(s, maxAttempts) && maxAttempts >= 1 && Enabled(s, InjectOrphan(m, isRequest, e))
    ensures Invariant(Next(s, InjectOrphan(m, isRequest, e), maxAttempts), maxAttempts)
  {
    hide Held, JobOk, RunnerOk, MessageOk, EventsOk;
    var t := Next(s, InjectOrphan(m, isRequest, e), maxAttempts);
    assert forall other :: SameOrAsked(s, t, other);
    ClaimsAreLinked(s, maxAttempts);
    forall q ensures RunnerOk(t, q, maxAttempts) {
      assert RunnerOk(s, q, maxAttempts);
      RunnerAfterApi(s, t, q, maxAttempts);
    }
    forall other | other in t.db.messages ensures MessageOk(t, other, maxAttempts) {
      if other == m {
        NewMessageOk(t, m, maxAttempts);
      } else {
        assert MessageOk(s, other, maxAttempts);
        MessageAfterApi(s, t, other, maxAttempts);
      }
    }
    EventsAfterApi(s, t);
  }

  lemma CancelKeeps(s: System, e: nat, maxAttempts: nat)
    requires Invariant(s, maxAttempts) && Enabled(s, AskCancel(e))
    ensures Invariant(Next(s, AskCancel(e), maxAttempts), maxAttempts)
  {
    hide Held, JobOk, RunnerOk, MessageOk, EventsOk;
    var t := Next(s, AskCancel(e), maxAttempts);
    assert forall other :: SameOrAsked(s, t, other);
    ClaimsAreLinked(s, maxAttempts);
    forall q ensures RunnerOk(t, q, maxAttempts) {
      assert RunnerOk(s, q, maxAttempts);
      RunnerAfterApi(s, t, q, maxAttempts);
    }
    forall m | m in t.db.messages ensures MessageOk(t, m, maxAttempts) {
      assert MessageOk(s, m, maxAttempts);
      RoutedMessage(s, m, maxAttempts);
      MessageAfterApi(s, t, m, maxAttempts);
    }
    EventsAfterApi(s, t);
  }

  lemma RoutedMessage(s: System, m: nat, maxAttempts: nat)
    requires m in s.db.messages && MessageOk(s, m, maxAttempts)
    ensures Routed(s, s.db.messages[m]) ==> s.db.messages[m].executionId in s.messageOf
    ensures Routed(s, s.db.messages[m]) && s.db.messages[m].status.Processing? ==>
      !StatusOf(s, s.db.messages[m].executionId).IsTerminal()
  {
    hide Held;
  }

  lemma DeleteKeeps(s: System, session: nat, maxAttempts: nat)
    requires Invariant(s, maxAttempts) && Enabled(s, DeleteSession(session))
    ensures Invariant(Next(s, DeleteSession(session), maxAttempts), maxAttempts)
  {
    hide Held, JobOk, RunnerOk, MessageOk, EventsOk;
    var t := Next(s, DeleteSession(session), maxAttempts);
    ClaimsAreLinked(s, maxAttempts);
    assert forall e | !InSession(s.db, e, session) :: SameOrAsked(s, t, e);
    forall q ensures RunnerOk(t, q, maxAttempts) {
      assert RunnerOk(s, q, maxAttempts);
      forall claim | claim in Held(RunnerAt(s, q)) && claim.isRequest
        ensures claim.message in t.db.messages && SameOrAsked(s, t, claim.executionId)
      {
        assert Linked(s, q, claim, maxAttempts) && MessageOk(s, claim.message, maxAttempts);
        RoutedMessage(s, claim.message, maxAttempts);
      }
      RunnerAfterApi(s, t, q, maxAttempts);
    }
    forall m | m in t.db.messages ensures MessageOk(t, m, maxAttempts) {
      assert MessageOk(s, m, maxAttempts);
      RoutedMessage(s, m, maxAttempts);
      MessageAfterApi(s, t, m, maxAttempts);
    }
    EventsAfterApi(s, t);
  }

  lemma {:induction false} ClaimsAre(s: System, batch: seq<nat>)
    requires forall m <- batch :: m in s.db.messages
    ensures |ClaimsOf(s, batch)| == |batch|
    ensures forall i | 0 <= i < |batch| :: ClaimsOf(s, batch)[i] == ClaimOf(s, batch[i])
  {
    if batch != [] {
      ClaimsAre(s, batch[..|batch| - 1]);
    }
  }

  /** What claiming a batch does. */
  ghost predicate IsClaim(s: System, t: System, r: nat, batch: seq<nat>)
    requires forall m <- batch :: m in s.db.messages
  {
    && t == s.(db := t.db, runners := t.runners)
    && t.db.executions == s.db.executions
    && t.db.messages.Keys == s.db.messages.Keys
    && (forall m <- s.db.messages ::
          t.db.messages[m] == if m in batch then Claimed(s.db.messages[m], r) else s.db.messages[m])
    && (forall q | q != r :: RunnerAt(t, q) == RunnerAt(s, q))
    && RunnerAt(t, r) == Runner(ClaimsOf(s, batch), Free)
    && RunnerAt(s, r) == Runner([], Free)
    && Distinct(batch)
    && (forall m <- batch :: s.db.messages[m].status.Pending?)
  }

  lemma ClaimantHolds(s: System, t: System, r: nat, batch: seq<nat>, i: nat)
    requires forall m <- batch :: m in s.db.messages
    requires IsClaim(s, t, r, batch) && i < |batch|
    ensures Held(RunnerAt(t, r)) == ClaimsOf(s, batch) && RunnerAt(t, r).job.Free?
    ensures i < |ClaimsOf(s, batch)| && ClaimsOf(s, batch)[i] == ClaimOf(s, batch[i])
    ensures Holds(t, r, batch[i])
  {
    ClaimsAre(s, batch);
    hide ClaimsOf;
    assert Held(RunnerAt(t, r))[i].message == batch[i];
  }

  lemma ClaimedMessageOk(s: System, t: System, r: nat, batch: seq<nat>, m: nat, maxAttempts: nat)
    requires forall m <- batch :: m in s.db.messages
    requires IsClaim(s, t, r, batch) && m in batch && MessageOk(s, m, maxAttempts)
    ensures MessageOk(t, m, maxAttempts)
  {
    hide Held, ClaimsOf, Holds;
    var i :| 0 <= i < |batch| && batch[i] == m;
    ClaimantHolds(s, t, r, batch, i);
  }

  lemma UnclaimedMessageOk(s: System, t: System, r: nat, batch: seq<nat>, m: nat, maxAttempts: nat)
    requires forall m <- batch :: m in s.db.messages
    requires IsClaim(s, t, r, batch) && m in s.db.messages && m !in batch && MessageOk(s, m, maxAttempts)
    ensures MessageOk(t, m, maxAttempts)
  {
    var message := s.db.messages[m];
    assert Held(RunnerAt(s, r)) == [];
    hide Held;
    if message.status.Processing? {
      var q := message.lockedBy.value;
      assert q != r && RunnerAt(t, q) == RunnerAt(s, q);
      assert Holds(t, q, m);
    }
  }

  lemma FreshClaimOk(s: System, t: System, r: nat, batch: seq<nat>, m: nat, maxAttempts: nat)
    requires forall m <- batch :: m in s.db.messages
    requires IsClaim(s, t, r, batch) && m in batch && MessageOk(s, m, maxAttempts)
    requires s.db.messages.Keys <= s.usedMessages
    ensures Linked(t, r, ClaimOf(s, m), maxAttempts) && QueuedOk(t, ClaimOf(s, m))
  {
    hide Held;
  }

  lemma ClaimantOk(s: System, t: System, r: nat, batch: seq<nat>, maxAttempts: nat)
    requires forall m <- batch :: m in s.db.messages
    requires IsClaim(s, t, r, batch) && forall m <- batch :: MessageOk(s, m, maxAttempts)
    requires s.db.messages.Keys <= s.usedMessages
    ensures RunnerOk(t, r, maxAttempts)
  {
    hide Held, ClaimsOf, Linked, QueuedOk, MessageOk;
    ClaimsAre(s, batch);
    var claims := ClaimsOf(s, batch);
    if batch != [] {
      ClaimantHolds(s, t, r, batch, 0);
    } else {
      assert Held(RunnerAt(t, r)) == claims by { NothingHeld(t, r); }
    }
    forall i | 0 <= i < |claims| ensures Linked(t, r, claims[i], maxAttempts) && QueuedOk(t, claims[i]) {
      FreshClaimOk(s, t, r, batch, batch[i], maxAttempts);
    }
    assert forall claim <- claims :: Linked(t, r, claim, maxAttempts) && QueuedOk(t, claim);
  }

  lemma NothingHeld(t: System, r: nat)
    requires RunnerAt(t, r) == Runner([], Free)
    ensures Held(RunnerAt(t, r)) == []
  {}

  lemma BystanderOk(s: System, t: System, r: nat, batch: seq<nat>, q: nat, maxAttempts: nat)
    requires forall m <- batch :: m in s.db.messages
    requires IsClaim(s, t, r, batch) && RunnerOk(s, q, maxAttempts) && q != r
    ensures RunnerOk(t, q, maxAttempts)
  {
    hide Held;
    assert RunnerAt(t, q) == RunnerAt(s, q);
    forall claim | claim in Held(RunnerAt(s, q)) ensures Linked(t, q, claim, maxAttempts) {
      assert Linked(s, q, claim, maxAttempts);
    }
    assert forall e :: Announced(t, e) <==> Announced(s, e);
  }

  lemma ClaimIsClaim(s: System, r: nat, batch: seq<nat>, maxAttempts: nat)
    requires Enabled(s, ClaimBatch(r, batch))
    ensures IsClaim(s, Next(s, ClaimBatch(r, batch), maxAttempts), r, batch)
  {}

  lemma ClaimKeeps(s: System, r: nat, batch: seq<nat>, maxAttempts: nat)
    requires Invariant(s, maxAttempts) && Enabled(s, ClaimBatch(r, batch))
    ensures Invariant(Next(s, ClaimBatch(r, batch), maxAttempts), maxAttempts)
  {
    var t := Next(s, ClaimBatch(r, batch), maxAttempts);
    ClaimIsClaim(s, r, batch, maxAttempts);
    hide Next, MessageOk, RunnerOk, EventsOk;
    forall m | m in t.db.messages ensures MessageOk(t, m, maxAttempts) {
      if m in batch {
        ClaimedMessageOk(s, t, r, batch, m, maxAttempts);
      } else {
        UnclaimedMessageOk(s, t, r, batch, m, maxAttempts);
      }
    }
    forall q ensures RunnerOk(t, q, maxAttempts) {
      if q == r {
        ClaimantOk(s, t, r, batch, maxAttempts);
      } else {
        BystanderOk(s, t, r, batch, q, maxAttempts);
      }
    }
    EventsAfterClaim(s, t, r, batch);
  }

  lemma EventsAfterClaim(s: System, t: System, r: nat, batch: seq<nat>)
    requires forall m <- batch :: m in s.db.messages
    requires IsClaim(s, t, r, batch) && EventsOk(s)
    ensures EventsOk(t)
  {
    assert forall q :: JobAt(t, q) == JobAt(s, q);
  }

  // ---------------------------------------------------------------------------
  // Whole runs
  // ---------------------------------------------------------------------------

  lemma StepKeeps(s: System, step: Step, maxAttempts: nat)
    requires Invariant(s, maxAttempts) && maxAttempts >= 1 && Enabled(s, step)
    ensures Invariant(Next(s, step, maxAttempts), maxAttempts)
  {
    hide Invariant, LookAt, OpenTxn, CancelTxn, FailTxn, FinishTxn;
    match step
    case AddSession(session) => SessionKeeps(s, session, maxAttempts);
    case StartSession(session, e, m) =>
      SessionKeeps(s, session, maxAttempts);
      RequestKeeps(WithSession(s, session), session, e, m, maxAttempts);
    case CreateExecution(session, e, m) => RequestKeeps(s, session, e, m, maxAttempts);
    case InjectOrphan(m, isRequest, e) => InjectKeeps(s, m, isRequest, e, maxAttempts);
    case AskCancel(e) => CancelKeeps(s, e, maxAttempts);
    case DeleteSession(session) => DeleteKeeps(s, session, maxAttempts);
    case ClaimBatch(r, batch) => ClaimKeeps(s, r, batch, maxAttempts);
    case Open(r) => OpenKeeps(s, r, maxAttempts);
    case StartRuntime(r, raises) => StartKeeps(s, r, raises, maxAttempts);
    case Poll(r) =>
      JobStepKeeps(s, r, Stopping(JobAt(s, r).claim), maxAttempts);
      JobStepKeeps(s, r, Draining(JobAt(s, r).claim), maxAttempts);
    case Return(r, answer) => JobStepKeeps(s, r, Finishing(JobAt(s, r).claim, answer), maxAttempts);
    case Raise(r) => JobStepKeeps(s, r, Checking(JobAt(s, r).claim), maxAttempts);
    case Interrupt(r) => JobStepKeeps(s, r, Stopping(JobAt(s, r).claim), maxAttempts);
    case Check(r) =>
      JobStepKeeps(s, r, Stopping(JobAt(s, r).claim), maxAttempts);
      JobStepKeeps(s, r, Failing(JobAt(s, r).claim), maxAttempts);
    case CommitCancelled(r) => CommitCancelledKeeps(s, r, maxAttempts);
    case CommitFailure(r, error) => CommitFailureKeeps(s, r, error, maxAttempts);
    case CommitResult(r, result) => CommitResultKeeps(s, r, result, maxAttempts);
    case Emit(r, lost) => EmitKeeps(s, r, lost, maxAttempts);
  }

  lemma {:induction false} EveryRunKeeps(run: seq<System>, steps: seq<Step>, i: nat, maxAttempts: nat)
    requires IsRun(run, steps, maxAttempts) && maxAttempts >= 1 && i < |run|
    ensures Invariant(run[i], maxAttempts)
  {
    hide Enabled, Next;
    if i > 0 {
      EveryRunKeeps(run, steps, i - 1, maxAttempts);
      hide Invariant;
      StepKeeps(run[i - 1], steps[i - 1], maxAttempts);
    }
  }

  /** The message is locked by one runner, at one place. */
  ghost predicate HasOneHolder(s: System, m: nat) {
    exists r: nat, i: nat :: IsHolder(s, m, r, i) && forall q: nat, j: nat | IsHolder(s, m, q, j) :: q == r && j == i
  }

  ghost predicate IsHolder(s: System, m: nat, r: nat, i: nat) {
    i < |Held(RunnerAt(s, r))| && Held(RunnerAt(s, r))[i].message == m
  }

  lemma ProcessingHasOneHolder(s: System, m: nat, maxAttempts: nat)
    requires Invariant(s, maxAttempts) && m in s.db.messages && s.db.messages[m].status.Processing?
    ensures HasOneHolder(s, m)
  {
    hide NamesOk, RequestsOk, EventsOk;
    assert MessageOk(s, m, maxAttempts);
    var r := s.db.messages[m].lockedBy.value;
    var claim :| claim in Held(RunnerAt(s, r)) && claim.message == m;
    var i :| 0 <= i < |Held(RunnerAt(s, r))| && Held(RunnerAt(s, r))[i] == claim;
    assert IsHolder(s, m, r, i);
    ClaimsAreLinked(s, maxAttempts);
    forall q: nat, j: nat | IsHolder(s, m, q, j) ensures q == r && j == i {
      assert Held(RunnerAt(s, q))[j] in Held(RunnerAt(s, q));
      assert Linked(s, q, Held(RunnerAt(s, q))[j], maxAttempts);
      assert RunnerOk(s, r, maxAttempts);
    }
  }

  /**
   * In every run of any number of runners with creations, cancellations, deletions and orphan messages:
   * where an outbox message stands tells where its execution may stand.
   */
  lemma OutboxAndExecutionsAgree(run: seq<System>, steps: seq<Step>, i: nat, m: nat, maxAttempts: nat)
    requires IsRun(run, steps, maxAttempts) && maxAttempts >= 1 && i < |run|
    requires m in run[i].db.messages && run[i].db.messages[m].isRequest
    ensures var s, message := run[i], run[i].db.messages[m];
      var e := message.executionId;
      match message.status
      case Pending =>
        && message.attempts < maxAttempts
        && (e in s.db.executions ==> StatusOf(s, e).Pending? || StatusOf(s, e).CancelRequested?)
      case Processing =>
        && HasOneHolder(s, m)
        && (e in s.db.executions ==> !StatusOf(s, e).IsTerminal())
      case Processed => e in s.db.executions ==> StatusOf(s, e).Completed? || StatusOf(s, e).Cancelled?
      case Failed =>
        if e in s.db.executions then StatusOf(s, e).Failed? || StatusOf(s, e).CancelRequested?
        else message.attempts == maxAttempts
  {
    EveryRunKeeps(run, steps, i, maxAttempts);
    assert MessageOk(run[i], m, maxAttempts);
    if run[i].db.messages[m].status.Processing? {
      ProcessingHasOneHolder(run[i], m, maxAttempts);
    }
  }

  /** A message whose execution exists is claimed at most once, so it is never released to be claimed again. */
  lemma FoundMessagesAreNeverReleased(run: seq<System>, steps: seq<Step>, i: nat, m: nat, maxAttempts: nat)
    requires IsRun(run, steps, maxAttempts) && maxAttempts >= 1 && i < |run|
    requires m in run[i].db.messages && Routed(run[i], run[i].db.messages[m])
    ensures run[i].db.messages[m].status.Pending? <==> run[i].db.messages[m].attempts == 0
    ensures run[i].db.messages[m].status.Processing? ==> run[i].db.messages[m].attempts == 1
    ensures run[i].db.messages[m].status.Pending? ==>
      var e := run[i].db.messages[m].executionId; e !in run[i].started && e !in run[i].concluded
  {
    EveryRunKeeps(run, steps, i, maxAttempts);
    assert MessageOk(run[i], m, maxAttempts);
  }

  /** No execution's runtime starts twice, and no execution has two terminal events. */
  lemma AtMostOnce(run: seq<System>, steps: seq<Step>, i: nat, maxAttempts: nat)
    requires IsRun(run, steps, maxAttempts) && maxAttempts >= 1 && i < |run|
    ensures Distinct(run[i].started)
    ensures var events := run[i].events;
      forall a, b | 0 <= a < b < |events| && events[a].1.IsTerminal() && events[b].1.IsTerminal() ::
        events[a].0 != events[b].0
  {
    EveryRunKeeps(run, steps, i, maxAttempts);
  }

  /** Whatever event was emitted, the row says the same, but for a failure that a cancellation overtook. */
  lemma EventsAreTruthful(run: seq<System>, steps: seq<Step>, i: nat, a: nat, maxAttempts: nat)
    requires IsRun(run, steps, maxAttempts) && maxAttempts >= 1 && i < |run| && a < |run[i].events|
    requires run[i].events[a].0 in run[i].db.executions
    ensures var (e, event) := run[i].events[a];
      && (event.Completed? ==> StatusOf(run[i], e).Completed? && run[i].db.executions[e].answer.Some?)
      && (event.Stopped? ==> StatusOf(run[i], e).Cancelled?)
      && (event.Broken? ==> StatusOf(run[i], e).Failed? || StatusOf(run[i], e).CancelRequested?)
  {
    EveryRunKeeps(run, steps, i, maxAttempts);
    if run[i].events[a].1.IsTerminal() {
      assert Truthful(run[i], run[i].events[a].0, run[i].events[a].1);
    }
    if run[i].events[a].1.Completed? {
      var _, _, _ := CompletedRowsWereReturned(run, steps, i, run[i].events[a].0, maxAttempts);
    }
  }

  /** An unfinished execution still has a message that will get to it, or the cancellation came too late. */
  lemma NoExecutionIsForgotten(run: seq<System>, steps: seq<Step>, i: nat, e: nat, maxAttempts: nat)
    requires IsRun(run, steps, maxAttempts) && maxAttempts >= 1 && i < |run|
    requires e in run[i].db.executions && !StatusOf(run[i], e).IsTerminal()
    ensures e in run[i].messageOf && run[i].messageOf[e] in run[i].db.messages
    ensures var message := run[i].db.messages[run[i].messageOf[e]];
      && message.executionId == e
      && (message.status.Pending? || message.status.Processing?
          || (message.status.Failed? && StatusOf(run[i], e).CancelRequested?))
  {
    EveryRunKeeps(run, steps, i, maxAttempts);
    assert MessageOk(run[i], run[i].messageOf[e], maxAttempts);
  }

  // ---------------------------------------------------------------------------
  // Statuses over time
  // ---------------------------------------------------------------------------

  /** One step changes a row by one of the guarded transitions, if at all. */
  lemma RowAfterStep(s: System, step: Step, e: nat, maxAttempts: nat)
    requires Enabled(s, step) && e in s.usedExecutions && s.db.executions.Keys <= s.usedExecutions
    ensures s.usedExecutions <= Next(s, step, maxAttempts).usedExecutions
    ensures e in Next(s, step, maxAttempts).db.executions ==> e in s.db.executions
    ensures e in Next(s, step, maxAttempts).db.executions ==>
      var row, after := s.db.executions[e], Next(s, step, maxAttempts).db.executions[e];
      after == row || exists transition :: after == Changed(row, transition)
  {
    var next := Next(s, step, maxAttempts);
    if e in next.db.executions && e in s.db.executions {
      var row, after := s.db.executions[e], next.db.executions[e];
      match step
      case AskCancel(_) => assert after == row || after == Changed(row, RequestCancel);
      case Open(_) =>
        assert after == row || after == Changed(row, MarkRunning) || after == Changed(row, MarkCancelled(None));
      case CommitCancelled(_) => assert after == row || after == Changed(row, MarkCancelled(None));
      case CommitFailure(_, error) => assert after == row || after == Changed(row, MarkFailed(error));
      case CommitResult(r, result) =>
        var answer := JobAt(s, r).answer;
        assert after == row || after == Changed(row, MarkCancelled(Some(answer)))
            || after == Changed(row, MarkCompleted(answer, result));
      case _ =>
    }
  }

  lemma ChangeIsOrdered(row: Row, transition: Transition)
    ensures row.status.IsTerminal() ==> Changed(row, transition) == row
    ensures row.status.CancelRequested? ==>
      Changed(row, transition) == row || Changed(row, transition).status.Cancelled?
  {}

  /**
   * Over every run, a terminal row never changes again while it exists, and from a requested
   * cancellation the only way on is to be cancelled.
   */
  lemma {:induction false} CancellationAndEndAreFinal(
      run: seq<System>, steps: seq<Step>, i: nat, j: nat, e: nat, maxAttempts: nat)
    requires IsRun(run, steps, maxAttempts) && maxAttempts >= 1 && i <= j < |run|
    requires e in run[i].db.executions && e in run[j].db.executions
    ensures run[i].db.executions[e].status.IsTerminal() ==> run[j].db.executions[e] == run[i].db.executions[e]
    ensures run[i].db.executions[e].status.CancelRequested? ==>
      run[j].db.executions[e] == run[i].db.executions[e] || run[j].db.executions[e].status.Cancelled?
  {
    hide Enabled, Next, Changed;
    if i < j {
      UsedStaysUsed(run, steps, i, j - 1, e, maxAttempts);
      EveryRunKeeps(run, steps, j - 1, maxAttempts);
      RowAfterStep(run[j - 1], steps[j - 1], e, maxAttempts);
      CancellationAndEndAreFinal(run, steps, i, j - 1, e, maxAttempts);
      var row, after := run[j - 1].db.executions[e], run[j].db.executions[e];
      if after != row {
        var transition :| after == Changed(row, transition);
        ChangeIsOrdered(row, transition);
      }
    }
  }

  lemma {:induction false} UsedStaysUsed(run: seq<System>, steps: seq<Step>, i: nat, j: nat, e: nat, maxAttempts: nat)
    requires IsRun(run, steps, maxAttempts) && maxAttempts >= 1 && i <= j < |run| && e in run[i].db.executions
    ensures e in run[j].usedExecutions
  {
    hide Enabled, Next;
    if i == j {
      EveryRunKeeps(run, steps, i, maxAttempts);
    } else {
      UsedStaysUsed(run, steps, i, j - 1, e, maxAttempts);
      EveryRunKeeps(run, steps, j - 1, maxAttempts);
      RowAfterStep(run[j - 1], steps[j - 1], e, maxAttempts);
    }
  }

  // ---------------------------------------------------------------------------
  // What the runner decides by
  // ---------------------------------------------------------------------------

  /** Somebody asked to cancel the execution, or it is cancelled. */
  predicate IsCancelling(s: System, e: nat) {
    e in s.db.executions && (StatusOf(s, e).CancelRequested? || StatusOf(s, e).Cancelled?)
  }

  /** A poll stops the runtime exactly if the row shows a cancellation, and stops polling if the row is over or gone. */
  lemma PollDecides(s: System, r: nat, maxAttempts: nat)
    requires Enabled(s, Poll(r))
    ensures var claim, next := JobAt(s, r).claim, Next(s, Poll(r), maxAttempts);
      var e := claim.executionId;
      && (JobAt(next, r) == Stopping(claim) <==> IsCancelling(s, e))
      && (JobAt(next, r) == Draining(claim)
          <==> e !in s.db.executions || StatusOf(s, e).Completed? || StatusOf(s, e).Failed?)
      && (JobAt(next, r) == Watching(claim)
          <==> e in s.db.executions && (StatusOf(s, e).Pending? || StatusOf(s, e).Running?))
      && next == s.(runners := next.runners)
  {}

  /** A raised runtime leads to a cancellation exactly if the row shows one, and to a failure otherwise. */
  lemma CheckDecides(s: System, r: nat, maxAttempts: nat)
    requires Enabled(s, Check(r))
    ensures var claim, next := JobAt(s, r).claim, Next(s, Check(r), maxAttempts);
      && JobAt(next, r) == (if IsCancelling(s, claim.executionId) then Stopping(claim) else Failing(claim))
      && next == s.(runners := next.runners)
  {}

  /** A runtime starts behind the started event; where it cannot be created, the runner treats that as a failure. */
  lemma StartIsAnnounced(s: System, r: nat, raises: bool, maxAttempts: nat)
    requires Enabled(s, StartRuntime(r, raises))
    ensures var claim, next := JobAt(s, r).claim, Next(s, StartRuntime(r, raises), maxAttempts);
      && next.events == s.events + [(claim.executionId, Started)] && next.db == s.db
      && (if raises then JobAt(next, r) == Checking(claim) && next.started == s.started
          else JobAt(next, r) == Watching(claim) && next.started == s.started + [claim.executionId])
  {}

  // ---------------------------------------------------------------------------
  // What a completed row stores
  // ---------------------------------------------------------------------------

  predicate IsCompleted(s: System, e: nat) {
    e in s.db.executions && StatusOf(s, e).Completed?
  }

  /** Nothing but the transaction behind a result completes a row. */
  lemma CompletesByResult(s: System, step: Step, e: nat, maxAttempts: nat)
    requires Enabled(s, step) && IsCompleted(Next(s, step, maxAttempts), e) && !IsCompleted(s, e)
    ensures step.CommitResult? && JobAt(s, step.runner).claim.executionId == e
    ensures Next(s, step, maxAttempts).db.executions[e].answer == Some(JobAt(s, step.runner).answer)
    ensures Next(s, step, maxAttempts).db.executions[e].result == step.result
  {
    hide ClaimsOf, Transactions.Processed, FailedMessage, ReleasedMessage, Claimed, ClaimOf, Truncated;
    match step
    case CommitResult(r, result) =>
      FinishStores(s.db, JobAt(s, r).claim, JobAt(s, r).answer, result);
    case _ =>
  }

  /** A runner that is about to store an answer got it from its runtime. */
  lemma FinishesByReturn(s: System, step: Step, r: nat, maxAttempts: nat)
    requires Enabled(s, step) && JobAt(Next(s, step, maxAttempts), r).Finishing?
    ensures || JobAt(Next(s, step, maxAttempts), r) == JobAt(s, r)
            || step == Return(r, JobAt(Next(s, step, maxAttempts), r).answer)
  {
    hide ClaimsOf, OpenTxn, FinishTxn, CancelTxn, FailTxn, DeleteTxn, Claimed, ClaimOf;
  }

  lemma {:induction false} FinishingWasReturned(run: seq<System>, steps: seq<Step>, k: nat, r: nat, maxAttempts: nat)
    returns (i: nat)
    requires IsRun(run, steps, maxAttempts) && k < |run| && JobAt(run[k], r).Finishing?
    ensures i < k && steps[i] == Return(r, JobAt(run[k], r).answer) && JobAt(run[i + 1], r) == JobAt(run[k], r)
  {
    hide Enabled, Next;
    assert k > 0;
    FinishesByReturn(run[k - 1], steps[k - 1], r, maxAttempts);
    if steps[k - 1] == Return(r, JobAt(run[k], r).answer) {
      i := k - 1;
    } else {
      i := FinishingWasReturned(run, steps, k - 1, r, maxAttempts);
    }
  }

  /**
   * In every run, what a completed row stores is the answer that its runner's runtime returned, and the result that
   * the runner committed behind that.
   */
  lemma {:induction false} CompletedRowsWereReturned(
      run: seq<System>, steps: seq<Step>, j: nat, e: nat, maxAttempts: nat) returns (i: nat, k: nat, r: nat)
    requires IsRun(run, steps, maxAttempts) && maxAttempts >= 1 && j < |run| && IsCompleted(run[j], e)
    ensures i < k < j && steps[i].Return? && steps[i].runner == r
    ensures JobAt(run[k], r).Finishing? && JobAt(run[k], r).claim.executionId == e
    ensures steps[k] == CommitResult(r, run[j].db.executions[e].result)
    ensures run[j].db.executions[e].answer == Some(steps[i].answer)
  {
    hide Enabled, Next;
    assert j > 0;
    if IsCompleted(run[j - 1], e) {
      i, k, r := CompletedRowsWereReturned(run, steps, j - 1, e, maxAttempts);
      CancellationAndEndAreFinal(run, steps, j - 1, j, e, maxAttempts);
    } else {
      CompletesByResult(run[j - 1], steps[j - 1], e, maxAttempts);
      k, r := j - 1, steps[j - 1].runner;
      CommitsFinishing(run[k], steps[k]);
      i := FinishingWasReturned(run, steps, k, r, maxAttempts);
    }
  }

  lemma CommitsFinishing(s: System, step: Step)
    requires Enabled(s, step) && step.CommitResult?
    ensures JobAt(s, step.runner).Finishing?
  {}

  // ---------------------------------------------------------------------------
  // Sessions
  // ---------------------------------------------------------------------------

  /** Every execution belongs to a session that exists, and session identifiers are never handed out twice. */
  ghost predicate SessionsOk(s: System) {
    && s.db.sessions <= s.usedSessions
    && forall e <- s.db.executions :: s.db.executions[e].sessionId in s.db.sessions
  }

  lemma SessionsAfter(s: System, step: Step, maxAttempts: nat)
    requires SessionsOk(s) && Enabled(s, step)
    ensures SessionsOk(Next(s, step, maxAttempts))
    ensures s.usedSessions <= Next(s, step, maxAttempts).usedSessions
  {
    hide ClaimsOf, FailedMessage, ReleasedMessage, Claimed, ClaimOf, Truncated;
  }

  /** No execution outlives its session. */
  lemma {:induction false} SessionsAreKnown(run: seq<System>, steps: seq<Step>, i: nat, maxAttempts: nat)
    requires IsRun(run, steps, maxAttempts) && i < |run|
    ensures SessionsOk(run[i])
  {
    hide Enabled, Next;
    if i > 0 {
      SessionsAreKnown(run, steps, i - 1, maxAttempts);
      RunStep(run, steps, i, maxAttempts);
      SessionsAfter(run[i - 1], steps[i - 1], maxAttempts);
    }
  }

  // ---------------------------------------------------------------------------
  // The window between a failure's check and its transaction
  // ---------------------------------------------------------------------------

  /** A failure is recorded exactly if no cancellation was requested before its transaction. */
  lemma FailureIsRecorded(s: System, r: nat, error: string, maxAttempts: nat)
    requires Invariant(s, maxAttempts) && Enabled(s, CommitFailure(r, error))
    ensures var e := JobAt(s, r).claim.executionId;
      var t := Next(s, CommitFailure(r, error), maxAttempts);
      && e in s.db.executions && e in t.db.executions
      && (StatusOf(t, e).Failed? <==> !StatusOf(s, e).CancelRequested?)
      && (!StatusOf(t, e).Failed? ==> t.db.executions[e] == s.db.executions[e])
      && JobAt(s, r).claim.message in t.db.messages
      && t.db.messages[JobAt(s, r).claim.message].status.Failed?
  {
    hide NamesOk, RequestsOk, EventsOk, MessageOk;
    WorkingOwns(s, r, maxAttempts);
  }

  /** The cancellation came after the check and nobody is left to carry it out. */
  ghost predicate IsStuck(s: System, e: nat) {
    && e in s.db.executions && StatusOf(s, e).CancelRequested?
    && e in s.concluded
  }

  lemma NobodyOwnsStuck(s: System, r: nat, e: nat, maxAttempts: nat)
    requires Invariant(s, maxAttempts) && IsStuck(s, e)
    ensures forall claim <- Held(RunnerAt(s, r)) :: Owns(s, claim) ==> claim.executionId != e
  {
    hide NamesOk, RequestsOk, EventsOk, MessageOk;
    forall claim | claim in Held(RunnerAt(s, r)) && Owns(s, claim) ensures claim.executionId != e {
      OwnerIsUnique(s, r, claim, maxAttempts);
    }
  }

  lemma StuckAfterCommit(s: System, step: Step, e: nat, maxAttempts: nat)
    requires Enabled(s, step) && IsStuck(s, e)
    requires step.CommitCancelled? || step.CommitFailure? || step.CommitResult?
    requires JobAt(s, step.runner).claim.executionId != e
    ensures IsStuck(Next(s, step, maxAttempts), e)
  {}

  lemma StuckAfterOpen(s: System, r: nat, e: nat, maxAttempts: nat)
    requires Enabled(s, Open(r)) && IsStuck(s, e)
    requires Owns(s, RunnerAt(s, r).queue[0]) ==> RunnerAt(s, r).queue[0].executionId != e
    ensures IsStuck(Next(s, Open(r), maxAttempts), e)
  {}

  lemma StuckAfterOther(s: System, step: Step, e: nat, maxAttempts: nat)
    requires Enabled(s, step) && IsStuck(s, e)
    requires !step.CommitCancelled? && !step.CommitFailure? && !step.CommitResult? && !step.Open?
    requires step.CreateExecution? || step.StartSession? ==> e in s.usedExecutions
    ensures IsStuck(Next(s, step, maxAttempts), e)
  {}

  lemma StuckAfterStep(s: System, step: Step, e: nat, maxAttempts: nat)
    requires Invariant(s, maxAttempts) && Enabled(s, step) && IsStuck(s, e)
    ensures IsStuck(Next(s, step, maxAttempts), e)
  {
    assert e in s.usedExecutions by { assert NamesOk(s); }
    hide Invariant, Next, IsStuck;
    if step.Open? {
      NobodyOwnsStuck(s, step.runner, e, maxAttempts);
      assert RunnerAt(s, step.runner).queue[0] in Held(RunnerAt(s, step.runner));
      StuckAfterOpen(s, step.runner, e, maxAttempts);
    } else if step.CommitCancelled? || step.CommitFailure? || step.CommitResult? {
      NobodyOwnsStuck(s, step.runner, e, maxAttempts);
      WorkingOwns(s, step.runner, maxAttempts);
      assert JobAt(s, step.runner).claim in Held(RunnerAt(s, step.runner));
      StuckAfterCommit(s, step, e, maxAttempts);
    } else {
      StuckAfterOther(s, step, e, maxAttempts);
    }
  }

  lemma RunStep(run: seq<System>, steps: seq<Step>, i: nat, maxAttempts: nat)
    requires IsRun(run, steps, maxAttempts) && 0 < i < |run|
    ensures Enabled(run[i - 1], steps[i - 1]) && run[i] == Next(run[i - 1], steps[i - 1], maxAttempts)
  {
    hide Enabled, Next;
  }

  /** Such an execution stays in its requested cancellation for ever, and its session cannot be deleted. */
  lemma {:induction false} StuckForEver(run: seq<System>, steps: seq<Step>, i: nat, j: nat, e: nat, maxAttempts: nat)
    requires IsRun(run, steps, maxAttempts) && maxAttempts >= 1 && i <= j < |run| && IsStuck(run[i], e)
    ensures IsStuck(run[j], e)
    ensures DeleteTxn(run[j].db, run[j].db.executions[e].sessionId).0 == Conflict
  {
    hide Invariant, Enabled, Next, IsStuck;
    if i < j {
      EveryRunKeeps(run, steps, j - 1, maxAttempts);
      RunStep(run, steps, j, maxAttempts);
      hide IsRun;
      StuckForEver(run, steps, i, j - 1, e, maxAttempts);
      StuckAfterStep(run[j - 1], steps[j - 1], e, maxAttempts);
    }
    SessionsAreKnown(run, steps, j, maxAttempts);
    StuckBlocksDeletion(run[j], e);
  }

  lemma StuckBlocksDeletion(s: System, e: nat)
    requires IsStuck(s, e) && SessionsOk(s)
    ensures e in s.db.executions && DeleteTxn(s.db, s.db.executions[e].sessionId).0 == Conflict
  {
    assert InSession(s.db, e, s.db.executions[e].sessionId);
  }

  /** One execution and one runner that handles its message; the other fields do not matter to their steps. */
  ghost predicate IsAt(s: System, row: E.Status, message: MessageStatus, runner: Runner) {
    && RunnerAt(s, 0) == runner
    && s.db.executions.Keys == {0} && StatusOf(s, 0) == row
    && 0 in s.db.messages && s.db.messages[0].status == message
    && s.db.messages[0].isRequest && s.db.messages[0].executionId == 0 && s.db.messages[0].attempts <= 1
  }

  const FIRST_CLAIM: Claim := Claim(0, true, 0, 1)

  ghost predicate IsStep(s: System, step: Step, t: System, maxAttempts: nat) {
    Enabled(s, step) && t == Next(s, step, maxAttempts)
  }

  lemma CreateFirst(maxAttempts: nat) returns (s: System)
    ensures IsStep(NOTHING, StartSession(0, 0, 0), s, maxAttempts)
    ensures IsAt(s, E.Pending, Pending, Runner([], Free)) && s.db.messages[0].attempts == 0
    ensures s.events == [] && s.concluded == {}
  {
    s := Next(NOTHING, StartSession(0, 0, 0), maxAttempts);
  }

  lemma ClaimFirst(s: System, maxAttempts: nat) returns (t: System)
    requires IsAt(s, E.Pending, Pending, Runner([], Free)) && s.db.messages[0].attempts == 0
    ensures IsStep(s, ClaimBatch(0, [0]), t, maxAttempts)
    ensures IsAt(t, E.Pending, Processing, Runner([FIRST_CLAIM], Free)) && t.events == s.events
  {
    t := Next(s, ClaimBatch(0, [0]), maxAttempts);
    ClaimsAre(s, [0]);
    assert RunnerAt(t, 0).queue == [FIRST_CLAIM];
  }

  lemma OpenFirst(s: System, maxAttempts: nat) returns (t: System)
    requires IsAt(s, E.Pending, Processing, Runner([FIRST_CLAIM], Free))
    ensures IsStep(s, Open(0), t, maxAttempts)
    ensures IsAt(t, E.Running, Processing, Runner([], Starting(FIRST_CLAIM))) && t.events == s.events
  {
    t := Next(s, Open(0), maxAttempts);
  }

  lemma FailFirst(s: System, maxAttempts: nat) returns (t: System)
    requires IsAt(s, E.CancelRequested, Processing, Runner([], Failing(FIRST_CLAIM)))
    ensures IsStep(s, CommitFailure(0, "failure"), t, maxAttempts)
    ensures IsAt(t, E.CancelRequested, MessageStatus.Failed, Runner([], Emitting(0, Broken)))
    ensures t.events == s.events && 0 in t.concluded
  {
    t := Next(s, CommitFailure(0, "failure"), maxAttempts);
  }

  lemma StartFirst(s: System, maxAttempts: nat) returns (t: System)
    requires IsAt(s, E.Running, Processing, Runner([], Starting(FIRST_CLAIM))) && s.events == []
    ensures IsStep(s, StartRuntime(0, false), t, maxAttempts)
    ensures IsAt(t, E.Running, Processing, Runner([], Watching(FIRST_CLAIM))) && t.events == [(0, Started)]
  {
    t := Next(s, StartRuntime(0, false), maxAttempts);
  }

  lemma RaiseFirst(s: System, maxAttempts: nat) returns (t: System)
    requires IsAt(s, E.Running, Processing, Runner([], Watching(FIRST_CLAIM)))
    ensures IsStep(s, Raise(0), t, maxAttempts)
    ensures IsAt(t, E.Running, Processing, Runner([], Checking(FIRST_CLAIM))) && t.events == s.events
  {
    t := Next(s, Raise(0), maxAttempts);
  }

  lemma CheckFirst(s: System, maxAttempts: nat) returns (t: System)
    requires IsAt(s, E.Running, Processing, Runner([], Checking(FIRST_CLAIM)))
    ensures IsStep(s, Check(0), t, maxAttempts)
    ensures IsAt(t, E.Running, Processing, Runner([], Failing(FIRST_CLAIM))) && t.events == s.events
  {
    t := Next(s, Check(0), maxAttempts);
  }

  lemma AskFirst(s: System, maxAttempts: nat) returns (t: System)
    requires IsAt(s, E.Running, Processing, Runner([], Failing(FIRST_CLAIM)))
    ensures IsStep(s, AskCancel(0), t, maxAttempts)
    ensures IsAt(t, E.CancelRequested, Processing, Runner([], Failing(FIRST_CLAIM))) && t.events == s.events
  {
    t := Next(s, AskCancel(0), maxAttempts);
  }

  lemma AnnounceFirst(s: System, maxAttempts: nat) returns (t: System)
    requires IsAt(s, E.CancelRequested, MessageStatus.Failed, Runner([], Emitting(0, Broken))) && 0 in s.concluded
    requires s.events == [(0, Started)]
    ensures IsStep(s, Emit(0, false), t, maxAttempts)
    ensures IsStuck(t, 0) && 0 in t.db.messages && t.db.messages[0].status.Failed?
    ensures t.events == [(0, Started), (0, Broken)]
  {
    t := Next(s, Emit(0, false), maxAttempts);
  }

  lemma Extend(run: seq<System>, steps: seq<Step>, step: Step, t: System, maxAttempts: nat)
    returns (longer: seq<System>, more: seq<Step>)
    requires IsRun(run, steps, maxAttempts) && |run| == |steps| + 1 && IsStep(run[|steps|], step, t, maxAttempts)
    ensures IsRun(longer, more, maxAttempts) && |longer| == |more| + 1 && longer[|more|] == t
  {
    hide Enabled, Next;
    longer, more := run + [t], steps + [step];
  }

  /** A run that gets there: the runtime raises, the check sees nothing, the request comes, the failure commits. */
  lemma CancellationCanGetStuck(maxAttempts: nat) returns (run: seq<System>, steps: seq<Step>)
    requires maxAttempts >= 1
    ensures IsRun(run, steps, maxAttempts)
    ensures var last := run[|steps|];
      && IsStuck(last, 0) && 0 in last.db.messages && last.db.messages[0].status.Failed?
      && last.events == [(0, Started), (0, Broken)]
  {
    run, steps := [NOTHING], [];
    assert IsRun(run, steps, maxAttempts);
    hide IsStep, IsStuck, IsAt, IsRun;
    var s1 := CreateFirst(maxAttempts);
    run, steps := Extend(run, steps, StartSession(0, 0, 0), s1, maxAttempts);
    var s2 := ClaimFirst(s1, maxAttempts);
    run, steps := Extend(run, steps, ClaimBatch(0, [0]), s2, maxAttempts);
    var s3 := OpenFirst(s2, maxAttempts);
    run, steps := Extend(run, steps, Open(0), s3, maxAttempts);
    var s4 := StartFirst(s3, maxAttempts);
    run, steps := Extend(run, steps, StartRuntime(0, false), s4, maxAttempts);
    var s5 := RaiseFirst(s4, maxAttempts);
    run, steps := Extend(run, steps, Raise(0), s5, maxAttempts);
    var s6 := CheckFirst(s5, maxAttempts);
    run, steps := Extend(run, steps, Check(0), s6, maxAttempts);
    var s7 := AskFirst(s6, maxAttempts);
    run, steps := Extend(run, steps, AskCancel(0), s7, maxAttempts);
    var s8 := FailFirst(s7, maxAttempts);
    run, steps := Extend(run, steps, CommitFailure(0, "failure"), s8, maxAttempts);
    var s9 := AnnounceFirst(s8, maxAttempts);
    run, steps := Extend(run, steps, Emit(0, false), s9, maxAttempts);
  }
}