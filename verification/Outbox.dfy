/** The outbox rows, their repository operations, and the delay between attempts. */
module Outbox {
  import opened Text

  datatype MessageStatus = Pending | Processing | Processed | Failed

  /** `executionId` is the aggregate of every message, and the payload of a request. */
  datatype Message = Message(
    isRequest: bool,
    executionId: nat,
    status: MessageStatus,
    lockedBy: Option<nat>,
    attempts: nat)

  function NewMessage(isRequest: bool, executionId: nat): Message {
    Message(isRequest, executionId, Pending, None, 0)
  }

  function Claimed(message: Message, runner: nat): Message {
    message.(status := Processing, lockedBy := Some(runner), attempts := message.attempts + 1)
  }

  function MarkedProcessed(message: Message): Message {
    message.(status := Processed, lockedBy := None)
  }

  function MarkedFailed(message: Message): Message {
    message.(status := Failed, lockedBy := None)
  }

  function Released(message: Message): Message {
    message.(status := Pending, lockedBy := None)
  }

  class OutboxMessage {
    const isRequest: bool
    const executionId: nat
    var status: MessageStatus
    var lockedBy: Option<nat>
    var attempts: nat
    var availableAt: real
    var lastError: Option<string>

    constructor (isRequest: bool, executionId: nat, now: real)
      ensures Contents() == NewMessage(isRequest, executionId) && availableAt == now
    {
      this.isRequest, this.executionId := isRequest, executionId;
      status, lockedBy, attempts, availableAt, lastError := Pending, None, 0, now, None;
    }

    ghost function Contents(): Message
      reads this
    {
      Message(isRequest, executionId, status, lockedBy, attempts)
    }

    /** The assignments of `claim_batch` to one row. */
    method Lock(runner: nat)
      modifies this
      ensures Contents() == Claimed(old(Contents()), runner)
      ensures availableAt == old(availableAt) && lastError == old(lastError)
    {
      status := Processing;
      lockedBy := Some(runner);
      attempts := attempts + 1;
    }

    method MarkProcessed()
      modifies this
      ensures Contents() == MarkedProcessed(old(Contents()))
      ensures availableAt == old(availableAt) && lastError == old(lastError)
    {
      status := Processed;
      lockedBy := None;
    }

    method MarkFailed(error: string)
      modifies this
      ensures Contents() == MarkedFailed(old(Contents()))
      ensures lastError == Some(Truncated(error, 1000)) && availableAt == old(availableAt)
    {
      status := Failed;
      lastError := Some(Truncated(error, 1000));
      lockedBy := None;
    }

    method ReleaseWithError(error: string, now: real, delay: real)
      modifies this
      ensures Contents() == Released(old(Contents()))
      ensures availableAt == now + delay && lastError == Some(Truncated(error, 1000))
    {
      status := Pending;
      availableAt := now + delay;
      lockedBy := None;
      lastError := Some(Truncated(error, 1000));
    }
  }

  /** The row may be claimed now, and no other transaction holds it. */
  predicate IsDue(row: OutboxMessage, now: real, locked: set<OutboxMessage>)
    reads row
  {
    row.status.Pending? && row.availableAt <= now && row !in locked
  }

  /** The rows that may be claimed, of the table in the order of creation. */
  function DueRows(table: seq<OutboxMessage>, now: real, locked: set<OutboxMessage>): seq<OutboxMessage>
    reads table
  {
    if table == [] then []
    else
      var last := table[|table| - 1];
      DueRows(table[..|table| - 1], now, locked) + (if IsDue(last, now, locked) then [last] else [])
  }

  function FirstOf<T>(items: seq<T>, limit: nat): (first: seq<T>)
    ensures first <= items && |first| <= limit && (|first| < limit ==> first == items)
  {
    if |items| <= limit then items else items[..limit]
  }

  predicate AreDistinct(rows: seq<OutboxMessage>) {
    forall i, j | 0 <= i < j < |rows| :: rows[i] != rows[j]
  }

  lemma LastRow(table: seq<OutboxMessage>)
    requires table != []
    ensures var front, last := table[..|table| - 1], table[|table| - 1];
      && (forall row :: row in table <==> row in front || row == last)
      && (AreDistinct(table) ==> AreDistinct(front) && last !in front)
  {
    var front, last := table[..|table| - 1], table[|table| - 1];
    assert table == front + [last];
  }

  lemma DistinctWith(rows: seq<OutboxMessage>, last: OutboxMessage)
    requires AreDistinct(rows) && last !in rows
    ensures AreDistinct(rows + [last])
  {}

  lemma {:induction false} DueRowsAreDue(table: seq<OutboxMessage>, now: real, locked: set<OutboxMessage>)
    ensures forall row :: row in DueRows(table, now, locked) <==> row in table && IsDue(row, now, locked)
    ensures AreDistinct(table) ==> AreDistinct(DueRows(table, now, locked))
  {
    hide IsDue, AreDistinct;
    if table == [] {
      NoRows();
    } else {
      var front, last := table[..|table| - 1], table[|table| - 1];
      DueRowsAreDue(front, now, locked);
      LastRow(table);
      if AreDistinct(table) && IsDue(last, now, locked) {
        DistinctWith(DueRows(front, now, locked), last);
      }
      assert DueRows(front, now, locked) + [] == DueRows(front, now, locked);
    }
  }

  lemma NoRows()
    ensures AreDistinct([])
  {}

  /** One row stands in front of another in the table. */
  ghost predicate IsOlder(table: seq<OutboxMessage>, a: OutboxMessage, b: OutboxMessage) {
    exists i, j :: 0 <= i < j < |table| && table[i] == a && table[j] == b
  }

  lemma DueRowIsThere(table: seq<OutboxMessage>, now: real, locked: set<OutboxMessage>, k: nat)
    requires k < |DueRows(table, now, locked)|
    ensures DueRows(table, now, locked)[k] in table
  {
    DueRowsAreDue(table, now, locked);
    assert DueRows(table, now, locked)[k] in DueRows(table, now, locked);
  }

  lemma {:induction false} DueRowsAreInOrder(table: seq<OutboxMessage>, now: real, locked: set<OutboxMessage>,
                                             k: nat, l: nat)
    requires k < l < |DueRows(table, now, locked)|
    ensures IsOlder(table, DueRows(table, now, locked)[k], DueRows(table, now, locked)[l])
  {
    hide IsDue;
    var front, last, due := table[..|table| - 1], table[|table| - 1], DueRows(table, now, locked);
    var before := DueRows(front, now, locked);
    if l < |before| {
      DueRowsAreInOrder(front, now, locked, k, l);
      var i, j :| 0 <= i < j < |front| && front[i] == due[k] && front[j] == due[l];
      assert table[i] == due[k] && table[j] == due[l];
    } else {
      DueRowIsThere(front, now, locked, k);
      assert due[k] == before[k] && due[l] == last;
      var i :| 0 <= i < |front| && front[i] == before[k];
      assert table[i] == due[k] && table[|table| - 1] == due[l];
    }
  }

  /**
   * The first due rows are pending, available and not held; a row of that kind that is not among them is younger than
   * all of them, and only left over because the limit is reached.
   */
  lemma OldestDueRowsFirst(table: seq<OutboxMessage>, now: real, locked: set<OutboxMessage>, limit: nat)
    ensures var rows := FirstOf(DueRows(table, now, locked), limit);
      && |rows| <= limit
      && (forall row <- rows :: row in table && row.status.Pending? && row.availableAt <= now && row !in locked)
      && forall row <- table | row.status.Pending? && row.availableAt <= now && row !in locked && row !in rows ::
           |rows| == limit && forall other <- rows :: IsOlder(table, other, row)
  {
    DueRowsAreDue(table, now, locked);
    var due := DueRows(table, now, locked);
    var rows := FirstOf(due, limit);
    forall row, other | row in due && row !in rows && other in rows ensures IsOlder(table, other, row) {
      var k :| 0 <= k < |rows| && rows[k] == other;
      var l :| 0 <= l < |due| && due[l] == row;
      assert forall x | 0 <= x < |rows| :: rows[x] == due[x] && rows[x] != row;
      assert l >= |rows|;
      DueRowsAreInOrder(table, now, locked, k, l);
    }
  }

  /**
   * `claim_batch`: the oldest rows that are pending, due and not held by another transaction, as many as the limit
   * allows, become the runner's; all others stay as they are.
   */
  method ClaimBatch(table: seq<OutboxMessage>, locked: set<OutboxMessage>, runner: nat, now: real, limit: nat)
    returns (rows: seq<OutboxMessage>)
    requires AreDistinct(table)
    modifies table
    ensures rows == FirstOf(old(DueRows(table, now, locked)), limit) && forall row <- rows :: row in table
    ensures forall row <- rows :: row.Contents() == Claimed(old(row.Contents()), runner)
    ensures forall row <- table :: row !in rows ==> row.Contents() == old(row.Contents())
    ensures forall row <- table :: row.availableAt == old(row.availableAt) && row.lastError == old(row.lastError)
  {
    rows := FirstOf(DueRows(table, now, locked), limit);
    DueRowsAreDue(table, now, locked);
    assert AreDistinct(rows) && forall row <- rows :: row in table;
    assert forall i | 0 <= i < |rows| :: rows[i] in table;
    hide DueRows, IsDue, FirstOf;
    LockAll(rows, runner);
  }

  /** The loop over the selected rows. */
  method LockAll(rows: seq<OutboxMessage>, runner: nat)
    requires AreDistinct(rows)
    modifies rows
    ensures forall row <- rows :: row.Contents() == Claimed(old(row.Contents()), runner)
    ensures forall row <- rows :: row.availableAt == old(row.availableAt) && row.lastError == old(row.lastError)
  {
    for i := 0 to |rows|
      invariant forall j | 0 <= j < i :: rows[j].Contents() == Claimed(old(rows[j].Contents()), runner)
      invariant forall j | i <= j < |rows| :: rows[j].Contents() == old(rows[j].Contents())
      invariant forall row <- rows :: row.availableAt == old(row.availableAt) && row.lastError == old(row.lastError)
    {
      rows[i].Lock(runner);
    }
  }

  // ---------------------------------------------------------------------------
  // The retry delay
  // ---------------------------------------------------------------------------

  datatype RetryPolicy = RetryPolicy(baseDelay: real, maxDelay: real, exponentCap: nat)

  function Power2(n: nat): real {
    if n == 0 then 1.0 else 2.0 * Power2(n - 1)
  }

  function Exponent(policy: RetryPolicy, attempt: int): nat {
    var normalized := if attempt < 1 then 1 else attempt;
    if normalized - 1 < policy.exponentCap then normalized - 1 else policy.exponentCap
  }

  function Capped(policy: RetryPolicy, exponent: nat): real {
    var delay := policy.baseDelay * Power2(exponent);
    if delay < policy.maxDelay then delay else policy.maxDelay
  }

  function Delay(policy: RetryPolicy, attempt: int): real {
    Capped(policy, Exponent(policy, attempt))
  }

  lemma {:induction false} PowersGrow(m: nat, n: nat)
    requires m <= n
    ensures 1.0 <= Power2(m) <= Power2(n)
    decreases n
  {
    if m < n {
      PowersGrow(m, n - 1);
    } else if m > 0 {
      PowersGrow(m - 1, m - 1);
    }
  }

  lemma Scaled(base: real, a: real, b: real)
    requires base >= 0.0 && 1.0 <= a <= b
    ensures 0.0 <= base * a <= base * b
  {
    assert base * (b - a) >= 0.0;
    assert base * a >= 0.0;
  }

  lemma CappedGrows(policy: RetryPolicy, m: nat, n: nat)
    requires policy.baseDelay >= 0.0 && policy.maxDelay >= 0.0 && m <= n
    ensures 0.0 <= Capped(policy, m) <= Capped(policy, n) <= policy.maxDelay
  {
    PowersGrow(m, n);
    Scaled(policy.baseDelay, Power2(m), Power2(n));
    hide Power2;
  }

  lemma FirstDelay(policy: RetryPolicy)
    ensures Capped(policy, 0) == if policy.baseDelay < policy.maxDelay then policy.baseDelay else policy.maxDelay
  {
    assert Power2(0) == 1.0 && policy.baseDelay * 1.0 == policy.baseDelay;
  }

  /** Later attempts wait at least as long, never longer than the maximum, and doubling stops at the cap. */
  lemma DelayIsBounded(policy: RetryPolicy, earlier: int, later: int)
    requires policy.baseDelay >= 0.0 && policy.maxDelay >= 0.0 && earlier <= later
    ensures 0.0 <= Delay(policy, earlier) <= Delay(policy, later) <= policy.maxDelay
    ensures earlier > policy.exponentCap ==> Delay(policy, later) == Delay(policy, earlier)
    ensures Delay(policy, 1) == (if policy.baseDelay < policy.maxDelay then policy.baseDelay else policy.maxDelay)
  {
    hide Capped;
    FirstDelay(policy);
    CappedGrows(policy, Exponent(policy, earlier), Exponent(policy, later));
  }

  /** From one attempt to the next the delay doubles, up to the maximum, until the cap is reached. */
  lemma DelayDoubles(policy: RetryPolicy, attempt: nat)
    requires policy.baseDelay >= 0.0 && policy.maxDelay >= 0.0 && 1 <= attempt <= policy.exponentCap
    ensures Delay(policy, attempt + 1)
         == if 2.0 * Delay(policy, attempt) < policy.maxDelay then 2.0 * Delay(policy, attempt) else policy.maxDelay
  {
    var n := (attempt - 1) as nat;
    assert Exponent(policy, attempt) == n && Exponent(policy, attempt + 1) == n + 1;
    assert Power2(n + 1) == 2.0 * Power2(n);
    assert policy.baseDelay * Power2(n + 1) == 2.0 * (policy.baseDelay * Power2(n));
  }

  /** Attempts that are no attempts wait as the first one does. */
  lemma DelayFromTheFirst(policy: RetryPolicy, attempt: int)
    requires attempt < 1
    ensures Delay(policy, attempt) == Delay(policy, 1)
  {}
}
