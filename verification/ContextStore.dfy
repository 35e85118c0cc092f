/** Sequence allocation for the context records of a session. */
module ContextStore {
  datatype Record = Record(session: nat, sequence: nat, content: string)

  // ---------------------------------------------------------------------------
  // The simple form: one list
  // ---------------------------------------------------------------------------

  /** The highest sequence of a session, 0 if it has none. */
  function MaxSequence(records: seq<Record>, session: nat): nat {
    if records == [] then 0
    else
      var before, last := MaxSequence(records[..|records| - 1], session), records[|records| - 1];
      if last.session == session && last.sequence > before then last.sequence else before
  }

  function Appended(records: seq<Record>, session: nat, content: string): seq<Record> {
    records + [Record(session, MaxSequence(records, session) + 1, content)]
  }

  /** The sequences of one session, in the order of the list. */
  function SequencesOf(records: seq<Record>, session: nat): seq<nat> {
    if records == [] then []
    else
      var last := records[|records| - 1];
      SequencesOf(records[..|records| - 1], session) + (if last.session == session then [last.sequence] else [])
  }

  /** Each session's sequences are 1, 2, 3 and so on, without gap or duplicate. */
  ghost predicate Numbered(records: seq<Record>) {
    forall session: nat :: IsCount(SequencesOf(records, session))
  }

  ghost predicate IsCount(sequences: seq<nat>) {
    forall i | 0 <= i < |sequences| :: sequences[i] == i + 1
  }

  lemma NextSequences(records: seq<Record>, record: Record, session: nat)
    ensures SequencesOf(records + [record], session)
         == SequencesOf(records, session) + (if record.session == session then [record.sequence] else [])
    ensures MaxSequence(records + [record], session)
         == if record.session == session && record.sequence > MaxSequence(records, session) then record.sequence
            else MaxSequence(records, session)
  {
    assert (records + [record])[..|records|] == records;
  }

  lemma {:induction false} MaxIsCount(records: seq<Record>, session: nat)
    requires IsCount(SequencesOf(records, session))
    ensures MaxSequence(records, session) == |SequencesOf(records, session)|
  {
    if records != [] {
      var front, last := records[..|records| - 1], records[|records| - 1];
      var before := SequencesOf(front, session);
      assert before <= SequencesOf(records, session);
      assert forall i | 0 <= i < |before| :: before[i] == SequencesOf(records, session)[i];
      MaxIsCount(front, session);
      if last.session == session {
        assert SequencesOf(records, session)[|before|] == last.sequence;
      }
    }
  }

  lemma AppendedIsNumbered(records: seq<Record>, session: nat, content: string)
    requires Numbered(records)
    ensures Numbered(Appended(records, session, content))
  {
    var record := Record(session, MaxSequence(records, session) + 1, content);
    forall other: nat ensures IsCount(SequencesOf(Appended(records, session, content), other)) {
      NextSequences(records, record, other);
      assert IsCount(SequencesOf(records, other));
      MaxIsCount(records, other);
    }
  }

  /** `InMemoryGlobalContextStore`, which the snapshot store repeats. */
  class InMemoryStore {
    var entries: seq<Record>

    constructor ()
      ensures entries == []
    {
      entries := [];
    }

    method Append(session: nat, content: string) returns (entry: Record)
      modifies this
      ensures entries == Appended(old(entries), session, content) && entry == entries[|entries| - 1]
      ensures Numbered(old(entries)) ==> Numbered(entries)
    {
      var highest := 0;
      for i := 0 to |entries|
        invariant entries == old(entries) && highest == MaxSequence(entries[..i], session)
      {
        assert entries[..i + 1] == entries[..i] + [entries[i]];
        NextSequences(entries[..i], entries[i], session);
        if entries[i].session == session && entries[i].sequence > highest {
          highest := entries[i].sequence;
        }
      }
      assert entries[..|entries|] == entries;
      entry := Record(session, highest + 1, content);
      entries := entries + [entry];
      if Numbered(old(entries)) {
        AppendedIsNumbered(old(entries), session, content);
      }
    }
  }

  // ---------------------------------------------------------------------------
  // The repositories: lock, read the maximum, insert, commit
  // ---------------------------------------------------------------------------

  datatype Table = Snapshots | Entries

  /** Where a transaction stands. */
  datatype Writer =
    | Resting
    | Locking(table: Table, session: nat, content: string)
    | Counted(table: Table, session: nat, content: string, highest: nat)
    | Inserted(table: Table, record: Record)

  /** Committed rows in the order of their commits, and who holds the row lock of each session. */
  datatype Store = Store(snapshots: seq<Record>, entries: seq<Record>, locks: map<nat, nat>, writers: map<nat, Writer>)

  datatype Step =
    | Lock(writer: nat, table: Table, session: nat, content: string)
    | ReadMax(writer: nat)
    | Insert(writer: nat)
    | Commit(writer: nat)
    | Rollback(writer: nat)

  const EMPTY: Store := Store([], [], map[], map[])

  function WriterAt(s: Store, w: nat): Writer {
    if w in s.writers then s.writers[w] else Resting
  }

  function RowsOf(s: Store, table: Table): seq<Record> {
    if table.Snapshots? then s.snapshots else s.entries
  }

  function SessionOf(writer: Writer): nat
    requires !writer.Resting?
  {
    if writer.Inserted? then writer.record.session else writer.session
  }

  predicate Enabled(s: Store, step: Step) {
    match step
    case Lock(w, _, session, _) => WriterAt(s, w).Resting? && session !in s.locks
    case ReadMax(w) => WriterAt(s, w).Locking?
    case Insert(w) => WriterAt(s, w).Counted?
    case Commit(w) => WriterAt(s, w).Inserted?
    case Rollback(w) => !WriterAt(s, w).Resting?
  }

  function Next(s: Store, step: Step): Store
    requires Enabled(s, step)
  {
    var w := step.writer;
    match step
    case Lock(_, table, session, content) =>
      s.(locks := s.locks[session := w], writers := s.writers[w := Locking(table, session, content)])
    case ReadMax(_) =>
      var Locking(table, session, content) := WriterAt(s, w);
      s.(writers := s.writers[w := Counted(table, session, content, MaxSequence(RowsOf(s, table), session))])
    case Insert(_) =>
      var Counted(table, session, content, highest) := WriterAt(s, w);
      s.(writers := s.writers[w := Inserted(table, Record(session, highest + 1, content))])
    case Commit(_) =>
      var Inserted(table, record) := WriterAt(s, w);
      var committed :=
        if table.Snapshots? then s.(snapshots := s.snapshots + [record]) else s.(entries := s.entries + [record]);
      committed.(locks := s.locks - {record.session}, writers := s.writers[w := Resting])
    case Rollback(_) => s.(locks := s.locks - {SessionOf(WriterAt(s, w))}, writers := s.writers[w := Resting])
  }

  ghost predicate IsRun(run: seq<Store>, steps: seq<Step>) {
    && |run| == |steps| + 1
    && run[0] == EMPTY
    && forall i | 0 <= i < |steps| :: Enabled(run[i], steps[i]) && run[i + 1] == Next(run[i], steps[i])
  }

  /** A transaction under way holds its session's lock, and what it counted still holds. */
  ghost predicate WriterOk(s: Store, w: nat) {
    match WriterAt(s, w)
    case Resting => true
    case Locking(_, session, _) => session in s.locks && s.locks[session] == w
    case Counted(table, session, _, highest) =>
      session in s.locks && s.locks[session] == w && highest == MaxSequence(RowsOf(s, table), session)
    case Inserted(table, record) =>
      && record.session in s.locks && s.locks[record.session] == w
      && record.sequence == MaxSequence(RowsOf(s, table), record.session) + 1
  }

  ghost predicate StoreOk(s: Store) {
    && (forall w: nat :: WriterOk(s, w))
    && Numbered(s.snapshots) && Numbered(s.entries)
  }

  /** A row of one session does not change another session's maximum. */
  lemma OtherWriterKeeps(s: Store, t: Store, w: nat, q: nat, table: Table, record: Record)
    requires WriterOk(s, q) && q != w && WriterAt(t, q) == WriterAt(s, q)
    requires record.session in s.locks && s.locks[record.session] == w
    requires RowsOf(t, table) == RowsOf(s, table) + [record] || RowsOf(t, table) == RowsOf(s, table)
    requires forall other | other != table :: RowsOf(t, other) == RowsOf(s, other)
    requires t.locks == s.locks - {record.session}
    ensures WriterOk(t, q)
  {
    if !WriterAt(s, q).Resting? {
      var session := SessionOf(WriterAt(s, q));
      assert session != record.session;
      NextSequences(RowsOf(s, table), record, session);
    }
  }

  /** Committing is appending to the simple form, at that moment. */
  lemma CommitIsAppend(s: Store, w: nat)
    requires StoreOk(s) && WriterAt(s, w).Inserted?
    ensures var Inserted(table, record) := WriterAt(s, w);
      RowsOf(Next(s, Commit(w)), table) == Appended(RowsOf(s, table), record.session, record.content)
  {
    assert WriterOk(s, w);
  }

  lemma CommitKeeps(s: Store, w: nat)
    requires StoreOk(s) && WriterAt(s, w).Inserted?
    ensures StoreOk(Next(s, Commit(w)))
  {
    var Inserted(table, record) := WriterAt(s, w);
    var t := Next(s, Commit(w));
    assert WriterOk(s, w);
    CommitIsAppend(s, w);
    AppendedIsNumbered(RowsOf(s, table), record.session, record.content);
    forall q: nat ensures WriterOk(t, q) {
      if q != w {
        assert WriterOk(s, q) && WriterAt(t, q) == WriterAt(s, q);
        OtherWriterKeeps(s, t, w, q, table, record);
      }
    }
  }

  lemma RollbackKeeps(s: Store, w: nat)
    requires StoreOk(s) && !WriterAt(s, w).Resting?
    ensures StoreOk(Next(s, Rollback(w)))
  {
    var t, session := Next(s, Rollback(w)), SessionOf(WriterAt(s, w));
    assert WriterOk(s, w);
    forall q: nat ensures WriterOk(t, q) {
      if q != w {
        assert WriterOk(s, q) && WriterAt(t, q) == WriterAt(s, q);
        OtherWriterKeeps(s, t, w, q, Entries, Record(session, 0, ""));
      }
    }
  }

  lemma StepKeeps(s: Store, step: Step)
    requires StoreOk(s) && Enabled(s, step)
    ensures StoreOk(Next(s, step))
  {
    match step
    case Commit(w) => CommitKeeps(s, w);
    case Rollback(w) => RollbackKeeps(s, w);
    case _ =>
      var t, w := Next(s, step), step.writer;
      assert WriterOk(s, w);
      forall q: nat ensures WriterOk(t, q) {
        assert WriterOk(s, q);
        assert q != w ==> WriterAt(t, q) == WriterAt(s, q);
      }
  }

  /**
   * However the transactions of any number of writers interleave, the committed snapshots and the committed
   * entries of every session are numbered 1, 2, 3 and so on.
   */
  lemma {:induction false} SequencesAreExact(run: seq<Store>, steps: seq<Step>, i: nat, session: nat)
    requires IsRun(run, steps) && i < |run|
    ensures IsCount(SequencesOf(run[i].snapshots, session)) && IsCount(SequencesOf(run[i].entries, session))
    ensures StoreOk(run[i])
  {
    hide Enabled, Next;
    if i == 0 {
      NothingStored();
    } else {
      SequencesAreExact(run, steps, i - 1, session);
      StepKeeps(run[i - 1], steps[i - 1]);
    }
  }

  lemma NothingStored()
    ensures StoreOk(EMPTY)
  {}

  /** Every step either appends to one table as the simple form does, or leaves both tables alone. */
  lemma EveryStepRefines(run: seq<Store>, steps: seq<Step>, i: nat)
    requires IsRun(run, steps) && i < |steps|
    ensures var s, t := run[i], run[i + 1];
      if steps[i].Commit? then
        && WriterAt(s, steps[i].writer).Inserted?
        && var Inserted(table, record) := WriterAt(s, steps[i].writer);
        && RowsOf(t, table) == Appended(RowsOf(s, table), record.session, record.content)
        && forall other | other != table :: RowsOf(t, other) == RowsOf(s, other)
      else t.snapshots == s.snapshots && t.entries == s.entries
  {
    SequencesAreExact(run, steps, i, 0);
    if steps[i].Commit? {
      CommitIsAppend(run[i], steps[i].writer);
    }
  }

  /** What a transaction under way works on is what it locked its session for. */
  predicate WorksOn(writer: Writer, table: Table, session: nat, content: string) {
    match writer
    case Resting => false
    case Locking(t, s, c) => t == table && s == session && c == content
    case Counted(t, s, c, _) => t == table && s == session && c == content
    case Inserted(t, record) => t == table && record.session == session && record.content == content
  }

  lemma WorkGoesOn(s: Store, step: Step, w: nat, table: Table, session: nat, content: string)
    requires Enabled(s, step) && WorksOn(WriterAt(Next(s, step), w), table, session, content)
    ensures step == Lock(w, table, session, content) || WorksOn(WriterAt(s, w), table, session, content)
  {}

  /** What is committed was asked for: the record that a commit appends has the content of its transaction's start. */
  lemma {:induction false} CommittedWasAsked(run: seq<Store>, steps: seq<Step>, i: nat, w: nat, table: Table,
                                             session: nat, content: string) returns (k: nat)
    requires IsRun(run, steps) && i < |run| && WorksOn(WriterAt(run[i], w), table, session, content)
    ensures k < i && steps[k] == Lock(w, table, session, content)
  {
    hide Enabled, Next, WorksOn;
    assert i > 0 by { NobodyWorks(w, table, session, content); }
    WorkGoesOn(run[i - 1], steps[i - 1], w, table, session, content);
    if steps[i - 1] == Lock(w, table, session, content) {
      k := i - 1;
    } else {
      k := CommittedWasAsked(run, steps, i - 1, w, table, session, content);
    }
  }

  lemma NobodyWorks(w: nat, table: Table, session: nat, content: string)
    ensures !WorksOn(WriterAt(EMPTY, w), table, session, content)
  {}
}
