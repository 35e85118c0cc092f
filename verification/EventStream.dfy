/** The trimmed realtime stream and the hot projection of one execution. */
module EventStream {
  import opened Text
  import opened Events
  import opened Projection

  function Min(a: nat, b: nat): nat {
    if a < b then a else b
  }

  /** What an approximate trim may drop: never so much that fewer than `maxlen` entries stay. */
  predicate MayTrim(length: nat, maxlen: nat, dropped: nat) {
    dropped <= length && Min(maxlen, length) <= length - dropped
  }

  /** The entries behind stream position `cursor`, of a stream that lost its first `dropped` entries. */
  function After(entries: seq<Entry>, dropped: nat, cursor: nat): seq<Entry> {
    if cursor <= dropped then entries
    else if cursor - dropped <= |entries| then entries[cursor - dropped..]
    else []
  }

  /** `ExecutionEventStream`, for the keys of one execution. Stream ids count the entries ever added. */
  class ExecutionEventStream {
    const maxlen: nat
    const readCount: nat
    var sequence: nat
    var entries: seq<Entry>
    var dropped: nat

    constructor (maxlen: nat, readCount: nat)
      ensures sequence == 0 && entries == [] && dropped == 0
      ensures this.maxlen == maxlen && this.readCount == readCount
    {
      this.maxlen, this.readCount := maxlen, readCount;
      sequence, entries, dropped := 0, [], 0;
    }

    /** The counter increment. */
    method Increment() returns (number: nat)
      modifies this`sequence
      ensures number == sequence == old(sequence) + 1
    {
      sequence := sequence + 1;
      number := sequence;
    }

    /** The stream append; `trimmed` entries are dropped, as the server decides. */
    method Add(entry: Entry, trimmed: nat) returns (id: nat)
      requires MayTrim(|entries| + 1, maxlen, trimmed)
      modifies this`entries, this`dropped
      ensures entries == (old(entries) + [entry])[trimmed..]
      ensures dropped == old(dropped) + trimmed
      ensures id == dropped + |entries|
      ensures |entries| >= Min(maxlen, |old(entries)| + 1)
    {
      entries := (entries + [entry])[trimmed..];
      dropped := dropped + trimmed;
      id := dropped + |entries|;
    }

    method Append(event: Event, trimmed: nat) returns (entry: Entry)
      requires MayTrim(|entries| + 1, maxlen, trimmed)
      modifies this
      ensures sequence == old(sequence) + 1 && entry == Entry(sequence, event)
      ensures entries == (old(entries) + [entry])[trimmed..]
      ensures dropped == old(dropped) + trimmed
    {
      var number := Increment();
      entry := Entry(number, event);
      var _ := Add(entry, trimmed);
    }

    method Read(cursor: nat) returns (events: seq<Entry>)
      ensures events <= After(entries, dropped, cursor)
      ensures |events| == Min(readCount, |After(entries, dropped, cursor)|)
    {
      events := After(entries, dropped, cursor);
      events := events[..Min(readCount, |events|)];
    }

    /** The oldest entries, `maxlen` of them at most. */
    method Retained() returns (events: seq<Entry>)
      ensures events == Oldest(entries, maxlen)
    {
      events := entries[..Min(maxlen, |entries|)];
    }

    method Latest() returns (latest: Option<Entry>)
      ensures latest.Some? <==> entries != []
      ensures latest.Some? ==> latest.value == entries[|entries| - 1]
    {
      latest := if entries == [] then None else Some(entries[|entries| - 1]);
    }
  }

  function Oldest(entries: seq<Entry>, count: nat): (oldest: seq<Entry>)
    ensures oldest <= entries && |oldest| <= count && (|oldest| < count ==> oldest == entries)
  {
    entries[..Min(count, |entries|)]
  }

  /** Of a stream that is a window of the log, reading behind a cursor gives what the log has behind it. */
  lemma AfterIsRestOfLog(log: seq<Event>, dropped: nat, cursor: nat)
    requires dropped <= |log| && cursor <= |log|
    ensures var from := if cursor < dropped then dropped else cursor;
      After(Numbered(log, dropped, |log|), dropped, cursor) == Numbered(log, from, |log|)
  {}

  lemma NothingBehindTheEnd(entries: seq<Entry>, dropped: nat, cursor: nat)
    requires cursor >= dropped + |entries|
    ensures After(entries, dropped, cursor) == []
  {}

  /** `ExecutionHotState`, for the key of one execution. */
  class ExecutionHotState {
    var projection: Option<State>

    constructor ()
      ensures projection == None
    {
      projection := None;
    }

    method Get() returns (state: Option<State>)
      ensures state == projection
    {
      state := projection;
    }

    method Set(state: State)
      modifies this
      ensures projection == Some(state)
    {
      projection := Some(state);
    }
  }

  /** A trim leaves the stream alone or leaves at least `maxlen` entries, and may leave exactly so many. */
  lemma TrimsToLimit(length: nat, maxlen: nat, dropped: nat)
    ensures MayTrim(length, maxlen, dropped) <==> dropped == 0 || length >= maxlen + dropped
  {}
}
