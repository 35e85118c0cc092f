/** Lexical search over a session's context, in memory and in the repository's scan order. */
module ContextSearch {
  import opened Text
  import opened ContextStore

  /** Case folding and tokenizing are foreign: the distinct terms of a text, and its folded form. */
  datatype Lexer = Lexer(terms: string -> seq<string>, fold: string -> string)

  datatype Match = Match(record: Record, score: nat)

  predicate OccursAt(text: string, term: string, i: nat) {
    i + |term| <= |text| && text[i..i + |term|] == term
  }

  /** `text.count(term)` from `i` on: occurrences that do not overlap. */
  function CountFrom(text: string, term: string, i: nat): nat
    requires i <= |text| && term != ""
    decreases |text| - i
  {
    if i == |text| then 0
    else if OccursAt(text, term, i) then 1 + CountFrom(text, term, i + |term|)
    else CountFrom(text, term, i + 1)
  }

  function CountAll(text: string, terms: seq<string>): nat {
    if terms == [] then 0
    else
      var last := terms[|terms| - 1];
      CountAll(text, terms[..|terms| - 1]) + (if last == "" then |text| + 1 else CountFrom(text, last, 0))
  }

  /** `lexical_score` */
  function Score(lexer: Lexer, query: string, content: string): nat {
    var terms := lexer.terms(query);
    if terms == [] then 0
    else
      var text, exact := lexer.fold(content), lexer.fold(Strip(query));
      CountAll(text, terms)
      + (if exact != "" && exists i: nat | i <= |text| :: OccursAt(text, exact, i) then |terms| + 1 else 0)
  }

  /** The matches of one session, in the order of the list. */
  function Matches(lexer: Lexer, records: seq<Record>, session: nat, query: string): seq<Match> {
    if records == [] then []
    else
      var last := records[|records| - 1];
      var score := Score(lexer, query, last.content);
      Matches(lexer, records[..|records| - 1], session, query)
      + (if last.session == session && score > 0 then [Match(last, score)] else [])
  }

  /** Higher scores first, then later sequences. */
  predicate Before(a: Match, b: Match) {
    a.score > b.score || (a.score == b.score && a.record.sequence > b.record.sequence)
  }

  function Insert(m: Match, sorted: seq<Match>): seq<Match> {
    if sorted == [] then [m]
    else if Before(sorted[0], m) then [sorted[0]] + Insert(m, sorted[1..])
    else [m] + sorted
  }

  /** The matches in descending order. */
  function Sorted(matches: seq<Match>): seq<Match> {
    if matches == [] then [] else Insert(matches[|matches| - 1], Sorted(matches[..|matches| - 1]))
  }

  function First<T>(items: seq<T>, limit: nat): (first: seq<T>)
    ensures first <= items && |first| <= limit && (|first| < limit ==> first == items)
  {
    if |items| <= limit then items else items[..limit]
  }

  function SearchIn(lexer: Lexer, records: seq<Record>, session: nat, query: string, limit: nat): seq<Match> {
    First(Sorted(Matches(lexer, records, session, query)), limit)
  }

  // ---------------------------------------------------------------------------
  // Both searches
  // ---------------------------------------------------------------------------

  lemma NextMatch(lexer: Lexer, records: seq<Record>, record: Record, session: nat, query: string)
    ensures Matches(lexer, records + [record], session, query) == Matches(lexer, records, session, query)
      + (if record.session == session && Score(lexer, query, record.content) > 0
         then [Match(record, Score(lexer, query, record.content))] else [])
  {
    assert (records + [record])[..|records|] == records;
  }

  /** The loop of the in-memory store. */
  method SearchInMemory(lexer: Lexer, entries: seq<Record>, session: nat, query: string, limit: nat)
    returns (found: seq<Match>)
    ensures found == SearchIn(lexer, entries, session, query, limit)
  {
    hide Score;
    var scored: seq<Match> := [];
    for i := 0 to |entries|
      invariant scored == Matches(lexer, entries[..i], session, query)
    {
      assert entries[..i + 1] == entries[..i] + [entries[i]];
      NextMatch(lexer, entries[..i], entries[i], session, query);
      if entries[i].session != session {
        continue;
      }
      var score := Score(lexer, query, entries[i].content);
      if score <= 0 {
        continue;
      }
      scored := scored + [Match(entries[i], score)];
    }
    assert entries[..|entries|] == entries;
    found := First(Sorted(scored), limit);
  }

  /** The loop of the repository, over the session's rows as the query returns them. */
  method SearchRepository(lexer: Lexer, rows: seq<Record>, session: nat, query: string, limit: nat)
    returns (found: seq<Match>)
    requires forall row <- rows :: row.session == session
    ensures found == SearchIn(lexer, rows, session, query, limit)
  {
    if lexer.terms(query) == [] {
      NoTermsNoMatches(lexer, rows, session, query);
      return [];
    }
    hide Score;
    var matches: seq<Match> := [];
    for i := 0 to |rows|
      invariant matches == Matches(lexer, rows[..i], session, query)
    {
      assert rows[..i + 1] == rows[..i] + [rows[i]] && rows[i] in rows;
      NextMatch(lexer, rows[..i], rows[i], session, query);
      var score := Score(lexer, query, rows[i].content);
      if score <= 0 {
        continue;
      }
      matches := matches + [Match(rows[i], score)];
    }
    assert rows[..|rows|] == rows;
    found := First(Sorted(matches), limit);
  }

  lemma {:induction false} NoTermsNoMatches(lexer: Lexer, rows: seq<Record>, session: nat, query: string)
    requires lexer.terms(query) == []
    ensures Matches(lexer, rows, session, query) == []
  {
    if rows != [] {
      NoTermsNoMatches(lexer, rows[..|rows| - 1], session, query);
    }
  }

  // ---------------------------------------------------------------------------
  // The scan order does not matter
  // ---------------------------------------------------------------------------

  ghost predicate IsSorted(matches: seq<Match>) {
    forall i, j | 0 <= i < j < |matches| :: Before(matches[i], matches[j])
  }

  /** No two matches have the same sequence. */
  ghost predicate DistinctSequences(matches: seq<Match>) {
    forall i, j | 0 <= i < j < |matches| :: matches[i].record.sequence != matches[j].record.sequence
  }

  lemma SortedRest(sorted: seq<Match>)
    requires sorted != [] && IsSorted(sorted)
    ensures IsSorted(sorted[1..]) && forall other <- sorted[1..] :: other in sorted && Before(sorted[0], other)
    ensures multiset(sorted) == multiset{sorted[0]} + multiset(sorted[1..])
  {
    assert sorted == [sorted[0]] + sorted[1..];
  }

  lemma InFront(m: Match, sorted: seq<Match>)
    requires IsSorted(sorted) && forall other <- sorted :: Before(m, other)
    ensures IsSorted([m] + sorted) && multiset([m] + sorted) == multiset{m} + multiset(sorted)
  {
    hide Before;
  }

  lemma InsertedAre(m: Match, sorted: seq<Match>, inserted: seq<Match>)
    requires multiset(inserted) == multiset(sorted) + multiset{m}
    ensures forall other <- inserted :: other == m || other in sorted
  {
    forall other | other in inserted ensures other == m || other in sorted {
      assert other in multiset(inserted);
    }
  }

  lemma SmallestIsInFront(m: Match, sorted: seq<Match>)
    requires sorted != [] && IsSorted(sorted) && !Before(sorted[0], m)
    requires forall other <- sorted :: other.record.sequence != m.record.sequence
    ensures forall other <- sorted :: Before(m, other)
  {
    SortedRest(sorted);
    assert sorted[0] in sorted && forall other <- sorted :: other == sorted[0] || other in sorted[1..];
  }

  lemma {:induction false} InsertSorts(m: Match, sorted: seq<Match>)
    requires IsSorted(sorted) && forall other <- sorted :: other.record.sequence != m.record.sequence
    ensures IsSorted(Insert(m, sorted)) && multiset(Insert(m, sorted)) == multiset(sorted) + multiset{m}
  {
    if sorted == [] {
      assert Insert(m, sorted) == [m];
    } else if Before(sorted[0], m) {
      SortedRest(sorted);
      InsertSorts(m, sorted[1..]);
      InsertedAre(m, sorted[1..], Insert(m, sorted[1..]));
      InFront(sorted[0], Insert(m, sorted[1..]));
    } else {
      SmallestIsInFront(m, sorted);
      InFront(m, sorted);
    }
  }

  lemma {:induction false} SortedIsSorted(matches: seq<Match>)
    requires DistinctSequences(matches)
    ensures IsSorted(Sorted(matches)) && multiset(Sorted(matches)) == multiset(matches)
  {
    if matches != [] {
      var front, last := matches[..|matches| - 1], matches[|matches| - 1];
      SortedIsSorted(front);
      assert matches == front + [last];
      forall other | other in Sorted(front) ensures other.record.sequence != last.record.sequence {
        assert other in multiset(front);
        assert other in front;
      }
      InsertSorts(last, Sorted(front));
    }
  }

  /** Two sorted lists of the same matches are the same list. */
  lemma {:induction false} SortedIsUnique(a: seq<Match>, b: seq<Match>)
    requires IsSorted(a) && IsSorted(b) && multiset(a) == multiset(b)
    ensures a == b
  {
    assert |a| == |multiset(a)| && |b| == |multiset(b)|;
    if a != [] {
      SameFirst(a, b);
      assert a == [a[0]] + a[1..] && b == [b[0]] + b[1..];
      assert multiset(a) == multiset{a[0]} + multiset(a[1..]) && multiset(b) == multiset{b[0]} + multiset(b[1..]);
      assert multiset(a[1..]) == multiset(a) - multiset{a[0]};
      assert multiset(b[1..]) == multiset(b) - multiset{b[0]};
      SortedIsUnique(a[1..], b[1..]);
    }
  }

  lemma HeadIsFirst(matches: seq<Match>, m: Match)
    requires IsSorted(matches) && m in multiset(matches)
    ensures matches != [] && (matches[0] == m || Before(matches[0], m))
  {
    var i :| 0 <= i < |matches| && matches[i] == m;
  }

  lemma SameFirst(a: seq<Match>, b: seq<Match>)
    requires IsSorted(a) && IsSorted(b) && multiset(a) == multiset(b) && a != [] && b != []
    ensures a[0] == b[0]
  {
    assert a[0] in multiset(b) && b[0] in multiset(a);
    HeadIsFirst(a, b[0]);
    HeadIsFirst(b, a[0]);
  }

  lemma DistinctInFront(front: seq<Record>, last: Record, session: nat)
    requires DistinctIn(front + [last], session)
    ensures DistinctIn(front, session)
    ensures last.session == session ==>
      forall record <- front :: record.session == session ==> record.sequence != last.sequence
  {
    var records := front + [last];
    assert records[|front|] == last && forall i | 0 <= i < |front| :: records[i] == front[i];
  }

  lemma DistinctWith(matches: seq<Match>, m: Match)
    requires DistinctSequences(matches) && forall other <- matches :: other.record.sequence != m.record.sequence
    ensures DistinctSequences(matches + [m])
  {}

  lemma {:induction false} MatchesAreRecords(lexer: Lexer, records: seq<Record>, session: nat, query: string)
    ensures forall m <- Matches(lexer, records, session, query) :: m.record in records && m.record.session == session
    ensures DistinctIn(records, session) ==> DistinctSequences(Matches(lexer, records, session, query))
  {
    hide Score, DistinctIn;
    if records != [] {
      var front, last := records[..|records| - 1], records[|records| - 1];
      MatchesAreRecords(lexer, front, session, query);
      var before := Matches(lexer, front, session, query);
      assert records == front + [last];
      if DistinctIn(records, session) {
        DistinctInFront(front, last, session);
        var all := Matches(lexer, records, session, query);
        if last.session == session && all != before {
          DistinctWith(before, all[|all| - 1]);
        }
      }
    }
  }

  /** A session's records have different sequences. */
  ghost predicate DistinctIn(records: seq<Record>, session: nat) {
    forall i, j | 0 <= i < j < |records| && records[i].session == session && records[j].session == session ::
      records[i].sequence != records[j].sequence
  }

  predicate IsMatch(lexer: Lexer, session: nat, query: string, m: Match) {
    m.record.session == session && m.score > 0 && m.score == Score(lexer, query, m.record.content)
  }

  function MatchOf(lexer: Lexer, record: Record, session: nat, query: string): seq<Match> {
    if record.session == session && Score(lexer, query, record.content) > 0 then
      [Match(record, Score(lexer, query, record.content))]
    else []
  }

  lemma MatchOfOne(lexer: Lexer, record: Record, session: nat, query: string, m: Match)
    ensures multiset(MatchOf(lexer, record, session, query))[m]
         == if IsMatch(lexer, session, query, m) then multiset([record])[m.record] else 0
  {
    hide Score;
  }

  /** How often a match is found depends on how often its record is there, not where. */
  lemma {:induction false} MatchCount(lexer: Lexer, records: seq<Record>, session: nat, query: string, m: Match)
    ensures multiset(Matches(lexer, records, session, query))[m]
         == if IsMatch(lexer, session, query, m) then multiset(records)[m.record] else 0
  {
    if records != [] {
      var front, last := records[..|records| - 1], records[|records| - 1];
      MatchCount(lexer, front, session, query, m);
      assert records == front + [last];
      assert Matches(lexer, records, session, query)
        == Matches(lexer, front, session, query) + MatchOf(lexer, last, session, query);
      hide Matches, Score, MatchOf, IsMatch;
      MatchOfOne(lexer, last, session, query, m);
      CountInConcat(Matches(lexer, front, session, query), MatchOf(lexer, last, session, query), m);
      CountInConcat(front, [last], m.record);
    }
  }

  lemma SameMatches(lexer: Lexer, a: seq<Record>, b: seq<Record>, session: nat, query: string)
    requires SameRecords(a, b, session)
    ensures multiset(Matches(lexer, a, session, query)) == multiset(Matches(lexer, b, session, query))
  {
    hide Matches, Score;
    forall m: Match
      ensures multiset(Matches(lexer, a, session, query))[m] == multiset(Matches(lexer, b, session, query))[m]
    {
      MatchCount(lexer, a, session, query, m);
      MatchCount(lexer, b, session, query, m);
    }
  }

  /** Both lists hold the same records of the session, in whatever order. */
  ghost predicate SameRecords(a: seq<Record>, b: seq<Record>, session: nat) {
    forall record: Record | record.session == session :: multiset(a)[record] == multiset(b)[record]
  }

  /** The search finds the same, in the same order, however the session's records are scanned. */
  lemma ScanOrderDoesNotMatter(lexer: Lexer, a: seq<Record>, b: seq<Record>, session: nat, query: string, limit: nat)
    requires SameRecords(a, b, session) && DistinctIn(a, session) && DistinctIn(b, session)
    ensures SearchIn(lexer, a, session, query, limit) == SearchIn(lexer, b, session, query, limit)
  {
    hide Matches, Sorted;
    MatchesAreRecords(lexer, a, session, query);
    MatchesAreRecords(lexer, b, session, query);
    SameMatches(lexer, a, b, session, query);
    SortedIsSorted(Matches(lexer, a, session, query));
    SortedIsSorted(Matches(lexer, b, session, query));
    SortedIsUnique(Sorted(Matches(lexer, a, session, query)), Sorted(Matches(lexer, b, session, query)));
  }

  /** The rows of a session by descending sequence, as the repository reads them. */
  function Descending(records: seq<Record>, session: nat): seq<Record> {
    if records == [] then []
    else
      var last := records[|records| - 1];
      (if last.session == session then [last] else []) + Descending(records[..|records| - 1], session)
  }

  lemma {:induction false} DescendingRows(records: seq<Record>, session: nat)
    ensures forall row <- Descending(records, session) :: row.session == session && row in records
  {
    if records != [] {
      DescendingRows(records[..|records| - 1], session);
    }
  }

  lemma CountInConcat<T>(a: seq<T>, b: seq<T>, item: T)
    ensures multiset(a + b)[item] == multiset(a)[item] + multiset(b)[item]
  {
    assert multiset(a + b) == multiset(a) + multiset(b);
  }

  lemma NextDescending(records: seq<Record>, last: Record, session: nat)
    ensures Descending(records + [last], session)
         == (if last.session == session then [last] else []) + Descending(records, session)
  {
    assert (records + [last])[..|records|] == records;
  }

  lemma {:induction false} DescendingCount(records: seq<Record>, session: nat, record: Record)
    requires record.session == session
    ensures multiset(Descending(records, session))[record] == multiset(records)[record]
  {
    if records != [] {
      hide Descending;
      var front, last := records[..|records| - 1], records[|records| - 1];
      DescendingCount(front, session, record);
      assert records == front + [last];
      NextDescending(front, last, session);
      CountInConcat(if last.session == session then [last] else [], Descending(front, session), record);
      CountInConcat(front, [last], record);
    }
  }

  /** They are the session's records, from the highest sequence down to 1. */
  lemma {:induction false} DescendingIsDescending(records: seq<Record>, session: nat)
    requires IsCount(SequencesOf(records, session))
    ensures |Descending(records, session)| == |SequencesOf(records, session)|
    ensures forall i | 0 <= i < |Descending(records, session)| ::
      Descending(records, session)[i].sequence == |Descending(records, session)| - i
  {
    if records != [] {
      var front, last := records[..|records| - 1], records[|records| - 1];
      var before, all := SequencesOf(front, session), SequencesOf(records, session);
      assert before <= all && forall i | 0 <= i < |before| :: before[i] == all[i];
      DescendingIsDescending(front, session);
      if last.session == session {
        assert all[|before|] == last.sequence;
      } else {
        assert [] + Descending(front, session) == Descending(front, session);
      }
    }
  }

  lemma DescendingHasThem(records: seq<Record>, session: nat)
    requires IsCount(SequencesOf(records, session))
    ensures SameRecords(Descending(records, session), records, session)
    ensures DistinctIn(Descending(records, session), session)
  {
    hide Descending;
    DescendingIsDescending(records, session);
    forall record: Record | record.session == session
      ensures multiset(Descending(records, session))[record] == multiset(records)[record]
    {
      DescendingCount(records, session, record);
    }
  }

  lemma {:induction false} NumberedIsDistinct(records: seq<Record>, session: nat)
    requires IsCount(SequencesOf(records, session))
    ensures DistinctIn(records, session)
    ensures forall record <- records :: record.session == session ==> record.sequence <= |SequencesOf(records, session)|
  {
    if records != [] {
      var front, last := records[..|records| - 1], records[|records| - 1];
      var before, all := SequencesOf(front, session), SequencesOf(records, session);
      assert before <= all && forall i | 0 <= i < |before| :: before[i] == all[i];
      NumberedIsDistinct(front, session);
      assert records == front + [last];
      if last.session == session {
        assert all[|before|] == last.sequence == |before| + 1;
        forall i | 0 <= i < |front| && front[i].session == session ensures front[i].sequence != last.sequence {
          assert front[i] in front;
        }
      }
    }
  }

  /** On any numbered table, the repository's search and the in-memory search agree. */
  lemma RepositorySearchRefines(lexer: Lexer, records: seq<Record>, session: nat, query: string, limit: nat)
    requires Numbered(records)
    ensures SearchIn(lexer, Descending(records, session), session, query, limit)
         == SearchIn(lexer, records, session, query, limit)
  {
    hide SearchIn;
    assert IsCount(SequencesOf(records, session));
    NumberedIsDistinct(records, session);
    DescendingHasThem(records, session);
    ScanOrderDoesNotMatter(lexer, Descending(records, session), records, session, query, limit);
  }

  // ---------------------------------------------------------------------------
  // What is found, and how it scores
  // ---------------------------------------------------------------------------

  /** The record would be found if the limit allowed it. */
  predicate Scores(lexer: Lexer, records: seq<Record>, session: nat, query: string, record: Record) {
    record in records && record.session == session && Score(lexer, query, record.content) > 0
  }

  lemma {:induction false} MatchesAreScored(lexer: Lexer, records: seq<Record>, session: nat, query: string)
    ensures forall m: Match ::
      m in Matches(lexer, records, session, query)
      <==> Scores(lexer, records, session, query, m.record) && m.score == Score(lexer, query, m.record.content)
  {
    hide Score;
    if records != [] {
      var front, last := records[..|records| - 1], records[|records| - 1];
      MatchesAreScored(lexer, front, session, query);
      assert records == front + [last];
    }
  }

  /**
   * The search finds scored records of the session, best first; a scored record that is not found comes behind all
   * that are, and is only missing because the limit is reached.
   */
  lemma SearchFindsTheBest(lexer: Lexer, records: seq<Record>, session: nat, query: string, limit: nat)
    requires DistinctIn(records, session)
    ensures var found := SearchIn(lexer, records, session, query, limit);
      && |found| <= limit
      && (forall m <- found ::
            Scores(lexer, records, session, query, m.record) && m.score == Score(lexer, query, m.record.content))
      && (forall i, j | 0 <= i < j < |found| ::
            || found[i].score > found[j].score
            || (found[i].score == found[j].score && found[i].record.sequence > found[j].record.sequence))
      && forall record | Scores(lexer, records, session, query, record)
                         && Match(record, Score(lexer, query, record.content)) !in found ::
           |found| == limit && forall m <- found :: Before(m, Match(record, Score(lexer, query, record.content)))
  {
    hide Score, Matches, Sorted, Scores;
    var matches := Matches(lexer, records, session, query);
    var sorted := Sorted(matches);
    var found := First(sorted, limit);
    MatchesAreRecords(lexer, records, session, query);
    SortedIsSorted(matches);
    MatchesAreScored(lexer, records, session, query);
    SameElements(matches, sorted);
    forall record | Scores(lexer, records, session, query, record)
                    && Match(record, Score(lexer, query, record.content)) !in found
      ensures |found| == limit && forall m <- found :: Before(m, Match(record, Score(lexer, query, record.content)))
    {
      var missing := Match(record, Score(lexer, query, record.content));
      assert missing in matches && missing in sorted;
      RestIsBehind(sorted, found, missing);
    }
  }

  lemma SameElements(a: seq<Match>, b: seq<Match>)
    requires multiset(a) == multiset(b)
    ensures forall m :: m in a <==> m in b
  {
    assert forall m :: m in a <==> m in multiset(a);
    assert forall m :: m in b <==> m in multiset(b);
  }

  lemma RestIsBehind(sorted: seq<Match>, found: seq<Match>, missing: Match)
    requires IsSorted(sorted) && found <= sorted && missing in sorted && missing !in found
    ensures |found| < |sorted| && forall m <- found :: Before(m, missing)
  {
    var j :| 0 <= j < |sorted| && sorted[j] == missing;
    assert forall i | 0 <= i < |found| :: found[i] == sorted[i] && found[i] != missing;
    assert j >= |found|;
  }

  /** A term counts if it occurs. */
  lemma {:induction false} CountIsPositive(text: string, term: string, i: nat)
    requires i <= |text| && term != ""
    ensures CountFrom(text, term, i) > 0 <==> exists k :: i <= k <= |text| && OccursAt(text, term, k)
    decreases |text| - i
  {
    if i < |text| && !OccursAt(text, term, i) {
      CountIsPositive(text, term, i + 1);
    }
  }

  function Repeated(term: string, n: nat): string {
    if n == 0 then "" else term + Repeated(term, n - 1)
  }

  lemma {:induction false} CountBehind(before: string, text: string, term: string, i: nat)
    requires i <= |text| && term != ""
    ensures CountFrom(before + text, term, |before| + i) == CountFrom(text, term, i)
    decreases |text| - i
  {
    var whole := before + text;
    if i < |text| {
      assert OccursAt(whole, term, |before| + i) <==> OccursAt(text, term, i) by {
        if i + |term| <= |text| {
          assert whole[|before| + i..|before| + i + |term|] == text[i..i + |term|];
        }
      }
      if OccursAt(text, term, i) {
        CountBehind(before, text, term, i + |term|);
      } else {
        CountBehind(before, text, term, i + 1);
      }
    }
  }

  /** A term repeated counts as often as it is repeated: occurrences do not overlap, and none is missed. */
  lemma {:induction false} RepetitionsAreCounted(term: string, n: nat)
    requires term != ""
    ensures CountFrom(Repeated(term, n), term, 0) == n
  {
    if n > 0 {
      var rest := Repeated(term, n - 1);
      RepetitionsAreCounted(term, n - 1);
      CountBehind(term, rest, term, 0);
      assert OccursAt(term + rest, term, 0);
    }
  }

  lemma {:induction false} CountsAddUp(text: string, terms: seq<string>, term: string)
    ensures CountAll(text, terms + [term])
         == CountAll(text, terms) + (if term == "" then |text| + 1 else CountFrom(text, term, 0))
    ensures CountAll(text, []) == 0
  {
    assert (terms + [term])[..|terms|] == terms;
  }

  /** A record scores its terms, and once more than the number of terms if the whole query occurs in it. */
  lemma ExactMatchScoresMore(lexer: Lexer, query: string, content: string)
    requires lexer.terms(query) != []
    ensures var text, exact := lexer.fold(content), lexer.fold(Strip(query));
      Score(lexer, query, content) - CountAll(text, lexer.terms(query))
      == if exact != "" && CountFrom(text, exact, 0) > 0 then |lexer.terms(query)| + 1 else 0
  {
    var text, exact := lexer.fold(content), lexer.fold(Strip(query));
    hide CountFrom, CountAll, Strip;
    if exact != "" {
      CountIsPositive(text, exact, 0);
    }
  }

  lemma NoTermsNoScore(lexer: Lexer, query: string, content: string)
    requires lexer.terms(query) == []
    ensures Score(lexer, query, content) == 0
  {}
}
