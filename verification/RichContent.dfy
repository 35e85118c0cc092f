/** The scanner that separates narrative text from inline visualization directives. */
module RichContent {
  import opened Text

  const MAX_INLINE_VISUALIZATIONS: nat := 5

  /** A fence line: a token at a line start, then blanks, then a line break or, if `orEnd`, the end. */
  datatype Fence = Fence(token: string, orEnd: bool) {
    ghost predicate Valid() {
      token != [] && forall i | 0 <= i < |token| :: token[i] != '\n' && token[i] != '\r'
    }
  }

  /** The fences around a directive. The proofs hold for any tokens that stay on one line. */
  datatype Syntax = Syntax(openingToken: string, closingToken: string) {
    const opening := Fence(openingToken, false)
    const closing := Fence(closingToken, true)

    ghost predicate Valid() {
      opening.Valid() && closing.Valid()
    }
  }

  const DIRECTIVES: Syntax := Syntax("```visualization", "```")

  lemma DirectivesAreValid()
    ensures DIRECTIVES.Valid()
  {}

  datatype Match = Match(start: nat, end: nat)

  /** What the scan finds: text in front of a directive, a closed directive, an open one, the rest. */
  datatype Token = Prose(text: string) | Directive(body: string) | Open | Tail(text: string)

  datatype Block =
    | Markdown(content: string)
    | Visualization(payload: string)
    | Pending
    | Invalid(payload: string)
    | OverLimit

  // ---------------------------------------------------------------------------
  // The two regular expressions
  // ---------------------------------------------------------------------------

  predicate IsLineStart(s: string, i: nat)
    requires i <= |s|
  {
    i == 0 || s[i - 1] == '\n'
  }

  predicate StartsWith(s: string, i: nat, token: string) {
    i + |token| <= |s| && s[i..i + |token|] == token
  }

  /** The end of a run of spaces and tabs. */
  function SkipBlanks(s: string, i: nat): (j: nat)
    requires i <= |s|
    ensures i <= j <= |s|
    decreases |s| - i
  {
    if i < |s| && (s[i] == ' ' || s[i] == '\t') then SkipBlanks(s, i + 1) else i
  }

  /** `\r?\n` */
  function LineBreakEnd(s: string, i: nat): (end: Option<nat>)
    requires i <= |s|
    ensures end.Some? ==> i < end.value <= |s| && s[end.value - 1] == '\n'
  {
    if i < |s| && s[i] == '\n' then Some(i + 1)
    else if i + 1 < |s| && s[i] == '\r' && s[i + 1] == '\n' then Some(i + 2)
    else None
  }

  /** Where a fence line that starts at `i` ends. */
  function FenceEnd(fence: Fence, s: string, i: nat): (end: Option<nat>)
    requires i <= |s|
    ensures end.Some? ==> i + |fence.token| <= end.value <= |s| && IsLineStart(s, i)
    ensures end.Some? && (!fence.orEnd || end.value < |s|) ==>
      i + |fence.token| < end.value && IsLineStart(s, end.value)
  {
    if IsLineStart(s, i) && StartsWith(s, i, fence.token) then
      var j := SkipBlanks(s, i + |fence.token|);
      if fence.orEnd && j == |s| then Some(j) else LineBreakEnd(s, j)
    else None
  }

  /** `m` is the first fence from `from` on, or there is none. */
  ghost predicate IsLeftmost(fence: Fence, s: string, from: nat, m: Option<Match>) {
    match m
    case Some(found) =>
      && from <= found.start <= found.end <= |s|
      && FenceEnd(fence, s, found.start) == Some(found.end)
      && forall i | from <= i < found.start :: FenceEnd(fence, s, i).None?
    case None => forall i | from <= i <= |s| :: FenceEnd(fence, s, i).None?
  }

  lemma {:induction false} LeftmostExists(fence: Fence, s: string, from: nat) returns (m: Option<Match>)
    requires from <= |s|
    ensures IsLeftmost(fence, s, from, m)
    decreases |s| - from
  {
    match FenceEnd(fence, s, from)
    case Some(end) => m := Some(Match(from, end));
    case None =>
      if from == |s| {
        m := None;
      } else {
        m := LeftmostExists(fence, s, from + 1);
      }
  }

  /** `pattern.search(s, from)` */
  ghost function Find(fence: Fence, s: string, from: nat): (m: Option<Match>)
    requires from <= |s|
    ensures m.Some? ==> from <= m.value.start <= m.value.end <= |s| && (fence.orEnd || m.value.start < m.value.end)
  {
    assert exists m :: IsLeftmost(fence, s, from, m) by {
      var m := LeftmostExists(fence, s, from);
    }
    var m :| IsLeftmost(fence, s, from, m);
    m
  }

  lemma FindIsLeftmost(fence: Fence, s: string, from: nat)
    requires from <= |s|
    ensures IsLeftmost(fence, s, from, Find(fence, s, from))
  {
    var m := LeftmostExists(fence, s, from);
  }

  lemma LeftmostIsFound(fence: Fence, s: string, from: nat, m: Option<Match>)
    requires from <= |s| && IsLeftmost(fence, s, from, m)
    ensures Find(fence, s, from) == m
  {
    FindIsLeftmost(fence, s, from);
  }

  method Search(fence: Fence, s: string, from: nat) returns (m: Option<Match>)
    requires from <= |s|
    ensures m == Find(fence, s, from)
  {
    m := None;
    var i := from;
    while i <= |s| && m.None?
      invariant from <= i && (m.None? ==> i <= |s| + 1 && forall k | from <= k < i :: FenceEnd(fence, s, k).None?)
      invariant m.Some? ==> IsLeftmost(fence, s, from, m)
      decreases |s| + 1 - i
    {
      var end := FenceEnd(fence, s, i);
      if end.Some? {
        m := Some(Match(i, end.value));
      }
      i := i + 1;
    }
    LeftmostIsFound(fence, s, from, m);
  }

  /** The start of the line that ends at `end`. */
  function LineStart(s: string, end: nat): (i: nat)
    requires end <= |s|
    ensures i <= end && IsLineStart(s, i)
  {
    if end == 0 || s[end - 1] == '\n' then end else LineStart(s, end - 1)
  }

  /** Whether an unfinished last line may still become a fence line. */
  predicate MayBecome(token: string, line: string) {
    var candidate := TrimRight(IsCarriageReturn, line);
    candidate != [] && (candidate <= token || token <= candidate)
  }

  function PartialOpeningIndex(g: Syntax, s: string): (i: Option<nat>)
    ensures i.Some? ==> i.value <= |s|
  {
    var lineStart := LineStart(s, |s|);
    if MayBecome(g.opening.token, s[lineStart..]) then Some(lineStart) else None
  }

  function Visible(g: Syntax, tail: string): string {
    match PartialOpeningIndex(g, tail)
    case Some(i) => tail[..i]
    case None => tail
  }

  function NonEmpty(part: string): seq<string> {
    if part == [] then [] else [part]
  }

  // ---------------------------------------------------------------------------
  // What the two loops compute
  // ---------------------------------------------------------------------------

  /** The scan from `position` on. */
  ghost function Lex(g: Syntax, s: string, position: nat): seq<Token>
    requires position <= |s|
    decreases |s| - position, 0
  {
    match Find(g.opening, s, position)
    case None => [Tail(s[position..])]
    case Some(opening) => [Prose(s[position..opening.start])] + LexDirective(g, s, opening.end)
  }

  /** The scan from behind an opening line on. */
  ghost function LexDirective(g: Syntax, s: string, position: nat): seq<Token>
    requires position <= |s|
    decreases |s| - position, 1
  {
    match Find(g.closing, s, position)
    case None => [Open]
    case Some(closing) => [Directive(s[position..closing.start])] + Lex(g, s, closing.end)
  }

  function TokenParts(g: Syntax, token: Token): seq<string> {
    match token
    case Prose(text) => NonEmpty(text)
    case Tail(text) => NonEmpty(Visible(g, text))
    case Directive(_) => []
    case Open => []
  }

  /** The narrative parts, an unfinished directive hidden. */
  function Parts(g: Syntax, tokens: seq<Token>): seq<string> {
    if tokens == [] then [] else TokenParts(g, tokens[0]) + Parts(g, tokens[1..])
  }

  function Trimmed(parts: seq<string>): seq<string> {
    if parts == [] then []
    else if IsBlank(parts[0]) then Trimmed(parts[1..])
    else [Trim(IsNewline, parts[0])] + Trimmed(parts[1..])
  }

  function Normalize(parts: seq<string>): string {
    Strip(Join("\n", Trimmed(parts)))
  }

  /** `strip_visualization_blocks` as a function of the content. */
  ghost function Narrative(g: Syntax, s: string): string {
    Normalize(Parts(g, Lex(g, s, 0)))
  }

  /** One closed directive as a block; `accepts` stands for the payload check. */
  function DirectiveBlock(payload: string, count: nat, options: Options): Block {
    if count >= options.limit then OverLimit
    else if options.accepts(payload) then Visualization(payload)
    else Invalid(payload)
  }

  /** `_append_markdown` on an empty list. */
  function MarkdownBlock(text: string): seq<Block> {
    if text == [] then [] else [Markdown(text)]
  }

  datatype Options = Options(partial: bool, accepts: string -> bool, limit: nat := MAX_INLINE_VISUALIZATIONS)

  /** The blocks of one token, `count` visualizations already accepted. */
  function TokenBlocks(g: Syntax, token: Token, count: nat, options: Options): seq<Block> {
    match token
    case Prose(text) => MarkdownBlock(text)
    case Directive(body) => [DirectiveBlock(Strip(body), count, options)]
    case Open => if options.partial then [Pending] else []
    case Tail(text) =>
      if options.partial && PartialOpeningIndex(g, text).Some? then MarkdownBlock(Visible(g, text)) + [Pending]
      else MarkdownBlock(text)
  }

  function Counted(token: Token, count: nat, options: Options): nat {
    if token.Directive? && DirectiveBlock(Strip(token.body), count, options).Visualization? then count + 1 else count
  }

  function Blocks(g: Syntax, tokens: seq<Token>, count: nat, options: Options): seq<Block> {
    if tokens == [] then []
    else TokenBlocks(g, tokens[0], count, options) + Blocks(g, tokens[1..], Counted(tokens[0], count, options), options)
  }

  /** `parse_rich_content` as a function of the content. */
  ghost function RichContent(g: Syntax, s: string, options: Options): seq<Block> {
    Blocks(g, Lex(g, s, 0), 0, options)
  }

  // ---------------------------------------------------------------------------
  // The loops
  // ---------------------------------------------------------------------------

  lemma NextParts(g: Syntax, token: Token, rest: seq<Token>)
    ensures Parts(g, [token]) == TokenParts(g, token)
    ensures Parts(g, [token] + rest) == TokenParts(g, token) + Parts(g, rest)
    ensures token.Directive? || token.Open? ==> Parts(g, [token] + rest) == Parts(g, rest)
  {
    assert ([token] + rest)[1..] == rest && [token][1..] == [];
  }

  lemma NextBlocks(g: Syntax, token: Token, rest: seq<Token>, count: nat, options: Options)
    ensures Blocks(g, [token], count, options) == TokenBlocks(g, token, count, options)
    ensures Blocks(g, [token] + rest, count, options)
         == TokenBlocks(g, token, count, options) + Blocks(g, rest, Counted(token, count, options), options)
  {
    assert ([token] + rest)[1..] == rest && [token][1..] == [];
  }

  /** At the end of the content there is nothing left to show. */
  lemma NothingLeft(g: Syntax, s: string)
    ensures Parts(g, Lex(g, s, |s|)) == []
    ensures forall count, options :: Blocks(g, Lex(g, s, |s|), count, options) == []
  {
    FindIsLeftmost(g.opening, s, |s|);
    assert s[|s|..] == [];
    NextParts(g, Tail([]), []);
    forall count, options ensures Blocks(g, Lex(g, s, |s|), count, options) == [] {
      NextBlocks(g, Tail([]), [], count, options);
    }
  }

  /** Where a pass of either loop starts: a line start, or the end. */
  predicate AtStop(s: string, position: nat)
    requires position <= |s|
  {
    IsLineStart(s, position) || position == |s|
  }

  /** One pass of the stripping loop: the parts it appends, and where it goes on. */
  method StripStep(g: Syntax, content: string, position: nat) returns (emitted: seq<string>, next: Option<nat>)
    requires position < |content|
    ensures next.Some? ==> position < next.value <= |content| && AtStop(content, next.value)
    ensures Parts(g, Lex(g, content, position)) == emitted +
      (if next.Some? then Parts(g, Lex(g, content, next.value)) else [])
  {
    next := None;
    var opening := Search(g.opening, content, position);
    if opening.None? {
      var tail := content[position..];
      NextParts(g, Tail(tail), []);
      var partialIndex := PartialOpeningIndex(g, tail);
      if partialIndex.Some? {
        tail := tail[..partialIndex.value];
      }
      emitted := NonEmpty(tail);
      return;
    }
    var prefix := content[position..opening.value.start];
    NextParts(g, Prose(prefix), LexDirective(g, content, opening.value.end));
    emitted := NonEmpty(prefix);
    var closing := Search(g.closing, content, opening.value.end);
    if closing.None? {
      NextParts(g, Open, []);
      return;
    }
    NextParts(g, Directive(content[opening.value.end..closing.value.start]), Lex(g, content, closing.value.end));
    next := Some(closing.value.end);
  }

  method StripVisualizationBlocks(content: string, g: Syntax := DIRECTIVES) returns (narrative: string)
    ensures narrative == Narrative(g, content)
  {
    hide Lex, Parts;
    if content == "" {
      NothingLeft(g, content);
      return "";
    }
    var markdown: seq<string> := [];
    var position := 0;
    while position < |content|
      invariant position <= |content| && AtStop(content, position)
      invariant Parts(g, Lex(g, content, 0)) == markdown + Parts(g, Lex(g, content, position))
      decreases |content| - position
    {
      var emitted, next := StripStep(g, content, position);
      markdown := markdown + emitted;
      position := next.GetOr(|content|);
      if next.None? {
        NothingLeft(g, content);
      }
    }
    NothingLeft(g, content);
    assert Parts(g, Lex(g, content, 0)) == markdown;
    narrative := NormalizeLoop(markdown);
  }

  /** The closing comprehension: trims the non-blank parts and joins them. */
  method NormalizeLoop(markdown: seq<string>) returns (narrative: string)
    ensures narrative == Normalize(markdown)
  {
    var kept: seq<string> := [];
    for i := 0 to |markdown|
      invariant Trimmed(markdown) == kept + Trimmed(markdown[i..])
    {
      if !IsBlank(markdown[i]) {
        kept := kept + [Trim(IsNewline, markdown[i])];
      }
      assert markdown[i..][1..] == markdown[i + 1..];
    }
    assert kept + [] == kept;
    return Strip(Join("\n", kept));
  }

  method TailLoop(g: Syntax, tail: string, count: nat, options: Options) returns (blocks: seq<Block>)
    ensures blocks == TokenBlocks(g, Tail(tail), count, options)
  {
    var partialIndex := if options.partial then PartialOpeningIndex(g, tail) else None;
    if partialIndex.None? {
      blocks := MarkdownBlock(tail);
    } else {
      blocks := MarkdownBlock(tail[..partialIndex.value]);
      blocks := blocks + [Pending];
    }
  }

  lemma LexAt(g: Syntax, s: string, position: nat)
    requires position <= |s|
    ensures Lex(g, s, position) == match Find(g.opening, s, position)
      case None => [Tail(s[position..])]
      case Some(opening) => [Prose(s[position..opening.start])] + LexDirective(g, s, opening.end)
  {}

  lemma LexInDirective(g: Syntax, s: string, position: nat)
    requires position <= |s|
    ensures LexDirective(g, s, position) == match Find(g.closing, s, position)
      case None => [Open]
      case Some(closing) => [Directive(s[position..closing.start])] + Lex(g, s, closing.end)
  {}

  lemma BlocksOfTail(g: Syntax, s: string, position: nat, count: nat, options: Options)
    requires position <= |s| && Find(g.opening, s, position).None?
    ensures Blocks(g, Lex(g, s, position), count, options) == TokenBlocks(g, Tail(s[position..]), count, options)
  {
    hide Blocks, Find;
    NextBlocks(g, Tail(s[position..]), [], count, options);
  }

  /** What the text in front of a directive and the directive itself add. */
  lemma BlocksOfPass(g: Syntax, s: string, position: nat, count: nat, options: Options, opening: Match)
    requires position <= |s| && Find(g.opening, s, position) == Some(opening)
    ensures var prefix := MarkdownBlock(s[position..opening.start]);
      Blocks(g, Lex(g, s, position), count, options) == match Find(g.closing, s, opening.end)
        case None => prefix + TokenBlocks(g, Open, count, options)
        case Some(closing) =>
          var token := Directive(s[opening.end..closing.start]);
          (prefix + TokenBlocks(g, token, count, options))
          + Blocks(g, Lex(g, s, closing.end), Counted(token, count, options), options)
  {
    LexAt(g, s, position);
    LexInDirective(g, s, opening.end);
    hide Blocks, Find, Lex, LexDirective, MarkdownBlock, Strip;
    var prefix := s[position..opening.start];
    NextBlocks(g, Prose(prefix), LexDirective(g, s, opening.end), count, options);
    match Find(g.closing, s, opening.end)
    case None => NextBlocks(g, Open, [], count, options);
    case Some(closing) =>
      var token, rest := Directive(s[opening.end..closing.start]), Lex(g, s, closing.end);
      NextBlocks(g, token, rest, count, options);
      Regrouped(MarkdownBlock(prefix), TokenBlocks(g, token, count, options),
                Blocks(g, rest, Counted(token, count, options), options));
  }

  lemma Regrouped<T>(a: seq<T>, b: seq<T>, c: seq<T>)
    ensures a + (b + c) == (a + b) + c
  {}

  /** One pass of the parsing loop: the blocks it appends, and where it goes on. */
  method ParseStep(g: Syntax, content: string, position: nat, count: nat, options: Options)
    returns (emitted: seq<Block>, next: Option<nat>, counted: nat)
    requires position < |content|
    ensures next.Some? ==> position < next.value <= |content| && AtStop(content, next.value)
    ensures Blocks(g, Lex(g, content, position), count, options) == emitted +
      (if next.Some? then Blocks(g, Lex(g, content, next.value), counted, options) else [])
  {
    hide Blocks, Lex, LexDirective, Strip, PartialOpeningIndex;
    next, counted := None, count;
    var opening := Search(g.opening, content, position);
    if opening.None? {
      BlocksOfTail(g, content, position, count, options);
      emitted := TailLoop(g, content[position..], count, options);
      return;
    }
    BlocksOfPass(g, content, position, count, options, opening.value);
    emitted := MarkdownBlock(content[position..opening.value.start]);
    var closing := Search(g.closing, content, opening.value.end);
    if closing.None? {
      if options.partial {
        emitted := emitted + [Pending];
      }
      return;
    }
    var block := DirectiveBlock(Strip(content[opening.value.end..closing.value.start]), count, options);
    emitted := emitted + [block];
    if block.Visualization? {
      counted := count + 1;
    }
    next := Some(closing.value.end);
  }

  method ParseRichContent(content: string, options: Options, g: Syntax := DIRECTIVES)
    returns (blocks: seq<Block>)
    ensures blocks == RichContent(g, content, options)
  {
    hide Lex, Blocks;
    blocks := [];
    var position, count := 0, 0;
    while position < |content|
      invariant position <= |content| && AtStop(content, position)
      invariant RichContent(g, content, options) == blocks + Blocks(g, Lex(g, content, position), count, options)
      decreases |content| - position
    {
      var emitted, next, counted := ParseStep(g, content, position, count, options);
      blocks := blocks + emitted;
      count := counted;
      if next.None? {
        return;
      }
      position := next.value;
    }
    NothingLeft(g, content);
  }

  // ---------------------------------------------------------------------------
  // What a fence line is, and which last lines are hidden
  // ---------------------------------------------------------------------------

  predicate IsBlanks(s: string) {
    forall i | 0 <= i < |s| :: s[i] == ' ' || s[i] == '\t'
  }

  /** The token, blanks, and a line break, or for the closing fence the end of the text. */
  ghost predicate IsFenceLine(fence: Fence, line: string, atEnd: bool) {
    exists blanks: string, ending: string ::
      && IsBlanks(blanks) && line == fence.token + blanks + ending
      && (ending == "\n" || ending == "\r\n" || (ending == "" && fence.orEnd && atEnd))
  }

  lemma {:induction false} BlanksAreSkipped(s: string, i: nat)
    requires i <= |s|
    ensures IsBlanks(s[i..SkipBlanks(s, i)])
    ensures SkipBlanks(s, i) < |s| ==> s[SkipBlanks(s, i)] != ' ' && s[SkipBlanks(s, i)] != '\t'
    decreases |s| - i
  {
    if i < |s| && (s[i] == ' ' || s[i] == '\t') {
      BlanksAreSkipped(s, i + 1);
      assert s[i..SkipBlanks(s, i)] == [s[i]] + s[i + 1..SkipBlanks(s, i)];
    }
  }

  lemma {:induction false} SkipBlanksIs(s: string, i: nat, j: nat)
    requires i <= j <= |s| && IsBlanks(s[i..j]) && (j < |s| ==> s[j] != ' ' && s[j] != '\t')
    ensures SkipBlanks(s, i) == j
    decreases j - i
  {
    if i < j {
      var all, rest := s[i..j], s[i + 1..j];
      assert s[i] == all[0] && forall k | 0 <= k < |rest| :: rest[k] == all[k + 1];
      SkipBlanksIs(s, i + 1, j);
    }
  }

  lemma LineInParts(s: string, i: nat, end: nat, token: string, blanks: string, ending: string)
    requires i <= end <= |s| && s[i..end] == token + blanks + ending
    ensures var from := i + |token|;
      var j := from + |blanks|;
      j + |ending| == end && s[i..from] == token && s[from..j] == blanks && s[j..end] == ending
  {
    var line, from := s[i..end], i + |token|;
    var j := from + |blanks|;
    assert forall k | 0 <= k < |line| :: line[k] == s[i + k];
    assert forall k | 0 <= k < |token| :: token[k] == line[k];
    assert forall k | 0 <= k < |blanks| :: blanks[k] == line[|token| + k];
    assert forall k | 0 <= k < |ending| :: ending[k] == line[|token| + |blanks| + k];
  }

  lemma FenceIsLine(fence: Fence, s: string, i: nat, end: nat)
    requires i <= end <= |s| && FenceEnd(fence, s, i) == Some(end)
    ensures IsFenceLine(fence, s[i..end], end == |s|)
  {
    hide SkipBlanks, IsBlanks, IsFenceLine;
    var from := i + |fence.token|;
    var j := SkipBlanks(s, from);
    BlanksAreSkipped(s, from);
    BreakIs(s, j);
    assert s[i..end] == s[i..from] + s[from..j] + s[j..end];
    FenceLineOf(fence, s[from..j], s[j..end], end == |s|);
  }

  lemma BreakIs(s: string, j: nat)
    requires j <= |s|
    ensures LineBreakEnd(s, j).Some? ==>
      s[j..LineBreakEnd(s, j).value] == "\n" || s[j..LineBreakEnd(s, j).value] == "\r\n"
  {}

  lemma FenceLineOf(fence: Fence, blanks: string, ending: string, atEnd: bool)
    requires IsBlanks(blanks)
    requires ending == "\n" || ending == "\r\n" || (ending == "" && fence.orEnd && atEnd)
    ensures IsFenceLine(fence, fence.token + blanks + ending, atEnd)
  {
    hide IsBlanks;
  }

  lemma LineIsFence(fence: Fence, s: string, i: nat, end: nat)
    requires i <= end <= |s| && IsLineStart(s, i) && IsFenceLine(fence, s[i..end], end == |s|)
    ensures FenceEnd(fence, s, i) == Some(end)
  {
    hide SkipBlanks, IsBlanks;
    var blanks: string, ending: string :|
      && IsBlanks(blanks) && s[i..end] == fence.token + blanks + ending
      && (ending == "\n" || ending == "\r\n" || (ending == "" && fence.orEnd && end == |s|));
    var from := i + |fence.token|;
    var j := from + |blanks|;
    LineInParts(s, i, end, fence.token, blanks, ending);
    if ending != "" {
      assert s[j] == s[j..end][0];
    }
    if ending == "\r\n" {
      assert s[j + 1] == s[j..end][1];
    }
    SkipBlanksIs(s, from, j);
  }

  /** A fence ends at `end` exactly if it begins a line there and the text up to `end` is a fence line. */
  lemma FenceEndMatches(fence: Fence, s: string, i: nat, end: nat)
    requires i <= end <= |s|
    ensures FenceEnd(fence, s, i) == Some(end) <==> IsLineStart(s, i) && IsFenceLine(fence, s[i..end], end == |s|)
  {
    hide IsFenceLine;
    if FenceEnd(fence, s, i) == Some(end) {
      FenceIsLine(fence, s, i, end);
    } else if IsLineStart(s, i) && IsFenceLine(fence, s[i..end], end == |s|) {
      LineIsFence(fence, s, i, end);
    }
  }

  /** The line says something else than the token at some place, in front of any carriage returns at its end. */
  ghost predicate Diverges(token: string, line: string) {
    exists k | 0 <= k < |line| && k < |token| ::
      line[k] != token[k] && exists j :: k <= j < |line| && line[j] != '\r'
  }

  /** A last line may still become a directive exactly if it says something and does not diverge from the token. */
  lemma MayBecomeUnlessDiverging(fence: Fence, line: string)
    requires fence.Valid()
    ensures MayBecome(fence.token, line)
       <==> (exists j :: 0 <= j < |line| && line[j] != '\r') && !Diverges(fence.token, line)
  {
    var token, n := fence.token, SkipRight(IsCarriageReturn, line, |line|);
    var candidate := line[..n];
    SkipRightSkips(IsCarriageReturn, line, |line|);
    assert TrimRight(IsCarriageReturn, line) == candidate;
    if candidate != [] {
      assert line[n - 1] != '\r';
    }
    if MayBecome(token, line) {
      forall k | 0 <= k < |line| && k < |token| && exists j :: k <= j < |line| && line[j] != '\r'
        ensures line[k] == token[k]
      {
        var j :| k <= j < |line| && line[j] != '\r';
        assert j < n && candidate[k] == line[k];
      }
    }
    if candidate != [] && !Diverges(token, line) {
      forall k | 0 <= k < n && k < |token| ensures candidate[k] == token[k] {
        assert k <= n - 1 && line[n - 1] != '\r';
      }
      if n <= |token| {
        assert candidate == token[..n];
      } else {
        assert token == candidate[..|token|];
      }
    }
  }

  /** The last line of a text is shown whole: it is empty but for carriage returns, or no directive can come of it. */
  ghost predicate ShowsLastLine(g: Syntax, text: string) {
    exists before: string, line: string ::
      && text == before + line && EndsLine(before) && '\n' !in line
      && ((forall c <- line :: c == '\r') || Diverges(g.opening.token, line))
  }

  lemma {:induction false} LineStartBehind(s: string, end: nat, at: nat)
    requires at <= end <= |s| && IsLineStart(s, at) && forall k | at <= k < end :: s[k] != '\n'
    ensures LineStart(s, end) == at
  {
    if at < end {
      LineStartBehind(s, end - 1, at);
    }
  }

  /** Such a text is visible to its end, and nothing else is hidden. */
  lemma PlainTextIsVisible(g: Syntax, text: string)
    requires g.Valid() && ShowsLastLine(g, text)
    ensures Visible(g, text) == text && PartialOpeningIndex(g, text).None?
  {
    var before: string, line: string :|
      && text == before + line && EndsLine(before) && '\n' !in line
      && ((forall c <- line :: c == '\r') || Diverges(g.opening.token, line));
    forall k | |before| <= k < |text| ensures text[k] != '\n' {
      assert text[k] == line[k - |before|];
    }
    assert IsLineStart(text, |before|) by {
      assert before != "" ==> text[|before| - 1] == before[|before| - 1];
    }
    LineStartBehind(text, |text|, |before|);
    assert text[|before|..] == line;
    MayBecomeUnlessDiverging(g.opening, line);
    if forall c <- line :: c == '\r' {
      assert forall j | 0 <= j < |line| :: line[j] in line;
    }
  }

  lemma NormalizeOne(text: string)
    ensures Normalize(NonEmpty(text)) == Strip(text)
  {
    if text == "" {
      assert Strip("") == "";
    } else if IsBlank(text) {
      assert Trimmed([text]) == [] by { assert [text][1..] == []; }
      assert Strip("") == "";
    } else {
      var before, after := NewlinesAround(text);
      var inner := Trim(IsNewline, text);
      assert Trimmed([text]) == [inner] by { assert [text][1..] == []; }
      StripPadded(before, inner, after);
    }
  }

  lemma NewlinesAround(text: string) returns (before: string, after: string)
    ensures text == before + Trim(IsNewline, text) + after
    ensures All(IsSpace, before) && All(IsSpace, after)
  {
    before := TrimLeftSplits(IsNewline, text);
    var middle := TrimLeft(IsNewline, text);
    after := TrimRightSplits(IsNewline, middle);
    assert text == before + (Trim(IsNewline, text) + after);
  }

  /** A text without any fence line, whose last line is shown whole, is shown as it is, but for white space around. */
  lemma PlainTextIsShown(g: Syntax, text: string)
    requires g.Valid() && ShowsLastLine(g, text)
    requires forall i, end | 0 <= i <= end <= |text| && IsLineStart(text, i) ::
      !IsFenceLine(g.opening, text[i..end], false)
    ensures Narrative(g, text) == Strip(text)
  {
    forall i | 0 <= i <= |text| ensures FenceEnd(g.opening, text, i).None? {
      if FenceEnd(g.opening, text, i).Some? {
        var end := FenceEnd(g.opening, text, i).value;
        FenceEndMatches(g.opening, text, i, end);
        NotAtEnd(g.opening, text[i..end], end == |text|);
      }
    }
    LeftmostIsFound(g.opening, text, 0, None);
    assert Lex(g, text, 0) == [Tail(text)] by { assert text[0..] == text; }
    NextParts(g, Tail(text), []);
    PlainTextIsVisible(g, text);
    NormalizeOne(text);
  }

  lemma NotAtEnd(fence: Fence, line: string, atEnd: bool)
    requires IsFenceLine(fence, line, atEnd) && !fence.orEnd
    ensures IsFenceLine(fence, line, false)
  {
    var blanks: string, ending: string :|
      && IsBlanks(blanks) && line == fence.token + blanks + ending
      && (ending == "\n" || ending == "\r\n" || (ending == "" && fence.orEnd && atEnd));
  }

  // ---------------------------------------------------------------------------
  // Fences in a prefix and in the whole
  // ---------------------------------------------------------------------------

  lemma {:induction false} SkipBlanksOfPrefix(p: string, s: string, i: nat)
    requires p <= s && i <= |p|
    ensures SkipBlanks(p, i) < |p| ==> SkipBlanks(s, i) == SkipBlanks(p, i)
    ensures SkipBlanks(p, i) == |p| ==> SkipBlanks(s, i) >= |p|
    decreases |p| - i
  {
    if i < |p| && (p[i] == ' ' || p[i] == '\t') {
      SkipBlanksOfPrefix(p, s, i + 1);
    }
  }

  lemma {:induction false} BlanksHaveNoNewline(s: string, i: nat)
    requires i <= |s|
    ensures forall k | i <= k < SkipBlanks(s, i) :: s[k] != '\n'
    decreases |s| - i
  {
    if i < |s| && (s[i] == ' ' || s[i] == '\t') {
      BlanksHaveNoNewline(s, i + 1);
    }
  }

  /** A match never runs past the end of its line. */
  lemma MatchStaysOnLine(fence: Fence, s: string, i: nat)
    requires fence.Valid() && i <= |s| && FenceEnd(fence, s, i).Some?
    ensures forall k | i <= k < FenceEnd(fence, s, i).value - 1 :: s[k] != '\n'
  {
    var j := i + |fence.token|;
    BlanksHaveNoNewline(s, j);
    forall k | i <= k < j ensures s[k] != '\n' {
      assert s[k] == s[i..j][k - i];
    }
  }

  lemma MatchEndsBy(fence: Fence, s: string, i: nat, end: nat)
    requires fence.Valid() && i < end <= |s| && s[end - 1] == '\n' && FenceEnd(fence, s, i).Some?
    ensures FenceEnd(fence, s, i).value <= end
  {
    MatchStaysOnLine(fence, s, i);
  }

  /** A fence whose line is complete in the prefix is the same fence in the whole. */
  lemma FenceOfPrefix(fence: Fence, p: string, s: string, i: nat)
    requires p <= s && i <= |p|
    ensures FenceEnd(fence, p, i).Some? && (!fence.orEnd || FenceEnd(fence, p, i).value < |p|) ==>
      FenceEnd(fence, s, i) == FenceEnd(fence, p, i)
    ensures FenceEnd(fence, s, i).Some? && FenceEnd(fence, s, i).value <= |p| ==>
      FenceEnd(fence, p, i) == FenceEnd(fence, s, i)
  {
    var j := i + |fence.token|;
    if j <= |p| {
      assert p[i..j] == s[i..j];
      SkipBlanksOfPrefix(p, s, j);
    }
  }

  /** On a line that the prefix has whole, the whole has no fence the prefix has not. */
  lemma WholeLineMatches(fence: Fence, p: string, s: string, i: nat, end: nat)
    requires fence.Valid() && p <= s && i < end <= |p| && p[end - 1] == '\n'
    requires FenceEnd(fence, p, i).None?
    ensures FenceEnd(fence, s, i).None?
  {
    FenceOfPrefix(fence, p, s, i);
    if FenceEnd(fence, s, i).Some? {
      MatchEndsBy(fence, s, i, end);
    }
  }

  lemma FindOfPrefix(fence: Fence, p: string, s: string, from: nat)
    requires fence.Valid() && p <= s && from <= |p|
    ensures Find(fence, p, from).Some? && (!fence.orEnd || Find(fence, p, from).value.end < |p|) ==>
      Find(fence, s, from) == Find(fence, p, from)
    ensures Find(fence, p, from).None? && Find(fence, s, from).Some? ==> Find(fence, s, from).value.end > |p|
  {
    FindIsLeftmost(fence, p, from);
    match Find(fence, p, from)
    case None =>
      FindIsLeftmost(fence, s, from);
      if Find(fence, s, from).Some? && Find(fence, s, from).value.start <= |p| {
        FenceOfPrefix(fence, p, s, Find(fence, s, from).value.start);
      }
    case Some(m) =>
      if !fence.orEnd || m.end < |p| {
        FoundInPrefixIsFound(fence, p, s, from, m);
      }
  }

  lemma FoundInPrefixIsFound(fence: Fence, p: string, s: string, from: nat, m: Match)
    requires fence.Valid() && p <= s && from <= m.start < m.end <= |p| && (!fence.orEnd || m.end < |p|)
    requires FenceEnd(fence, p, m.start) == Some(m.end)
    requires forall i | from <= i < m.start :: FenceEnd(fence, p, i).None?
    ensures Find(fence, s, from) == Some(m)
  {
    FenceOfPrefix(fence, p, s, m.start);
    forall i | from <= i < m.start ensures FenceEnd(fence, s, i).None? {
      WholeLineMatches(fence, p, s, i, m.start);
    }
    LeftmostIsFound(fence, s, from, Some(m));
  }

  // ---------------------------------------------------------------------------
  // Streaming display never retracts
  // ---------------------------------------------------------------------------

  /** `more` shows everything `less` shows, in place, and possibly more after it. */
  ghost predicate Extends(less: seq<string>, more: seq<string>) {
    less == [] ||
    (more != [] &&
      if |less| == 1 then less[0] <= more[0]
      else less[0] == more[0] && Extends(less[1..], more[1..]))
  }

  lemma LineOfTokenMayBecome(fence: Fence, line: string)
    requires fence.Valid() && line != [] && (line <= fence.token || fence.token <= line)
    ensures MayBecome(fence.token, line)
  {
    if line <= fence.token {
      assert line[|line| - 1] == fence.token[|line| - 1];
    } else {
      TrimRightOfPrefix(IsCarriageReturn, fence.token, line);
      TrimRightFixed(IsCarriageReturn, fence.token);
    }
  }

  /** What is hidden as unfinished was hidden at every earlier moment too. */
  lemma MayBecomeOfPrefix(fence: Fence, line: string, longer: string)
    requires fence.Valid() && line != [] && line <= longer && MayBecome(fence.token, longer)
    ensures MayBecome(fence.token, line)
  {
    var k := SkipRight(IsCarriageReturn, longer, |longer|);
    SkipRightSkips(IsCarriageReturn, longer, |longer|);
    var candidate := longer[..k];
    if |line| <= k {
      assert line == candidate[..|line|];
      if fence.token <= candidate && |line| > |fence.token| {
        assert fence.token == candidate[..|fence.token|] == line[..|fence.token|];
      }
      LineOfTokenMayBecome(fence, line);
    } else {
      assert candidate == line[..k];
      TrimRightOfPrefix(IsCarriageReturn, candidate, line);
      TrimRightOfPrefix(IsCarriageReturn, line, longer);
      TrimRightFixed(IsCarriageReturn, candidate);
    }
  }

  lemma {:induction false} LineStartIs(s: string, end: nat, i: nat)
    requires i <= end <= |s| && IsLineStart(s, i)
    requires forall k | i <= k < end :: s[k] != '\n'
    ensures LineStart(s, end) == i
  {
    if i < end {
      LineStartIs(s, end - 1, i);
    }
  }

  lemma {:induction false} LineHasNoNewline(s: string, end: nat)
    requires end <= |s|
    ensures forall k | LineStart(s, end) <= k < end :: s[k] != '\n'
  {
    if end > 0 && s[end - 1] != '\n' {
      LineHasNoNewline(s, end - 1);
    }
  }

  /** The unfinished first line of a fence that the whole has and the prefix only begins. */
  lemma UnfinishedLineMayBecome(fence: Fence, p: string, s: string, m: Match)
    requires fence.Valid() && p <= s && m.start < |p| < m.end <= |s|
    requires FenceEnd(fence, s, m.start) == Some(m.end)
    ensures IsLineStart(p, m.start) && MayBecome(fence.token, p[m.start..])
    ensures forall k | m.start <= k < |p| :: p[k] != '\n'
  {
    MatchStaysOnLine(fence, s, m.start);
    var line, token := p[m.start..], s[m.start..m.start + |fence.token|];
    assert line == s[m.start..|p|];
    if |line| <= |token| {
      assert line == token[..|line|];
    } else {
      assert token == line[..|token|];
    }
    LineOfTokenMayBecome(fence, line);
  }

  lemma HiddenFrom(g: Syntax, s: string, at: nat)
    requires at <= |s| && IsLineStart(s, at) && MayBecome(g.opening.token, s[at..])
    requires forall k | at <= k < |s| :: s[k] != '\n'
    ensures Visible(g, s) == s[..at]
  {
    LineStartIs(s, |s|, at);
  }

  /** Text shown before a directive is complete is the text in front of that directive. */
  lemma VisibleBeforeOpening(g: Syntax, p: string, s: string, position: nat, m: Match)
    requires g.Valid() && p <= s && position <= |p| && IsLineStart(p, position)
    requires position <= m.start < m.end <= |s| && |p| < m.end && FenceEnd(g.opening, s, m.start) == Some(m.end)
    ensures Visible(g, p[position..]) <= s[position..m.start]
  {
    var q := p[position..];
    if m.start < |p| {
      var at := m.start - position;
      assert IsLineStart(q, at) && MayBecome(g.opening.token, q[at..]) && forall k | at <= k < |q| :: q[k] != '\n' by {
        UnfinishedLineMayBecome(g.opening, p, s, m);
        assert q[at..] == p[m.start..];
      }
      hide Visible, MayBecome, IsLineStart, FenceEnd;
      HiddenFrom(g, q, at);
      SamePart(p, s, position, m.start);
    } else {
      VisibleIsPrefix(g, q);
      hide Visible, FenceEnd;
      assert q == s[position..m.start][..|q|];
    }
  }

  lemma SamePart(p: string, s: string, from: nat, to: nat)
    requires p <= s && from <= to <= |p|
    ensures p[from..][..to - from] == s[from..to]
  {}

  lemma VisibleIsPrefix(g: Syntax, q: string)
    ensures Visible(g, q) <= q
  {}

  lemma VisibleTailOfPrefix(g: Syntax, q: string, t: string)
    requires g.Valid()
    requires q <= t
    ensures Visible(g, q) <= Visible(g, t)
  {
    var at := LineStart(t, |t|);
    LineHasNoNewline(t, |t|);
    if PartialOpeningIndex(g, t).Some? && at < |q| {
      LineStartIs(q, |q|, at);
      assert q[at..] == t[at..][..|q| - at];
      MayBecomeOfPrefix(g.opening, q[at..], t[at..]);
      assert q[..at] == t[..at];
    }
  }

  lemma ExtendsAfter(part: string, less: seq<string>, more: seq<string>)
    requires Extends(less, more)
    ensures Extends(NonEmpty(part) + less, NonEmpty(part) + more)
  {
    if part == [] {
      assert NonEmpty(part) + less == less && NonEmpty(part) + more == more;
    } else {
      assert ([part] + less)[1..] == less && ([part] + more)[1..] == more;
    }
  }

  lemma TailPartsOfPrefix(g: Syntax, p: string, s: string, position: nat)
    requires g.Valid() && p <= s && position <= |p| && IsLineStart(p, position)
    requires Find(g.opening, p, position).None?
    ensures Extends(Parts(g, Lex(g, p, position)), Parts(g, Lex(g, s, position)))
  {
    hide Find, Visible, Parts, LexDirective;
    NextParts(g, Tail(p[position..]), []);
    FindOfPrefix(g.opening, p, s, position);
    match Find(g.opening, s, position)
    case None =>
      NextParts(g, Tail(s[position..]), []);
      assert p[position..] == s[position..][..|p| - position];
      VisibleTailOfPrefix(g, p[position..], s[position..]);
    case Some(m) =>
      FindIsLeftmost(g.opening, s, position);
      VisibleBeforeOpening(g, p, s, position, m);
      NextParts(g, Prose(s[position..m.start]), LexDirective(g, s, m.end));
  }

  lemma {:induction false} PartsOfPrefix(g: Syntax, p: string, s: string, position: nat)
    requires g.Valid() && p <= s && position <= |p| && (IsLineStart(p, position) || position == |p|)
    ensures Extends(Parts(g, Lex(g, p, position)), Parts(g, Lex(g, s, position)))
    decreases |p| - position, 0
  {
    hide Parts, Find, LexDirective;
    if position == |p| {
      NothingLeft(g, p);
    } else if Find(g.opening, p, position).None? {
      TailPartsOfPrefix(g, p, s, position);
    } else {
      var opening := Find(g.opening, p, position).value;
      FindOfPrefix(g.opening, p, s, position);
      var prefix := p[position..opening.start];
      assert prefix == s[position..opening.start];
      PartsOfPrefixInDirective(g, p, s, opening.end);
      ExtendsAfter(prefix, Parts(g, LexDirective(g, p, opening.end)), Parts(g, LexDirective(g, s, opening.end)));
      NextParts(g, Prose(prefix), LexDirective(g, p, opening.end));
      NextParts(g, Prose(prefix), LexDirective(g, s, opening.end));
    }
  }

  lemma {:induction false} PartsOfPrefixInDirective(g: Syntax, p: string, s: string, position: nat)
    requires g.Valid() && p <= s && position <= |p|
    ensures Extends(Parts(g, LexDirective(g, p, position)), Parts(g, LexDirective(g, s, position)))
    decreases |p| - position, 1
  {
    hide Parts, Lex, Find;
    match Find(g.closing, p, position)
    case None =>
      NextParts(g, Open, []);
    case Some(closing) =>
      var body := p[position..closing.start];
      NextParts(g, Directive(body), Lex(g, p, closing.end));
      if closing.end < |p| {
        FindOfPrefix(g.closing, p, s, position);
        FindIsLeftmost(g.closing, p, position);
        assert body == s[position..closing.start];
        PartsOfPrefix(g, p, s, closing.end);
        NextParts(g, Directive(body), Lex(g, s, closing.end));
      } else {
        NothingLeft(g, p);
      }
  }

  lemma {:induction false} NormalizeOfExtends(less: seq<string>, more: seq<string>)
    requires Extends(less, more)
    ensures Join("\n", Trimmed(less)) <= Join("\n", Trimmed(more))
    ensures Trimmed(less) != [] ==> Trimmed(more) != []
  {
    if less != [] {
      if |less| == 1 {
        TrimOfPrefix(IsSpace, less[0], more[0]);
        TrimOfPrefix(IsNewline, less[0], more[0]);
        assert less[1..] == [];
      } else {
        NormalizeOfExtends(less[1..], more[1..]);
      }
    }
  }

  lemma NormalizeIsMonotone(less: seq<string>, more: seq<string>)
    requires Extends(less, more)
    ensures Normalize(less) <= Normalize(more)
  {
    NormalizeOfExtends(less, more);
    TrimOfPrefix(IsSpace, Join("\n", Trimmed(less)), Join("\n", Trimmed(more)));
  }

  /** What the client shows while an answer streams in is never taken back. */
  lemma StreamingNeverRetracts(g: Syntax, p: string, s: string)
    requires g.Valid() && p <= s
    ensures Narrative(g, p) <= Narrative(g, s)
  {
    PartsOfPrefix(g, p, s, 0);
    NormalizeIsMonotone(Parts(g, Lex(g, p, 0)), Parts(g, Lex(g, s, 0)));
  }

  // ---------------------------------------------------------------------------
  // Both scanners agree
  // ---------------------------------------------------------------------------

  function MarkdownOf(blocks: seq<Block>): seq<string> {
    if blocks == [] then []
    else (if blocks[0].Markdown? then [blocks[0].content] else []) + MarkdownOf(blocks[1..])
  }

  function VisualizationCount(blocks: seq<Block>): nat {
    if blocks == [] then 0
    else (if blocks[0].Visualization? then 1 else 0) + VisualizationCount(blocks[1..])
  }

  lemma {:induction false} BlocksOfConcat(a: seq<Block>, b: seq<Block>)
    ensures MarkdownOf(a + b) == MarkdownOf(a) + MarkdownOf(b)
    ensures VisualizationCount(a + b) == VisualizationCount(a) + VisualizationCount(b)
  {
    if a == [] {
      assert a + b == b;
    } else {
      assert (a + b)[1..] == a[1..] + b;
      BlocksOfConcat(a[1..], b);
    }
  }

  lemma MarkdownOfNonEmpty(part: string)
    ensures MarkdownOf(MarkdownBlock(part)) == NonEmpty(part)
    ensures VisualizationCount(MarkdownBlock(part)) == 0
  {
    if part != [] {
      assert [Markdown(part)][1..] == [];
    }
  }

  lemma TokenShowsParts(g: Syntax, token: Token, count: nat, options: Options)
    ensures options.partial ==> MarkdownOf(TokenBlocks(g, token, count, options)) == TokenParts(g, token)
    ensures !options.partial && !token.Tail? ==>
      MarkdownOf(TokenBlocks(g, token, count, options)) == TokenParts(g, token)
    ensures !options.partial && token.Tail? ==>
      MarkdownOf(TokenBlocks(g, token, count, options)) == NonEmpty(token.text)
    ensures VisualizationCount(TokenBlocks(g, token, count, options)) == Counted(token, count, options) - count
  {
    hide Strip, MarkdownBlock, PartialOpeningIndex;
    match token
    case Prose(text) => MarkdownOfNonEmpty(text);
    case Directive(body) => OneBlock(DirectiveBlock(Strip(body), count, options));
    case Open => OneBlock(Pending);
    case Tail(text) =>
      MarkdownOfNonEmpty(text);
      MarkdownOfNonEmpty(Visible(g, text));
      BlocksOfConcat(MarkdownBlock(Visible(g, text)), [Pending]);
      OneBlock(Pending);
  }

  lemma OneBlock(block: Block)
    ensures MarkdownOf([block]) == (if block.Markdown? then [block.content] else [])
    ensures VisualizationCount([block]) == if block.Visualization? then 1 else 0
  {
    assert [block][1..] == [];
  }

  /** The streaming parser's markdown is the stripped narrative. */
  lemma {:induction false} StreamingBlocksShowParts(g: Syntax, tokens: seq<Token>, count: nat, options: Options)
    requires options.partial
    ensures MarkdownOf(Blocks(g, tokens, count, options)) == Parts(g, tokens)
  {
    if tokens != [] {
      var next := Counted(tokens[0], count, options);
      StreamingBlocksShowParts(g, tokens[1..], next, options);
      TokenShowsParts(g, tokens[0], count, options);
      BlocksOfConcat(TokenBlocks(g, tokens[0], count, options), Blocks(g, tokens[1..], next, options));
    }
  }

  /** The final parser shows what was streamed, and what was held back at the end. */
  lemma {:induction false} FinalBlocksExtendParts(g: Syntax, tokens: seq<Token>, count: nat, options: Options)
    requires !options.partial && forall i | 0 <= i < |tokens| - 1 :: !tokens[i].Tail?
    ensures Extends(Parts(g, tokens), MarkdownOf(Blocks(g, tokens, count, options)))
  {
    if tokens != [] {
      var token, rest, next := tokens[0], tokens[1..], Counted(tokens[0], count, options);
      assert forall i | 0 <= i < |rest| - 1 :: rest[i] == tokens[i + 1];
      FinalBlocksExtendParts(g, rest, next, options);
      TokenShowsParts(g, token, count, options);
      BlocksOfConcat(TokenBlocks(g, token, count, options), Blocks(g, rest, next, options));
      var shown := MarkdownOf(Blocks(g, rest, next, options));
      match token
      case Prose(text) => ExtendsAfter(text, Parts(g, rest), shown);
      case Directive(_) => ExtendsAfter([], Parts(g, rest), shown);
      case Open => ExtendsAfter([], Parts(g, rest), shown);
      case Tail(text) =>
        assert rest == [];
        assert Visible(g, text) <= text;
    }
  }

  lemma {:induction false} TailIsLast(g: Syntax, s: string, position: nat)
    requires position <= |s|
    ensures forall i | 0 <= i < |Lex(g, s, position)| - 1 :: !Lex(g, s, position)[i].Tail?
    decreases |s| - position, 0
  {
    if Find(g.opening, s, position).Some? {
      TailIsLastInDirective(g, s, Find(g.opening, s, position).value.end);
    }
  }

  lemma {:induction false} TailIsLastInDirective(g: Syntax, s: string, position: nat)
    requires position <= |s|
    ensures forall i | 0 <= i < |LexDirective(g, s, position)| - 1 :: !LexDirective(g, s, position)[i].Tail?
    decreases |s| - position, 1
  {
    if Find(g.closing, s, position).Some? {
      TailIsLast(g, s, Find(g.closing, s, position).value.end);
    }
  }

  /** The streamed narrative is the normalised join of the streaming parser's markdown blocks. */
  lemma NarrativeIsPartialMarkdown(g: Syntax, s: string, options: Options)
    ensures options.partial ==> Narrative(g, s) == Normalize(MarkdownOf(RichContent(g, s, options)))
    ensures !options.partial ==> Narrative(g, s) <= Normalize(MarkdownOf(RichContent(g, s, options)))
  {
    if options.partial {
      StreamingBlocksShowParts(g, Lex(g, s, 0), 0, options);
    } else {
      TailIsLast(g, s, 0);
      FinalBlocksExtendParts(g, Lex(g, s, 0), 0, options);
      NormalizeIsMonotone(Parts(g, Lex(g, s, 0)), MarkdownOf(RichContent(g, s, options)));
    }
  }

  /** No more visualizations than the limit, however many directives the content has. */
  lemma {:induction false} VisualizationsAreLimited(g: Syntax, tokens: seq<Token>, count: nat, options: Options)
    requires count <= options.limit
    ensures count + VisualizationCount(Blocks(g, tokens, count, options)) <= options.limit
  {
    if tokens != [] {
      var next := Counted(tokens[0], count, options);
      VisualizationsAreLimited(g, tokens[1..], next, options);
      TokenShowsParts(g, tokens[0], count, options);
      BlocksOfConcat(TokenBlocks(g, tokens[0], count, options), Blocks(g, tokens[1..], next, options));
    }
  }

  // ---------------------------------------------------------------------------
  // Parsing undoes writing
  // ---------------------------------------------------------------------------

  /** A directive with the text in front of it. */
  datatype Section = Section(prose: string, payload: string)

  function FenceLine(fence: Fence): string {
    fence.token + "\n"
  }

  function WriteDirective(g: Syntax, payload: string): string {
    FenceLine(g.opening) + (payload + "\n") + FenceLine(g.closing)
  }

  function WriteAnswer(g: Syntax, sections: seq<Section>, ending: string): string {
    if sections == [] then ending
    else sections[0].prose + WriteDirective(g, sections[0].payload) + WriteAnswer(g, sections[1..], ending)
  }

  /** Whole lines, none of them this fence. */
  ghost predicate HasNo(fence: Fence, text: string) {
    EndsLine(text) && Find(fence, text, 0).None?
  }

  ghost predicate IsAnswer(g: Syntax, sections: seq<Section>, ending: string) {
    && (forall section | section in sections ::
          HasNo(g.opening, section.prose) && HasNo(g.closing, section.payload + "\n"))
    && HasNo(g.opening, ending)
  }

  /** The tokens an answer stands for, read off its sections. */
  function AnswerTokens(sections: seq<Section>, ending: string): seq<Token> {
    if sections == [] then [Tail(ending)]
    else [Prose(sections[0].prose)] + ([Directive(sections[0].payload + "\n")] + AnswerTokens(sections[1..], ending))
  }

  function ShiftEnd(offset: nat, end: Option<nat>): Option<nat> {
    match end case None => None case Some(e) => Some(offset + e)
  }

  function ShiftMatch(offset: nat, m: Option<Match>): Option<Match> {
    match m case None => None case Some(x) => Some(Match(offset + x.start, offset + x.end))
  }

  /** `s` is what `whole` holds from `offset` on. */
  ghost predicate IsTail(whole: string, offset: nat, s: string) {
    && |whole| == offset + |s|
    && forall i | 0 <= i < |s| :: s[i] == whole[offset + i]
  }

  lemma {:induction false} SkipBlanksShifts(whole: string, offset: nat, s: string, i: nat)
    requires IsTail(whole, offset, s) && i <= |s|
    ensures SkipBlanks(whole, offset + i) == offset + SkipBlanks(s, i)
    decreases |s| - i
  {
    if i < |s| && (s[i] == ' ' || s[i] == '\t') {
      SkipBlanksShifts(whole, offset, s, i + 1);
    }
  }

  lemma FenceShifts(fence: Fence, whole: string, offset: nat, s: string, i: nat)
    requires IsTail(whole, offset, s) && IsLineStart(whole, offset) && i <= |s|
    ensures FenceEnd(fence, whole, offset + i) == ShiftEnd(offset, FenceEnd(fence, s, i))
  {
    hide SkipBlanks, LineBreakEnd, IsTail;
    TailLength(whole, offset, s, i);
    var j := i + |fence.token|;
    if j <= |s| {
      PartShifts(whole, offset, s, i, j);
      SkipBlanksShifts(whole, offset, s, j);
      BreakShifts(whole, offset, s, SkipBlanks(s, j));
    }
  }

  lemma TailLength(whole: string, offset: nat, s: string, i: nat)
    requires IsTail(whole, offset, s) && IsLineStart(whole, offset) && i <= |s|
    ensures |whole| == offset + |s| && (IsLineStart(whole, offset + i) <==> IsLineStart(s, i))
  {}

  lemma PartShifts(whole: string, offset: nat, s: string, i: nat, j: nat)
    requires IsTail(whole, offset, s) && i <= j <= |s|
    ensures |whole| == offset + |s| && whole[offset + i..offset + j] == s[i..j]
  {}

  lemma BreakShifts(whole: string, offset: nat, s: string, j: nat)
    requires IsTail(whole, offset, s) && j <= |s|
    ensures |whole| == offset + |s| && LineBreakEnd(whole, offset + j) == ShiftEnd(offset, LineBreakEnd(s, j))
  {}

  lemma FindShifts(fence: Fence, whole: string, offset: nat, s: string)
    requires IsTail(whole, offset, s) && IsLineStart(whole, offset)
    ensures Find(fence, whole, offset) == ShiftMatch(offset, Find(fence, s, 0))
  {
    hide Find, FenceEnd;
    var m := Find(fence, s, 0);
    FindIsLeftmost(fence, s, 0);
    var last := if m.Some? then m.value.start else |s|;
    forall i | offset <= i <= offset + last
      ensures FenceEnd(fence, whole, i) == ShiftEnd(offset, FenceEnd(fence, s, i - offset))
    {
      FenceShifts(fence, whole, offset, s, i - offset);
    }
    LeftmostIsFound(fence, whole, offset, ShiftMatch(offset, m));
  }

  lemma WrittenLineIsFence(fence: Fence, after: string)
    ensures FenceEnd(fence, FenceLine(fence) + after, 0) == Some(|fence.token| + 1)
  {
    var line := FenceLine(fence) + after;
    assert line[0..|fence.token|] == fence.token && line[|fence.token|] == '\n';
  }

  /** A fence line written after lines without that fence is the first one found. */
  lemma WrittenFenceIsFound(fence: Fence, before: string, after: string)
    requires fence.Valid() && HasNo(fence, before)
    ensures Find(fence, before + (FenceLine(fence) + after), 0)
         == Some(Match(|before|, |before| + |fence.token| + 1))
  {
    hide Find, FenceEnd, FenceLine;
    var line := FenceLine(fence) + after;
    var s := before + line;
    WrittenLineIsFence(fence, after);
    FenceShifts(fence, s, |before|, line, 0);
    FindIsLeftmost(fence, before, 0);
    forall i | 0 <= i < |before| ensures FenceEnd(fence, s, i).None? {
      WholeLineMatches(fence, before, s, i, |before|);
    }
    LeftmostIsFound(fence, s, 0, Some(Match(|before|, |before| + |fence.token| + 1)));
  }

  /** A fence line written after lines without that fence, anywhere behind a line start. */
  lemma WrittenFenceIsFoundFrom(fence: Fence, s: string, position: nat, before: string, after: string)
    requires fence.Valid() && HasNo(fence, before) && position <= |s| && IsLineStart(s, position)
    requires s[position..] == before + (FenceLine(fence) + after)
    ensures var start := position + |before|;
      var end := start + |FenceLine(fence)|;
      && Find(fence, s, position) == Some(Match(start, end))
      && s[position..start] == before && s[end..] == after && IsLineStart(s, end)
  {
    hide Find, FenceEnd, HasNo;
    var start, rest := position + |before|, s[position..];
    var end := start + |FenceLine(fence)|;
    assert Find(fence, s, position) == Some(Match(start, end)) by {
      WrittenFenceIsFound(fence, before, after);
      FindShifts(fence, s, position, rest);
    }
    assert IsLineStart(s, end) by {
      assert s[end - 1] == rest[|before| + |fence.token|];
    }
    assert s[position..start] == before by {
      assert s[position..start] == rest[..|before|];
    }
    assert s[end..] == after by {
      assert s[end..] == rest[|before + FenceLine(fence)|..];
      assert rest == (before + FenceLine(fence)) + after;
    }
  }

  lemma LexOfDirective(g: Syntax, s: string, position: nat, opening: Match, closing: Match)
    requires position <= |s| && Find(g.opening, s, position) == Some(opening)
    requires Find(g.closing, s, opening.end) == Some(closing)
    ensures Lex(g, s, position)
         == [Prose(s[position..opening.start])] + ([Directive(s[opening.end..closing.start])] + Lex(g, s, closing.end))
  {}

  lemma WrittenSectionIsScanned(g: Syntax, s: string, position: nat, section: Section, rest: string) returns (next: nat)
    requires g.Valid() && HasNo(g.opening, section.prose) && HasNo(g.closing, section.payload + "\n")
    requires position <= |s| && IsLineStart(s, position)
    requires s[position..] == section.prose + WriteDirective(g, section.payload) + rest
    ensures next <= |s| && IsLineStart(s, next) && s[next..] == rest
    ensures Lex(g, s, position) == [Prose(section.prose)] + ([Directive(section.payload + "\n")] + Lex(g, s, next))
  {
    hide Lex, HasNo, Find, IsLineStart;
    var inside := section.payload + "\n";
    var body := inside + (FenceLine(g.closing) + rest);
    assert s[position..] == section.prose + (FenceLine(g.opening) + body);
    WrittenFenceIsFoundFrom(g.opening, s, position, section.prose, body);
    var opening := Find(g.opening, s, position).value;
    WrittenFenceIsFoundFrom(g.closing, s, opening.end, inside, rest);
    var closing := Find(g.closing, s, opening.end).value;
    next := closing.end;
    LexOfDirective(g, s, position, opening, closing);
  }

  /** Scanning an answer written section by section gives those sections back. */
  lemma {:induction false} ScanningUndoesWriting(
      g: Syntax, s: string, position: nat, sections: seq<Section>, ending: string)
    requires g.Valid() && IsAnswer(g, sections, ending) && position <= |s| && IsLineStart(s, position)
    requires s[position..] == WriteAnswer(g, sections, ending)
    ensures Lex(g, s, position) == AnswerTokens(sections, ending)
    decreases |sections|
  {
    if sections == [] {
      FindShifts(g.opening, s, position, ending);
    } else {
      var next := WrittenSectionIsScanned(g, s, position, sections[0], WriteAnswer(g, sections[1..], ending));
      ScanningUndoesWriting(g, s, next, sections[1..], ending);
    }
  }

  // ---------------------------------------------------------------------------
  // What is shown of a written answer
  // ---------------------------------------------------------------------------

  /** The texts of an answer, section by section. */
  function TextsOf(sections: seq<Section>, ending: string): seq<string> {
    if sections == [] then NonEmpty(ending)
    else NonEmpty(sections[0].prose) + TextsOf(sections[1..], ending)
  }

  lemma {:induction false} PartsOfAnswer(g: Syntax, sections: seq<Section>, ending: string)
    requires Visible(g, ending) == ending
    ensures Parts(g, AnswerTokens(sections, ending)) == TextsOf(sections, ending)
  {
    hide Visible;
    if sections == [] {
      NextParts(g, Tail(ending), []);
    } else {
      var rest, directive := AnswerTokens(sections[1..], ending), Directive(sections[0].payload + "\n");
      PartsOfAnswer(g, sections[1..], ending);
      NextParts(g, directive, rest);
      NextParts(g, Prose(sections[0].prose), [directive] + rest);
    }
  }

  /** Of a written answer whose last line is shown whole, everything but the directives is shown. */
  lemma WrittenAnswerIsShown(g: Syntax, sections: seq<Section>, ending: string)
    requires g.Valid() && IsAnswer(g, sections, ending) && ShowsLastLine(g, ending)
    ensures Narrative(g, WriteAnswer(g, sections, ending)) == Normalize(TextsOf(sections, ending))
  {
    hide Lex, Parts, IsAnswer, Normalize, ShowsLastLine;
    var s := WriteAnswer(g, sections, ending);
    assert s[0..] == s;
    ScanningUndoesWriting(g, s, 0, sections, ending);
    PlainTextIsVisible(g, ending);
    PartsOfAnswer(g, sections, ending);
  }

  /** Blank parts disappear. */
  lemma {:induction false} BlankPartsDisappear(a: seq<string>, blank: string, b: seq<string>)
    requires IsBlank(blank)
    ensures Normalize(a + [blank] + b) == Normalize(a + b)
  {
    WithoutBlank(a, blank, b);
  }

  lemma {:induction false} WithoutBlank(a: seq<string>, blank: string, b: seq<string>)
    requires IsBlank(blank)
    ensures Trimmed(a + [blank] + b) == Trimmed(a + b)
  {
    hide IsBlank, Trim;
    if a == [] {
      assert a + [blank] + b == [blank] + b && ([blank] + b)[1..] == b && a + b == b;
    } else {
      WithoutBlank(a[1..], blank, b);
      assert (a + [blank] + b)[1..] == a[1..] + [blank] + b && (a + b)[1..] == a[1..] + b;
    }
  }

  /** Two parts that say something are trimmed of line breaks and put on lines of their own. */
  lemma TwoPartsAreJoined(first: string, second: string)
    requires !IsBlank(first) && !IsBlank(second)
    ensures Normalize([first, second]) == Strip(Trim(IsNewline, first) + "\n" + Trim(IsNewline, second))
  {
    var a, b := Trim(IsNewline, first), Trim(IsNewline, second);
    hide Strip, IsBlank, Trim;
    NextTrimmed(second, []);
    NextTrimmed(first, [second]);
    assert [second] + [] == [second] && [first] + [second] == [first, second] && [b] + [] == [b];
    assert Trimmed([first, second]) == [a] + Trimmed([second]) && Trimmed([second]) == [b] + [];
    assert [a] + [b] == [a, b] && [a, b][1..] == [b];
    assert Join("\n", [b]) == b && Join("\n", [a, b]) == a + "\n" + b;
  }

  lemma NextTrimmed(part: string, rest: seq<string>)
    ensures Trimmed([part] + rest) == if IsBlank(part) then Trimmed(rest) else [Trim(IsNewline, part)] + Trimmed(rest)
  {
    hide IsBlank, Trim;
    assert ([part] + rest)[1..] == rest;
  }

  /** A directive between two texts is one block: accepted, refused, or too many. */
  lemma SectionIsParsed(g: Syntax, section: Section, ending: string, options: Options)
    requires g.Valid() && IsAnswer(g, [section], ending) && !options.partial
    requires section.prose != "" && ending != "" && options.limit > 0
    ensures var payload := Strip(section.payload + "\n");
      RichContent(g, WriteAnswer(g, [section], ending), options)
      == [Markdown(section.prose), if options.accepts(payload) then Visualization(payload) else Invalid(payload),
          Markdown(ending)]
  {
    hide Lex, IsAnswer, Strip, PartialOpeningIndex, Blocks, AnswerTokens, WriteAnswer;
    var s := WriteAnswer(g, [section], ending);
    assert s[0..] == s;
    ScanningUndoesWriting(g, s, 0, [section], ending);
    SectionTokens(section, ending);
    BlocksOfSection(g, section.prose, section.payload + "\n", ending, options);
  }

  lemma SectionTokens(section: Section, ending: string)
    ensures AnswerTokens([section], ending)
         == [Prose(section.prose)] + ([Directive(section.payload + "\n")] + [Tail(ending)])
  {
    assert [section][1..] == [];
  }

  lemma BlocksOfSection(g: Syntax, prose: string, body: string, ending: string, options: Options)
    requires !options.partial && prose != "" && ending != "" && options.limit > 0
    ensures Blocks(g, [Prose(prose)] + ([Directive(body)] + [Tail(ending)]), 0, options)
         == [Markdown(prose), if options.accepts(Strip(body)) then Visualization(Strip(body)) else Invalid(Strip(body)),
             Markdown(ending)]
  {
    hide Blocks, Strip, PartialOpeningIndex;
    var directive := Directive(body);
    NextBlocks(g, Prose(prose), [directive] + [Tail(ending)], 0, options);
    NextBlocks(g, directive, [Tail(ending)], 0, options);
    NextBlocks(g, Tail(ending), [], Counted(directive, 0, options), options);
  }

  /** Behind the limit a directive is told to be too many, whatever its payload. */
  lemma LimitIsTold(payload: string, count: nat, options: Options)
    ensures DirectiveBlock(payload, count, options) == OverLimit <==> count >= options.limit
    ensures DirectiveBlock(payload, count, options) == Visualization(payload)
       <==> count < options.limit && options.accepts(payload)
    ensures DirectiveBlock(payload, count, options) == Invalid(payload)
       <==> count < options.limit && !options.accepts(payload)
  {}

  /** A placeholder stands for a directive that is open, or may still become one, and only while streaming. */
  lemma PendingIsUnfinished(g: Syntax, token: Token, count: nat, options: Options)
    ensures Pending in TokenBlocks(g, token, count, options)
       <==> options.partial && (token.Open? || (token.Tail? && PartialOpeningIndex(g, token.text).Some?))
  {
    hide Strip, PartialOpeningIndex;
  }

  lemma LineShowsItself(g: Syntax, line: string)
    requires '\n' !in line && Diverges(g.opening.token, line)
    ensures ShowsLastLine(g, line)
  {
    assert line == "" + line && EndsLine("");
  }

  lemma ShorterIsNoFence(fence: Fence, line: string)
    requires |line| < |fence.token|
    ensures !IsFenceLine(fence, line, false)
  {}

  /** One line that is too short for a fence and diverges from it, as a plain answer does, is shown. */
  lemma ShortAnswerIsShown(text: string)
    requires 0 < |text| < 16 && '\n' !in text && text[0] != '`' && text[0] != '\r'
    ensures Narrative(DIRECTIVES, text) == Strip(text)
  {
    DirectivesAreValid();
    assert |DIRECTIVES.opening.token| == 16 && DIRECTIVES.opening.token[0] == '`';
    hide Narrative, ShowsLastLine, IsFenceLine, Strip;
    assert Diverges(DIRECTIVES.opening.token, text);
    LineShowsItself(DIRECTIVES, text);
    forall i, end | 0 <= i <= end <= |text| && IsLineStart(text, i)
      ensures !IsFenceLine(DIRECTIVES.opening, text[i..end], false)
    {
      ShorterIsNoFence(DIRECTIVES.opening, text[i..end]);
    }
    PlainTextIsShown(DIRECTIVES, text);
  }
}
