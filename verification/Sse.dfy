/** Server-sent events: what the events route prints, and how the client parses it. */
module Sse {
  import opened Text

  /** A JSON payload; `executionId` is its entry of that name, empty if it has none. */
  datatype Payload = Payload(executionId: string, body: string)

  datatype Frame = Frame(executionId: string, kind: string, sequence: Option<int>, payload: Payload)

  /** JSON text as an encoding into one line, and Python's `int()`. */
  datatype Codec = Codec(encode: Frame -> string, decode: string -> Option<Frame>, number: string -> Option<int>)

  predicate OneLine(s: string) {
    '\n' !in s && '\r' !in s
  }

  ghost predicate IsCodec(codec: Codec) {
    forall frame :: OneLine(codec.encode(frame)) && codec.decode(codec.encode(frame)) == Some(frame)
  }

  // ---------------------------------------------------------------------------
  // Printing
  // ---------------------------------------------------------------------------

  function Digits(n: nat): string {
    var last := [['0', '1', '2', '3', '4', '5', '6', '7', '8', '9'][n % 10]];
    if n < 10 then last else Digits(n / 10) + last
  }

  function Decimal(n: int): string {
    if n < 0 then "-" + Digits(-n) else Digits(n)
  }

  /** `_format_sse` */
  function FormatSse(codec: Codec, frame: Frame): string {
    var id := if frame.sequence.Some? then "id: " + Decimal(frame.sequence.value) + "\n" else "";
    id + "event: " + frame.kind + "\n" + "data: " + codec.encode(frame) + "\n" + "\n"
  }

  function FormatAll(codec: Codec, frames: seq<Frame>): string {
    if frames == [] then "" else FormatAll(codec, frames[..|frames| - 1]) + FormatSse(codec, frames[|frames| - 1])
  }

  // ---------------------------------------------------------------------------
  // Lines, fields and blocks
  // ---------------------------------------------------------------------------

  /** The first index from `i` on that holds `c`, or the end. */
  function IndexOf(s: string, c: char, i: nat): (k: nat)
    requires i <= |s|
    ensures i <= k <= |s|
    ensures forall j | i <= j < k :: s[j] != c
    ensures k < |s| ==> s[k] == c
    decreases |s| - i
  {
    if i < |s| && s[i] != c then IndexOf(s, c, i + 1) else i
  }

  /** The lines of a text that ends its lines with LF. */
  function Lines(text: string): seq<string>
    decreases |text|
  {
    if text == "" then []
    else
      var n := IndexOf(text, '\n', 0);
      if n == |text| then [text] else [text[..n]] + Lines(text[n + 1..])
  }

  function Trimmed(lines: seq<string>): seq<string> {
    if lines == [] then [] else Trimmed(lines[..|lines| - 1]) + [TrimRight(IsCarriageReturn, lines[|lines| - 1])]
  }

  /** `line.partition(":")`, with one leading space taken off the value; a comment has no field. */
  function FieldOf(line: string): (field: (string, string)) {
    var n := IndexOf(line, ':', 0);
    if n == |line| then (line, "")
    else
      var value := line[n + 1..];
      (line[..n], if value != "" && value[0] == ' ' then value[1..] else value)
  }

  /** The last value of a field in a block. */
  function LastOf(block: seq<string>, name: string): Option<string> {
    if block == [] then None
    else
      var (field, value) := FieldOf(block[|block| - 1]);
      if field == name then Some(value) else LastOf(block[..|block| - 1], name)
  }

  /** All values of a field in a block. */
  function AllOf(block: seq<string>, name: string): seq<string> {
    if block == [] then []
    else
      var (field, value) := FieldOf(block[|block| - 1]);
      AllOf(block[..|block| - 1], name) + (if field == name then [value] else [])
  }

  /** The runs of lines between blank lines, the one behind the last blank line included. */
  function BlocksOf(lines: seq<string>): (blocks: seq<seq<string>>)
    ensures blocks != []
  {
    if lines == [] then [[]]
    else
      var front, last := BlocksOf(lines[..|lines| - 1]), lines[|lines| - 1];
      if last == "" then front + [[]] else front[..|front| - 1] + [front[|front| - 1] + [last]]
  }

  // ---------------------------------------------------------------------------
  // Decoding
  // ---------------------------------------------------------------------------

  /** `_decode_frame`; nothing stands for its value errors. */
  function DecodeFrame(codec: Codec, name: Option<string>, id: Option<string>, data: seq<string>): Option<Frame> {
    if data == [] then None
    else
      var raw := codec.decode(Join("\n", data));
      if raw.None? then None
      else
        var counted := raw.value.sequence.None? && id.Some? && !IsBlank(id.value);
        var sequence := if counted then codec.number(id.value) else raw.value.sequence;
        if counted && sequence.None? then None
        else
          var kind := if raw.value.kind != "" then raw.value.kind
                      else if name.GetOr("") != "" then name.value else "message";
          var executionId := if raw.value.executionId != "" then raw.value.executionId
                             else raw.value.payload.executionId;
          Some(Frame(executionId, kind, sequence, raw.value.payload))
  }

  /** A block that names an event or has data is a frame; the others are skipped. */
  predicate IsFrame(block: seq<string>) {
    LastOf(block, "event").Some? || AllOf(block, "data") != []
  }

  function DecodeBlock(codec: Codec, block: seq<string>): Option<Frame> {
    DecodeFrame(codec, LastOf(block, "event"), LastOf(block, "id"), AllOf(block, "data"))
  }

  /** The frames yielded, and whether the parser then raised. */
  datatype Parsed = Parsed(frames: seq<Frame>, raised: bool)

  function ParseBlock(codec: Codec, parsed: Parsed, block: seq<string>): Parsed {
    if parsed.raised || !IsFrame(block) then parsed
    else
      var frame := DecodeBlock(codec, block);
      if frame.None? then parsed.(raised := true) else parsed.(frames := parsed.frames + [frame.value])
  }

  function ParseBlocks(codec: Codec, blocks: seq<seq<string>>): Parsed {
    if blocks == [] then Parsed([], false)
    else ParseBlock(codec, ParseBlocks(codec, blocks[..|blocks| - 1]), blocks[|blocks| - 1])
  }

  /** `parse_sse_frames` told by blocks. */
  function Parse(codec: Codec, lines: seq<string>): Parsed {
    ParseBlocks(codec, BlocksOf(Trimmed(lines)))
  }

  /** The blocks that a blank line has closed. */
  function Closed(blocks: seq<seq<string>>): seq<seq<string>>
    requires blocks != []
  {
    blocks[..|blocks| - 1]
  }

  lemma NextLine(lines: seq<string>, line: string)
    ensures Trimmed(lines + [line]) == Trimmed(lines) + [TrimRight(IsCarriageReturn, line)]
  {
    assert (lines + [line])[..|lines|] == lines;
  }

  lemma NextBlocks(lines: seq<string>, line: string)
    ensures var before, after := BlocksOf(lines), BlocksOf(lines + [line]);
      if line == "" then after == before + [[]]
      else after == Closed(before) + [before[|before| - 1] + [line]]
  {
    assert (lines + [line])[..|lines|] == lines;
  }

  lemma NextParsed(codec: Codec, blocks: seq<seq<string>>, block: seq<string>)
    ensures ParseBlocks(codec, blocks + [block]) == ParseBlock(codec, ParseBlocks(codec, blocks), block)
  {
    assert (blocks + [block])[..|blocks|] == blocks;
  }

  lemma NextField(block: seq<string>, line: string, name: string)
    ensures LastOf(block + [line], name)
         == if FieldOf(line).0 == name then Some(FieldOf(line).1) else LastOf(block, name)
    ensures AllOf(block + [line], name)
         == AllOf(block, name) + (if FieldOf(line).0 == name then [FieldOf(line).1] else [])
  {
    assert (block + [line])[..|block|] == block;
  }

  lemma NoFields(name: string)
    ensures LastOf([], name) == None && AllOf([], name) == []
  {}

  /** Once the parser has raised, the blocks behind do not matter. */
  lemma {:induction false} RaisedStays(codec: Codec, lines: seq<string>, i: nat)
    requires i <= |lines| && ParseBlocks(codec, Closed(BlocksOf(lines[..i]))).raised
    ensures ParseBlocks(codec, BlocksOf(lines)) == ParseBlocks(codec, Closed(BlocksOf(lines[..i])))
    ensures ParseBlocks(codec, Closed(BlocksOf(lines))) == ParseBlocks(codec, Closed(BlocksOf(lines[..i])))
  {
    hide ParseBlock;
    var blocks := BlocksOf(lines);
    if i == |lines| {
      assert lines[..i] == lines;
    } else {
      var front, last := lines[..|lines| - 1], lines[|lines| - 1];
      assert front[..i] == lines[..i] && front + [last] == lines;
      RaisedStays(codec, front, i);
      NextBlocks(front, last);
      var before := BlocksOf(front);
      assert Closed(blocks) == if last == "" then before else Closed(before);
    }
    assert blocks == Closed(blocks) + [blocks[|blocks| - 1]];
    NextParsed(codec, Closed(blocks), blocks[|blocks| - 1]);
    RaisedKeeps(codec, ParseBlocks(codec, Closed(blocks)), blocks[|blocks| - 1]);
  }

  lemma RaisedKeeps(codec: Codec, parsed: Parsed, block: seq<string>)
    requires parsed.raised
    ensures ParseBlock(codec, parsed, block) == parsed
  {}

  /** What the loop has gathered of the current block. */
  ghost predicate Gathered(block: seq<string>, name: Option<string>, id: Option<string>, data: seq<string>) {
    name == LastOf(block, "event") && id == LastOf(block, "id") && data == AllOf(block, "data")
  }

  /** One line's field into the three variables. */
  method TakeField(line: string, name: Option<string>, id: Option<string>, data: seq<string>, ghost block: seq<string>)
    returns (newName: Option<string>, newId: Option<string>, newData: seq<string>)
    requires Gathered(block, name, id, data)
    ensures Gathered(block + [line], newName, newId, newData)
  {
    newName, newId, newData := name, id, data;
    NextField(block, line, "event");
    NextField(block, line, "id");
    NextField(block, line, "data");
    var (field, value) := FieldOf(line);
    if field == "event" {
      newName := Some(value);
    } else if field == "id" {
      newId := Some(value);
    } else if field == "data" {
      newData := data + [value];
    }
  }

  /** A block is complete: its frame, nothing, or an error. */
  method CloseBlock(codec: Codec, parsed: Parsed, name: Option<string>, id: Option<string>, data: seq<string>,
                    ghost block: seq<string>) returns (after: Parsed)
    requires Gathered(block, name, id, data) && !parsed.raised
    ensures after == ParseBlock(codec, parsed, block)
  {
    after := parsed;
    if name.Some? || data != [] {
      var frame := DecodeFrame(codec, name, id, data);
      if frame.None? {
        after := parsed.(raised := true);
      } else {
        after := parsed.(frames := parsed.frames + [frame.value]);
      }
    }
  }

  method ParseSseFrames(codec: Codec, lines: seq<string>) returns (parsed: Parsed)
    ensures parsed == Parse(codec, lines)
  {
    hide Gathered, ParseBlock, ParseBlocks, BlocksOf, Trimmed, TrimRight;
    parsed := Parsed([], false);
    var name: Option<string>, id: Option<string>, data: seq<string> := None, None, [];
    StartOfParse(codec, lines);
    for i := 0 to |lines|
      invariant !parsed.raised
      invariant parsed == ParseBlocks(codec, Closed(BlocksOf(Trimmed(lines[..i]))))
      invariant Gathered(LastBlock(Trimmed(lines[..i])), name, id, data)
    {
      ghost var before := Trimmed(lines[..i]);
      var line := TrimRight(IsCarriageReturn, lines[i]);
      assert lines[..i + 1] == lines[..i] + [lines[i]];
      NextLine(lines[..i], lines[i]);
      NextBlocks(before, line);
      if line == "" {
        parsed := CloseBlock(codec, parsed, name, id, data, LastBlock(before));
        BlocksSplit(before);
        NextParsed(codec, Closed(BlocksOf(before)), LastBlock(before));
        assert Closed(BlocksOf(before + [line])) == BlocksOf(before);
        if parsed.raised {
          TrimmedPrefix(lines, i + 1);
          RaisedStays(codec, Trimmed(lines), i + 1);
          return;
        }
        name, id, data := None, None, [];
        NothingGathered();
      } else {
        name, id, data := TakeField(line, name, id, data, LastBlock(before));
        assert Closed(BlocksOf(before + [line])) == Closed(BlocksOf(before));
      }
    }
    assert lines[..|lines|] == lines;
    ghost var all := Trimmed(lines);
    parsed := CloseBlock(codec, parsed, name, id, data, LastBlock(all));
    BlocksSplit(all);
    NextParsed(codec, Closed(BlocksOf(all)), LastBlock(all));
  }

  function LastBlock(lines: seq<string>): seq<string> {
    BlocksOf(lines)[|BlocksOf(lines)| - 1]
  }

  lemma BlocksSplit(lines: seq<string>)
    ensures BlocksOf(lines) == Closed(BlocksOf(lines)) + [LastBlock(lines)]
  {}

  lemma NothingGathered()
    ensures Gathered([], None, None, [])
  {}

  lemma StartOfParse(codec: Codec, lines: seq<string>)
    ensures ParseBlocks(codec, Closed(BlocksOf(Trimmed(lines[..0])))) == Parsed([], false)
    ensures Gathered(LastBlock(Trimmed(lines[..0])), None, None, [])
  {}

  lemma {:induction false} TrimmedPrefix(lines: seq<string>, i: nat)
    requires i <= |lines|
    ensures |Trimmed(lines)| == |lines| && Trimmed(lines)[..i] == Trimmed(lines[..i])
  {
    if i == |lines| {
      assert lines[..i] == lines;
      TrimmedLength(lines);
    } else {
      var front := lines[..|lines| - 1];
      TrimmedPrefix(front, i);
      assert front[..i] == lines[..i];
    }
  }

  lemma {:induction false} TrimmedLength(lines: seq<string>)
    ensures |Trimmed(lines)| == |lines|
  {
    if lines != [] {
      TrimmedLength(lines[..|lines| - 1]);
    }
  }

  // ---------------------------------------------------------------------------
  // Parsing what was printed
  // ---------------------------------------------------------------------------

  lemma {:induction false} IndexIs(s: string, c: char, i: nat, k: nat)
    requires i <= k <= |s| && (forall j | i <= j < k :: s[j] != c) && (k < |s| ==> s[k] == c)
    ensures IndexOf(s, c, i) == k
    decreases k - i
  {
    if i < k {
      IndexIs(s, c, i + 1, k);
    }
  }

  lemma LinesStep(text: string, n: nat)
    requires n < |text| && text[n] == '\n' && forall j | 0 <= j < n :: text[j] != '\n'
    ensures Lines(text) == [text[..n]] + Lines(text[n + 1..])
  {
    IndexIs(text, '\n', 0, n);
  }

  /** Splitting off the first line of both texts. */
  lemma FirstLineOfConcat(a: string, b: string) returns (line: string, rest: string)
    requires a != "" && EndsLine(a)
    ensures |rest| < |a| && EndsLine(rest)
    ensures Lines(a) == [line] + Lines(rest)
    ensures Lines(a + b) == [line] + Lines(rest + b)
  {
    hide Lines;
    var n, text := IndexOf(a, '\n', 0), a + b;
    assert n < |a|;
    LinesStep(a, n);
    LinesStep(text, n);
    line, rest := a[..n], a[n + 1..];
    assert text[..n] == line && text[n + 1..] == rest + b;
  }

  lemma Regrouped<T>(a: seq<T>, b: seq<T>, c: seq<T>)
    ensures (a + b) + c == a + (b + c)
  {}

  lemma {:induction false} LinesOfConcat(a: string, b: string)
    requires EndsLine(a)
    ensures Lines(a + b) == Lines(a) + Lines(b)
    decreases |a|
  {
    if a == "" {
      assert a + b == b;
    } else {
      hide *;
      var line, rest := FirstLineOfConcat(a, b);
      LinesOfConcat(rest, b);
      Regrouped([line], Lines(rest), Lines(b));
    }
  }

  lemma LineOf(line: string)
    requires '\n' !in line
    ensures Lines(line + "\n") == [line] && EndsLine(line + "\n")
  {
    var text := line + "\n";
    IndexIs(text, '\n', 0, |line|);
    assert text[..|line|] == line && text[|line| + 1..] == "";
  }

  lemma {:induction false} DigitsAreOneLine(n: nat)
    ensures OneLine(Digits(n))
  {
    if n >= 10 {
      DigitsAreOneLine(n / 10);
    }
  }

  function IdLines(frame: Frame): seq<string> {
    if frame.sequence.Some? then ["id: " + Decimal(frame.sequence.value)] else []
  }

  function BlockLines(codec: Codec, frame: Frame): seq<string> {
    IdLines(frame) + ["event: " + frame.kind] + ["data: " + codec.encode(frame)]
  }

  lemma LineOfTwo(first: string, second: string)
    requires OneLine(first) && OneLine(second)
    ensures Lines(first + second + "\n") == [first + second] && EndsLine(first + second + "\n")
    ensures OneLine(first + second)
  {
    LineOf(first + second);
  }

  lemma JoinLines(a: string, b: string)
    requires EndsLine(a) && EndsLine(b)
    ensures Lines(a + b) == Lines(a) + Lines(b) && EndsLine(a + b)
  {
    LinesOfConcat(a, b);
    assert b == "" ==> a + b == a;
  }

  lemma LinesOfFrame(codec: Codec, frame: Frame)
    requires IsCodec(codec) && OneLine(frame.kind)
    ensures Lines(FormatSse(codec, frame)) == BlockLines(codec, frame) + [""]
    ensures EndsLine(FormatSse(codec, frame))
    ensures forall line <- BlockLines(codec, frame) :: OneLine(line) && line != ""
  {
    hide Lines, Decimal, EndsLine, OneLine;
    var id := if frame.sequence.Some? then "id: " + Decimal(frame.sequence.value) + "\n" else "";
    var event, data := "event: " + frame.kind, "data: " + codec.encode(frame);
    LinesOfId(frame);
    LabelsAreOneLine();
    LineOfTwo("event: ", frame.kind);
    LineOfTwo("data: ", codec.encode(frame));
    AssembledLines(id, IdLines(frame), event + "\n", event, data + "\n", data);
    assert FormatSse(codec, frame) == id + (event + "\n") + (data + "\n") + "\n";
  }

  lemma LabelsAreOneLine()
    ensures OneLine("event: ") && OneLine("data: ") && OneLine("id: ")
  {}

  lemma AssembledLines(id: string, ids: seq<string>, event: string, eventLine: string, data: string, dataLine: string)
    requires Lines(id) == ids && Lines(event) == [eventLine] && Lines(data) == [dataLine]
    requires EndsLine(id) && EndsLine(event) && EndsLine(data)
    ensures Lines(id + event + data + "\n") == ids + [eventLine] + [dataLine] + [""]
    ensures EndsLine(id + event + data + "\n")
  {
    LineOf("");
    assert "" + "\n" == "\n";
    hide Lines, EndsLine;
    JoinLines(id, event);
    JoinLines(id + event, data);
    JoinLines(id + event + data, "\n");
  }

  lemma LinesOfId(frame: Frame)
    ensures var id := if frame.sequence.Some? then "id: " + Decimal(frame.sequence.value) + "\n" else "";
      Lines(id) == IdLines(frame) && EndsLine(id)
    ensures forall line <- IdLines(frame) :: OneLine(line) && line != ""
  {
    if frame.sequence.Some? {
      var n := frame.sequence.value;
      DigitsAreOneLine(if n < 0 then -n else n);
      LineOfTwo("id: ", Decimal(n));
    }
  }

  lemma UntouchedLine(line: string)
    requires OneLine(line)
    ensures TrimRight(IsCarriageReturn, line) == line
  {
    TrimRightFixed(IsCarriageReturn, line);
  }

  /** Adding a frame's lines closes the last block with them. */
  lemma BlocksWithFrame(lines: seq<string>, a: string, b: string)
    requires a != "" && b != ""
    ensures BlocksOf(lines + [a] + [b] + [""]) == Closed(BlocksOf(lines)) + [LastBlock(lines) + [a] + [b]] + [[]]
  {
    hide BlocksOf;
    NextBlocks(lines, a);
    NextBlocks(lines + [a], b);
    NextBlocks(lines + [a] + [b], "");
  }

  lemma BlocksWithLine(lines: seq<string>, a: string)
    requires a != ""
    ensures Closed(BlocksOf(lines + [a])) == Closed(BlocksOf(lines))
    ensures LastBlock(lines + [a]) == LastBlock(lines) + [a]
  {
    NextBlocks(lines, a);
  }

  lemma BlocksAfterFrame(codec: Codec, lines: seq<string>, frame: Frame)
    requires LastBlock(lines) == [] && forall line <- BlockLines(codec, frame) :: line != ""
    ensures BlocksOf(lines + BlockLines(codec, frame) + [""])
         == Closed(BlocksOf(lines)) + [BlockLines(codec, frame)] + [[]]
  {
    hide BlocksOf;
    var event, data := "event: " + frame.kind, "data: " + codec.encode(frame);
    if frame.sequence.None? {
      BlocksWithFrame(lines, event, data);
      assert lines + BlockLines(codec, frame) + [""] == lines + [event] + [data] + [""];
      assert BlockLines(codec, frame) == [] + [event] + [data];
    } else {
      var id := IdLines(frame)[0];
      BlocksWithLine(lines, id);
      BlocksWithFrame(lines + [id], event, data);
      assert lines + BlockLines(codec, frame) + [""] == lines + [id] + [event] + [data] + [""];
      assert BlockLines(codec, frame) == [] + [id] + [event] + [data];
    }
  }

  /** The client's reading of a frame: an empty type and an empty execution id are filled in. */
  function Observed(frame: Frame): Frame {
    frame.(
      kind := if frame.kind == "" then "message" else frame.kind,
      executionId := if frame.executionId == "" then frame.payload.executionId else frame.executionId)
  }

  function ObservedAll(frames: seq<Frame>): seq<Frame> {
    if frames == [] then [] else ObservedAll(frames[..|frames| - 1]) + [Observed(frames[|frames| - 1])]
  }

  lemma PrintedField(name: string, value: string)
    requires ':' !in name
    ensures FieldOf(name + ": " + value) == (name, value)
  {
    var line := name + ": " + value;
    IndexIs(line, ':', 0, |name|);
    assert line[..|name|] == name && line[|name| + 1..] == " " + value;
    assert (" " + value)[1..] == value;
  }

  lemma PrintedBlock(codec: Codec, frame: Frame)
    requires IsCodec(codec)
    ensures LastOf(BlockLines(codec, frame), "event") == Some(frame.kind)
    ensures frame.sequence.None? ==> LastOf(BlockLines(codec, frame), "id").None?
    ensures AllOf(BlockLines(codec, frame), "data") == [codec.encode(frame)]
  {
    hide FieldOf, LastOf, AllOf;
    var id, event, data := IdLines(frame), "event: " + frame.kind, "data: " + codec.encode(frame);
    assert "event" + ": " == "event: " && "data" + ": " == "data: " && "id" + ": " == "id: ";
    PrintedField("event", frame.kind);
    PrintedField("data", codec.encode(frame));
    if frame.sequence.Some? {
      PrintedField("id", Decimal(frame.sequence.value));
      FieldsStep([], id[0]);
      assert [] + [id[0]] == id;
    }
    NoFields("event");
    NoFields("id");
    NoFields("data");
    FieldsStep(id, event);
    FieldsStep(id + [event], data);
  }

  lemma FieldsStep(block: seq<string>, line: string)
    ensures forall name <- ["event", "id", "data"] ::
      && LastOf(block + [line], name)
         == (if FieldOf(line).0 == name then Some(FieldOf(line).1) else LastOf(block, name))
      && AllOf(block + [line], name) == AllOf(block, name) + (if FieldOf(line).0 == name then [FieldOf(line).1] else [])
  {
    NextField(block, line, "event");
    NextField(block, line, "id");
    NextField(block, line, "data");
  }

  lemma DecodesPrinted(codec: Codec, frame: Frame)
    requires IsCodec(codec)
    ensures IsFrame(BlockLines(codec, frame)) && DecodeBlock(codec, BlockLines(codec, frame)) == Some(Observed(frame))
  {
    hide LastOf, AllOf, BlockLines;
    PrintedBlock(codec, frame);
  }

  lemma {:induction false} BlocksOfPrinted(codec: Codec, frames: seq<Frame>)
    requires IsCodec(codec) && forall frame <- frames :: OneLine(frame.kind)
    ensures EndsLine(FormatAll(codec, frames))
    ensures var blocks := BlocksOf(Trimmed(Lines(FormatAll(codec, frames))));
      && blocks[|blocks| - 1] == []
      && ParseBlocks(codec, Closed(blocks)) == Parsed(ObservedAll(frames), false)
  {
    hide Lines, EndsLine, FormatSse, BlockLines, ParseBlock, IsCodec;
    if frames == [] {
      NothingPrinted(codec);
    } else {
      var front, last := frames[..|frames| - 1], frames[|frames| - 1];
      assert last in frames;
      BlocksOfPrinted(codec, front);
      LinesOfFrame(codec, last);
      JoinLines(FormatAll(codec, front), FormatSse(codec, last));
      hide BlocksOf, ParseBlocks, Trimmed, ObservedAll, FormatAll;
      var before := Lines(FormatAll(codec, front));
      TrimmedFrame(before, BlockLines(codec, last));
      BlocksAfterFrame(codec, Trimmed(before), last);
      var blocks := BlocksOf(Trimmed(before + (BlockLines(codec, last) + [""])));
      assert Closed(blocks) == Closed(BlocksOf(Trimmed(before))) + [BlockLines(codec, last)];
      NextParsed(codec, Closed(BlocksOf(Trimmed(before))), BlockLines(codec, last));
      ParsesPrinted(codec, ObservedAll(front), last);
      assert FormatAll(codec, frames) == FormatAll(codec, front) + FormatSse(codec, last) by {
        FormatsLast(codec, frames);
      }
      assert ObservedAll(frames) == ObservedAll(front) + [Observed(last)] by { FormatsLast(codec, frames); }
    }
  }

  lemma NothingPrinted(codec: Codec)
    ensures FormatAll(codec, []) == "" && EndsLine("") && Trimmed(Lines("")) == []
    ensures BlocksOf([]) == [[]] && ParseBlocks(codec, Closed([[]])) == Parsed([], false) && ObservedAll([]) == []
  {}

  lemma FormatsLast(codec: Codec, frames: seq<Frame>)
    requires frames != []
    ensures FormatAll(codec, frames)
         == FormatAll(codec, frames[..|frames| - 1]) + FormatSse(codec, frames[|frames| - 1])
    ensures ObservedAll(frames) == ObservedAll(frames[..|frames| - 1]) + [Observed(frames[|frames| - 1])]
  {}

  lemma ParsesPrinted(codec: Codec, frames: seq<Frame>, frame: Frame)
    requires IsCodec(codec)
    ensures ParseBlock(codec, Parsed(frames, false), BlockLines(codec, frame))
         == Parsed(frames + [Observed(frame)], false)
  {
    hide BlockLines, IsFrame, DecodeBlock;
    DecodesPrinted(codec, frame);
  }

  lemma {:induction false} TrimmedLines(lines: seq<string>, more: seq<string>)
    requires forall line <- more :: OneLine(line)
    ensures Trimmed(lines + more) == Trimmed(lines) + more
  {
    hide TrimRight;
    if more == [] {
      assert lines + more == lines;
    } else {
      var front, last := more[..|more| - 1], more[|more| - 1];
      assert last in more;
      TrimmedLines(lines, front);
      NextLine(lines + front, last);
      UntouchedLine(last);
      assert lines + more == (lines + front) + [last];
    }
  }

  lemma TrimmedFrame(lines: seq<string>, block: seq<string>)
    requires forall line <- block :: OneLine(line)
    ensures Trimmed(lines + (block + [""])) == Trimmed(lines) + block + [""]
  {
    TrimmedLines(lines, block + [""]);
  }

  /** Parsing printed frames never raises and gives each frame back as the client observes it. */
  lemma ParsingReadsPrinting(codec: Codec, frames: seq<Frame>)
    requires IsCodec(codec) && forall frame <- frames :: OneLine(frame.kind)
    ensures Parse(codec, Lines(FormatAll(codec, frames))) == Parsed(ObservedAll(frames), false)
  {
    hide Lines, FormatAll, IsCodec;
    BlocksOfPrinted(codec, frames);
    var blocks := BlocksOf(Trimmed(Lines(FormatAll(codec, frames))));
    hide BlocksOf, Trimmed, ParseBlocks;
    assert blocks == Closed(blocks) + [[]];
    NextParsed(codec, Closed(blocks), []);
    assert ParseBlock(codec, Parsed(ObservedAll(frames), false), []) == Parsed(ObservedAll(frames), false) by {
      NoFields("event");
      NoFields("data");
    }
  }

  /** The frame names its type, and its execution at least as well as its payload does. */
  predicate SurvivesTransport(frame: Frame) {
    frame.kind != "" && (frame.executionId != "" || frame.payload.executionId == "")
  }

  lemma LastSurvives(front: seq<Frame>, last: Frame, shown: seq<Frame>)
    requires |shown| == |front|
    ensures shown + [Observed(last)] == front + [last] <==> shown == front && SurvivesTransport(last)
  {
    assert (shown + [Observed(last)])[..|front|] == shown && (front + [last])[..|front|] == front;
    assert (shown + [Observed(last)])[|front|] == Observed(last) && (front + [last])[|front|] == last;
  }

  lemma {:induction false} ObservedAllSame(frames: seq<Frame>)
    ensures ObservedAll(frames) == frames <==> forall frame <- frames :: SurvivesTransport(frame)
    ensures |ObservedAll(frames)| == |frames|
  {
    hide SurvivesTransport, Observed;
    if frames != [] {
      var front, last := frames[..|frames| - 1], frames[|frames| - 1];
      ObservedAllSame(front);
      assert frames == front + [last];
      LastSurvives(front, last, ObservedAll(front));
      assert (forall frame <- frames :: SurvivesTransport(frame))
        <==> SurvivesTransport(last) && forall frame <- front :: SurvivesTransport(frame) by {
        assert last in frames && forall frame <- front :: frame in frames;
      }
    }
  }

  /** The same frames come out exactly if each names its type, and its execution wherever its payload does. */
  lemma RoundTrip(codec: Codec, frames: seq<Frame>)
    requires IsCodec(codec) && forall frame <- frames :: OneLine(frame.kind)
    ensures Parse(codec, Lines(FormatAll(codec, frames))) == Parsed(frames, false)
       <==> forall frame <- frames :: SurvivesTransport(frame)
  {
    hide IsCodec, Parse, Lines, FormatAll, SurvivesTransport, ObservedAll;
    ParsingReadsPrinting(codec, frames);
    ObservedAllSame(frames);
  }

  /** Without a type of its own, a frame comes out as a message. */
  lemma UntypedFrameComesOutAsMessage(codec: Codec, frame: Frame)
    requires IsCodec(codec) && frame == Frame("run", "", Some(1), Payload("", "{}"))
    ensures Parse(codec, Lines(FormatAll(codec, [frame]))) == Parsed([frame.(kind := "message")], false)
  {
    hide IsCodec, Parse, Lines, FormatAll;
    ParsingReadsPrinting(codec, [frame]);
    assert [frame][..0] == [];
    assert ObservedAll([frame]) == [] + [Observed(frame)];
  }

  // ---------------------------------------------------------------------------
  // Numbers, fields and line ends
  // ---------------------------------------------------------------------------

  function DigitValue(c: char): nat {
    if '0' <= c <= '9' then (c as int) - ('0' as int) else 0
  }

  /** Reading decimal digits from the left. */
  function ValueOf(digits: string): nat {
    if digits == "" then 0 else 10 * ValueOf(digits[..|digits| - 1]) + DigitValue(digits[|digits| - 1])
  }

  /** Printed digits read back as the number, without a leading zero unless it is zero. */
  lemma {:induction false} DigitsReadBack(n: nat)
    ensures Digits(n) != "" && ValueOf(Digits(n)) == n
    ensures forall i | 0 <= i < |Digits(n)| :: '0' <= Digits(n)[i] <= '9'
    ensures n > 0 ==> Digits(n)[0] != '0'
  {
    var last := ['0', '1', '2', '3', '4', '5', '6', '7', '8', '9'][n % 10];
    assert DigitValue(last) == n % 10;
    if n < 10 {
      assert Digits(n) == [last] && Digits(n)[..0] == "";
    } else {
      DigitsReadBack(n / 10);
      assert Digits(n) == Digits(n / 10) + [last] && Digits(n)[..|Digits(n)| - 1] == Digits(n / 10);
    }
  }

  lemma DecimalReadsBack(n: int)
    ensures if n < 0 then Decimal(n) != "" && Decimal(n)[0] == '-' && ValueOf(Decimal(n)[1..]) == -n
            else ValueOf(Decimal(n)) == n
  {
    DigitsReadBack(if n < 0 then -n else n);
    if n < 0 {
      assert Decimal(n)[1..] == Digits(-n);
    }
  }

  /** The printed id is the sequence, and there is none without one. */
  lemma PrintedId(codec: Codec, frame: Frame)
    ensures LastOf(BlockLines(codec, frame), "id")
         == if frame.sequence.Some? then Some(Decimal(frame.sequence.value)) else None
  {
    hide FieldOf, LastOf, AllOf;
    var id, event, data := IdLines(frame), "event: " + frame.kind, "data: " + codec.encode(frame);
    assert "event" + ": " == "event: " && "data" + ": " == "data: " && "id" + ": " == "id: ";
    PrintedField("event", frame.kind);
    PrintedField("data", codec.encode(frame));
    NoFields("id");
    if frame.sequence.Some? {
      PrintedField("id", Decimal(frame.sequence.value));
      FieldsStep([], id[0]);
      assert [] + [id[0]] == id;
    }
    FieldsStep(id, event);
    FieldsStep(id + [event], data);
  }

  /** A field ends at the first colon; one space behind that is no part of the value. */
  lemma FieldIs(name: string, value: string)
    requires ':' !in name
    ensures FieldOf(name) == (name, "")
    ensures FieldOf(name + ":" + value) == (name, if value != "" && value[0] == ' ' then value[1..] else value)
  {
    IndexIs(name, ':', 0, |name|);
    var line := name + ":" + value;
    IndexIs(line, ':', 0, |name|);
    assert line[..|name|] == name && line[|name| + 1..] == value;
  }

  /** Several data lines are one text with line breaks. */
  lemma DataLinesAreJoined(codec: Codec, name: Option<string>, first: string, second: string)
    ensures DecodeFrame(codec, name, None, [first, second]) == DecodeFrame(codec, name, None, [first + "\n" + second])
  {
    assert [first, second][1..] == [second];
    assert Join("\n", [second]) == second && Join("\n", [first, second]) == first + "\n" + second;
  }

  /** A payload without a sequence of its own gets the transport's id, and raises if that is no number. */
  lemma MissingSequenceIsId(codec: Codec, name: Option<string>, id: Option<string>, data: seq<string>, raw: Frame)
    requires data != [] && codec.decode(Join("\n", data)) == Some(raw)
    ensures var counted := raw.sequence.None? && id.Some? && Strip(id.value) != "";
      var decoded := DecodeFrame(codec, name, id, data);
      && (decoded.None? <==> counted && codec.number(id.value).None?)
      && (decoded.Some? ==>
            && decoded.value.sequence == (if counted then codec.number(id.value) else raw.sequence)
            && decoded.value.kind == (if raw.kind != "" then raw.kind
                                      else if name.GetOr("") != "" then name.value else "message")
            && decoded.value.executionId == (if raw.executionId != "" then raw.executionId
                                             else raw.payload.executionId)
            && decoded.value.payload == raw.payload)
  {
    hide Strip, Join;
  }

  lemma UnreadableDataRaises(codec: Codec, name: Option<string>, id: Option<string>, data: seq<string>)
    ensures data == [] || codec.decode(Join("\n", data)).None? ==> DecodeFrame(codec, name, id, data).None?
  {
    hide Join;
  }

  function WithReturns(lines: seq<string>): seq<string> {
    if lines == [] then [] else WithReturns(lines[..|lines| - 1]) + [lines[|lines| - 1] + "\r"]
  }

  /** Carriage returns in front of the line feeds make no difference. */
  lemma {:induction false} ReturnsMakeNoDifference(codec: Codec, lines: seq<string>)
    ensures Trimmed(WithReturns(lines)) == Trimmed(lines)
    ensures Parse(codec, WithReturns(lines)) == Parse(codec, lines)
  {
    hide TrimRight, ParseBlocks, BlocksOf;
    if lines != [] {
      var front, last := lines[..|lines| - 1], lines[|lines| - 1];
      ReturnsMakeNoDifference(codec, front);
      NextLine(WithReturns(front), last + "\r");
      TrimRightPadded(IsCarriageReturn, last, "\r");
    }
  }

  /** Nothing is yielded for a block that names no event and has no data, and nothing at all behind an error. */
  lemma SkippedBlocks(codec: Codec, parsed: Parsed, block: seq<string>)
    ensures LastOf(block, "event").None? && AllOf(block, "data") == [] ==> ParseBlock(codec, parsed, block) == parsed
    ensures parsed.raised ==> ParseBlock(codec, parsed, block) == parsed
  {
    hide LastOf, AllOf, DecodeBlock;
  }

  /** A block that names an event and has no data raises. */
  lemma EventWithoutDataRaises(codec: Codec, parsed: Parsed, block: seq<string>)
    requires LastOf(block, "event").Some? && AllOf(block, "data") == []
    ensures ParseBlock(codec, parsed, block) == parsed.(raised := true)
  {
    hide LastOf, AllOf;
  }

  /** A stream that breaks off behind a block is read like one that closes it. */
  lemma TrailingBlockIsRead(codec: Codec, lines: seq<string>)
    ensures Parse(codec, lines + [""]) == Parse(codec, lines)
  {
    hide ParseBlocks, BlocksOf, Trimmed, TrimRight;
    NextLine(lines, "");
    NothingTrimmed();
    NextBlocks(Trimmed(lines), "");
    NextParsed(codec, BlocksOf(Trimmed(lines)), []);
    NothingGathered();
  }

  lemma NothingTrimmed()
    ensures TrimRight(IsCarriageReturn, "") == ""
  {}
}
