/** The chat's event stream: the backend's printer and the browser's incremental parser. */
module EventStream {
  import opened Wrappers
  import opened Text

  /** One event on the wire: its name, and its payload as JSON text. */
  datatype Frame = Frame(name: string, data: string)

  // --- The printer -------------------------------------------------------------

  function FormatEvent(f: Frame): string {
    "event: " + f.name + "\ndata: " + f.data + "\n\n"
  }

  function Printed(frames: seq<Frame>): string {
    if frames == [] then "" else FormatEvent(frames[0]) + Printed(frames[1..])
  }

  /** How the turn behind a stream ended. */
  datatype Ending = Completed | Raised(error: string)

  /** What the stream writer sends: the events, then `done`, or the error it ended with. */
  function Sent(events: seq<Frame>, ending: Ending): seq<Frame> {
    events + [match ending case Completed => Frame("done", "{}") case Raised(error) => Frame("error", error)]
  }

  // --- One block ---------------------------------------------------------------

  /** The index of the first such character at or after i, or the length. */
  function IndexOf(s: string, c: char, i: nat): (r: nat)
    requires i <= |s|
    ensures i <= r <= |s|
    ensures r < |s| ==> s[r] == c
    decreases |s| - i
  {
    if i < |s| && s[i] != c then IndexOf(s, c, i + 1) else i
  }

  function Lines(s: string): seq<string>
    decreases |s|
  {
    var end := IndexOf(s, '\n', 0);
    if end == |s| then [s] else [s[..end]] + Lines(s[end + 1..])
  }

  /** What the lines read so far of a block have given. */
  datatype Fields = Fields(name: string, data: seq<string>)

  function Unspaced(value: string): string {
    if " " <= value then value[1..] else value
  }

  function ReadLine(fields: Fields, line: string): Fields {
    if line == "" || line[0] == ':' then fields
    else
      var colon := IndexOf(line, ':', 0);
      var value := if colon == |line| then "" else Unspaced(line[colon + 1..]);
      if line[..colon] == "event" then fields.(name := value)
      else if line[..colon] == "data" then fields.(data := fields.data + [value])
      else fields
  }

  function ReadLines(fields: Fields, lines: seq<string>): Fields
    decreases |lines|
  {
    if lines == [] then fields else ReadLines(ReadLine(fields, lines[0]), lines[1..])
  }

  function JoinLines(data: seq<string>): string
    requires data != []
  {
    if |data| == 1 then data[0] else data[0] + "\n" + JoinLines(data[1..])
  }

  function BlockFrame(fields: Fields): Option<Frame> {
    if fields.data == [] then None else Some(Frame(fields.name, JoinLines(fields.data)))
  }

  function ParseBlock(block: string): Option<Frame> {
    BlockFrame(ReadLines(Fields("message", []), Lines(block)))
  }

  // --- The parser --------------------------------------------------------------

  /** Each CR LF replaced by LF, in one pass. */
  function Normalized(s: string): string {
    if |s| >= 2 && s[0] == '\r' && s[1] == '\n' then "\n" + Normalized(s[2..])
    else if s == "" then ""
    else [s[0]] + Normalized(s[1..])
  }

  /** The index of the first blank line (two LFs) at or after i. */
  function BlankAt(s: string, i: nat): (r: Option<nat>)
    requires i <= |s|
    ensures r.Some? ==> i <= r.value && r.value + 2 <= |s| && s[r.value] == '\n' && s[r.value + 1] == '\n'
    decreases |s| - i
  {
    if |s| < i + 2 then None
    else if s[i] == '\n' && s[i + 1] == '\n' then Some(i)
    else BlankAt(s, i + 1)
  }

  /** What the blocks complete in a text give, and the text after the last of them. */
  datatype Drained = Drained(frames: seq<Frame>, rest: string)

  function FrameSeq(frame: Option<Frame>): seq<Frame> {
    match frame case None => [] case Some(f) => [f]
  }

  function Drain(s: string): Drained
    decreases |s|
  {
    match BlankAt(s, 0)
    case None => Drained([], s)
    case Some(end) =>
      var after := Drain(s[end + 2..]);
      Drained(FrameSeq(ParseBlock(s[..end])) + after.frames, after.rest)
  }

  /** Everything the parser has yielded and still buffers after these chunks. */
  function Received(chunks: seq<string>): Drained
    decreases |chunks|
  {
    if chunks == [] then Drained([], "")
    else
      var before := Received(chunks[..|chunks| - 1]);
      var now := Drain(Normalized(before.rest + chunks[|chunks| - 1]));
      Drained(before.frames + now.frames, now.rest)
  }

  /** The frames of a whole stream. The end of the stream comes as one more, empty, chunk. */
  function Parsed(chunks: seq<string>): seq<Frame> {
    Received(chunks + [""]).frames
  }

  lemma DrainStep(s: string, end: nat, before: seq<Frame>)
    requires BlankAt(s, 0) == Some(end)
    ensures before + Drain(s).frames == (before + FrameSeq(ParseBlock(s[..end]))) + Drain(s[end + 2..]).frames
    ensures Drain(s).rest == Drain(s[end + 2..]).rest
  {
    Assoc(before, FrameSeq(ParseBlock(s[..end])), Drain(s[end + 2..]).frames);
  }

  /** The browser's reader: text not yet closed by a blank line is buffered. */
  class Reader {
    var buffer: string

    constructor ()
      ensures buffer == ""
    {
      buffer := "";
    }

    method Feed(chunk: string) returns (frames: seq<Frame>)
      modifies this
      ensures Drained(frames, buffer) == Drain(Normalized(old(buffer) + chunk))
    {
      frames := [];
      buffer := Normalized(buffer + chunk);
      ghost var all := Drain(buffer);
      var end := BlankAt(buffer, 0);
      while end.Some?
        invariant end == BlankAt(buffer, 0)
        invariant frames + Drain(buffer).frames == all.frames && Drain(buffer).rest == all.rest
        decreases |buffer|
      {
        DrainStep(buffer, end.value, frames);
        var frame := ReadBlock(buffer[..end.value]);
        frames := frames + FrameSeq(frame);
        buffer := buffer[end.value + 2..];
        end := BlankAt(buffer, 0);
      }
      Assoc(frames, [], []);
    }

    method ReadBlock(block: string) returns (frame: Option<Frame>)
      ensures frame == ParseBlock(block)
    {
      var lines := Lines(block);
      var name, data := "message", [];
      for i := 0 to |lines|
        invariant ReadLines(Fields(name, data), lines[i..]) == ReadLines(Fields("message", []), lines)
      {
        var line := lines[i];
        assert lines[i..][0] == line && lines[i..][1..] == lines[i + 1..];
        if line == "" || line[0] == ':' {
          continue;
        }
        var colon := IndexOf(line, ':', 0);
        var value := if colon == |line| then "" else Unspaced(line[colon + 1..]);
        if line[..colon] == "event" {
          name := value;
        } else if line[..colon] == "data" {
          data := data + [value];
        }
      }
      assert lines[|lines|..] == [];
      frame := BlockFrame(Fields(name, data));
    }
  }

  method ReadStream(chunks: seq<string>) returns (frames: seq<Frame>)
    ensures frames == Parsed(chunks)
  {
    var reader := new Reader();
    var all := chunks + [""];
    frames := [];
    for i := 0 to |all|
      invariant Drained(frames, reader.buffer) == Received(all[..i])
    {
      var more := reader.Feed(all[i]);
      assert all[..i + 1][..i] == all[..i];
      frames := frames + more;
    }
    assert all[..|all|] == all;
  }

  // --- The split does not matter -----------------------------------------------

  predicate HasCrLf(s: string) {
    |s| >= 2 && ((s[0] == '\r' && s[1] == '\n') || HasCrLf(s[1..]))
  }

  /** A CR LF right after a CR, which a second pass would shorten again. */
  predicate HasCrCrLf(s: string) {
    |s| >= 3 && ((s[0] == '\r' && s[1] == '\r' && s[2] == '\n') || HasCrCrLf(s[1..]))
  }

  /** Text with no CR LF is left as it is, also in front of more text, unless the two meet in a CR LF. */
  lemma {:induction false} NothingToReplace(s: string, t: string)
    requires !HasCrLf(s) && (s != "" && t != "" ==> s[|s| - 1] != '\r' || t[0] != '\n')
    ensures Normalized(s + t) == s + Normalized(t)
    decreases |s|
  {
    if s == "" {
      assert s + t == t;
    } else {
      assert s + t == [s[0]] + (s[1..] + t);
      NormalizeCons(s[0], s[1..] + t);
      NothingToReplace(s[1..], t);
      assert [s[0]] + (s[1..] + Normalized(t)) == s + Normalized(t);
    }
  }

  lemma {:induction false} NormalizedHasNone(s: string)
    requires !HasCrCrLf(s)
    ensures !HasCrLf(Normalized(s))
    decreases |s|
  {
    if |s| >= 2 && s[0] == '\r' && s[1] == '\n' {
      assert s[2..] == s[1..][1..];
      NormalizedHasNone(s[2..]);
      assert Normalized(s)[1..] == Normalized(s[2..]);
    } else if s != "" {
      NormalizedHasNone(s[1..]);
      assert Normalized(s)[1..] == Normalized(s[1..]);
    }
  }

  lemma NormalizeCons(c: char, more: string)
    requires !(c == '\r' && more != "" && more[0] == '\n')
    ensures Normalized([c] + more) == [c] + Normalized(more)
  {
    assert ([c] + more)[1..] == more;
  }

  lemma DropTwo(s: string)
    requires !HasCrCrLf(s) && |s| >= 2
    ensures !HasCrCrLf(s[2..])
  {
    assert !HasCrCrLf(s[1..]);
    assert s[1..][1..] == s[2..];
  }

  lemma NormalizedFirst(s: string)
    requires s != ""
    ensures Normalized(s) != ""
    ensures Normalized(s)[0] == if |s| >= 2 && s[0] == '\r' && s[1] == '\n' then '\n' else s[0]
  {
  }

  /** Normalizing what came first, and then all of it, is normalizing it once. */
  lemma {:induction false} NormalizeAgain(s: string, t: string)
    requires !HasCrCrLf(s + t)
    ensures Normalized(s + t) == Normalized(Normalized(s) + t)
    decreases |s|
  {
    if s == "" {
      assert s + t == t && Normalized(s) + t == t;
    } else if |s| >= 2 && s[0] == '\r' && s[1] == '\n' {
      NormalizeAgainCrLf(s, t);
    } else if |s| == 1 {
      assert Normalized(s) == s;
    } else {
      NormalizeAgainChar(s, t);
    }
  }

  lemma {:induction false} NormalizeAgainCrLf(s: string, t: string)
    requires !HasCrCrLf(s + t) && |s| >= 2 && s[0] == '\r' && s[1] == '\n'
    ensures Normalized(s + t) == Normalized(Normalized(s) + t)
    decreases |s|, 0
  {
    assert (s + t)[2..] == s[2..] + t;
    DropTwo(s + t);
    NormalizeAgain(s[2..], t);
    assert Normalized(s) + t == "\n" + (Normalized(s[2..]) + t);
    NormalizeCons('\n', Normalized(s[2..]) + t);
  }

  lemma {:induction false} NormalizeAgainChar(s: string, t: string)
    requires !HasCrCrLf(s + t) && |s| >= 2 && !(s[0] == '\r' && s[1] == '\n')
    ensures Normalized(s + t) == Normalized(Normalized(s) + t)
    decreases |s|, 0
  {
    assert (s + t)[1..] == s[1..] + t;
    NormalizeAgain(s[1..], t);
    NormalizedFirst(s[1..]);
    assert Normalized(s) + t == [s[0]] + (Normalized(s[1..]) + t);
    NormalizeCons(s[0], Normalized(s[1..]) + t);
  }

  lemma {:induction false} BlankStays(s: string, t: string, i: nat)
    requires i <= |s| && BlankAt(s, i).Some?
    ensures BlankAt(s + t, i) == BlankAt(s, i)
    decreases |s| - i
  {
    if !(s[i] == '\n' && s[i + 1] == '\n') {
      BlankStays(s, t, i + 1);
    }
  }

  lemma {:induction false} BlankInPrefix(s: string, end: nat, i: nat)
    requires i <= |s| && BlankAt(s, i) == Some(end)
    ensures BlankAt(s[..end + 2], i) == Some(end)
    decreases |s| - i
  {
    if i < end {
      BlankInPrefix(s, end, i + 1);
    }
  }

  /** The first block, whatever text follows it. */
  lemma DrainFirst(s: string, end: nat, more: string)
    requires BlankAt(s, 0) == Some(end)
    ensures Drain(s[..end + 2] + more) == Drained(FrameSeq(ParseBlock(s[..end])) + Drain(more).frames, Drain(more).rest)
  {
    var all := s[..end + 2] + more;
    BlankInPrefix(s, end, 0);
    BlankStays(s[..end + 2], more, 0);
    assert all[..end] == s[..end] && all[end + 2..] == more;
  }

  /** The text of the blocks drained ends in a LF, and in front of other text gives the same frames again. */
  lemma {:induction false} DrainSplits(s: string, t: string) returns (blocks: string)
    ensures s == blocks + Drain(s).rest
    ensures blocks != "" ==> blocks[|blocks| - 1] == '\n'
    ensures Drain(blocks + t) == Drained(Drain(s).frames + Drain(t).frames, Drain(t).rest)
    decreases |s|
  {
    match BlankAt(s, 0)
    case None =>
      blocks := "";
      assert blocks + t == t && blocks + s == s;
      assert [] + Drain(t).frames == Drain(t).frames;
    case Some(end) =>
      var later := DrainSplits(s[end + 2..], t);
      blocks := s[..end + 2] + later;
      JoinRest(s, end, later);
      JoinFrames(s, end, t, later);
  }

  lemma JoinRest(s: string, end: nat, later: string)
    requires BlankAt(s, 0) == Some(end)
    requires s[end + 2..] == later + Drain(s[end + 2..]).rest
    ensures s == (s[..end + 2] + later) + Drain(s).rest
  {
    DrainStep(s, end, []);
    Assoc(s[..end + 2], later, Drain(s[end + 2..]).rest);
    CutAt(s, end + 2);
  }

  lemma CutAt(s: string, i: nat)
    requires i <= |s|
    ensures s[..i] + s[i..] == s
  {
  }

  lemma JoinFrames(s: string, end: nat, t: string, later: string)
    requires BlankAt(s, 0) == Some(end)
    requires Drain(later + t) == Drained(Drain(s[end + 2..]).frames + Drain(t).frames, Drain(t).rest)
    ensures Drain((s[..end + 2] + later) + t) == Drained(Drain(s).frames + Drain(t).frames, Drain(t).rest)
  {
    var first, tail := s[..end + 2], s[end + 2..];
    assert first + tail == s;
    DrainFirst(s, end, tail);
    DrainFirst(s, end, later + t);
    Assoc(first, later, t);
    Assoc(FrameSeq(ParseBlock(s[..end])), Drain(tail).frames, Drain(t).frames);
  }

  lemma {:induction false} PrefixHasNone(s: string, t: string)
    requires !HasCrCrLf(s + t)
    ensures !HasCrCrLf(s)
    decreases |s|
  {
    if |s| >= 3 {
      assert (s + t)[1..] == s[1..] + t;
      PrefixHasNone(s[1..], t);
    }
  }

  /** After any chunks of a text without CR CR LF, the parser has yielded and
      buffered what draining the text read so far at once gives. */
  lemma {:induction false} ReceivedWhole(chunks: seq<string>)
    requires !HasCrCrLf(Concat(chunks))
    ensures Received(chunks) == Drain(Normalized(Concat(chunks)))
    decreases |chunks|
  {
    if chunks != [] {
      var before, chunk := chunks[..|chunks| - 1], chunks[|chunks| - 1];
      PrefixHasNone(Concat(before), chunk);
      ReceivedWhole(before);
      MoreText(Concat(before), chunk);
    }
  }

  /** One more chunk: what is buffered and the chunk give the same as all of the text. */
  lemma MoreText(text: string, chunk: string)
    requires !HasCrCrLf(text + chunk)
    ensures
      var before := Drain(Normalized(text));
      var now := Drain(Normalized(before.rest + chunk));
      Drain(Normalized(text + chunk)) == Drained(before.frames + now.frames, now.rest)
  {
    var s := Normalized(text);
    var rest := Drain(s).rest;
    var blocks := DrainSplits(s, Normalized(rest + chunk));
    NormalizeAgain(text, chunk);
    PrefixHasNone(text, chunk);
    NormalizedHasNone(text);
    PrefixHasNoCrLf(blocks, rest);
    NothingToReplace(blocks, rest + chunk);
    Assoc(blocks, rest, chunk);
  }

  lemma {:induction false} PrefixHasNoCrLf(s: string, t: string)
    requires !HasCrLf(s + t)
    ensures !HasCrLf(s)
    decreases |s|
  {
    if |s| >= 2 {
      assert (s + t)[1..] == s[1..] + t;
      PrefixHasNoCrLf(s[1..], t);
    }
  }

  /** Two ways to split one text into chunks give the same frames, if no CR CR LF is in it. */
  lemma SplitDoesNotMatter(chunks: seq<string>, others: seq<string>)
    requires Concat(chunks) == Concat(others) && !HasCrCrLf(Concat(chunks))
    ensures Parsed(chunks) == Parsed(others) == Drain(Normalized(Concat(chunks))).frames
  {
    ParsedWhole(chunks);
    ParsedWhole(others);
  }

  lemma ParsedWhole(chunks: seq<string>)
    requires !HasCrCrLf(Concat(chunks))
    ensures Parsed(chunks) == Drain(Normalized(Concat(chunks))).frames
  {
    var all := chunks + [""];
    assert all[..|all| - 1] == chunks;
    assert Concat(all) == Concat(chunks);
    ReceivedWhole(all);
  }

  // --- The round trip ----------------------------------------------------------

  /** Text that stays on its line. */
  predicate OneLine(s: string) {
    forall i | 0 <= i < |s| :: s[i] != '\n' && s[i] != '\r'
  }

  predicate Printable(frames: seq<Frame>) {
    forall i | 0 <= i < |frames| :: OneLine(frames[i].name) && OneLine(frames[i].data)
  }

  function EventLine(f: Frame): string {
    "event: " + f.name
  }

  function DataLine(f: Frame): string {
    "data: " + f.data
  }

  lemma {:induction false} NoLineEnd(s: string, t: string, i: nat)
    requires i <= |s| && OneLine(s)
    ensures IndexOf(s + "\n" + t, '\n', i) == |s|
    decreases |s| - i
  {
    if i < |s| {
      NoLineEnd(s, t, i + 1);
    }
  }

  lemma {:induction false} NoLineEndAlone(s: string, i: nat)
    requires i <= |s| && OneLine(s)
    ensures IndexOf(s, '\n', i) == |s|
    decreases |s| - i
  {
    if i < |s| {
      NoLineEndAlone(s, i + 1);
    }
  }

  lemma BlockLines(a: string, b: string)
    requires OneLine(a) && OneLine(b)
    ensures Lines(a + "\n" + b) == [a, b]
  {
    NoLineEnd(a, b, 0);
    NoLineEndAlone(b, 0);
    var s := a + "\n" + b;
    assert s[..|a|] == a && s[|a| + 1..] == b;
  }

  lemma FieldOf(line: string, field: string, value: string)
    requires line == field + ":" + (" " + value) && field != "" && IndexOf(field, ':', 0) == |field|
    ensures line != "" && line[0] == field[0] && line[..|field|] == field
    ensures IndexOf(line, ':', 0) == |field| < |line| && Unspaced(line[|field| + 1..]) == value
  {
    ColonAfter(field, " " + value, 0);
    assert line[|field| + 1..] == " " + value;
    SpaceDropped(value);
  }

  lemma SpaceDropped(value: string)
    ensures Unspaced(" " + value) == value
  {
    assert (" " + value)[0] == ' ';
    assert (" " + value)[1..] == value;
  }

  lemma {:induction false} ColonAfter(field: string, more: string, i: nat)
    requires i <= |field| && IndexOf(field, ':', i) == |field|
    ensures IndexOf(field + ":" + more, ':', i) == |field|
    decreases |field| - i
  {
    if i < |field| {
      ColonAfter(field, more, i + 1);
    }
  }

  lemma KnownFields()
    ensures IndexOf("event", ':', 0) == 5 && IndexOf("data", ':', 0) == 4
  {
    assert IndexOf("event", ':', 3) == 5;
    assert IndexOf("data", ':', 2) == 4;
  }

  // --- What a block says -----------------------------------------------------------

  /** What a line gives a field: the text after `field:` without one space, or none after the bare name. */
  function ValueOf(line: string, field: string): Option<string> {
    if line == field then Some("")
    else if field + ": " <= line then Some(line[|field| + 2..])
    else if field + ":" <= line then Some(line[|field| + 1..])
    else None
  }

  /** All values that the lines give a field, in order, and the last of them. */
  function ValuesOf(lines: seq<string>, field: string): seq<string> {
    if lines == [] then []
    else
      match ValueOf(lines[0], field)
      case None => ValuesOf(lines[1..], field)
      case Some(value) => [value] + ValuesOf(lines[1..], field)
  }

  function LastOr(values: seq<string>, default: string): string {
    if values == [] then default else values[|values| - 1]
  }

  lemma {:induction false} NoColon(line: string, field: string, i: nat)
    requires i <= |field| && IndexOf(field, ':', i) == |field| && |field| < |line| && field <= line
    ensures IndexOf(line, ':', i) == |field| <==> line[|field|] == ':'
    ensures IndexOf(line, ':', i) >= |field|
    decreases |field| - i
  {
    if i < |field| {
      NoColon(line, field, i + 1);
    }
  }

  lemma NoColonAlone(line: string, field: string)
    requires IndexOf(field, ':', 0) == |field|
    ensures line[..IndexOf(line, ':', 0)] == field <==>
              line == field || (field <= line && |field| < |line| && line[|field|] == ':')
  {
    var colon := IndexOf(line, ':', 0);
    if field <= line && |field| < |line| {
      NoColon(line, field, 0);
    }
    if line[..colon] == field {
      assert field <= line;
    }
  }

  /** Reading a line for its field or for its value comes to the same. */
  lemma LineValue(line: string, field: string)
    requires IndexOf(field, ':', 0) == |field| && field != ""
    ensures var colon := IndexOf(line, ':', 0);
            ValueOf(line, field) ==
            if line != "" && line[0] != ':' && line[..colon] == field then
              Some(if colon == |line| then "" else Unspaced(line[colon + 1..]))
            else None
  {
    NoColonAlone(line, field);
    var colon := IndexOf(line, ':', 0);
    assert field + ":" <= line <==> field <= line && |field| < |line| && line[|field|] == ':';
    if line[..colon] == field && line != field {
      assert colon == |field|;
      SpacedValue(line, field);
    }
  }

  lemma SpacedValue(line: string, field: string)
    requires field + ":" <= line
    ensures field + ": " <= line <==> " " <= line[|field| + 1..]
    ensures field + ": " <= line ==> line[|field| + 2..] == line[|field| + 1..][1..]
  {
    assert line == field + ":" + line[|field| + 1..];
    assert field + ": " == field + ":" + " ";
  }

  lemma LineRead(fields: Fields, line: string)
    ensures ReadLine(fields, line) ==
            Fields(ValueOf(line, "event").GetOr(fields.name),
                   fields.data + match ValueOf(line, "data") case None => [] case Some(value) => [value])
  {
    KnownFields();
    LineValue(line, "event");
    LineValue(line, "data");
    Assoc(fields.data, [], []);
  }

  lemma {:induction false} LinesRead(fields: Fields, lines: seq<string>)
    ensures ReadLines(fields, lines) ==
            Fields(LastOr(ValuesOf(lines, "event"), fields.name), fields.data + ValuesOf(lines, "data"))
    decreases |lines|
  {
    if lines == [] {
      Assoc(fields.data, [], []);
    } else {
      var now := ReadLine(fields, lines[0]);
      LineRead(fields, lines[0]);
      LinesRead(now, lines[1..]);
      var more := match ValueOf(lines[0], "data") case None => [] case Some(value) => [value];
      Assoc(fields.data, more, ValuesOf(lines[1..], "data"));
      assert more + ValuesOf(lines[1..], "data") == ValuesOf(lines, "data");
    }
  }

  lemma {:induction false} JoinedLines(lines: seq<string>)
    requires lines != [] && forall i | 0 <= i < |lines| :: OneLine(lines[i])
    ensures Lines(JoinLines(lines)) == lines
  {
    if |lines| == 1 {
      NoLineEndAlone(lines[0], 0);
      assert lines == [lines[0]];
    } else {
      var rest := JoinLines(lines[1..]);
      NoLineEnd(lines[0], rest, 0);
      JoinedLines(lines[1..]);
      var s := lines[0] + "\n" + rest;
      assert s[..|lines[0]|] == lines[0] && s[|lines[0]| + 1..] == rest;
      assert lines == [lines[0]] + lines[1..];
    }
  }

  /** A block, line by line: its event is what the last `event` line says, or a message; its data is
      that of all `data` lines, each on a line; without any it is no event. Any other line is skipped. */
  lemma BlockMeaning(lines: seq<string>)
    requires lines != [] && forall i | 0 <= i < |lines| :: OneLine(lines[i])
    ensures ParseBlock(JoinLines(lines)) ==
            var data := ValuesOf(lines, "data");
            if data == [] then None else Some(Frame(LastOr(ValuesOf(lines, "event"), "message"), JoinLines(data)))
  {
    JoinedLines(lines);
    LinesRead(Fields("message", []), lines);
    assert [] + ValuesOf(lines, "data") == ValuesOf(lines, "data");
  }

  // --- One printed event ----------------------------------------------------------

  lemma EventLineRead(fields: Fields, f: Frame)
    ensures ReadLine(fields, EventLine(f)) == fields.(name := f.name)
  {
    KnownFields();
    assert EventLine(f) == "event" + ":" + (" " + f.name);
    FieldOf(EventLine(f), "event", f.name);
  }

  lemma DataLineRead(fields: Fields, f: Frame)
    ensures ReadLine(fields, DataLine(f)) == fields.(data := fields.data + [f.data])
  {
    KnownFields();
    assert DataLine(f) == "data" + ":" + (" " + f.data);
    FieldOf(DataLine(f), "data", f.data);
  }

  lemma ReadTwo(fields: Fields, a: string, b: string)
    ensures ReadLines(fields, [a, b]) == ReadLine(ReadLine(fields, a), b)
  {
    assert [a, b][1..] == [b];
    assert ReadLines(ReadLine(fields, a), [b]) == ReadLine(ReadLine(fields, a), b);
  }

  lemma LinesOfEvent(f: Frame)
    requires OneLine(f.name) && OneLine(f.data)
    ensures Lines(EventLine(f) + "\n" + DataLine(f)) == [EventLine(f), DataLine(f)]
  {
    BlockLines(EventLine(f), DataLine(f));
  }

  /** One event's block parses to that event. */
  lemma BlockParses(f: Frame)
    requires Lines(EventLine(f) + "\n" + DataLine(f)) == [EventLine(f), DataLine(f)]
    ensures ParseBlock(EventLine(f) + "\n" + DataLine(f)) == Some(f)
  {
    var start := Fields("message", []);
    ReadTwo(start, EventLine(f), DataLine(f));
    EventLineRead(start, f);
    DataLineRead(Fields(f.name, []), f);
  }

  lemma {:induction false} FirstBlank(a: string, b: string, more: string, i: nat)
    requires OneLine(a) && OneLine(b) && b != "" && i <= |a| + 1 + |b|
    ensures BlankAt(a + "\n" + b + "\n\n" + more, i) == Some(|a| + 1 + |b|)
    decreases |a| + 1 + |b| - i
  {
    var s := a + "\n" + b + "\n\n" + more;
    if i < |a| + 1 + |b| {
      assert i < |a| ==> s[i] == a[i];
      assert i == |a| ==> s[i + 1] == b[0];
      assert i > |a| ==> s[i] == b[i - |a| - 1];
      FirstBlank(a, b, more, i + 1);
    }
  }

  lemma {:induction false} NoBlank(s: string, i: nat)
    requires i <= |s| && forall k | i <= k < |s| - 1 :: s[k] != '\n' || s[k + 1] != '\n'
    ensures BlankAt(s, i) == None
    decreases |s| - i
  {
    if i + 2 <= |s| {
      NoBlank(s, i + 1);
    }
  }

  /** How many of the events are printed whole within the first k characters. */
  function Whole(frames: seq<Frame>, k: int): (n: nat)
    ensures n <= |frames|
  {
    if frames == [] || k < |FormatEvent(frames[0])| then 0
    else 1 + Whole(frames[1..], k - |FormatEvent(frames[0])|)
  }

  lemma EventCut(f: Frame, k: nat)
    requires OneLine(f.name) && OneLine(f.data) && k < |FormatEvent(f)|
    ensures BlankAt(FormatEvent(f)[..k], 0) == None
  {
    var a, b := EventLine(f), DataLine(f);
    assert FormatEvent(f) == a + "\n" + b + "\n\n";
    forall i | 0 <= i < k - 1
      ensures FormatEvent(f)[i] != '\n' || FormatEvent(f)[i + 1] != '\n'
    {
      assert i < |a| ==> FormatEvent(f)[i] == a[i];
      assert i == |a| ==> FormatEvent(f)[i + 1] == b[0];
      assert |a| < i ==> FormatEvent(f)[i] == b[i - |a| - 1];
    }
    NoBlank(FormatEvent(f)[..k], 0);
  }

  /** A printed event is its block and a blank line. */
  lemma EventIsBlock(f: Frame)
    requires OneLine(f.name) && OneLine(f.data)
    ensures
      var block := EventLine(f) + "\n" + DataLine(f);
      FormatEvent(f) == block + "\n\n" && BlankAt(FormatEvent(f), 0) == Some(|block|)
  {
    var a, b := EventLine(f), DataLine(f);
    FirstBlank(a, b, "", 0);
    assert FormatEvent(f) == a + "\n" + b + "\n\n" + "";
  }

  lemma BlockDrained(s: string, block: string, more: string)
    requires s == block + "\n\n" && BlankAt(s, 0) == Some(|block|)
    ensures Drain(s + more) == Drained(FrameSeq(ParseBlock(block)) + Drain(more).frames, Drain(more).rest)
  {
    assert s[..|block|] == block && s[..|block| + 2] == s;
    DrainFirst(s, |block|, more);
  }

  lemma EventDrained(f: Frame, more: string)
    requires OneLine(f.name) && OneLine(f.data)
    ensures Drain(FormatEvent(f) + more) == Drained([f] + Drain(more).frames, Drain(more).rest)
  {
    EventIsBlock(f);
    LinesOfEvent(f);
    BlockParses(f);
    BlockDrained(FormatEvent(f), EventLine(f) + "\n" + DataLine(f), more);
  }

  lemma OneMoreWhole(f: Frame, rest: seq<Frame>, more: string, n: nat)
    requires OneLine(f.name) && OneLine(f.data) && n <= |rest| && Drain(more).frames == rest[..n]
    ensures Drain(FormatEvent(f) + more).frames == ([f] + rest)[..n + 1]
  {
    EventDrained(f, more);
  }

  lemma HeadAndTail<T>(s: seq<T>)
    requires s != []
    ensures [s[0]] + s[1..] == s
  {
  }

  lemma {:induction false} PrintedDrained(frames: seq<Frame>, k: nat)
    requires Printable(frames) && k <= |Printed(frames)|
    ensures Drain(Printed(frames)[..k]).frames == frames[..Whole(frames, k)]
    decreases |frames|
  {
    if frames != [] {
      var first, rest := FormatEvent(frames[0]), Printed(frames[1..]);
      TakeSum(first, rest, k);
      if |first| <= k {
        PrintedDrained(frames[1..], k - |first|);
        OneMoreWhole(frames[0], frames[1..], rest[..k - |first|], Whole(frames[1..], k - |first|));
        HeadAndTail(frames);
      } else {
        EventCut(frames[0], k);
      }
    }
  }

  predicate NoCr(s: string) {
    forall i | 0 <= i < |s| :: s[i] != '\r'
  }

  lemma {:induction false} NoCrNothingReplaced(s: string)
    requires NoCr(s)
    ensures Normalized(s) == s && !HasCrCrLf(s)
    decreases |s|
  {
    if s != "" {
      NoCrNothingReplaced(s[1..]);
    }
  }

  lemma {:induction false} PrintedNoCr(frames: seq<Frame>)
    requires Printable(frames)
    ensures NoCr(Printed(frames))
    decreases |frames|
  {
    if frames != [] {
      PrintedNoCr(frames[1..]);
      assert NoCr(FormatEvent(frames[0]));
    }
  }

  /** However the printed stream is split, and wherever it is cut off, the parser
      yields exactly the events whose whole text arrived, in order. */
  lemma TruncatedRoundTrip(frames: seq<Frame>, k: nat, chunks: seq<string>)
    requires Printable(frames) && k <= |Printed(frames)| && Concat(chunks) == Printed(frames)[..k]
    ensures Parsed(chunks) == frames[..Whole(frames, k)]
  {
    PrintedNoCr(frames);
    NoCrNothingReplaced(Printed(frames)[..k]);
    ParsedWhole(chunks);
    PrintedDrained(frames, k);
  }

  lemma {:induction false} WholeOfAll(frames: seq<Frame>, k: int)
    requires k <= |Printed(frames)|
    ensures Whole(frames, k) == |frames| <==> k == |Printed(frames)| || frames == []
    decreases |frames|
  {
    if frames != [] && k >= |FormatEvent(frames[0])| {
      WholeOfAll(frames[1..], k - |FormatEvent(frames[0])|);
    }
  }

  /** Any split of the whole printed stream parses back to its events. */
  lemma RoundTrip(frames: seq<Frame>, chunks: seq<string>)
    requires Printable(frames) && Concat(chunks) == Printed(frames)
    ensures Parsed(chunks) == frames
  {
    WholeOfAll(frames, |Printed(frames)|);
    assert Printed(frames)[..|Printed(frames)|] == Printed(frames);
    TruncatedRoundTrip(frames, |Printed(frames)|, chunks);
  }

  predicate HasDone(frames: seq<Frame>) {
    exists i | 0 <= i < |frames| :: frames[i].name == "done"
  }

  /** The browser sees `done` exactly when the turn completed and its whole stream arrived. */
  lemma DoneMeansWhole(events: seq<Frame>, ending: Ending, k: nat, chunks: seq<string>)
    requires !HasDone(events) && Printable(Sent(events, ending))
    requires k <= |Printed(Sent(events, ending))| && Concat(chunks) == Printed(Sent(events, ending))[..k]
    ensures HasDone(Parsed(chunks)) <==> ending.Completed? && k == |Printed(Sent(events, ending))|
  {
    var sent := Sent(events, ending);
    TruncatedRoundTrip(sent, k, chunks);
    WholeOfAll(sent, k);
    if Whole(sent, k) == |sent| {
      assert sent[..|sent|][|events|] == sent[|events|];
    }
  }

  lemma CrInBlock()
    ensures Drain("data\r\n\n") == Drained([], "")
  {
    var s := "data\r\n\n";
    assert BlankAt(s, 4) == Some(5) && BlankAt(s, 2) == Some(5);
    assert s[..5] == "data\r" && s[7..] == "";
    CrLine();
  }

  /** The line is no field the parser knows. */
  lemma CrLine()
    ensures ParseBlock("data\r") == None
  {
    assert IndexOf("data\r", '\n', 3) == 5 && IndexOf("data\r", '\n', 0) == 5;
    assert Lines("data\r") == ["data\r"] && ["data\r"][1..] == [];
    assert IndexOf("data\r", ':', 3) == 5 && IndexOf("data\r", ':', 0) == 5;
    assert "data\r"[..5] == "data\r" && "data\r"[4] == '\r';
    assert ReadLine(Fields("message", []), "data\r") == Fields("message", []);
  }

  lemma DataBlock()
    ensures Drain("data\n\n") == Drained([Frame("message", "")], "")
  {
    var t := "data\n\n";
    assert BlankAt(t, 3) == Some(4) && BlankAt(t, 1) == Some(4);
    assert t[..4] == "data" && t[6..] == "";
    BareDataLine();
  }

  lemma BareDataLine()
    ensures ParseBlock("data") == Some(Frame("message", ""))
  {
    assert IndexOf("data", '\n', 2) == 4 && IndexOf("data", '\n', 0) == 4;
    assert Lines("data") == ["data"] && ["data"][1..] == [];
    assert IndexOf("data", ':', 2) == 4;
    assert ReadLine(Fields("message", []), "data") == Fields("message", [""]);
  }

  lemma OneCrStays(tail: string, less: string)
    requires Normalized(tail) == less
    requires tail != "" && tail[0] == '\r'
    ensures Normalized("data\r" + tail) == "data\r" + less
  {
    NothingToReplace("data\r", tail);
  }

  lemma CrLfBecomesLf(more: string)
    ensures Normalized("\r\n" + more) == "\n" + Normalized(more)
  {
    assert ("\r\n" + more)[2..] == more;
  }

  lemma OnePass()
    ensures Normalized("data\r\r\n\n") == "data\r\n\n"
  {
    CrLfBecomesLf("\n");
    OneCrStays("\r\n" + "\n", "\n" + "\n");
    assert "data\r" + ("\r\n" + "\n") == "data\r\r\n\n" && "data\r" + ("\n" + "\n") == "data\r\n\n";
  }

  lemma OnePassInTwoChunks()
    ensures Normalized("data\r\r\n") == "data\r\n"
  {
    CrLfBecomesLf("");
    OneCrStays("\r\n" + "", "\n" + "");
    assert "data\r" + ("\r\n" + "") == "data\r\r\n" && "data\r" + ("\n" + "") == "data\r\n";
  }

  lemma SecondPass()
    ensures Normalized("data\r\n\n") == "data\n\n"
  {
    CrLfBecomesLf("\n");
    NothingToReplace("data", "\r\n" + "\n");
    assert "data" + ("\r\n" + "\n") == "data\r\n\n" && "data" + ("\n" + "\n") == "data\n\n";
  }

  lemma ReceivedOneMore(chunks: seq<string>, chunk: string, text: string)
    requires text == Received(chunks).rest + chunk
    ensures Received(chunks + [chunk]).frames == Received(chunks).frames + Drain(Normalized(text)).frames
    ensures Received(chunks + [chunk]).rest == Drain(Normalized(text)).rest
  {
    assert (chunks + [chunk])[..|chunks|] == chunks;
  }

  lemma NoBlankYet()
    ensures Drain("data\r\n") == Drained([], "data\r\n") && Drain(Normalized("")) == Drained([], "")
  {
    assert BlankAt("data\r\n", 4) == None && BlankAt("data\r\n", 2) == None;
  }

  lemma InOneChunk()
    ensures Parsed(["data\r\r\n\n"]) == []
  {
    OnePass();
    CrInBlock();
    NoBlankYet();
    ReceivedOneMore([], "data\r\r\n\n", "data\r\r\n\n");
    ReceivedOneMore(["data\r\r\n\n"], "", "");
  }

  lemma InTwoChunks()
    ensures Parsed(["data\r\r\n"] + ["\n"]) == [Frame("message", "")]
  {
    OnePassInTwoChunks();
    SecondPass();
    DataBlock();
    NoBlankYet();
    FirstReceived("data\r\r\n");
    TwoMore(["data\r\r\n"], "\n", "data\r\n\n");
  }

  lemma FirstReceived(chunk: string)
    ensures Received([chunk]) == Drain(Normalized(chunk))
  {
    assert [chunk][..0] == [];
    assert "" + chunk == chunk;
  }

  lemma TwoMore(chunks: seq<string>, chunk: string, text: string)
    requires Received(chunks).rest + chunk == text && Drain(Normalized(text)).rest == ""
    ensures Parsed(chunks + [chunk]) == Received(chunks).frames + Drain(Normalized(text)).frames
  {
    NoBlankYet();
    ReceivedOneMore(chunks, chunk, text);
    ReceivedOneMore(chunks + [chunk], "", "");
  }

  /** With a CR CR LF in it, a stream may read differently when it is split there. */
  lemma SplitMattersAfterCrCrLf()
    ensures Concat(["data\r\r\n\n"]) == Concat(["data\r\r\n"] + ["\n"])
    ensures Parsed(["data\r\r\n\n"]) == []
    ensures Parsed(["data\r\r\n"] + ["\n"]) == [Frame("message", "")]
  {
    InOneChunk();
    InTwoChunks();
  }

  // --- CR CR LF that does not matter ---------------------------------------------

  function LineEnds(s: string): nat {
    if s == "" then 0 else (if s[0] == '\n' then 1 else 0) + LineEnds(s[1..])
  }

  lemma {:induction false} LineEndsJoin(s: string, t: string)
    ensures LineEnds(s + t) == LineEnds(s) + LineEnds(t)
    decreases |s|
  {
    if s == "" {
      assert s + t == t;
    } else {
      assert (s + t)[1..] == s[1..] + t;
      LineEndsJoin(s[1..], t);
    }
  }

  lemma {:induction false} NormalizedLineEnds(s: string)
    ensures LineEnds(Normalized(s)) == LineEnds(s)
    decreases |s|
  {
    if |s| >= 2 && s[0] == '\r' && s[1] == '\n' {
      NormalizedLineEnds(s[2..]);
      LineEndsJoin("\n", Normalized(s[2..]));
      assert s[1..][1..] == s[2..];
      assert LineEnds("\n") == 1;
    } else if s != "" {
      NormalizedLineEnds(s[1..]);
      LineEndsJoin([s[0]], Normalized(s[1..]));
    }
  }

  lemma {:induction false} BlankNeedsTwo(s: string, i: nat)
    requires i <= |s|
    ensures BlankAt(s, i).Some? ==> LineEnds(s[i..]) >= 2
    decreases |s| - i
  {
    if i + 2 <= |s| {
      assert s[i..][1..] == s[i + 1..] && s[i + 1..][1..] == s[i + 2..];
      BlankNeedsTwo(s, i + 1);
    }
  }

  lemma {:induction false} NothingReceived(chunks: seq<string>)
    requires LineEnds(Concat(chunks)) < 2
    ensures Received(chunks).frames == [] && LineEnds(Received(chunks).rest) == LineEnds(Concat(chunks))
    decreases |chunks|
  {
    if chunks != [] {
      var before, chunk := chunks[..|chunks| - 1], chunks[|chunks| - 1];
      LineEndsJoin(Concat(before), chunk);
      NothingReceived(before);
      var s := Normalized(Received(before).rest + chunk);
      LineEndsJoin(Received(before).rest, chunk);
      NormalizedLineEnds(Received(before).rest + chunk);
      BlankNeedsTwo(s, 0);
      assert s[0..] == s;
    }
  }

  /** A stream with fewer than two line ends gives no event however it is split, so
      having no CR CR LF is enough for the split not to matter, but is not needed. */
  lemma NoEventWithoutBlankLine(chunks: seq<string>)
    requires LineEnds(Concat(chunks)) < 2
    ensures Parsed(chunks) == []
  {
    var all := chunks + [""];
    assert all[..|all| - 1] == chunks;
    assert Concat(all) == Concat(chunks);
    NothingReceived(all);
  }

  lemma CrCrLfAlone(chunks: seq<string>)
    requires Concat(chunks) == "\r\r\n"
    ensures HasCrCrLf(Concat(chunks)) && Parsed(chunks) == []
  {
    var s := "\r\r\n";
    assert s[1..] == "\r\n" && s[1..][1..] == "\n" && s[1..][1..][1..] == "";
    assert LineEnds(s[1..][1..]) == 1;
    NoEventWithoutBlankLine(chunks);
  }
}
