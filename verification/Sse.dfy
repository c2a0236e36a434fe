/** Server-sent events: the frames the server writes (transport/sse-handler.ts) and the
    client's incremental parser (client/sse-parser.ts). The text is already decoded. */
module Sse {
  import opened Options
  import opened CanonicalJson

  datatype Event = Event(name: string, data: string)

  /** The first blank line, as `split` finds it. */
  function FindBreak(s: string): (r: Option<nat>)
    ensures r.Some? ==> r.value + 2 <= |s|
  {
    if |s| < 2 then None
    else if s[0] == '\n' && s[1] == '\n' then Some(0)
    else
      var rest := FindBreak(s[1..]);
      if rest.None? then None else Some(rest.value + 1)
  }

  /** Complete blocks, and the partial one behind the last blank line. */
  function Blocks(buffer: string): (seq<string>, string)
    decreases |buffer|
  {
    var at := FindBreak(buffer);
    if at.None? then ([], buffer)
    else
      var (blocks, remaining) := Blocks(buffer[at.value + 2..]);
      ([buffer[..at.value]] + blocks, remaining)
  }

  function Lines(block: string): (lines: seq<string>)
    ensures lines != []
  {
    if block == "" then [""]
    else
      var rest := Lines(block[1..]);
      if block[0] == '\n' then [""] + rest else [[block[0]] + rest[0]] + rest[1..]
  }

  /** The event name so far and the data lines so far. */
  datatype Partial = Partial(name: string, data: seq<string>)

  function TakeLine(p: Partial, line: string): Partial {
    if "event: " <= line then p.(name := line[7..])
    else if "event:" <= line then p.(name := line[6..])
    else if "data: " <= line then p.(data := p.data + [line[6..]])
    else if "data:" <= line then p.(data := p.data + [line[5..]])
    else p
  }

  function TakeLines(lines: seq<string>): Partial {
    if lines == [] then Partial("", []) else TakeLine(TakeLines(lines[..|lines| - 1]), lines[|lines| - 1])
  }

  function JoinLines(lines: seq<string>): string {
    if lines == [] then ""
    else if |lines| == 1 then lines[0]
    else JoinLines(lines[..|lines| - 1]) + "\n" + lines[|lines| - 1]
  }

  /** The white space `trim` removes. */
  predicate IsSpace(c: char) {
    c in "\t\n\r \U{0B}\U{0C}\U{A0}\U{1680}\U{2028}\U{2029}\U{202F}\U{205F}\U{3000}\U{FEFF}"
    || '\U{2000}' <= c <= '\U{200A}'
  }

  predicate IsBlank(block: string) {
    forall c | c in block :: IsSpace(c)
  }

  function EventOf(block: string): seq<Event> {
    if IsBlank(block) then []
    else
      var p := TakeLines(Lines(block));
      if p.data == [] then [] else [Event(p.name, JoinLines(p.data))]
  }

  function EventsOf(blocks: seq<string>): seq<Event> {
    if blocks == [] then [] else EventsOf(blocks[..|blocks| - 1]) + EventOf(blocks[|blocks| - 1])
  }

  /** `extractSSEEvents`. */
  function Extract(buffer: string): (seq<Event>, string) {
    var (blocks, remaining) := Blocks(buffer);
    (EventsOf(blocks), remaining)
  }

  // ---- The loops ------------------------------------------------------------------------------

  method ParseBlock(block: string) returns (events: seq<Event>)
    ensures events == EventOf(block)
  {
    if IsBlank(block) {
      return [];
    }
    var event, dataLines := "", [];
    var lines := Lines(block);
    for i := 0 to |lines|
      invariant TakeLines(lines[..i]) == Partial(event, dataLines)
    {
      assert lines[..i + 1][..i] == lines[..i];
      var line := lines[i];
      if "event: " <= line {
        event := line[7..];
      } else if "event:" <= line {
        event := line[6..];
      } else if "data: " <= line {
        dataLines := dataLines + [line[6..]];
      } else if "data:" <= line {
        dataLines := dataLines + [line[5..]];
      }
    }
    assert lines[..|lines|] == lines;
    events := if dataLines == [] then [] else [Event(event, JoinLines(dataLines))];
  }

  method ExtractEvents(buffer: string) returns (events: seq<Event>, remaining: string)
    ensures (events, remaining) == Extract(buffer)
  {
    var blocks := Blocks(buffer).0;
    remaining := Blocks(buffer).1;
    events := [];
    for i := 0 to |blocks|
      invariant events == EventsOf(blocks[..i])
    {
      assert blocks[..i + 1][..i] == blocks[..i];
      var parsed := ParseBlock(blocks[i]);
      events := events + parsed;
    }
    assert blocks[..|blocks|] == blocks;
  }

  /** The read loop: what is left of the buffer is carried into the next chunk. */
  method ParseStream(chunks: seq<string>) returns (events: seq<Event>, buffer: string)
    ensures (events, buffer) == Extract(Concat(chunks))
  {
    events, buffer := [], "";
    for i := 0 to |chunks|
      invariant (events, buffer) == Extract(Concat(chunks[..i]))
    {
      assert chunks[..i + 1][..i] == chunks[..i];
      ExtractContinues(Concat(chunks[..i]), chunks[i]);
      var more;
      more, buffer := ExtractEvents(buffer + chunks[i]);
      events := events + more;
    }
    assert chunks[..|chunks|] == chunks;
  }

  function Concat(chunks: seq<string>): string {
    if chunks == [] then "" else Concat(chunks[..|chunks| - 1]) + chunks[|chunks| - 1]
  }

  // ---- Chunk boundaries do not matter ---------------------------------------------------------------

  lemma {:induction false} BreakStays(a: string, b: string)
    requires FindBreak(a).Some?
    ensures FindBreak(a + b) == FindBreak(a)
  {
    if !(a[0] == '\n' && a[1] == '\n') {
      assert (a + b)[1..] == a[1..] + b;
      BreakStays(a[1..], b);
    }
  }

  /** Blocks found in a prefix are found again, and the rest is parsed from what remained. */
  lemma {:induction false} BlocksContinue(a: string, b: string)
    ensures Blocks(a + b).0 == Blocks(a).0 + Blocks(Blocks(a).1 + b).0
    ensures Blocks(a + b).1 == Blocks(Blocks(a).1 + b).1
    decreases |a|
  {
    var at := FindBreak(a);
    if at.Some? {
      BreakStays(a, b);
      var rest := a[at.value + 2..];
      assert (a + b)[at.value + 2..] == rest + b;
      assert (a + b)[..at.value] == a[..at.value];
      BlocksContinue(rest, b);
      assert [a[..at.value]] + (Blocks(rest).0 + Blocks(Blocks(rest).1 + b).0)
          == [a[..at.value]] + Blocks(rest).0 + Blocks(Blocks(rest).1 + b).0;
    }
  }

  lemma {:induction false} EventsConcat(x: seq<string>, y: seq<string>)
    ensures EventsOf(x + y) == EventsOf(x) + EventsOf(y)
  {
    if y == [] {
      assert x + y == x;
    } else {
      assert (x + y)[..|x + y| - 1] == x + y[..|y| - 1];
      EventsConcat(x, y[..|y| - 1]);
    }
  }

  lemma ExtractContinues(a: string, b: string)
    ensures Extract(a + b).0 == Extract(a).0 + Extract(Extract(a).1 + b).0
    ensures Extract(a + b).1 == Extract(Extract(a).1 + b).1
  {
    BlocksContinue(a, b);
    EventsConcat(Blocks(a).0, Blocks(Blocks(a).1 + b).0);
  }

  // ---- Lines ---------------------------------------------------------------------------------------------

  lemma {:induction false} TakeLinesConcat(a: seq<string>, line: string, b: seq<string>)
    requires TakeLines(a + [line]) == TakeLines(a)
    ensures TakeLines(a + [line] + b) == TakeLines(a + b)
  {
    if b == [] {
      assert a + [line] + b == a + [line] && a + b == a;
    } else {
      var n := |b| - 1;
      TakeLinesConcat(a, line, b[..n]);
      assert (a + [line] + b)[..|a| + 1 + n] == a + [line] + b[..n];
      assert (a + b)[..|a| + n] == a + b[..n];
    }
  }

  /** Comments, ids, retry hints and unknown fields change nothing, wherever they stand. */
  lemma OtherLinesAreIgnored(a: seq<string>, line: string, b: seq<string>)
    requires !("event:" <= line) && !("data:" <= line)
    ensures TakeLines(a + [line] + b) == TakeLines(a + b)
  {
    assert (a + [line])[..|a|] == a;
    assert "event: " <= line ==> "event:" <= line by {
      assert "event: "[..6] == "event:";
    }
    assert "data: " <= line ==> "data:" <= line by {
      assert "data: "[..5] == "data:";
    }
    TakeLinesConcat(a, line, b);
  }

  // ---- Frames -------------------------------------------------------------------------------------------

  function Frame(payload: string): string {
    "data: " + payload + "\n\n"
  }

  function Frames(payloads: seq<string>): seq<string> {
    if payloads == [] then [] else Frames(payloads[..|payloads| - 1]) + [Frame(payloads[|payloads| - 1])]
  }

  lemma FramesMore(payloads: seq<string>, last: string)
    ensures Frames(payloads + [last]) == Frames(payloads) + [Frame(last)]
  {
    assert (payloads + [last])[..|payloads|] == payloads;
  }

  /** What reaches the reader: the values yielded before it cancels, and, if it does not
      cancel, the error of a generator that throws. */
  function Sent(payloads: seq<string>, error: Option<string>, canceledAfter: Option<nat>): seq<string> {
    if canceledAfter.Some? then (if canceledAfter.value < |payloads| then payloads[..canceledAfter.value] else payloads)
    else if error.Some? then payloads + [error.value]
    else payloads
  }

  /** `createSSEStream`. `canceledAfter` counts the values framed when the reader cancels,
      if it does: a later enqueue throws on the cancelled stream, and that is swallowed. */
  method WriteFrames(payloads: seq<string>, error: Option<string>, canceledAfter: Option<nat>)
    returns (enqueued: seq<string>)
    ensures enqueued == Frames(Sent(payloads, error, canceledAfter))
  {
    enqueued := [];
    for i := 0 to |payloads|
      invariant enqueued == Frames(payloads[..i])
      invariant canceledAfter.Some? ==> i <= canceledAfter.value
    {
      if canceledAfter == Some(i) {
        return;
      }
      FramesMore(payloads[..i], payloads[i]);
      assert payloads[..i] + [payloads[i]] == payloads[..i + 1];
      enqueued := enqueued + [Frame(payloads[i])];
    }
    assert payloads[..|payloads|] == payloads;
    if error.Some? && canceledAfter.None? {
      FramesMore(payloads, error.value);
      enqueued := enqueued + [Frame(error.value)];
    }
  }

  predicate OneLine(s: string) {
    forall i | 0 <= i < |s| :: s[i] != '\n'
  }

  lemma {:induction false} BreakAfterLine(s: string, rest: string)
    requires OneLine(s)
    ensures FindBreak(s + "\n\n" + rest) == Some(|s|)
  {
    var t := s + "\n\n" + rest;
    if s != "" {
      assert t[1..] == s[1..] + "\n\n" + rest;
      BreakAfterLine(s[1..], rest);
      assert t[0] == s[0];
    } else {
      assert t[0] == '\n' && t[1] == '\n';
    }
  }

  lemma {:induction false} OneLineLines(s: string)
    requires OneLine(s)
    ensures Lines(s) == [s]
  {
    if s != "" {
      OneLineLines(s[1..]);
      assert [s[0]] + s[1..] == s;
    }
  }

  lemma DataLine(payload: string)
    ensures TakeLines(["data: " + payload]) == Partial("", [payload])
  {
    var block := "data: " + payload;
    var lines: seq<string> := [block];
    assert block[0] == 'd' && lines[..0] == [];
    assert TakeLines(lines) == Partial("", [] + [payload]);
  }

  lemma NotBlank(payload: string)
    ensures !IsBlank("data: " + payload)
  {
    var block := "data: " + payload;
    assert block[0] == 'd' && block[0] in block && !IsSpace('d');
  }

  lemma FrameEvent(payload: string)
    requires OneLine(payload)
    ensures EventOf("data: " + payload) == [Event("", payload)]
  {
    var block := "data: " + payload;
    NotBlank(payload);
    OneLineLines(block);
    DataLine(payload);
    assert JoinLines([payload]) == payload;
  }

  lemma FrameParses(payload: string, rest: string)
    requires OneLine(payload)
    ensures Extract(Frame(payload) + rest).0 == [Event("", payload)] + Extract(rest).0
    ensures Extract(Frame(payload) + rest).1 == Extract(rest).1
  {
    var block := "data: " + payload;
    var t := Frame(payload) + rest;
    assert t == block + "\n\n" + rest;
    BreakAfterLine(block, rest);
    assert t[..|block|] == block && t[|block| + 2..] == rest;
    assert Blocks(t).0 == [block] + Blocks(rest).0;
    EventsConcat([block], Blocks(rest).0);
    FrameEvent(payload);
    assert [block][..0] == [];
    assert EventsOf([block]) == EventOf(block);
  }

  function Told(payloads: seq<string>): seq<Event> {
    if payloads == [] then [] else Told(payloads[..|payloads| - 1]) + [Event("", payloads[|payloads| - 1])]
  }

  lemma {:induction false} FramesParse(payloads: seq<string>)
    requires forall p | p in payloads :: OneLine(p)
    ensures Extract(Concat(Frames(payloads))) == (Told(payloads), "")
  {
    if payloads != [] {
      var last := |payloads| - 1;
      FramesParse(payloads[..last]);
      var frames := Frames(payloads[..last]);
      assert (frames + [Frame(payloads[last])])[..|frames|] == frames;
      ExtractContinues(Concat(frames), Frame(payloads[last]));
      FrameParses(payloads[last], "");
      assert "" + Frame(payloads[last]) == Frame(payloads[last]) + "";
      assert Extract("") == ([], "");
      assert [Event("", payloads[last])] + [] == [Event("", payloads[last])];
    }
  }

  /** What the loop computes chunk by chunk does not depend on the chunks. */
  lemma ChunksDoNotMatter(x: seq<string>, y: seq<string>)
    requires Concat(x) == Concat(y)
    ensures Parsed(x) == Parsed(y)
  {
    ParsedIsExtract(x);
    ParsedIsExtract(y);
  }

  /** The read loop as a function. */
  function Parsed(chunks: seq<string>): (seq<Event>, string) {
    if chunks == [] then ([], "")
    else
      var (events, buffer) := Parsed(chunks[..|chunks| - 1]);
      var (more, remaining) := Extract(buffer + chunks[|chunks| - 1]);
      (events + more, remaining)
  }

  lemma {:induction false} ParsedIsExtract(chunks: seq<string>)
    ensures Parsed(chunks) == Extract(Concat(chunks))
  {
    if chunks != [] {
      ParsedIsExtract(chunks[..|chunks| - 1]);
      ExtractContinues(Concat(chunks[..|chunks| - 1]), chunks[|chunks| - 1]);
    }
  }

  /** One-line payloads, framed, concatenated and cut into chunks at any positions, come
      out of the parser as the same payloads, with nothing left over. */
  lemma RoundTrip(payloads: seq<string>, chunks: seq<string>)
    requires forall p | p in payloads :: OneLine(p)
    requires Concat(chunks) == Concat(Frames(payloads))
    ensures Parsed(chunks) == (Told(payloads), "")
  {
    FramesParse(payloads);
    ParsedIsExtract(chunks);
  }

  /** `JSON.stringify` writes strings on one line, so its payloads meet the premise. */
  lemma {:induction false} QuotedIsOneLine(s: string)
    ensures OneLine(Escaped(s)) && OneLine(Quote(s))
  {
    if s != "" {
      QuotedIsOneLine(s[1..]);
    }
  }

  // ---- Named events ------------------------------------------------------------------------------

  /** A field line, with or without the blank after the colon. */
  function FieldLine(field: string, value: string, spaced: bool): string {
    field + (if spaced then ": " else ":") + value
  }

  /** A block naming an event and carrying its data line by line. */
  function NamedBlock(name: string, data: seq<string>, spaced: bool): string {
    if data == [] then FieldLine("event", name, spaced)
    else NamedBlock(name, data[..|data| - 1], spaced) + "\n" + FieldLine("data", data[|data| - 1], spaced)
  }

  lemma {:induction false} LinesAppend(s: string, line: string)
    requires OneLine(line)
    ensures Lines(s + "\n" + line) == Lines(s) + [line]
  {
    var t := s + "\n" + line;
    if s == "" {
      assert t[0] == '\n' && t[1..] == line;
      OneLineLines(line);
    } else {
      assert t[0] == s[0] && t[1..] == s[1..] + "\n" + line;
      LinesAppend(s[1..], line);
    }
  }

  /** Without the blank a value must not begin with one. */
  predicate Writable(value: string, spaced: bool) {
    OneLine(value) && (spaced || value == "" || value[0] != ' ')
  }

  lemma FieldLineTaken(p: Partial, value: string, spaced: bool)
    requires Writable(value, spaced)
    ensures TakeLine(p, FieldLine("event", value, spaced)) == p.(name := value)
    ensures TakeLine(p, FieldLine("data", value, spaced)) == p.(data := p.data + [value])
  {
    var event, data := FieldLine("event", value, spaced), FieldLine("data", value, spaced);
    if spaced {
      assert "event: " <= event && event[7..] == value;
      assert data[..6] == "data: " && data[6..] == value && data[0] == 'd';
    } else {
      assert "event:" <= event && event[6..] == value;
      assert data[..5] == "data:" && data[5..] == value && data[0] == 'd';
      if value != "" {
        assert event[6] == value[0] && data[5] == value[0];
      }
    }
  }

  lemma {:induction false} NamedBlockHead(name: string, data: seq<string>, spaced: bool)
    ensures NamedBlock(name, data, spaced) != "" && NamedBlock(name, data, spaced)[0] == 'e'
  {
    if data != [] {
      NamedBlockHead(name, data[..|data| - 1], spaced);
    }
  }

  lemma NameTaken(name: string, spaced: bool)
    requires Writable(name, spaced)
    ensures TakeLines(Lines(FieldLine("event", name, spaced))) == Partial(name, [])
  {
    var line := FieldLine("event", name, spaced);
    assert OneLine(line);
    OneLineLines(line);
    FieldLineTaken(Partial("", []), name, spaced);
    assert [line][..0] == [];
  }

  lemma DataTaken(block: string, name: string, data: seq<string>, last: string, spaced: bool)
    requires Writable(last, spaced) && TakeLines(Lines(block)) == Partial(name, data)
    ensures TakeLines(Lines(block + "\n" + FieldLine("data", last, spaced))) == Partial(name, data + [last])
  {
    var line := FieldLine("data", last, spaced);
    assert OneLine(line);
    LinesAppend(block, line);
    assert (Lines(block) + [line])[..|Lines(block)|] == Lines(block);
    FieldLineTaken(Partial(name, data), last, spaced);
  }

  lemma {:induction false} NamedBlockTaken(name: string, data: seq<string>, spaced: bool)
    requires Writable(name, spaced) && forall i | 0 <= i < |data| :: Writable(data[i], spaced)
    ensures TakeLines(Lines(NamedBlock(name, data, spaced))) == Partial(name, data)
  {
    if data == [] {
      NameTaken(name, spaced);
    } else {
      var n := |data| - 1;
      NamedBlockTaken(name, data[..n], spaced);
      DataTaken(NamedBlock(name, data[..n], spaced), name, data[..n], data[n], spaced);
      assert data[..n] + [data[n]] == data;
    }
  }

  /** The joined text of an event splits back into its data lines. */
  lemma {:induction false} JoinedLinesSplit(data: seq<string>)
    requires data != [] && forall i | 0 <= i < |data| :: OneLine(data[i])
    ensures Lines(JoinLines(data)) == data
  {
    if |data| == 1 {
      OneLineLines(data[0]);
    } else {
      var n := |data| - 1;
      JoinedLinesSplit(data[..n]);
      LinesAppend(JoinLines(data[..n]), data[n]);
      assert data[..n] + [data[n]] == data;
    }
  }

  /** A named event with any number of data lines is read back with its name and its lines
      joined, whichever of the two spellings the peer uses; without data it is dropped. */
  lemma NamedEventParses(name: string, data: seq<string>, spaced: bool)
    requires Writable(name, spaced) && forall d | d in data :: Writable(d, spaced)
    ensures EventOf(NamedBlock(name, data, spaced)) == if data == [] then [] else [Event(name, JoinLines(data))]
  {
    NamedBlockTaken(name, data, spaced);
    NamedBlockHead(name, data, spaced);
    var block := NamedBlock(name, data, spaced);
    assert block[0] in block;
  }

  /** Skipping blank blocks only saves work: they have no data line. */
  lemma BlankHasNoData(block: string)
    requires IsBlank(block)
    ensures TakeLines(Lines(block)).data == []
  {
    BlankLines(block);
    BlankTaken(Lines(block));
  }

  lemma {:induction false} BlankLines(block: string)
    requires IsBlank(block)
    ensures forall line | line in Lines(block) :: IsBlank(line)
  {
    if block != "" {
      BlankLines(block[1..]);
      var rest := Lines(block[1..]);
      assert rest[0] in rest;
      forall line | line in Lines(block) ensures IsBlank(line) {
        if block[0] == '\n' {
          assert line == "" || line in rest;
        } else {
          assert line == [block[0]] + rest[0] || line in rest;
        }
      }
    }
  }

  lemma {:induction false} BlankTaken(lines: seq<string>)
    requires forall line | line in lines :: IsBlank(line)
    ensures TakeLines(lines) == Partial("", [])
  {
    if lines != [] {
      var line := lines[|lines| - 1];
      BlankTaken(lines[..|lines| - 1]);
      assert line in lines;
      if line != "" {
        assert line[0] in line;
      }
    }
  }
}
