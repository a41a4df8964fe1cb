/**
 * Reading an OpenAI-compatible event stream (apps/server/src/assistant/llm-http.ts): decoded text
 * arrives in arbitrary chunks, complete lines are parsed as they appear. What JSON.parse makes of a
 * payload is a parameter.
 */
module LlmStream {
  import opened Wrappers
  import opened JsText

  /** A piece of a streamed tool call; an absent field is the empty string. */
  datatype Fragment = Fragment(index: int, id: string, name: string, args: string)

  datatype Delta = Content(text: string) | ToolCall(fragment: Fragment) | Finish(reason: string)

  /** The first choice of an event; an absent field is the empty string or list. */
  datatype Choice = Choice(content: string, calls: seq<Fragment>, finish: string)

  /** A payload: not JSON, the JSON null (which the reader trips over), or a document. */
  datatype Parsed = Malformed | NullDocument | Document(choice: Option<Choice>)

  type Json = string -> Parsed

  datatype Status = Open | Done | Crashed

  function Deltas(c: Choice): seq<Delta> {
    (if c.content != "" then [Content(c.content)] else [])
    + seq(|c.calls|, i requires 0 <= i < |c.calls| => ToolCall(c.calls[i]))
    + (if c.finish != "" then [Finish(c.finish)] else [])
  }

  /** What a complete line contributes, and whether reading goes on. */
  type Reader = string -> (seq<Delta>, Status)

  function LineReader(json: Json): Reader {
    raw => OfLine(json, raw)
  }

  function OfLine(json: Json, raw: string): (seq<Delta>, Status) {
    var line := Trim(raw);
    if !StartsWith(line, "data:") then ([], Open)
    else
      var payload := Trim(line[5..]);
      if payload == "[DONE]" then ([], Done)
      else match json(payload)
        case Malformed => ([], Open)
        case NullDocument => ([], Crashed)
        case Document(choice) => (if choice.Some? then Deltas(choice.value) else [], Open)
  }

  // ---------------------------------------------------------------- the reference: lines of a text

  /** The complete lines of a text, without their line feeds. */
  function Lines(text: string): seq<string>
    decreases |text|
  {
    var i := IndexFrom(text, '\n', 0);
    if i == |text| then [] else [text[..i]] + Lines(text[i + 1..])
  }

  /** What follows the last line feed. */
  function Remainder(text: string): string
    decreases |text|
  {
    var i := IndexFrom(text, '\n', 0);
    if i == |text| then text else Remainder(text[i + 1..])
  }

  /** The deltas of the lines in order, up to the one that ends the stream. */
  function OfLines(reader: Reader, lines: seq<string>): (seq<Delta>, Status) {
    if lines == [] then ([], Open)
    else
      var (deltas, status) := reader(lines[0]);
      if !status.Open? then (deltas, status)
      else
        var (more, end) := OfLines(reader, lines[1..]);
        (deltas + more, end)
  }

  function Joined(chunks: seq<string>): string {
    if chunks == [] then "" else Joined(chunks[..|chunks| - 1]) + chunks[|chunks| - 1]
  }

  // ---------------------------------------------------------------- the chunk loop

  /** Append each chunk to the buffer and yield what its complete lines hold, until the end marker. */
  method StreamChatCompletions(json: Json, chunks: seq<string>) returns (yielded: seq<Delta>, status: Status)
    ensures (yielded, status) == OfLines(LineReader(json), Lines(Joined(chunks)))
  {
    var reader := LineReader(json);
    yielded, status := [], Open;
    var buffer := "";
    ghost var read: seq<string> := [];
    for n := 0 to |chunks|
      invariant status == Open && Lines(buffer) == []
      invariant Read(reader, Joined(chunks[..n]), read, buffer, yielded)
    {
      assert chunks[..n + 1][..n] == chunks[..n];
      ReadMore(reader, Joined(chunks[..n]), read, buffer, yielded, chunks[n]);
      buffer := buffer + chunks[n];
      var nl := IndexFrom(buffer, '\n', 0);
      while nl < |buffer|
        invariant status == Open && nl == IndexFrom(buffer, '\n', 0)
        invariant Read(reader, Joined(chunks[..n + 1]), read, buffer, yielded)
        decreases |buffer|
      {
        var line := buffer[..nl];
        LineRead(reader, Joined(chunks[..n + 1]), read, buffer, yielded);
        read := read + [line];
        buffer := buffer[nl + 1..];
        var (deltas, end) := reader(line);
        yielded := yielded + deltas;
        if !end.Open? {
          EndIsFinal(reader, chunks, n, read, buffer, yielded, end);
          return yielded, end;
        }
        nl := IndexFrom(buffer, '\n', 0);
      }
    }
    assert chunks[..|chunks|] == chunks;
    assert read + [] == read;
  }

  /** Of `text`, the lines `read` have been yielded and `buffer` is still to be looked at. */
  ghost predicate Read(reader: Reader, text: string, read: seq<string>, buffer: string, yielded: seq<Delta>) {
    && Lines(text) == read + Lines(buffer)
    && Remainder(text) == Remainder(buffer)
    && OfLines(reader, read) == (yielded, Open)
  }

  lemma {:induction false} ReadMore(
    reader: Reader, text: string, read: seq<string>, buffer: string, yielded: seq<Delta>, chunk: string)
    requires Read(reader, text, read, buffer, yielded) && Lines(buffer) == []
    ensures Read(reader, text + chunk, read, buffer + chunk, yielded)
  {
    LinesOfConcat(text, chunk);
    LinesOfConcat(buffer, chunk);
    assert read + [] == read;
    assert Remainder(buffer) == buffer;
    assert [] + Lines(buffer + chunk) == Lines(buffer + chunk);
  }

  /** Appending text to a text leaves its complete lines and continues its last one. */
  lemma {:induction false} LinesOfConcat(text: string, more: string)
    ensures Lines(text + more) == Lines(text) + Lines(Remainder(text) + more)
    ensures Remainder(text + more) == Remainder(Remainder(text) + more)
    decreases |text|
  {
    var i := IndexFrom(text, '\n', 0);
    if i == |text| {
      NothingBefore(Lines(text + more));
    } else {
      FirstIndex(text, more, i);
      LinesOfConcat(text[i + 1..], more);
      FirstLine(text, i);
      FirstLine(text + more, i);
      SameFirstLine(text[..i], Lines(text), Lines(text[i + 1..]), Lines(Remainder(text) + more), Lines(text + more));
    }
  }

  lemma {:induction false} NothingBefore(lines: seq<string>)
    ensures [] + lines == lines
  {
  }

  lemma {:induction false} FirstLine(text: string, i: nat)
    requires i < |text| && i == IndexFrom(text, '\n', 0)
    ensures Lines(text) == [text[..i]] + Lines(text[i + 1..]) && Remainder(text) == Remainder(text[i + 1..])
  {
  }

  lemma {:induction false} SameFirstLine(
    first: string, lines: seq<string>, tail: seq<string>, rest: seq<string>, all: seq<string>)
    requires lines == [first] + tail && all == [first] + (tail + rest)
    ensures all == lines + rest
  {
  }

  lemma {:induction false} FirstIndex(text: string, more: string, i: nat)
    requires i < |text| && i == IndexFrom(text, '\n', 0)
    ensures IndexFrom(text + more, '\n', 0) == i
    ensures (text + more)[..i] == text[..i] && (text + more)[i + 1..] == text[i + 1..] + more
  {
    assert (text + more)[i] == text[i];
    assert forall k :: 0 <= k < i ==> (text + more)[k] == text[k];
  }

  lemma {:induction false} OfLinesSnoc(reader: Reader, lines: seq<string>, line: string, yielded: seq<Delta>)
    requires OfLines(reader, lines) == (yielded, Open)
    ensures OfLines(reader, lines + [line]) == (yielded + reader(line).0, reader(line).1)
    decreases |lines|
  {
    if lines == [] {
      assert lines + [line] == [line];
      assert [line][1..] == [];
      var deltas := reader(line).0;
      assert deltas + [] == deltas && [] + deltas == deltas;
      assert OfLines(reader, []) == ([], Open);
    } else {
      assert (lines + [line])[1..] == lines[1..] + [line];
      var rest := OfLines(reader, lines[1..]).0;
      OfLinesSnoc(reader, lines[1..], line, rest);
      var first := reader(lines[0]).0;
      assert first + (rest + reader(line).0) == first + rest + reader(line).0;
    }
  }

  lemma {:induction false} LineRead(
    reader: Reader, text: string, read: seq<string>, buffer: string, yielded: seq<Delta>)
    requires Read(reader, text, read, buffer, yielded) && IndexFrom(buffer, '\n', 0) < |buffer|
    ensures var nl := IndexFrom(buffer, '\n', 0);
            var (deltas, end) := reader(buffer[..nl]);
            var read' := read + [buffer[..nl]];
            && Lines(text) == read' + Lines(buffer[nl + 1..])
            && Remainder(text) == Remainder(buffer[nl + 1..])
            && OfLines(reader, read') == (yielded + deltas, end)
  {
    var nl := IndexFrom(buffer, '\n', 0);
    OfLinesSnoc(reader, read, buffer[..nl], yielded);
    assert read + ([buffer[..nl]] + Lines(buffer[nl + 1..])) == read + [buffer[..nl]] + Lines(buffer[nl + 1..]);
  }

  /** Once a line has ended the stream, later lines change nothing. */
  lemma {:induction false} StopsThere(reader: Reader, lines: seq<string>, later: seq<string>)
    requires !OfLines(reader, lines).1.Open?
    ensures OfLines(reader, lines + later) == OfLines(reader, lines)
    decreases |lines|
  {
    assert (lines + later)[1..] == lines[1..] + later;
    if reader(lines[0]).1.Open? {
      StopsThere(reader, lines[1..], later);
    }
  }

  lemma {:induction false} EndIsFinal(reader: Reader, chunks: seq<string>, n: nat, read: seq<string>, buffer: string,
                                      yielded: seq<Delta>, end: Status)
    requires n < |chunks| && !end.Open?
    requires Lines(Joined(chunks[..n + 1])) == read + Lines(buffer) && OfLines(reader, read) == (yielded, end)
    ensures OfLines(reader, Lines(Joined(chunks))) == (yielded, end)
  {
    LinesGrow(chunks, n + 1);
    var k := Lines(Joined(chunks))[|Lines(Joined(chunks[..n + 1]))|..];
    assert Lines(Joined(chunks)) == read + (Lines(buffer) + k);
    StopsThere(reader, read, Lines(buffer) + k);
  }

  /** The complete lines of a prefix of the chunks begin those of all of them. */
  lemma {:induction false} LinesGrow(chunks: seq<string>, n: nat)
    requires n <= |chunks|
    ensures Lines(Joined(chunks[..n])) <= Lines(Joined(chunks))
    decreases |chunks|
  {
    if n == |chunks| {
      assert chunks[..n] == chunks;
    } else {
      var m := |chunks| - 1;
      assert chunks[..m][..n] == chunks[..n];
      LinesGrow(chunks[..m], n);
      LinesOfConcat(Joined(chunks[..m]), chunks[m]);
    }
  }

  /** A text is its complete lines, each followed by a line feed, and the remainder. */
  lemma {:induction false} LinesPartitionText(text: string)
    ensures text == Terminated(Lines(text)) + Remainder(text)
    ensures forall i :: 0 <= i < |Lines(text)| ==> '\n' !in Lines(text)[i]
    ensures '\n' !in Remainder(text)
    decreases |text|
  {
    var i := IndexFrom(text, '\n', 0);
    if i < |text| {
      LinesPartitionText(text[i + 1..]);
      Reassembled(text, i, Terminated(Lines(text[i + 1..])), Remainder(text[i + 1..]));
      assert Lines(text)[1..] == Lines(text[i + 1..]);
    }
  }

  lemma {:induction false} Reassembled(text: string, i: nat, terminated: string, remainder: string)
    requires i < |text| && text[i] == '\n' && text[i + 1..] == terminated + remainder
    ensures text == text[..i] + "\n" + terminated + remainder
  {
    assert text == text[..i] + "\n" + text[i + 1..];
    assert text[..i] + "\n" + (terminated + remainder) == text[..i] + "\n" + terminated + remainder;
  }

  function Terminated(lines: seq<string>): string {
    if lines == [] then "" else lines[0] + "\n" + Terminated(lines[1..])
  }
}
