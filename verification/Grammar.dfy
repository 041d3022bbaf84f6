/** What the reader accepts, as a grammar: the exact set of texts that are read as a given frame, with either
    line end at every line (frame/reader.go; STOMP 1.2, "Augmented BNF"). */
module Grammar {
  import opened Text
  import opened Escape
  import opened Frames
  import opened Codec

  // ---------- lines ----------

  predicate EndsInCr(text: string) { text != "" && text[|text| - 1] == '\r' }

  /** The bytes of a line with this text: it ends in LF or in CR LF, and one CR before the LF belongs to the
      line end. */
  predicate LineWith(raw: string, text: string) {
    '\n' !in text && (raw == text + "\r\n" || (raw == text + "\n" && !EndsInCr(text)))
  }

  lemma LineIsRead(raw: string, text: string, rest: string)
    requires LineWith(raw, text)
    ensures ReadLine(raw + rest) == Line(text, rest)
  {
    var line := if raw == text + "\r\n" then text + "\r" else text;
    assert raw + rest == line + ['\n'] + rest;
    IndexOfFirst(line, '\n', rest);
    assert (raw + rest)[..|line|] == line && (raw + rest)[|line| + 1..] == rest;
    assert (text + "\r")[..|text|] == text;
  }

  lemma ReadIsLine(input: string) returns (raw: string)
    requires ReadLine(input).Line?
    ensures LineWith(raw, ReadLine(input).text) && input == raw + ReadLine(input).rest
  {
    var i := IndexOf(input, '\n');
    var line, text := input[..i], ReadLine(input).text;
    raw := input[..i + 1];
    assert raw == line + "\n" && input == raw + input[i + 1..];
    assert forall c :: c in text ==> c in line;
    if EndsInCr(line) { assert line == text + "\r" && raw == text + "\r\n"; }
  }

  /** A line is read exactly if its bytes stand at the front of the input. */
  lemma ReadLineExactly(input: string, text: string, rest: string)
    ensures ReadLine(input) == Line(text, rest) <==> exists raw :: LineWith(raw, text) && input == raw + rest
  {
    if ReadLine(input) == Line(text, rest) { var raw := ReadIsLine(input); }
    if raw :| LineWith(raw, text) && input == raw + rest { LineIsRead(raw, text, rest); }
  }

  // ---------- header blocks ----------

  /** The header line holds the entry, unescaped. */
  ghost predicate Holds(line: string, e: Entry) {
    exists name, value :: Parts(line, name, value) && e == Entry(Decode(name), Decode(value))
  }

  ghost predicate OneLine(input: string, text: string, rest: string) {
    exists raw :: LineWith(raw, text) && input == raw + rest
  }

  /** Header lines for exactly these entries, then an empty line, then the rest. */
  ghost predicate HeaderLines(input: string, h: seq<Entry>, rest: string)
    decreases |h|
  {
    if h == [] then OneLine(input, "", rest)
    else exists line, more :: OneLine(input, line, more) && Holds(line, h[0]) && HeaderLines(more, h[1..], rest)
  }

  lemma HoldsExactly(line: string, e: Entry)
    ensures Holds(line, e) <==> EntryOf(line) == Some(e)
    ensures Holds(line, e) ==> line != ""
  {
    EntryOfExactly(line);
    if EntryOf(line) == Some(e) {
      var name, value :| Parts(line, name, value);
    }
  }

  lemma {:induction false} LinesAreRead(input: string, h: seq<Entry>, rest: string)
    requires HeaderLines(input, h, rest)
    ensures ReadHeader(input) == Block(h, rest)
    decreases |h|
  {
    if h == [] {
      EmptyLineEnds(input, rest);
    } else {
      var line, more := FirstLine(input, h, rest);
      LinesAreRead(more, h[1..], rest);
      LineInFront(input, line, more, h[0], h[1..], rest);
      FrontAndRest(h);
    }
  }

  lemma FirstLine(input: string, h: seq<Entry>, rest: string) returns (line: string, more: string)
    requires h != [] && HeaderLines(input, h, rest)
    ensures OneLine(input, line, more) && Holds(line, h[0]) && HeaderLines(more, h[1..], rest)
  {
    line, more :| OneLine(input, line, more) && Holds(line, h[0]) && HeaderLines(more, h[1..], rest);
  }

  lemma FrontAndRest(h: seq<Entry>)
    requires h != []
    ensures [h[0]] + h[1..] == h
  {
  }

  lemma EmptyLineEnds(input: string, rest: string)
    requires OneLine(input, "", rest)
    ensures ReadHeader(input) == Block([], rest)
  {
    ReadLineExactly(input, "", rest);
  }

  lemma LineInFront(input: string, line: string, more: string, e: Entry, h: seq<Entry>, rest: string)
    requires OneLine(input, line, more) && Holds(line, e) && ReadHeader(more) == Block(h, rest)
    ensures ReadHeader(input) == Block([e] + h, rest)
  {
    ReadLineExactly(input, line, more);
    HoldsExactly(line, e);
  }

  lemma {:induction false} ReadAreLines(input: string)
    requires ReadHeader(input).Block?
    ensures HeaderLines(input, ReadHeader(input).entries, ReadHeader(input).rest)
    decreases |input|
  {
    var Line(text, rest) := ReadLine(input);
    ReadLineExactly(input, text, rest);
    assert OneLine(input, text, rest);
    if text != "" {
      var e, h := EntryOf(text).value, ReadHeader(rest).entries;
      HoldsExactly(text, e);
      ReadAreLines(rest);
      assert ([e] + h)[0] == e && ([e] + h)[1..] == h;
    }
  }

  // ---------- frames ----------

  lemma BodyExactly(command: Command, h: seq<Entry>, input: string, body: string, rest: string)
    ensures ReadBody(command, h, input) == Got(Some(Frame(command, h, body)), rest) <==>
            FramedBody(h, body) && input == body + "\0" + rest
  {
    if FramedBody(h, body) && input == body + "\0" + rest {
      ReadWrittenBody(Frame(command, h, body), rest);
    }
    if ReadBody(command, h, input) == Got(Some(Frame(command, h, body)), rest) {
      var n := |body|;
      assert body == input[..n] && input[n] == '\0' && rest == input[n + 1..];
      assert input == input[..n] + "\0" + input[n + 1..];
    }
  }

  /** The body is as long as the first content-length says; without one it holds no NUL. */
  ghost predicate BodyFits(h: seq<Entry>, body: string) {
    match Lookup(h, "content-length")
    case None => '\0' !in body
    case Some(text) => ParseUint(text, 0x1_0000_0000) == Some(|body|)
  }

  lemma FramedMeansFits(h: seq<Entry>, body: string)
    ensures FramedBody(h, body) <==> BodyFits(h, body)
  {
  }

  /** A command line, the header lines, an empty line, the body, a NUL, and the rest. */
  ghost predicate FrameText(input: string, f: Frame, rest: string) {
    && !f.command.Raw? && BodyFits(f.header, f.body)
    && exists lines :: OneLine(input, CommandText(f.command), lines) && HeaderLines(lines, f.header, f.body + "\0" + rest)
  }

  /** The reader returns a frame exactly for the texts of that frame, and leaves exactly what follows them. */
  lemma AcceptsExactly(input: string, f: Frame, rest: string)
    ensures Parse(input) == Got(Some(f), rest) <==> FrameText(input, f, rest)
  {
    if FrameText(input, f, rest) { TextIsAccepted(input, f, rest); }
    if Parse(input) == Got(Some(f), rest) { AcceptedIsText(input, f, rest); }
  }

  lemma TextIsAccepted(input: string, f: Frame, rest: string)
    requires FrameText(input, f, rest)
    ensures Parse(input) == Got(Some(f), rest)
  {
    var tail := f.body + "\0" + rest;
    var lines :| OneLine(input, CommandText(f.command), lines) && HeaderLines(lines, f.header, tail);
    FramedMeansFits(f.header, f.body);
    ReadLineExactly(input, CommandText(f.command), lines);
    CommandRoundTrip(f.command);
    CommandIsLineSafe(f.command);
    LinesAreRead(lines, f.header, tail);
    BodyExactly(f.command, f.header, tail, f.body, rest);
  }

  lemma {:induction false} FoundText(text: string, cs: seq<Command>)
    ensures FindCommand(text, cs).Some? ==> CommandText(FindCommand(text, cs).value) == text
  {
    if cs != [] { FoundText(text, cs[1..]); }
  }

  lemma AcceptedIsText(input: string, f: Frame, rest: string)
    requires Parse(input) == Got(Some(f), rest)
    ensures FrameText(input, f, rest)
  {
    AcceptedIsWellFormed(input);
    var Line(text, lines) := ReadLine(input);
    ReadLineExactly(input, text, lines);
    FoundText(text, COMMANDS);
    var tail := ReadHeader(lines).rest;
    ReadAreLines(lines);
    BodyIsFramed(CommandOf(text).value, ReadHeader(lines).entries, tail);
    BodyExactly(f.command, f.header, tail, f.body, rest);
    FramedMeansFits(f.header, f.body);
    assert OneLine(input, CommandText(f.command), lines);
  }

  /** A heart-beat is an empty line with either line end, and nothing else is. */
  lemma HeartBeatExactly(input: string, rest: string)
    ensures Parse(input) == Got(None, rest) <==> input == "\n" + rest || input == "\r\n" + rest
  {
    ReadLineExactly(input, "", rest);
    if raw :| LineWith(raw, "") && input == raw + rest { assert raw == "\n" || raw == "\r\n"; }
    assert LineWith("\n", "") && LineWith("\r\n", "");
    if Parse(input) == Got(None, rest) { NoFrameIsNoText(input); }
  }

  lemma NoFrameIsNoText(input: string)
    requires Parse(input).Got? && Parse(input).item.None?
    ensures ReadLine(input).Line? && ReadLine(input).text == ""
  {
    var Line(text, lines) := ReadLine(input);
    if text != "" && CommandOf(text).Some? && ReadHeader(lines).Block? {
      BodyIsFramed(CommandOf(text).value, ReadHeader(lines).entries, ReadHeader(lines).rest);
    }
  }

  // ---------- either line end ----------

  predicate LineEnd(eol: string) { eol == "\n" || eol == "\r\n" }

  /** The header lines and the empty line, with the given line ends. */
  function Lines(h: seq<Entry>, ends: seq<string>): string
    requires |ends| == |h| + 1
    decreases |h|
  {
    if h == [] then ends[0] else EntryLine(h[0]) + ends[0] + Lines(h[1..], ends[1..])
  }

  lemma LineEnded(text: string, eol: string, rest: string)
    requires '\n' !in text && '\r' !in text && LineEnd(eol)
    ensures OneLine(text + eol + rest, text, rest)
  {
    assert LineWith(text + eol, text);
  }

  lemma EntryEnded(e: Entry, eol: string, more: string)
    requires e.key != "" && LineEnd(eol)
    ensures OneLine(EntryLine(e) + eol + more, EntryLine(e), more) && Holds(EntryLine(e), e)
  {
    EncodedIsLineSafe(e.key);
    EncodedIsLineSafe(e.value);
    LineEnded(EntryLine(e), eol, more);
    EntryRoundTrip(e);
    HoldsExactly(EntryLine(e), e);
  }

  lemma Regroup(a: string, b: string, c: string, d: string)
    ensures a + b + (c + d) == (a + b + c) + d
  {
  }

  lemma {:induction false} WrittenLines(h: seq<Entry>, ends: seq<string>, rest: string)
    requires NamedHeader(h) && |ends| == |h| + 1 && forall i :: 0 <= i < |ends| ==> LineEnd(ends[i])
    ensures HeaderLines(Lines(h, ends) + rest, h, rest)
    decreases |h|
  {
    if h == [] {
      LineEnded("", ends[0], rest);
      assert "" + ends[0] + rest == Lines(h, ends) + rest;
    } else {
      var line, more := EntryLine(h[0]), Lines(h[1..], ends[1..]) + rest;
      WrittenLines(h[1..], ends[1..], rest);
      EntryEnded(h[0], ends[0], more);
      Regroup(line, ends[0], Lines(h[1..], ends[1..]), rest);
    }
  }

  function Newlines(n: nat): seq<string> { seq(n, i => "\n") }

  lemma {:induction false} HeaderTextIs(h: seq<Entry>)
    ensures HeaderText(h) + "\n" == Lines(h, Newlines(|h| + 1))
  {
    if h != [] {
      HeaderTextIs(h[1..]);
      assert Newlines(|h| + 1)[1..] == Newlines(|h|);
      Regroup("", EntryLine(h[0]) + "\n", HeaderText(h[1..]), "\n");
    }
  }

  /** The writer ends every line with LF: a heart-beat is one LF, and a frame is its command line, its header lines,
      an empty line, its body and a NUL. */
  lemma WriterExactly(f: Frame)
    ensures Serialise(None) == "\n"
    ensures Serialise(Some(f)) ==
            CommandText(f.command) + "\n" + Lines(f.header, Newlines(|f.header| + 1)) + f.body + "\0"
  {
    HeaderTextIs(f.header);
    var c := CommandText(f.command) + "\n";
    assert c + HeaderText(f.header) + "\n" == c + (HeaderText(f.header) + "\n");
  }

  /** Every well-formed frame is read back from its text with LF or CR LF at each line end. */
  lemma EitherLineEnd(f: Frame, first: string, ends: seq<string>, rest: string)
    requires WellFormed(f) && LineEnd(first) && |ends| == |f.header| + 1
    requires forall i :: 0 <= i < |ends| ==> LineEnd(ends[i])
    ensures Parse(CommandText(f.command) + first + (Lines(f.header, ends) + (f.body + "\0" + rest))) == Got(Some(f), rest)
  {
    var tail := f.body + "\0" + rest;
    var lines := Lines(f.header, ends) + tail;
    CommandIsLineSafe(f.command);
    LineEnded(CommandText(f.command), first, lines);
    WrittenLines(f.header, ends, tail);
    Assembled(CommandText(f.command) + first + lines, lines, f, rest);
    TextIsAccepted(CommandText(f.command) + first + lines, f, rest);
  }

  lemma Assembled(input: string, lines: string, f: Frame, rest: string)
    requires WellFormed(f) && OneLine(input, CommandText(f.command), lines)
    requires HeaderLines(lines, f.header, f.body + "\0" + rest)
    ensures FrameText(input, f, rest)
  {
  }

  // ---------- the words and the length ----------

  /** The fifteen command words, and no other, are commands. */
  lemma CommandWords(text: string)
    ensures CommandOf("CONNECT") == Some(Connect) && CommandOf("STOMP") == Some(Stomp)
    ensures CommandOf("CONNECTED") == Some(Connected) && CommandOf("SEND") == Some(Send)
    ensures CommandOf("SUBSCRIBE") == Some(Subscribe) && CommandOf("UNSUBSCRIBE") == Some(Unsubscribe)
    ensures CommandOf("ACK") == Some(Ack) && CommandOf("NACK") == Some(Nack) && CommandOf("BEGIN") == Some(Begin)
    ensures CommandOf("COMMIT") == Some(Commit) && CommandOf("ABORT") == Some(Abort)
    ensures CommandOf("DISCONNECT") == Some(Disconnect) && CommandOf("MESSAGE") == Some(Message)
    ensures CommandOf("RECEIPT") == Some(Receipt) && CommandOf("ERROR") == Some(Error)
    ensures CommandOf(text).Some? <==>
            text in {"CONNECT", "STOMP", "CONNECTED", "SEND", "SUBSCRIBE", "UNSUBSCRIBE", "ACK", "NACK", "BEGIN",
                     "COMMIT", "ABORT", "DISCONNECT", "MESSAGE", "RECEIPT", "ERROR"}
  {
    FoundText(text, COMMANDS);
    FoundIsKnown(text, COMMANDS);
    CommandRoundTrip(Connect);
    CommandRoundTrip(Stomp);
    CommandRoundTrip(Connected);
    CommandRoundTrip(Send);
    CommandRoundTrip(Subscribe);
    CommandRoundTrip(Unsubscribe);
    CommandRoundTrip(Ack);
    CommandRoundTrip(Nack);
    CommandRoundTrip(Begin);
    CommandRoundTrip(Commit);
    CommandRoundTrip(Abort);
    CommandRoundTrip(Disconnect);
    CommandRoundTrip(Message);
    CommandRoundTrip(Receipt);
    CommandRoundTrip(Error);
  }

  /** A body is counted exactly if the first content-length entry is a decimal number below 2^32; with any
      other content-length the frame is refused. */
  lemma ContentLengthExactly(h: seq<Entry>, n: nat)
    ensures ContentLength(h) == Absent <==> Lookup(h, "content-length").None?
    ensures n < 0x1_0000_0000 && Lookup(h, "content-length") == Some(Decimal(n)) ==> ContentLength(h) == Length(n)
    ensures ContentLength(h) == Length(n) ==>
              n < 0x1_0000_0000 && Lookup(h, "content-length").Some?
              && var text := Lookup(h, "content-length").value; text != "" && AllDigits(text) && DigitsValue(text) == n
  {
  }

  // ---------- what is refused, and why ----------

  /** Header lines for exactly these entries, and then something else. */
  ghost predicate EntryLines(input: string, h: seq<Entry>, rest: string)
    decreases |h|
  {
    if h == [] then input == rest
    else exists line, more :: OneLine(input, line, more) && Holds(line, h[0]) && EntryLines(more, h[1..], rest)
  }

  lemma {:induction false} EntriesThenError(input: string, h: seq<Entry>, rest: string)
    requires EntryLines(input, h, rest) && ReadHeader(rest).BlockError?
    ensures ReadHeader(input) == ReadHeader(rest)
    decreases |h|
  {
    if h != [] {
      var line, more :| OneLine(input, line, more) && Holds(line, h[0]) && EntryLines(more, h[1..], rest);
      ReadLineExactly(input, line, more);
      HoldsExactly(line, h[0]);
      EntriesThenError(more, h[1..], rest);
    }
  }

  /** A first line that has no end, or holds no command word. */
  lemma RefusedAtCommand(input: string, text: string, lines: string)
    ensures '\n' !in input ==> Parse(input) == Failed(EndOfInput, "")
    ensures OneLine(input, text, lines) && text != "" && CommandOf(text).None? ==>
              Parse(input) == Failed(InvalidCommand, lines)
  {
    ReadLineExactly(input, text, lines);
  }

  /** After a command, a header line that has no end, or is neither empty nor holds an entry. */
  lemma RefusedAtHeader(input: string, c: Command, lines: string, h: seq<Entry>, tail: string, line: string, rest: string)
    requires !c.Raw? && OneLine(input, CommandText(c), lines) && EntryLines(lines, h, tail)
    ensures '\n' !in tail ==> Parse(input) == Failed(EndOfInput, "")
    ensures OneLine(tail, line, rest) && line != "" && (forall e :: !Holds(line, e)) ==>
              Parse(input) == Failed(InvalidFormat, rest)
  {
    CommandRoundTrip(c);
    CommandIsLineSafe(c);
    ReadLineExactly(input, CommandText(c), lines);
    ReadLineExactly(tail, line, rest);
    if EntryOf(line).Some? { HoldsExactly(line, EntryOf(line).value); }
    if ReadHeader(tail).BlockError? { EntriesThenError(lines, h, tail); }
  }

  lemma DownToTheBody(input: string, c: Command, lines: string, h: seq<Entry>, tail: string)
    requires !c.Raw? && OneLine(input, CommandText(c), lines) && HeaderLines(lines, h, tail)
    ensures Parse(input) == ReadBody(c, h, tail)
  {
    CommandRoundTrip(c);
    CommandIsLineSafe(c);
    ReadLineExactly(input, CommandText(c), lines);
    LinesAreRead(lines, h, tail);
  }

  /** After the header, a content-length that is no number, a body that is not all there, or one that is not
      followed by a NUL. */
  lemma RefusedAtBody(input: string, c: Command, lines: string, h: seq<Entry>, tail: string, n: nat)
    requires !c.Raw? && OneLine(input, CommandText(c), lines) && HeaderLines(lines, h, tail)
    ensures ContentLength(h) == Malformed ==> Parse(input) == Failed(BadContentLength, tail)
    ensures ContentLength(h) == Absent && '\0' !in tail ==> Parse(input) == Failed(EndOfInput, "")
    ensures ContentLength(h) == Length(n) && |tail| <= n ==> Parse(input) == Failed(EndOfInput, "")
    ensures ContentLength(h) == Length(n) && |tail| > n && tail[n] != '\0' ==>
              Parse(input) == Failed(InvalidFormat, tail[n + 1..])
  {
    DownToTheBody(input, c, lines, h, tail);
    BodyRefused(c, h, tail, n);
  }

  lemma BodyRefused(c: Command, h: seq<Entry>, tail: string, n: nat)
    ensures ContentLength(h) == Malformed ==> ReadBody(c, h, tail) == Failed(BadContentLength, tail)
    ensures ContentLength(h) == Absent && '\0' !in tail ==> ReadBody(c, h, tail) == Failed(EndOfInput, "")
    ensures ContentLength(h) == Length(n) && |tail| <= n ==> ReadBody(c, h, tail) == Failed(EndOfInput, "")
    ensures ContentLength(h) == Length(n) && |tail| > n && tail[n] != '\0' ==>
              ReadBody(c, h, tail) == Failed(InvalidFormat, tail[n + 1..])
  {
  }
}
