/** What frame.Writer.Write puts on the wire and what frame.Reader.Read makes of it, as functions of
    the whole input. The objects that do it byte by byte are in Wire.dfy. */
module Codec {
  import opened Text
  import opened Escape
  import opened Frames

  function CommandText(c: Command): string {
    match c
    case Connect => "CONNECT"
    case Stomp => "STOMP"
    case Connected => "CONNECTED"
    case Send => "SEND"
    case Subscribe => "SUBSCRIBE"
    case Unsubscribe => "UNSUBSCRIBE"
    case Ack => "ACK"
    case Nack => "NACK"
    case Begin => "BEGIN"
    case Commit => "COMMIT"
    case Abort => "ABORT"
    case Disconnect => "DISCONNECT"
    case Message => "MESSAGE"
    case Receipt => "RECEIPT"
    case Error => "ERROR"
    case Raw(text) => text
  }

  const COMMANDS: seq<Command> :=
    [Connect, Stomp, Connected, Send, Subscribe, Unsubscribe, Ack, Nack,
     Begin, Commit, Abort, Disconnect, Message, Receipt, Error]

  function FindCommand(text: string, cs: seq<Command>): Option<Command> {
    if cs == [] then None
    else if CommandText(cs[0]) == text then Some(cs[0])
    else FindCommand(text, cs[1..])
  }

  /** The command a line names, if the reader knows it. */
  function CommandOf(text: string): Option<Command> { FindCommand(text, COMMANDS) }

  // ---------- writing ----------

  function EntryLine(e: Entry): string { Encode(e.key) + ":" + Encode(e.value) }

  function HeaderText(h: seq<Entry>): string {
    if h == [] then "" else EntryLine(h[0]) + "\n" + HeaderText(h[1..])
  }

  /** The bytes of a frame, or of a heart-beat when there is no frame. */
  function Serialise(item: Option<Frame>): string {
    match item
    case None => "\n"
    case Some(f) => CommandText(f.command) + "\n" + HeaderText(f.header) + "\n" + f.body + "\0"
  }

  function SerialiseAll(items: seq<Option<Frame>>): string {
    if items == [] then "" else Serialise(items[0]) + SerialiseAll(items[1..])
  }

  // ---------- reading ----------

  datatype ReadError = EndOfInput | InvalidCommand | InvalidFormat | BadContentLength

  datatype Line = NoLine | Line(text: string, rest: string)

  datatype Block = BlockError(error: ReadError, rest: string)
                 | Block(entries: seq<Entry>, rest: string)

  datatype ReadResult = Failed(error: ReadError, rest: string)
                      | Got(item: Option<Frame>, rest: string)

  function StripCr(line: string): string {
    if line != "" && line[|line| - 1] == '\r' then line[..|line| - 1] else line
  }

  /** Up to the next LF, which is dropped together with one CR before it. */
  function ReadLine(input: string): (r: Line)
    ensures r.Line? ==> |r.rest| < |input|
  {
    var i := IndexOf(input, '\n');
    if i < 0 then NoLine else Line(StripCr(input[..i]), input[i + 1..])
  }

  function Prepend(e: Entry, b: Block): Block {
    if b.Block? then b.(entries := [e] + b.entries) else b
  }

  /** The entry a header line holds, if it has a colon after a non-empty name. */
  function EntryOf(line: string): Option<Entry> {
    var colon := IndexOf(line, ':');
    if colon <= 0 then None else Some(Entry(Decode(line[..colon]), Decode(line[colon + 1..])))
  }

  /** Header lines up to the first empty one. */
  function ReadHeader(input: string): (b: Block)
    ensures b.Block? ==> |b.rest| < |input|
    decreases |input|
  {
    match ReadLine(input)
    case NoLine => BlockError(EndOfInput, "")
    case Line(text, rest) =>
      if text == "" then Block([], rest)
      else
        match EntryOf(text)
        case None => BlockError(InvalidFormat, rest)
        case Some(e) => Prepend(e, ReadHeader(rest))
  }

  /** The body: counted when there is a content-length, up to the first NUL otherwise. */
  function ReadBody(command: Command, header: seq<Entry>, input: string): (r: ReadResult)
    ensures r.Got? ==> |r.rest| < |input|
  {
    match ContentLength(header)
    case Malformed => Failed(BadContentLength, input)
    case Length(n) =>
      if |input| <= n then Failed(EndOfInput, "")
      else if input[n] != '\0' then Failed(InvalidFormat, input[n + 1..])
      else Got(Some(Frame(command, header, input[..n])), input[n + 1..])
    case Absent =>
      var i := IndexOf(input, '\0');
      if i < 0 then Failed(EndOfInput, "")
      else Got(Some(Frame(command, header, input[..i])), input[i + 1..])
  }

  /** One call of Reader.Read on the remaining input. */
  function Parse(input: string): (r: ReadResult)
    ensures r.Got? ==> |r.rest| < |input|
  {
    match ReadLine(input)
    case NoLine => Failed(EndOfInput, "")
    case Line(text, rest) =>
      if text == "" then Got(None, rest)
      else match CommandOf(text)
        case None => Failed(InvalidCommand, rest)
        case Some(command) =>
          match ReadHeader(rest)
          case BlockError(e, r) => Failed(e, r)
          case Block(entries, r) => ReadBody(command, entries, r)
  }

  /** Reading until the first error, as both read loops do. */
  function ParseAll(input: string): (r: (seq<Option<Frame>>, ReadError))
    decreases |input|
  {
    match Parse(input)
    case Failed(e, _) => ([], e)
    case Got(item, rest) =>
      var more := ParseAll(rest);
      ([item] + more.0, more.1)
  }

  // ---------- well-formed frames ----------

  predicate NamedHeader(h: seq<Entry>) { forall i :: 0 <= i < |h| ==> h[i].key != "" }

  predicate FramedBody(h: seq<Entry>, body: string) {
    match ContentLength(h)
    case Absent => '\0' !in body
    case Malformed => false
    case Length(n) => n == |body|
  }

  predicate WellFormed(f: Frame) {
    !f.command.Raw? && NamedHeader(f.header) && FramedBody(f.header, f.body)
  }

  predicate WellFormedItem(item: Option<Frame>) { item.Some? ==> WellFormed(item.value) }

  ghost predicate AllWellFormed(items: seq<Option<Frame>>) {
    forall i :: 0 <= i < |items| ==> WellFormedItem(items[i])
  }

  // ---------- round trip ----------

  lemma {:induction false} FindSelf(c: Command, cs: seq<Command>)
    requires c in cs && (forall x :: x in cs ==> !x.Raw?)
    ensures FindCommand(CommandText(c), cs) == Some(c)
  {
    if cs[0] != c {
      TextIsInjective(cs[0], c);
      FindSelf(c, cs[1..]);
    }
  }

  lemma TextIsInjective(a: Command, b: Command)
    requires !a.Raw? && !b.Raw? && a != b
    ensures CommandText(a) != CommandText(b)
  {
    var s, t := CommandText(a), CommandText(b);
    assert |s| != |t| || s[0] != t[0];
  }

  lemma CommandIsLineSafe(c: Command)
    requires !c.Raw?
    ensures CommandText(c) != "" && '\n' !in CommandText(c) && '\r' !in CommandText(c)
  {
    assert forall i :: 0 <= i < |CommandText(c)| ==> 'A' <= CommandText(c)[i] <= 'Z';
  }

  lemma CommandRoundTrip(c: Command)
    requires !c.Raw?
    ensures CommandOf(CommandText(c)) == Some(c)
  {
    FindSelf(c, COMMANDS);
  }

  lemma {:induction false} FoundIsKnown(text: string, cs: seq<Command>)
    requires forall x :: x in cs ==> !x.Raw?
    ensures FindCommand(text, cs).Some? ==> !FindCommand(text, cs).value.Raw?
  {
    if cs != [] { FoundIsKnown(text, cs[1..]); }
  }

  lemma ReadWrittenLine(text: string, rest: string)
    requires '\n' !in text && '\r' !in text
    ensures ReadLine(text + "\n" + rest) == Line(text, rest)
  {
    IndexOfFirst(text, '\n', rest);
    var s := text + "\n" + rest;
    assert s == text + ['\n'] + rest;
    assert s[..|text|] == text && s[|text| + 1..] == rest;
  }

  /** The two parts of a header line: a non-empty name without a colon, and what follows the first colon. */
  predicate Parts(line: string, name: string, value: string) {
    line == name + ":" + value && name != "" && ':' !in name
  }

  /** A header line holds an entry exactly if it has two parts, and then it is their unescaped pair; the parts
      are determined by the line. */
  lemma EntryOfExactly(line: string)
    ensures EntryOf(line).Some? <==> exists name, value :: Parts(line, name, value)
    ensures forall name, value :: Parts(line, name, value) ==> EntryOf(line) == Some(Entry(Decode(name), Decode(value)))
  {
    forall name, value | Parts(line, name, value)
      ensures EntryOf(line) == Some(Entry(Decode(name), Decode(value)))
    {
      IndexOfFirst(name, ':', value);
      assert line == name + [':'] + value && line[..|name|] == name && line[|name| + 1..] == value;
    }
    var i := IndexOf(line, ':');
    if i > 0 { assert Parts(line, line[..i], line[i + 1..]); }
  }

  /** The line written for an entry with a name holds that entry. */
  lemma EntryRoundTrip(e: Entry)
    requires e.key != ""
    ensures EntryOf(EntryLine(e)) == Some(e)
  {
    EncodedIsLineSafe(e.key);
    EncodedNonEmpty(e.key);
    assert Parts(EntryLine(e), Encode(e.key), Encode(e.value));
    EntryOfExactly(EntryLine(e));
    DecodeEncode(e.key);
    DecodeEncode(e.value);
  }

  lemma EncodedNonEmpty(s: string)
    requires s != ""
    ensures Encode(s) != ""
  {
    DecodeEncode(s);
    assert Decode("") == "";
  }

  lemma ReadWrittenEntry(e: Entry, more: string)
    requires e.key != ""
    ensures ReadHeader(EntryLine(e) + "\n" + more) == Prepend(e, ReadHeader(more))
  {
    EncodedIsLineSafe(e.key);
    EncodedIsLineSafe(e.value);
    ReadWrittenLine(EntryLine(e), more);
    EntryRoundTrip(e);
  }

  lemma {:induction false} ReadWrittenHeader(h: seq<Entry>, rest: string)
    requires NamedHeader(h)
    ensures ReadHeader(HeaderText(h) + "\n" + rest) == Block(h, rest)
  {
    if h == [] {
      ReadEmptyHeader(rest);
    } else {
      ReadWrittenHeader(h[1..], rest);
      SplitHeader(h, rest);
      ReadWrittenMore(h[0], h[1..], HeaderText(h[1..]) + "\n" + rest, rest);
      assert [h[0]] + h[1..] == h;
    }
  }

  lemma ReadWrittenMore(e: Entry, h: seq<Entry>, more: string, rest: string)
    requires e.key != "" && ReadHeader(more) == Block(h, rest)
    ensures ReadHeader(EntryLine(e) + "\n" + more) == Block([e] + h, rest)
  {
    ReadWrittenEntry(e, more);
  }

  lemma ReadEmptyHeader(rest: string)
    ensures ReadHeader(HeaderText([]) + "\n" + rest) == Block([], rest)
  {
    ReadWrittenLine("", rest);
    assert HeaderText([]) + "\n" + rest == "" + "\n" + rest;
  }

  lemma SplitHeader(h: seq<Entry>, rest: string)
    requires h != []
    ensures HeaderText(h) + "\n" + rest == EntryLine(h[0]) + "\n" + (HeaderText(h[1..]) + "\n" + rest)
  {
  }

  lemma ReadWrittenBody(f: Frame, rest: string)
    requires FramedBody(f.header, f.body)
    ensures ReadBody(f.command, f.header, f.body + "\0" + rest) == Got(Some(f), rest)
  {
    var s := f.body + "\0" + rest;
    assert s == f.body + ['\0'] + rest;
    assert s[..|f.body|] == f.body && s[|f.body| + 1..] == rest;
    if ContentLength(f.header).Absent? { IndexOfFirst(f.body, '\0', rest); }
  }

  /** A well-formed frame or a heart-beat is read back exactly, leaving exactly what follows it. */
  lemma RoundTrip(item: Option<Frame>, rest: string)
    requires WellFormedItem(item)
    ensures Parse(Serialise(item) + rest) == Got(item, rest)
  {
    match item
    case None =>
      ReadWrittenLine("", rest);
      assert "\n" + rest == "" + "\n" + rest;
    case Some(f) =>
      var body := f.body + "\0" + rest;
      var afterCommand := HeaderText(f.header) + "\n" + body;
      assert Serialise(item) + rest == CommandText(f.command) + "\n" + afterCommand;
      CommandIsLineSafe(f.command);
      CommandRoundTrip(f.command);
      ReadWrittenLine(CommandText(f.command), afterCommand);
      ReadWrittenHeader(f.header, body);
      ReadWrittenBody(f, rest);
  }

  lemma ParseAllWritten(item: Option<Frame>, rest: string)
    requires WellFormedItem(item)
    ensures ParseAll(Serialise(item) + rest) == ([item] + ParseAll(rest).0, ParseAll(rest).1)
  {
    RoundTrip(item, rest);
  }

  /** Any list of heart-beats and well-formed frames is read back from the concatenation of what was
      written, after which the input is exhausted. */
  lemma {:induction false} StreamRoundTrip(items: seq<Option<Frame>>)
    requires AllWellFormed(items)
    ensures ParseAll(SerialiseAll(items)) == (items, EndOfInput)
  {
    if items != [] {
      ParseAllWritten(items[0], SerialiseAll(items[1..]));
      StreamRoundTrip(items[1..]);
      assert [items[0]] + items[1..] == items;
    }
  }

  // ---------- normalisation ----------

  lemma {:induction false} ReadHeaderIsNamed(input: string)
    ensures ReadHeader(input).Block? ==> NamedHeader(ReadHeader(input).entries)
    decreases |input|
  {
    match ReadLine(input)
    case NoLine =>
    case Line(text, rest) =>
      var colon := IndexOf(text, ':');
      if colon > 0 {
        DecodeNonEmpty(text[..colon]);
        ReadHeaderIsNamed(rest);
      }
  }

  /** Every frame the reader accepts is well-formed, whatever line ends, raw CRs or unknown escapes
      the input used, and writing it in front of the same remaining bytes reads back the same. */
  lemma Normalisation(input: string)
    requires Parse(input).Got?
    ensures WellFormedItem(Parse(input).item)
    ensures Parse(Serialise(Parse(input).item) + Parse(input).rest) == Parse(input)
  {
    AcceptedIsWellFormed(input);
    RoundTrip(Parse(input).item, Parse(input).rest);
  }

  lemma AcceptedIsWellFormed(input: string)
    requires Parse(input).Got?
    ensures WellFormedItem(Parse(input).item)
  {
    var Line(text, rest) := ReadLine(input);
    FoundIsKnown(text, COMMANDS);
    ReadHeaderIsNamed(rest);
    var header := ReadHeader(rest);
    if text != "" && header.Block? { BodyIsFramed(CommandOf(text).value, header.entries, header.rest); }
  }

  lemma BodyIsFramed(command: Command, h: seq<Entry>, input: string)
    requires ReadBody(command, h, input).Got?
    ensures var item := ReadBody(command, h, input).item;
            item.Some? && item.value.command == command && item.value.header == h
            && FramedBody(h, item.value.body)
  {
  }

  /** Well-formedness is exactly what a frame needs to survive the wire, and exactly what the reader
      can produce. */
  lemma WellFormedExactly(f: Frame)
    ensures WellFormed(f) <==> Parse(Serialise(Some(f))) == Got(Some(f), "")
    ensures WellFormed(f) <==> exists input :: Parse(input).Got? && Parse(input).item == Some(f)
  {
    var wire := Serialise(Some(f));
    if WellFormed(f) {
      RoundTrip(Some(f), "");
      assert wire + "" == wire;
    }
    if input :| Parse(input).Got? && Parse(input).item == Some(f) {
      Normalisation(input);
    }
  }

  // ---------- cut streams ----------

  lemma IndexOfExtends(p: string, q: string, c: char)
    requires IndexOf(p, c) >= 0
    ensures IndexOf(p + q, c) == IndexOf(p, c)
  {
    var i := IndexOf(p, c);
    assert p == p[..i] + [c] + p[i + 1..];
    assert p + q == p[..i] + [c] + (p[i + 1..] + q);
    IndexOfFirst(p[..i], c, p[i + 1..] + q);
  }

  lemma Slices(p: string, q: string, i: nat)
    requires i < |p|
    ensures (p + q)[..i] == p[..i] && (p + q)[i] == p[i] && (p + q)[i + 1..] == p[i + 1..] + q
  {
  }

  lemma ReadLineExtends(p: string, q: string)
    requires ReadLine(p).Line?
    ensures ReadLine(p + q) == Line(ReadLine(p).text, ReadLine(p).rest + q)
  {
    IndexOfExtends(p, q, '\n');
    Slices(p, q, IndexOf(p, '\n'));
  }

  lemma {:induction false} ReadHeaderExtends(p: string, q: string)
    requires ReadHeader(p) != BlockError(EndOfInput, "")
    ensures ReadHeader(p + q) == ReadHeader(p).(rest := ReadHeader(p).rest + q)
    decreases |p|
  {
    ReadLineExtends(p, q);
    var Line(text, rest) := ReadLine(p);
    if EntryOf(text).Some? { ReadHeaderExtends(rest, q); }
  }

  lemma ReadBodyExtends(command: Command, h: seq<Entry>, p: string, q: string)
    requires ReadBody(command, h, p) != Failed(EndOfInput, "")
    ensures ReadBody(command, h, p + q) ==
            ReadBody(command, h, p).(rest := ReadBody(command, h, p).rest + q)
  {
    match ContentLength(h)
    case Malformed =>
    case Length(n) => Slices(p, q, n);
    case Absent =>
      IndexOfExtends(p, q, '\0');
      Slices(p, q, IndexOf(p, '\0'));
  }

  /** Once the reader has decided, more input changes nothing but what is left over. */
  lemma Extension(p: string, q: string)
    requires Parse(p) != Failed(EndOfInput, "")
    ensures Parse(p + q) == Parse(p).(rest := Parse(p).rest + q)
  {
    ReadLineExtends(p, q);
    var Line(text, rest) := ReadLine(p);
    if text != "" && CommandOf(text).Some? {
      ReadHeaderExtends(rest, q);
      if ReadHeader(rest).Block? {
        ReadBodyExtends(CommandOf(text).value, ReadHeader(rest).entries, ReadHeader(rest).rest, q);
      }
    }
  }

  /** Every proper prefix of a written item is recognised as incomplete. */
  lemma Truncation(item: Option<Frame>, p: string, q: string)
    requires WellFormedItem(item)
    requires Serialise(item) == p + q && q != ""
    ensures Parse(p) == Failed(EndOfInput, "")
  {
    RoundTrip(item, "");
    assert Serialise(item) + "" == p + q;
    if Parse(p) != Failed(EndOfInput, "") { Extension(p, q); }
  }

  lemma CutItem(item: Option<Frame>, cut: nat)
    requires WellFormedItem(item) && cut < |Serialise(item)|
    ensures ParseAll(Serialise(item)[..cut]) == ([], EndOfInput)
  {
    var wire := Serialise(item);
    assert wire == wire[..cut] + wire[cut..];
    Truncation(item, wire[..cut], wire[cut..]);
  }

  lemma {:induction false} SerialisePrefix(items: seq<Option<Frame>>, n: nat)
    requires 0 < n <= |items|
    ensures SerialiseAll(items[..n]) == Serialise(items[0]) + SerialiseAll(items[1..][..n - 1])
  {
    assert items[..n][1..] == items[1..][..n - 1];
  }

  /** How many items fit completely in the first cut bytes. */
  function Complete(items: seq<Option<Frame>>, cut: nat): (n: nat)
    ensures n <= |items|
  {
    if items == [] || cut < |Serialise(items[0])| then 0
    else 1 + Complete(items[1..], cut - |Serialise(items[0])|)
  }

  lemma {:induction false} CompleteIsMaximal(items: seq<Option<Frame>>, cut: nat)
    ensures |SerialiseAll(items[..Complete(items, cut)])| <= cut
    ensures Complete(items, cut) < |items| ==> cut < |SerialiseAll(items[..Complete(items, cut) + 1])|
  {
    if items != [] {
      SerialisePrefix(items, 1);
      if |Serialise(items[0])| <= cut {
        var rest, left := items[1..], cut - |Serialise(items[0])|;
        var m := Complete(rest, left);
        CompleteIsMaximal(rest, left);
        SerialisePrefix(items, m + 1);
        if m < |rest| { SerialisePrefix(items, m + 2); }
      }
    }
  }

  /** Two ways to split the same bytes. */
  lemma Carve(a: string, b: string, c: string, d: string)
    requires a + b == c + d && |a| <= |c|
    ensures c == a + c[|a|..] && b == c[|a|..] + d && a == c[..|a|]
  {
    assert a == (a + b)[..|a|] == (c + d)[..|a|] == c[..|a|];
    assert b == (a + b)[|a|..] == (c + d)[|a|..] == c[|a|..] + d;
  }

  /** A connection cut after any number of bytes delivers exactly the items that were completely
      written, and then end of input: never a wrong or partial frame. */
  lemma {:induction false} CutStream(items: seq<Option<Frame>>, p: string, q: string)
    requires AllWellFormed(items) && SerialiseAll(items) == p + q
    ensures ParseAll(p) == (items[..Complete(items, |p|)], EndOfInput)
  {
    if items != [] {
      var head, tail := Serialise(items[0]), SerialiseAll(items[1..]);
      if |p| < |head| {
        Carve(p, q, head, tail);
        CutItem(items[0], |p|);
      } else {
        var rest := p[|head|..];
        Carve(head, tail, p, q);
        CutStream(items[1..], rest, q);
        ParseAllWritten(items[0], rest);
        CutListStep(items, |rest|);
      }
    }
  }

  lemma CutListStep(items: seq<Option<Frame>>, cut: nat)
    requires items != []
    ensures var n := Complete(items[1..], cut);
            [items[0]] + items[1..][..n] == items[..Complete(items, |Serialise(items[0])| + cut)]
  {
  }

  /** Different lists of items never share an encoding. */
  lemma StreamIsUnambiguous(xs: seq<Option<Frame>>, ys: seq<Option<Frame>>)
    requires AllWellFormed(xs) && AllWellFormed(ys)
    requires SerialiseAll(xs) == SerialiseAll(ys)
    ensures xs == ys
  {
    StreamRoundTrip(xs);
    StreamRoundTrip(ys);
  }
}
