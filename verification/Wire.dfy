/** frame.Reader and frame.Writer as objects on a byte stream, proved against the functions of
    Codec.dfy. */
module Wire {
  import opened Text
  import opened Escape
  import opened Frames
  import opened Codec

  lemma {:induction false} PrependAll(acc: seq<Entry>, e: Entry, b: Block)
    ensures PrependSeq(acc, Prepend(e, b)) == PrependSeq(acc + [e], b)
  {
    if b.Block? { assert acc + ([e] + b.entries) == (acc + [e]) + b.entries; }
  }

  lemma Unprefixed(b: Block)
    ensures PrependSeq([], b) == b
  {
    if b.Block? { assert [] + b.entries == b.entries; }
  }

  /** The header entries read so far in front of what the rest of the block yields. */
  function PrependSeq(acc: seq<Entry>, b: Block): Block {
    if b.Block? then b.(entries := acc + b.entries) else b
  }

  /** Splits a header line at its first colon, the name being non-empty, and unescapes both parts. */
  method ParseEntry(line: string) returns (entry: Option<Entry>, ghost name: string, ghost value: string)
    ensures entry == EntryOf(line)
    ensures entry.Some? ==> Parts(line, name, value) && entry.value == Entry(Decode(name), Decode(value))
    ensures entry.None? ==> ':' !in line || line[0] == ':'
  {
    name, value := "", "";
    var colon := IndexOf(line, ':');
    if colon <= 0 { return None, "", ""; }
    name, value := line[..colon], line[colon + 1..];
    Rejoined(line, colon);
    entry := Some(Entry(Decode(line[..colon]), Decode(line[colon + 1..])));
  }

  lemma Rejoined(line: string, i: nat)
    requires i < |line| && line[i] == ':'
    ensures line == line[..i] + ":" + line[i + 1..]
  {
  }

  /** Header.ContentLength on the object. */
  method LengthOf(header: Header) returns (length: Length)
    requires header.Valid()
    ensures length == ContentLength(header.Entries())
  {
    var text, ok := header.Contains(CONTENT_LENGTH);
    if !ok { return Absent; }
    var n := ParseUint(text, POW32);
    length := if n.None? then Malformed else Length(n.value);
  }

  class Reader {
    var input: string   // the bytes not yet consumed

    constructor (bytes: string)
      ensures input == bytes
    {
      input := bytes;
    }

    /** bufio.Reader.ReadBytes without the delimiter; at end of input everything is consumed. */
    method ReadBytes(delim: char) returns (data: string, ok: bool)
      modifies this
      ensures ok <==> delim in old(input)
      ensures ok ==> var i := IndexOf(old(input), delim);
                     0 <= i && data == old(input)[..i] && input == old(input)[i + 1..]
      ensures !ok ==> input == ""
    {
      var i := IndexOf(input, delim);
      if i < 0 {
        data, ok, input := input, false, "";
      } else {
        data, ok, input := input[..i], true, input[i + 1..];
      }
    }

    method ReadLineText() returns (line: string, ok: bool)
      modifies this
      ensures ok ==> ReadLine(old(input)) == Line(line, input)
      ensures !ok ==> ReadLine(old(input)).NoLine? && input == ""
    {
      line, ok := ReadBytes('\n');
      if ok && line != "" && line[|line| - 1] == '\r' {
        line := line[..|line| - 1];
      }
    }

    /** bufio.Reader.Read: any non-empty chunk that fits, or nothing at end of input. */
    method ReadChunk(buf: array<char>, from: nat) returns (n: nat)
      requires from < buf.Length
      modifies this, buf
      ensures n <= |old(input)| && from + n <= buf.Length
      ensures n == 0 <==> old(input) == ""
      ensures input == old(input)[n..]
      ensures buf[..from + n] == old(buf[..from]) + old(input)[..n]
    {
      if input == "" { return 0; }
      var most := if |input| < buf.Length - from then |input| else buf.Length - from;
      n :| 1 <= n <= most;
      forall i | 0 <= i < n { buf[from + i] := input[i]; }
      assert buf[..from + n] == old(buf[..from]) + old(input)[..n];
      input := input[n..];
    }

    /** Fills a buffer of the announced length, chunk by chunk. */
    method ReadCounted(length: nat) returns (body: string, ok: bool)
      modifies this
      ensures ok <==> length <= |old(input)|
      ensures ok ==> body == old(input)[..length] && input == old(input)[length..]
      ensures !ok ==> input == ""
    {
      var buf := new char[length];
      var bytesRead: nat := 0;
      while bytesRead < length
        invariant bytesRead <= length && bytesRead <= |old(input)|
        invariant buf[..bytesRead] == old(input)[..bytesRead]
        invariant input == old(input)[bytesRead..]
      {
        var n := ReadChunk(buf, bytesRead);
        if n == 0 { return "", false; }
        bytesRead := bytesRead + n;
      }
      assert buf[..length] == buf[..];
      return buf[..], true;
    }

    /** One line of the header block: an entry, the empty line that ends it, or an error. */
    method ReadHeaderLine(header: Header, ghost whole: Block) returns (done: bool, err: Option<ReadError>)
      requires header.Valid() && whole == PrependSeq(header.Entries(), ReadHeader(input))
      modifies this, header
      ensures header.Valid()
      ensures !done ==> |input| < |old(input)| && whole == PrependSeq(header.Entries(), ReadHeader(input))
      ensures done ==> whole == if err.Some? then BlockError(err.value, input) else Block(header.Entries(), input)
    {
      var line, ok := ReadLineText();
      if !ok { return true, Some(EndOfInput); }
      if line == "" {
        assert header.Entries() + [] == header.Entries();
        return true, None;
      }
      var entry, _, _ := ParseEntry(line);
      if entry.None? { return true, Some(InvalidFormat); }
      PrependAll(header.Entries(), entry.value, ReadHeader(input));
      header.Add(entry.value.key, entry.value.value);
      return false, None;
    }

    /** The header loop: adds entries until the empty line. */
    method ReadHeaderBlock() returns (header: Header, err: Option<ReadError>)
      modifies this
      ensures fresh(header) && header.Valid()
      ensures ReadHeader(old(input)) ==
              if err.Some? then BlockError(err.value, input) else Block(header.Entries(), input)
    {
      header := new Header();
      ghost var whole := ReadHeader(input);
      Unprefixed(whole);
      while true
        invariant header.Valid() && fresh(header) && whole == PrependSeq(header.Entries(), ReadHeader(input))
        decreases |input|
      {
        var done;
        done, err := ReadHeaderLine(header, whole);
        if done { return; }
      }
    }

    /** A body with a content-length, and the NUL that must follow it. */
    method ReadCountedBody(length: nat) returns (body: string, err: Option<ReadError>)
      modifies this
      ensures err == (if |old(input)| <= length then Some(EndOfInput)
                      else if old(input)[length] != '\0' then Some(InvalidFormat) else None)
      ensures input == if |old(input)| <= length then "" else old(input)[length + 1..]
      ensures err.None? ==> body == old(input)[..length]
    {
      var whole;
      body, whole := ReadCounted(length);
      if !whole || input == "" { input := ""; return body, Some(EndOfInput); }
      var terminator := input[0];
      assert input[1..] == old(input)[length + 1..];
      input := input[1..];
      err := if terminator != '\0' then Some(InvalidFormat) else None;
    }

    /** The body for a header already read. */
    method ReadBodyOf(command: Command, header: Header) returns (item: Option<Frame>, err: Option<ReadError>)
      requires header.Valid()
      modifies this
      ensures ReadBody(command, header.Entries(), old(input)) ==
              if err.Some? then Failed(err.value, input) else Got(item, input)
    {
      var body := "";
      var length := LengthOf(header);
      match length {
        case Malformed => return None, Some(BadContentLength);
        case Length(n) => body, err := ReadCountedBody(n);
        case Absent =>
          var ok;
          body, ok := ReadBytes('\0');
          err := if ok then None else Some(EndOfInput);
      }
      item := if err.None? then Some(Frame(command, header.Entries(), body)) else None;
    }

    /** Reader.Read: a frame, a heart-beat, or an error, however the body arrives in chunks. */
    method Read() returns (item: Option<Frame>, err: Option<ReadError>)
      modifies this
      ensures Parse(old(input)) == if err.Some? then Failed(err.value, input) else Got(item, input)
    {
      var text, ok := ReadLineText();
      if !ok { return None, Some(EndOfInput); }
      if text == "" { return None, None; }
      var command := CommandOf(text);
      if command.None? { return None, Some(InvalidCommand); }
      var header, bad := ReadHeaderBlock();
      if bad.Some? { return None, bad; }
      item, err := ReadBodyOf(command.value, header);
    }
  }

  /** What gets through when at most n more bytes are accepted. */
  function Cut(bytes: string, n: nat): string { if |bytes| <= n then bytes else bytes[..n] }

  lemma CutAfter(a: string, b: string, n: nat)
    requires |a| <= n
    ensures Cut(a + b, n) == a + Cut(b, n - |a|)
  {
  }

  lemma CutEarly(part: string, whole: string, n: nat)
    requires part <= whole && n < |part|
    ensures Cut(part, n) == Cut(whole, n) && n < |whole|
  {
    assert part[..n] == whole[..n];
  }

  lemma {:induction false} HeaderTextPrefix(h: seq<Entry>, i: nat)
    requires i < |h|
    ensures HeaderText(h[..i + 1]) == HeaderText(h[..i]) + (EntryLine(h[i]) + "\n")
    ensures HeaderText(h[..i + 1]) <= HeaderText(h)
  {
    if i == 0 {
      assert h[..1][1..] == [];
    } else {
      assert h[..i + 1][1..] == h[1..][..i] && h[..i][1..] == h[1..][..i - 1];
      HeaderTextPrefix(h[1..], i - 1);
    }
  }

  lemma HeaderStep(h: seq<Entry>, i: nat, done: string)
    requires i < |h|
    ensures done + HeaderText(h[..i]) + (EntryLine(h[i]) + "\n") == done + HeaderText(h[..i + 1])
    ensures done + HeaderText(h[..i + 1]) <= done + HeaderText(h)
  {
    HeaderTextPrefix(h, i);
    Shift(done, HeaderText(h[..i]), EntryLine(h[i]) + "\n", HeaderText(h));
  }

  lemma Shift(done: string, a: string, b: string, whole: string)
    requires a + b <= whole
    ensures done + a + b == done + (a + b) && done + (a + b) <= done + whole
  {
  }

  /** The connection accepts `room` more bytes and then fails; the bytes it got are `output`. */
  class Writer {
    var output: string
    var room: nat

    /** The state after trying to send `bytes` to a connection with room for n. */
    ghost predicate Sent(start: string, n: nat, bytes: string)
      reads this
    {
      output == start + Cut(bytes, n) && room == n - |Cut(bytes, n)|
    }

    /** One more write after `done` has been accepted; early failure of a part fails the whole. */
    method Put(bytes: string, ghost start: string, ghost n: nat, ghost done: string, ghost all: string)
      returns (ok: bool)
      requires Sent(start, n, done) && |done| <= n && done + bytes <= all
      modifies this
      ensures ok <==> |done + bytes| <= n
      ensures Sent(start, n, done + bytes)
      ensures !ok ==> Sent(start, n, all) && n < |all|
    {
      CutAfter(done, bytes, n);
      ok := |bytes| <= room;
      var through := Cut(bytes, room);
      output, room := output + through, room - |through|;
      if !ok { CutEarly(done + bytes, all, n); }
    }

    /** One header line, in the four writes of the source. */
    method PutEntry(e: Entry, ghost start: string, ghost n: nat, ghost done: string, ghost all: string)
      returns (ok: bool)
      requires Sent(start, n, done) && |done| <= n && done + (EntryLine(e) + "\n") <= all
      modifies this
      ensures ok <==> |done + (EntryLine(e) + "\n")| <= n
      ensures Sent(start, n, done + (EntryLine(e) + "\n"))
      ensures !ok ==> Sent(start, n, all) && n < |all|
    {
      ghost var line := done + (EntryLine(e) + "\n");
      ghost var d1 := done + Encode(e.key);
      ghost var d2 := d1 + ":";
      ghost var d3 := d2 + Encode(e.value);
      assert line == d3 + "\n";
      ok := Put(Encode(e.key), start, n, done, line);
      if ok { ok := Put(":", start, n, d1, line); }
      if ok { ok := Put(Encode(e.value), start, n, d2, line); }
      if ok { ok := Put("\n", start, n, d3, line); }
      if !ok { CutEarly(line, all, n); }
    }

    /** The header loop of Writer.Write. */
    method PutHeader(h: seq<Entry>, ghost start: string, ghost n: nat, ghost done: string, ghost all: string)
      returns (ok: bool)
      requires Sent(start, n, done) && |done| <= n && done + HeaderText(h) <= all
      modifies this
      ensures ok <==> |done + HeaderText(h)| <= n
      ensures ok ==> Sent(start, n, done + HeaderText(h))
      ensures !ok ==> Sent(start, n, all) && n < |all|
    {
      ok := true;
      var i := 0;
      ghost var d := done;
      while i < |h|
        invariant 0 <= i <= |h| && ok
        invariant d == done + HeaderText(h[..i])
        invariant |d| <= n && Sent(start, n, d)
      {
        HeaderStep(h, i, done);
        ok := PutEntry(h[i], start, n, d, all);
        if !ok { return; }
        d := done + HeaderText(h[..i + 1]);
        i := i + 1;
      }
      assert h[..i] == h;
    }

    /** Writer.Write: succeeds exactly when all the bytes fit, and otherwise sends a proper prefix. */
    method Write(item: Option<Frame>) returns (ok: bool)
      modifies this
      ensures ok <==> |Serialise(item)| <= old(room)
      ensures output == old(output) + Cut(Serialise(item), old(room))
      ensures room == old(room) - |Cut(Serialise(item), old(room))|
    {
      ghost var start, n, all := output, room, Serialise(item);
      match item
      case None =>
        assert "" + "\n" == all;
        ok := Put("\n", start, n, "", all);
      case Some(f) =>
        var name := CommandText(f.command);
        ghost var d1 := name + "\n";
        ghost var d2 := d1 + HeaderText(f.header);
        ghost var d3 := d2 + "\n";
        ghost var d4 := d3 + f.body;
        assert all == d4 + "\0";
        assert "" + name == name;
        ok := Put(name, start, n, "", all);
        if !ok { return; }
        ok := Put("\n", start, n, name, all);
        if !ok { return; }
        ok := PutHeader(f.header, start, n, d1, all);
        if !ok { return; }
        ok := Put("\n", start, n, d2, all);
        if !ok { return; }
        if |f.body| > 0 {
          ok := Put(f.body, start, n, d3, all);
          if !ok { return; }
        }
        assert |f.body| == 0 ==> d4 == d3;
        ok := Put("\0", start, n, d4, all);
    }

    /** The items written one after another until a write fails, as every caller does: n writes succeed,
        and they are exactly the items whose bytes all fit. */
    method WriteAll(items: seq<Option<Frame>>) returns (n: nat)
      modifies this
      ensures n == Complete(items, old(room))
      ensures output == old(output) + Cut(SerialiseAll(items), old(room))
      decreases |items|
    {
      if items == [] { return 0; }
      ghost var start, bytes, more := output, Serialise(items[0]), SerialiseAll(items[1..]);
      CutItems(items, room);
      var ok := Write(items[0]);
      if !ok { return 0; }
      n := WriteAll(items[1..]);
      n := n + 1;
      Reassociate(start, bytes, Cut(more, old(room) - |bytes|));
    }

    /** What arrives at the other end reads back as exactly the items whose writes succeeded. */
    method Transmit(items: seq<Option<Frame>>) returns (n: nat)
      requires output == ""
      modifies this
      ensures n == Complete(items, old(room))
      ensures AllWellFormed(items) ==> ParseAll(output) == (items[..n], EndOfInput)
    {
      WrittenReadsBack(items, room);
      ghost var arrived := Cut(SerialiseAll(items), room);
      n := WriteAll(items);
      assert "" + arrived == arrived;
    }
  }

  lemma Reassociate(a: string, b: string, c: string)
    ensures (a + b) + c == a + (b + c)
  {
  }

  /** What a connection with room for n bytes takes of a list of items. */
  lemma CutItems(items: seq<Option<Frame>>, n: nat)
    requires items != []
    ensures var bytes, rest := Serialise(items[0]), items[1..];
            if |bytes| <= n
            then Cut(SerialiseAll(items), n) == bytes + Cut(SerialiseAll(rest), n - |bytes|)
                 && Complete(items, n) == 1 + Complete(rest, n - |bytes|) && Cut(bytes, n) == bytes
            else Cut(SerialiseAll(items), n) == Cut(bytes, n) && Complete(items, n) == 0
  {
    var bytes, rest := Serialise(items[0]), items[1..];
    if |bytes| <= n {
      CutAfter(bytes, SerialiseAll(rest), n);
    } else {
      CutEarly(bytes, bytes + SerialiseAll(rest), n);
    }
  }

  /** What the receiving end of a failing connection makes of the bytes it got. */
  lemma WrittenReadsBack(items: seq<Option<Frame>>, room: nat)
    ensures AllWellFormed(items) ==>
              ParseAll(Cut(SerialiseAll(items), room)) == (items[..Complete(items, room)], EndOfInput)
  {
    var wire := SerialiseAll(items);
    if AllWellFormed(items) {
      if |wire| <= room {
        StreamRoundTrip(items);
        AllFit(items, room);
        assert items[..|items|] == items;
      } else {
        assert wire == wire[..room] + wire[room..];
        CutStream(items, wire[..room], wire[room..]);
      }
    }
  }

  lemma {:induction false} AllFit(items: seq<Option<Frame>>, room: nat)
    requires |SerialiseAll(items)| <= room
    ensures Complete(items, room) == |items|
  {
    if items != [] { AllFit(items[1..], room - |Serialise(items[0])|); }
  }
}
