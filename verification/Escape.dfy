/** Header value encoding (frame/encode.go). */
module Escape {
  import opened Text

  /** One old/new pair of a strings.NewReplacer. */
  datatype Rule = Rule(pattern: string, text: string)

  ghost predicate Usable(rules: seq<Rule>) {
    forall i :: 0 <= i < |rules| ==> |rules[i].pattern| > 0
  }

  /** The first rule, in argument order, whose pattern starts s. */
  function FirstMatch(rules: seq<Rule>, s: string): (m: Option<Rule>)
    ensures m.Some? ==> m.value in rules && m.value.pattern <= s
    ensures m.None? ==> forall i :: 0 <= i < |rules| ==> !(rules[i].pattern <= s)
  {
    if rules == [] then None
    else if rules[0].pattern <= s then Some(rules[0])
    else FirstMatch(rules[1..], s)
  }

  /** strings.Replacer.Replace: left to right, without overlapping matches. */
  function Replace(rules: seq<Rule>, s: string): (r: string)
    requires Usable(rules)
    decreases |s|
  {
    if s == "" then ""
    else match FirstMatch(rules, s)
      case Some(m) => m.text + Replace(rules, s[|m.pattern|..])
      case None => [s[0]] + Replace(rules, s[1..])
  }

  const ENCODE_RULES: seq<Rule> :=
    [Rule("\\", "\\\\"), Rule("\r", "\\r"), Rule("\n", "\\n"), Rule(":", "\\c")]

  const DECODE_RULES: seq<Rule> :=
    [Rule("\\r", "\r"), Rule("\\n", "\n"), Rule("\\c", ":"), Rule("\\\\", "\\")]

  function Encode(s: string): string { Replace(ENCODE_RULES, s) }

  function Decode(s: string): string { Replace(DECODE_RULES, s) }

  function EncodeChar(c: char): string {
    if c == '\\' then "\\\\"
    else if c == '\r' then "\\r"
    else if c == '\n' then "\\n"
    else if c == ':' then "\\c"
    else [c]
  }

  lemma EncodeCons(c: char, s: string)
    ensures Encode([c] + s) == EncodeChar(c) + Encode(s)
  {
    var t := [c] + s;
    assert t[1..] == s && t[0] == c;
    var m := FirstMatch(ENCODE_RULES, t);
    if m.None? {
      assert !(ENCODE_RULES[0].pattern <= t) && !(ENCODE_RULES[1].pattern <= t);
      assert !(ENCODE_RULES[2].pattern <= t) && !(ENCODE_RULES[3].pattern <= t);
    }
  }

  lemma DecodeEncodedChar(c: char, s: string)
    ensures Decode(EncodeChar(c) + s) == [c] + Decode(s)
  {
    var t := EncodeChar(c) + s;
    var m := FirstMatch(DECODE_RULES, t);
    if |EncodeChar(c)| == 2 {
      assert t[2..] == s;
      assert DECODE_RULES[0].pattern <= t <==> t[1] == 'r';
      assert DECODE_RULES[1].pattern <= t <==> t[1] == 'n';
      assert DECODE_RULES[2].pattern <= t <==> t[1] == 'c';
      assert DECODE_RULES[3].pattern <= t <==> t[1] == '\\';
    } else {
      assert t[1..] == s && t[0] == c;
    }
  }

  /** Every header string survives being written and read back. */
  lemma {:induction false} DecodeEncode(s: string)
    ensures Decode(Encode(s)) == s
  {
    if s != "" {
      assert s == [s[0]] + s[1..];
      EncodeCons(s[0], s[1..]);
      DecodeEncodedChar(s[0], Encode(s[1..]));
      DecodeEncode(s[1..]);
    }
  }

  /** An encoded string holds none of the bytes that delimit a header line, and only the empty
      string encodes to the empty string. */
  lemma {:induction false} EncodedIsLineSafe(s: string)
    ensures '\n' !in Encode(s) && '\r' !in Encode(s) && ':' !in Encode(s)
    ensures Encode(s) == "" <==> s == ""
  {
    if s != "" {
      assert s == [s[0]] + s[1..];
      EncodeCons(s[0], s[1..]);
      EncodedIsLineSafe(s[1..]);
    }
  }

  /** Unknown escapes pass through unchanged: a string without one of the four sequences is its
      own decoding. */
  lemma {:induction false} DecodePlain(s: string)
    requires forall i :: 0 <= i < |s| - 1 && s[i] == '\\' ==> s[i + 1] !in "rnc\\"
    ensures Decode(s) == s
  {
    if s != "" {
      assert forall r :: r in DECODE_RULES ==>
          |r.pattern| == 2 && r.pattern[0] == '\\' && r.pattern[1] in "rnc\\";
      DecodePlain(s[1..]);
    }
  }

  /** A non-empty name never decodes to the empty one. */
  lemma DecodeNonEmpty(s: string)
    ensures Decode(s) == "" <==> s == ""
  {
    if s != "" {
      var m := FirstMatch(DECODE_RULES, s);
      if m.Some? { assert |m.value.text| == 1; }
    }
  }

  /** Escaping replaces backslash, CR, LF and colon, each by its own pair, and nothing else. */
  lemma EscapesAre(c: char, s: string)
    ensures Encode([c] + s) ==
            (match c case '\\' => "\\\\" case '\r' => "\\r" case '\n' => "\\n" case ':' => "\\c" case _ => [c]) + Encode(s)
    ensures Encode("") == "" && Decode("") == ""
  {
    EncodeCons(c, s);
  }

  /** Unescaping replaces exactly these pairs, and leaves everything but backslashes as it is. */
  lemma UnescapesAre(c: char, s: string)
    ensures Decode("\\\\" + s) == "\\" + Decode(s) && Decode("\\r" + s) == "\r" + Decode(s)
    ensures Decode("\\n" + s) == "\n" + Decode(s) && Decode("\\c" + s) == ":" + Decode(s)
    ensures c != '\\' ==> Decode([c] + s) == [c] + Decode(s)
  {
    DecodeEncodedChar('\\', s);
    DecodeEncodedChar('\r', s);
    DecodeEncodedChar('\n', s);
    DecodeEncodedChar(':', s);
    if c != '\\' { DecodeOther(c, s); }
  }

  lemma DecodeOther(c: char, s: string)
    requires c != '\\'
    ensures Decode([c] + s) == [c] + Decode(s)
  {
    var t := [c] + s;
    assert t[1..] == s && t[0] == c;
    assert forall r :: r in DECODE_RULES ==> r.pattern[0] == '\\';
  }
}
