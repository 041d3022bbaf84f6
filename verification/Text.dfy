/** Byte strings and decimal numbers. A Go string or byte slice is a Dafny string, one char per
    byte; nothing here or in the codec depends on the size of the alphabet. */
module Text {

  datatype Option<+T> = None | Some(value: T)

  /** The first index of c in s, or -1 (bytes.IndexByte). */
  function IndexOf(s: string, c: char): (r: int)
    ensures -1 <= r < |s|
    ensures r >= 0 ==> s[r] == c && c !in s[..r]
    ensures r < 0 ==> c !in s
  {
    if s == "" then -1
    else if s[0] == c then 0
    else
      var r := IndexOf(s[1..], c);
      assert r >= 0 ==> s[..r + 1] == [s[0]] + s[1..][..r];
      assert s == [s[0]] + s[1..];
      if r < 0 then -1 else r + 1
  }

  lemma IndexOfFirst(a: string, c: char, b: string)
    requires c !in a
    ensures IndexOf(a + [c] + b, c) == |a|
  {
    var s := a + [c] + b;
    assert s[|a|] == c;
    var r := IndexOf(s, c);
    assert c in s;
    assert forall i :: 0 <= i < |a| ==> s[i] == a[i];
    assert forall k :: |a| < k <= |s| ==> s[..k][|a|] == c;
  }

  predicate IsDigit(c: char) { '0' <= c <= '9' }

  predicate AllDigits(s: string) { forall i :: 0 <= i < |s| ==> IsDigit(s[i]) }

  function DigitsValue(s: string): nat
    requires AllDigits(s)
  {
    if s == "" then 0
    else 10 * DigitsValue(s[..|s| - 1]) + (s[|s| - 1] as int - '0' as int)
  }

  /** strconv.ParseUint in base 10: one or more digits whose value is below the limit. */
  function ParseUint(s: string, limit: nat): Option<nat> {
    if s != "" && AllDigits(s) && DigitsValue(s) < limit then Some(DigitsValue(s)) else None
  }

  const POW32: nat := 0x1_0000_0000
  const POW63: nat := 0x8000_0000_0000_0000
  const POW64: nat := 0x1_0000_0000_0000_0000

  /** Decimal formatting of a natural number (strconv.FormatUint, "%d"). */
  function Decimal(n: nat): (s: string)
    ensures s != "" && AllDigits(s) && DigitsValue(s) == n
  {
    var last := [(n % 10 + '0' as int) as char];
    if n < 10 then last
    else
      var front := Decimal(n / 10);
      assert (front + last)[..|front + last| - 1] == front;
      front + last
  }

  function Pow10(k: nat): nat { if k == 0 then 1 else 10 * Pow10(k - 1) }

  lemma {:induction false} DecimalLength(n: nat, k: nat)
    requires k > 0 && n < Pow10(k)
    ensures |Decimal(n)| <= k
  {
    if n >= 10 { DecimalLength(n / 10, k - 1); }
  }

  /** Decimal writes one of the ten digits after another, without a zero in front. */
  lemma DecimalByDigit(a: nat, d: nat)
    requires d < 10
    ensures Decimal(d) == ["0123456789"[d]]
    ensures a > 0 ==> Decimal(10 * a + d) == Decimal(a) + ["0123456789"[d]]
  {
    assert "0123456789"[d] == (d + '0' as int) as char;
  }

  function Zeros(k: nat): string { seq(k, i => '0') }

  lemma TenCharacters(s: string)
    ensures AllDigits(s) <==> forall i :: 0 <= i < |s| ==> s[i] in "0123456789"
  {
    forall c: char ensures IsDigit(c) <==> c in "0123456789" {
      if IsDigit(c) { assert "0123456789"[c as int - '0' as int] == c; }
    }
  }

  lemma {:induction false} ZerosInFront(k: nat, s: string)
    requires AllDigits(s)
    ensures AllDigits(Zeros(k) + s) && DigitsValue(Zeros(k) + s) == DigitsValue(s)
    decreases |s|, k
  {
    var t := Zeros(k) + s;
    if s != "" {
      ZerosInFront(k, s[..|s| - 1]);
      assert t[..|t| - 1] == Zeros(k) + s[..|s| - 1];
    } else if k > 0 {
      ZerosInFront(k - 1, "");
      assert t[..|t| - 1] == Zeros(k - 1) + "" && t[|t| - 1] == '0';
    }
  }

  lemma OneMoreDigit(front: string, last: char, k: nat, m: nat)
    requires front == Zeros(k) + Decimal(m) && IsDigit(last)
    ensures var d := last as int - '0' as int;
            front + [last] == if m == 0 then Zeros(k + 1) + Decimal(d) else Zeros(k) + Decimal(10 * m + d)
  {
    var d := last as int - '0' as int;
    DecimalByDigit(m, d);
    DecimalByDigit(0, 0);
    if m == 0 {
      assert Zeros(k + 1) == Zeros(k) + "0";
    } else {
      assert Zeros(k) + (Decimal(m) + [last]) == (Zeros(k) + Decimal(m)) + [last];
    }
  }

  lemma {:induction false} DigitsAreDecimal(s: string) returns (k: nat)
    requires s != "" && AllDigits(s)
    ensures s == Zeros(k) + Decimal(DigitsValue(s))
    decreases |s|
  {
    var front, last := s[..|s| - 1], s[|s| - 1];
    assert s == front + [last];
    k := 0;
    if front == "" {
      DecimalByDigit(0, last as int - '0' as int);
      assert Zeros(0) + [last] == s;
    } else {
      k := DigitsAreDecimal(front);
      OneMoreDigit(front, last, k, DigitsValue(front));
      if DigitsValue(front) == 0 { k := k + 1; }
    }
  }

  /** A text is read as a number exactly if it is that number in decimal behind any number of zeros, and the number
      is below the limit. */
  lemma NumbersExactly(s: string, limit: nat, n: nat)
    ensures ParseUint(s, limit) == Some(n) <==> n < limit && exists k: nat :: s == Zeros(k) + Decimal(n)
  {
    if ParseUint(s, limit) == Some(n) { var k := DigitsAreDecimal(s); }
    forall k: nat | s == Zeros(k) + Decimal(n) ensures AllDigits(s) && DigitsValue(s) == n && s != "" {
      ZerosInFront(k, Decimal(n));
    }
  }

  /** strings.Split with a one-byte separator. */
  function Split(s: string, sep: char): (parts: seq<string>)
    ensures |parts| > 0
    ensures forall i :: 0 <= i < |parts| ==> sep !in parts[i]
    decreases |s|
  {
    var i := IndexOf(s, sep);
    if i < 0 then [s] else [s[..i]] + Split(s[i + 1..], sep)
  }

  /** strings.Join with a one-byte separator. */
  function Join(parts: seq<string>, sep: char): string
    requires |parts| > 0
  {
    if |parts| == 1 then parts[0] else parts[0] + [sep] + Join(parts[1..], sep)
  }

  lemma {:induction false} SplitJoin(parts: seq<string>, sep: char)
    requires |parts| > 0
    requires forall i :: 0 <= i < |parts| ==> sep !in parts[i]
    ensures Split(Join(parts, sep), sep) == parts
  {
    if |parts| > 1 {
      var rest := Join(parts[1..], sep);
      IndexOfFirst(parts[0], sep, rest);
      var s := parts[0] + [sep] + rest;
      assert s[..|parts[0]|] == parts[0] && s[|parts[0]| + 1..] == rest;
      SplitJoin(parts[1..], sep);
      assert parts == [parts[0]] + parts[1..];
    } else {
      assert parts == [parts[0]];
    }
  }

  /** Splitting loses nothing. */
  lemma {:induction false} JoinSplit(s: string, sep: char)
    ensures Join(Split(s, sep), sep) == s
    decreases |s|
  {
    var i := IndexOf(s, sep);
    if i >= 0 {
      JoinSplit(s[i + 1..], sep);
      var rest := Split(s[i + 1..], sep);
      assert ([s[..i]] + rest)[1..] == rest;
      assert s == s[..i] + [sep] + s[i + 1..];
    }
  }

  lemma TwoParts(s: string, sep: char, a: string, b: string)
    ensures Split(s, sep) == [a, b] <==> s == a + [sep] + b && sep !in a && sep !in b
  {
    var p := [a, b];
    assert p[1..] == [b] && Join([b], sep) == b && Join(p, sep) == a + [sep] + b;
    if Split(s, sep) == p {
      JoinSplit(s, sep);
      assert p[0] == a && p[1] == b;
    }
    if s == a + [sep] + b && sep !in a && sep !in b { SplitJoin(p, sep); }
  }
}
