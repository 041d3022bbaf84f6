/** Protocol version and heart-beat negotiation (server/client/frame.go, server/client/conn.go,
    server/client/util.go, frame/heartbeat.go, conn_options.go, conn.go). */
module Negotiation {
  import opened Text
  import opened Frames

  datatype Result<T> = Ok(value: T) | Err(error: Refusal)

  datatype Refusal = NotConnectFrame | MissingAcceptVersion | UnknownVersion | InvalidHeartBeat
                   | ReceiptInConnect | AuthenticationFailed | UnsupportedVersion

  // ---------- versions ----------

  const V10 := "1.0"
  const V11 := "1.1"
  const V12 := "1.2"

  predicate Known(v: string) { v == V10 || v == V11 || v == V12 }

  /** Byte-wise lexicographic order. */
  predicate Before(a: string, b: string) {
    a == "" || (b != "" && (a[0] < b[0] || (a[0] == b[0] && Before(a[1..], b[1..]))))
  }

  ghost predicate Sorted(l: seq<string>) { forall i, j :: 0 <= i < j < |l| ==> Before(l[i], l[j]) }

  lemma {:induction false} BeforeTotal(a: string, b: string)
    ensures Before(a, b) || Before(b, a)
  {
    if a != "" && b != "" { BeforeTotal(a[1..], b[1..]); }
  }

  lemma {:induction false} BeforeTransitive(a: string, b: string, c: string)
    requires Before(a, b) && Before(b, c)
    ensures Before(a, c)
  {
    if a != "" && a[0] == b[0] == c[0] { BeforeTransitive(a[1..], b[1..], c[1..]); }
  }

  /** sort.Strings. */
  method SortStrings(l: seq<string>) returns (r: seq<string>)
    ensures Sorted(r) && multiset(r) == multiset(l)
  {
    r := [];
    var i := 0;
    while i < |l|
      invariant 0 <= i <= |l| && Sorted(r) && multiset(r) == multiset(l[..i])
    {
      assert l[..i + 1] == l[..i] + [l[i]];
      r := Insert(r, l[i]);
      i := i + 1;
    }
    assert l[..i] == l;
  }

  method Insert(l: seq<string>, x: string) returns (r: seq<string>)
    requires Sorted(l)
    ensures Sorted(r) && multiset(r) == multiset(l) + multiset{x}
  {
    var i := 0;
    while i < |l| && Before(l[i], x)
      invariant 0 <= i <= |l|
      invariant forall j :: 0 <= j < i ==> Before(l[j], x)
    {
      i := i + 1;
    }
    if i < |l| {
      BeforeTotal(l[i], x);
      forall j | i <= j < |l| ensures Before(x, l[j]) {
        if j > i { BeforeTransitive(x, l[i], l[j]); }
      }
    }
    r := l[..i] + [x] + l[i..];
    Inserted(l, x, i);
  }

  lemma Inserted(l: seq<string>, x: string, i: nat)
    requires Sorted(l) && i <= |l| && (forall j :: 0 <= j < i ==> Before(l[j], x))
    requires forall j :: i <= j < |l| ==> Before(x, l[j])
    ensures var r := l[..i] + [x] + l[i..]; Sorted(r) && multiset(r) == multiset(l) + multiset{x}
  {
    assert l == l[..i] + l[i..];
    var r := l[..i] + [x] + l[i..];
    forall a, b | 0 <= a < b < |r| ensures Before(r[a], r[b]) {
      if a < i && b > i { assert r[a] == l[a] && r[b] == l[b - 1]; }
    }
  }

  /** The greatest known version among the tokens. */
  function Greatest(tokens: set<string>): Result<string> {
    if V12 in tokens then Ok(V12)
    else if V11 in tokens then Ok(V11)
    else if V10 in tokens then Ok(V10)
    else Err(UnknownVersion)
  }

  function Offered(l: seq<string>): set<string> { set v | v in l }

  function Tokens(text: string): set<string> { Offered(Split(text, ',')) }

  /** The version that determineVersion settles on. */
  function VersionFor(f: Frame): Result<string> {
    if f.command != Connect && f.command != Stomp then Err(NotConnectFrame)
    else
      match Lookup(f.header, ACCEPT_VERSION)
      case Some(text) => Greatest(Tokens(text))
      case None => if f.command == Connect then Ok(V10) else Err(MissingAcceptVersion)
  }

  lemma SameTokens(a: seq<string>, b: seq<string>)
    requires multiset(a) == multiset(b)
    ensures Offered(a) == Offered(b)
  {
    assert forall v :: v in a <==> v in multiset(a);
    assert forall v :: v in b <==> v in multiset(b);
  }

  /** The loop over the sorted tokens: start with an error, and let every known version replace it. */
  method LastKnown(versions: seq<string>) returns (r: Result<string>)
    requires Sorted(versions)
    ensures r == Greatest(Offered(versions))
  {
    r := Err(UnknownVersion);
    var i := 0;
    while i < |versions|
      invariant 0 <= i <= |versions| && r == Greatest(Offered(versions[..i]))
    {
      LastIsGreatest(versions, i);
      if Known(versions[i]) { r := Ok(versions[i]); }
      i := i + 1;
    }
    assert versions[..i] == versions;
  }

  /** Sorts the tokens and keeps the last known one: the greatest, whatever the order of the tokens. */
  method DetermineVersion(f: Frame) returns (r: Result<string>)
    ensures r == VersionFor(f)
  {
    var isConnect := f.command == Connect;
    if !isConnect && f.command != Stomp { return Err(NotConnectFrame); }
    var acceptVersion := Lookup(f.header, ACCEPT_VERSION);
    if acceptVersion.Some? {
      var tokens := Split(acceptVersion.value, ',');
      var versions := SortStrings(tokens);
      SameTokens(versions, tokens);
      r := LastKnown(versions);
    } else if isConnect {
      r := Ok(V10);
    } else {
      r := Err(MissingAcceptVersion);
    }
  }

  lemma Ordered()
    ensures !Before(V12, V11) && !Before(V12, V10) && !Before(V11, V10)
  {
    assert V12[1..] == ".2" && V11[1..] == ".1" && V10[1..] == ".0";
    assert ".2"[1..] == "2" && ".1"[1..] == "1" && ".0"[1..] == "0";
  }

  lemma LastIsGreatest(l: seq<string>, i: nat)
    requires Sorted(l) && i < |l|
    ensures Greatest(Offered(l[..i + 1])) ==
            if Known(l[i]) then Ok(l[i]) else Greatest(Offered(l[..i]))
  {
    Ordered();
    assert l[..i + 1] == l[..i] + [l[i]];
    assert forall v :: v in l[..i] ==> Before(v, l[i]);
    assert Offered(l[..i + 1]) == Offered(l[..i]) + {l[i]};
  }

  /** Order and unknown tokens do not matter: requests that offer the same known versions get the same
      answer, and the negotiation fails exactly when none is offered. */
  lemma OrderDoesNotMatter(a: string, b: string)
    requires forall v :: Known(v) ==> (v in Tokens(a) <==> v in Tokens(b))
    ensures Greatest(Tokens(a)) == Greatest(Tokens(b))
    ensures Greatest(Tokens(a)).Err? <==> forall v :: Known(v) ==> v !in Tokens(a)
    ensures forall v :: Known(v) && v in Tokens(a) ==>
                          Greatest(Tokens(a)).Ok? && Before(v, Greatest(Tokens(a)).value)
  {
    assert Known(V10) && Known(V11) && Known(V12);
    InOrder();
  }

  lemma InOrder()
    ensures Before(V10, V10) && Before(V10, V11) && Before(V10, V12)
    ensures Before(V11, V11) && Before(V11, V12) && Before(V12, V12)
  {
    assert V12[1..] == ".2" && V11[1..] == ".1" && V10[1..] == ".0";
    assert ".2"[1..] == "2" && ".1"[1..] == "1" && ".0"[1..] == "0";
    assert "2"[1..] == "" && "1"[1..] == "" && "0"[1..] == "";
  }

  /** What the client offers is what the server reads. */
  lemma OfferedVersions(offers: seq<string>)
    requires |offers| > 0 && forall i :: 0 <= i < |offers| ==> ',' !in offers[i]
    ensures Greatest(Tokens(Join(offers, ','))) == Greatest(Offered(offers))
  {
    SplitJoin(offers, ',');
  }

  // ---------- heart-beats ----------

  const MS := 1_000_000
  const MAX_HEART_BEAT := 999_999_999
  /** The largest number of milliseconds in a time.Duration. */
  const MAX_MS: nat := 9_223_372_036_854

  /** 64-bit addition. */
  function Add64(a: int, b: int): int {
    if a + b >= POW63 then a + b - POW64 else if a + b < 0 - POW63 then a + b + POW64 else a + b
  }

  /** Go's integer division by a millisecond truncates toward zero. */
  function Millis(d: int): int { if d >= 0 then d / MS else -(-d / MS) }

  function FormatInt(n: int): string { if n >= 0 then Decimal(n) else "-" + Decimal(-n) }

  /** The value of a heart-beat header. */
  function Pair(a: int, b: int): string { FormatInt(a) + "," + FormatInt(b) }

  /** The shape both regular expressions describe: two runs of digits with a comma between them. */
  predicate TwoNumbers(parts: seq<string>) {
    |parts| == 2 && parts[0] != "" && AllDigits(parts[0]) && parts[1] != "" && AllDigits(parts[1])
  }

  /** getHeartBeat of the server: at most nine digits each. */
  function ServerParse(text: string): Result<(nat, nat)> {
    var p := Split(text, ',');
    if TwoNumbers(p) && |p[0]| <= 9 && |p[1]| <= 9 then Ok((DigitsValue(p[0]), DigitsValue(p[1])))
    else Err(InvalidHeartBeat)
  }

  /** ParseHeartBeat: the two durations. */
  function ParseHeartBeat(text: string): Result<(nat, nat)> {
    var p := Split(text, ',');
    if !TwoNumbers(p) then Err(InvalidHeartBeat)
    else
      match (ParseUint(p[0], POW63), ParseUint(p[1], POW63))
      case (Some(a), Some(b)) =>
        if a > MAX_MS || b > MAX_MS then Err(InvalidHeartBeat) else Ok((a * MS, b * MS))
      case _ => Err(InvalidHeartBeat)
  }

  /** asMilliseconds: a duration in milliseconds, at most max. */
  function AsMilliseconds(d: int, max: int): int {
    var m := if max < 0 then 0 else max;
    if Millis(d) > m then m else Millis(d)
  }

  /** The server insists on its own minimum unless the direction is off. */
  function Raise(c: nat, min: int): nat { if c > 0 && c < min then min else c }

  /** What the two ends have settled on, in nanoseconds; zero means off. */
  datatype Settled = Settled(serverRead: nat, serverWrite: nat, clientRead: int, clientWrite: int)

  /** ConnectWithContext, from the CONNECTED frame's durations. */
  function ClientSide(read: nat, write: nat, optRead: int, slack: int): (int, int) {
    var r := if read < optRead then optRead else read;
    (if r > 0 then Add64(r, slack) else r, if write > slack then write - slack else write)
  }

  /** The whole exchange: the client's options write and read, its error allowance slack, and the server's
      configured heart-beat. */
  function Negotiate(write: int, read: int, slack: int, server: int): Result<Settled> {
    match ServerParse(Pair(Millis(write), Millis(read)))
    case Err(e) => Err(e)
    case Ok((cx, cy)) =>
      var min := AsMilliseconds(server, MAX_HEART_BEAT);
      var sx, sy := Raise(cx, min), Raise(cy, min);
      match ParseHeartBeat(Pair(sy, sx))
      case Err(e) => Err(e)
      case Ok((r, w)) =>
        var c := ClientSide(r, w, read, slack);
        Ok(Settled(sx * MS, sy * MS, c.0, c.1))
  }

  lemma {:induction false} DigitsBound(s: string)
    requires AllDigits(s)
    ensures DigitsValue(s) < Pow10(|s|)
  {
    if s != "" { DigitsBound(s[..|s| - 1]); }
  }

  lemma TenDigits()
    ensures Pow10(9) == 1_000_000_000
  {
    assert Pow10(3) == 1000;
    assert Pow10(6) == 1_000_000;
  }

  lemma PairSplit(a: int, b: int)
    ensures Split(Pair(a, b), ',') == [FormatInt(a), FormatInt(b)]
  {
    var parts := [FormatInt(a), FormatInt(b)];
    assert parts[1..] == [FormatInt(b)];
    assert Join(parts, ',') == Pair(a, b);
    NoComma(a);
    NoComma(b);
    SplitJoin(parts, ',');
  }

  lemma NoComma(a: int)
    ensures ',' !in FormatInt(a)
    ensures AllDigits(FormatInt(a)) <==> a >= 0
  {
    if a >= 0 {
      assert AllDigits(Decimal(a));
    } else {
      assert AllDigits(Decimal(-a)) && FormatInt(a)[0] == '-';
    }
  }

  /** The server reads back exactly the numbers the client wrote, if they are in range. */
  lemma ServerAccepts(a: int, b: int)
    ensures ServerParse(Pair(a, b)) ==
            if 0 <= a <= MAX_HEART_BEAT && 0 <= b <= MAX_HEART_BEAT then Ok((a, b)) else Err(InvalidHeartBeat)
  {
    PairSplit(a, b);
    NoComma(a);
    NoComma(b);
    NineDigits(a);
    NineDigits(b);
  }

  /** Two non-empty runs of digits with a comma between them. */
  ghost predicate PairText(text: string, a: string, b: string) {
    && text == a + "," + b && a != "" && b != ""
    && (forall i :: 0 <= i < |a| ==> a[i] in "0123456789") && forall i :: 0 <= i < |b| ==> b[i] in "0123456789"
  }

  lemma PairTextExactly(text: string)
    ensures TwoNumbers(Split(text, ',')) ==> PairText(text, Split(text, ',')[0], Split(text, ',')[1])
    ensures forall a, b :: PairText(text, a, b) ==> Split(text, ',') == [a, b] && TwoNumbers([a, b])
  {
    var p := Split(text, ',');
    if TwoNumbers(p) {
      assert p == [p[0], p[1]];
      TwoParts(text, ',', p[0], p[1]);
      TenCharacters(p[0]);
      TenCharacters(p[1]);
    }
    forall a, b | PairText(text, a, b) ensures Split(text, ',') == [a, b] && TwoNumbers([a, b]) {
      TenCharacters(a);
      TenCharacters(b);
      TwoParts(text, ',', a, b);
    }
  }

  /** The server takes exactly the heart-beat headers with two runs of one to nine digits. */
  lemma ServerReadsExactly(text: string)
    ensures ServerParse(text).Ok? <==> exists a, b :: PairText(text, a, b) && |a| <= 9 && |b| <= 9
    ensures forall a, b :: PairText(text, a, b) && |a| <= 9 && |b| <= 9 ==>
                             && ParseUint(a, 1_000_000_000) == Some(ServerParse(text).value.0)
                             && ParseUint(b, 1_000_000_000) == Some(ServerParse(text).value.1)
  {
    PairTextExactly(text);
    TenDigits();
    forall a | AllDigits(a) && |a| <= 9 ensures DigitsValue(a) < 1_000_000_000 {
      DigitsBound(a);
      PowMonotone(|a|, 9);
    }
  }

  /** The client takes exactly those with two runs of digits that fit a duration in milliseconds. */
  lemma ClientReadsExactly(text: string)
    ensures ParseHeartBeat(text).Ok? <==>
            exists a, b :: PairText(text, a, b) && ParseUint(a, 9_223_372_036_855).Some? && ParseUint(b, 9_223_372_036_855).Some?
    ensures forall a, b :: PairText(text, a, b) && ParseHeartBeat(text).Ok? ==>
                             && ParseUint(a, 9_223_372_036_855) == Some(ParseHeartBeat(text).value.0 / 1_000_000)
                             && ParseUint(b, 9_223_372_036_855) == Some(ParseHeartBeat(text).value.1 / 1_000_000)
    ensures ParseHeartBeat(text).Ok? ==>
              ParseHeartBeat(text).value.0 % 1_000_000 == 0 && ParseHeartBeat(text).value.1 % 1_000_000 == 0
  {
    PairTextExactly(text);
  }

  lemma NineDigits(a: int)
    ensures a >= 0 ==> (|Decimal(a)| <= 9 <==> a <= MAX_HEART_BEAT)
  {
    TenDigits();
    if 0 <= a <= MAX_HEART_BEAT {
      DecimalLength(a, 9);
    } else if a > MAX_HEART_BEAT && |Decimal(a)| <= 9 {
      DigitsBound(Decimal(a));
      PowMonotone(|Decimal(a)|, 9);
      assert false;
    }
  }

  lemma {:induction false} PowMonotone(j: nat, k: nat)
    requires j <= k
    ensures Pow10(j) <= Pow10(k)
  {
    if j > 0 {
      PowMonotone(j - 1, k - 1);
    } else if k > 0 {
      PowMonotone(0, k - 1);
    }
  }

  lemma ClientAccepts(a: nat, b: nat)
    ensures ParseHeartBeat(Pair(a, b)) ==
            if a <= MAX_MS && b <= MAX_MS then Ok((a * MS, b * MS)) else Err(InvalidHeartBeat)
  {
    PairSplit(a, b);
    NoComma(a);
    NoComma(b);
  }

  predicate InRange(d: int) { 0 <= Millis(d) <= MAX_HEART_BEAT }

  /** The server's write period for a client that wants to read with this timeout. */
  function ServerPeriod(d: int, server: int): int
    requires InRange(d)
  {
    Raise(Millis(d), AsMilliseconds(server, MAX_HEART_BEAT)) * MS
  }

  /** Adding the allowance to the client's read timeout leaves the 64-bit range. */
  predicate Overflows(read: int, slack: int, server: int)
    requires InRange(read)
  {
    var r := if ServerPeriod(read, server) < read then read else ServerPeriod(read, server);
    r > 0 && r + slack >= POW63
  }

  lemma PeriodBounds(d: int, server: int)
    requires InRange(d)
    ensures Millis(d) * MS <= ServerPeriod(d, server) <= MAX_HEART_BEAT * MS
    ensures ServerPeriod(d, server) == 0 <==> d < MS
    ensures d < MAX_HEART_BEAT * MS + MS
  {
  }

  /** The exchange succeeds exactly when both client timeouts, in whole milliseconds, are in the range the
      server accepts, and then both ends know the same two periods. */
  lemma NegotiationOutcome(write: int, read: int, slack: int, server: int)
    ensures Negotiate(write, read, slack, server).Ok? <==> InRange(write) && InRange(read)
    ensures InRange(write) && InRange(read) ==>
              var x, y := ServerPeriod(write, server), ServerPeriod(read, server);
              var c := ClientSide(y, x, read, slack);
              Negotiate(write, read, slack, server) == Ok(Settled(x, y, c.0, c.1))
  {
    ServerAccepts(Millis(write), Millis(read));
    if InRange(write) && InRange(read) {
      var min := AsMilliseconds(server, MAX_HEART_BEAT);
      ClientAccepts(Raise(Millis(read), min), Raise(Millis(write), min));
    }
  }

  /** Client to server: the client's write period never exceeds the agreed period, half the server's read
      deadline, and the direction is on at both ends or off at both, for all client timeouts. */
  lemma ClientBeatsInTime(write: int, read: int, slack: int, server: int) returns (s: Settled)
    requires slack >= 0 && InRange(write) && InRange(read)
    ensures Negotiate(write, read, slack, server) == Ok(s)
    ensures 0 <= s.clientWrite <= s.serverRead && 2 * s.serverRead < POW63
    ensures s.clientWrite > 0 <==> s.serverRead > 0
    ensures s.serverRead == 0 <==> write < MS
  {
    NegotiationOutcome(write, read, slack, server);
    PeriodBounds(write, server);
    s := Negotiate(write, read, slack, server).value;
  }

  lemma ReadTimeout(y: nat, x: nat, read: int, slack: nat)
    requires y < POW63 && read < POW63 && slack < POW63
    ensures var r, c := (if y < read then read else y), ClientSide(y, x, read, slack).0;
            && (c >= y <==> !(r > 0 && r + slack >= POW63))
            && (c >= y ==> (c > 0 <==> y > 0 || read > 0))
  {
  }

  /** Server to client: the client's read timeout is at least the server's write period exactly when adding
      the allowance does not overflow. Then the direction is on at both ends or off at both exactly when
      the client's read timeout is not a positive fraction of a millisecond: the server is told zero in
      that case, and the client still waits. */
  lemma ClientWaitsLongEnough(write: int, read: int, slack: nat, server: int) returns (s: Settled)
    requires slack < POW63 && InRange(write) && InRange(read)
    ensures Negotiate(write, read, slack, server) == Ok(s)
    ensures s.clientRead >= s.serverWrite <==> !Overflows(read, slack, server)
    ensures slack < POW63 - MAX_HEART_BEAT * MS - MS ==> !Overflows(read, slack, server)
    ensures !Overflows(read, slack, server) ==> ((s.clientRead > 0 <==> s.serverWrite > 0) <==> !(0 < read < MS))
  {
    NegotiationOutcome(write, read, slack, server);
    PeriodBounds(read, server);
    s := Negotiate(write, read, slack, server).value;
    ReadTimeout(ServerPeriod(read, server), ServerPeriod(write, server), read, slack);
  }

  /** The allowance can overflow: the largest one, with the smallest timeout. */
  lemma LargestAllowanceOverflows(server: int) returns (s: Settled)
    ensures Negotiate(0, MS, POW63 - 1, server) == Ok(s) && s.clientRead < s.serverWrite
  {
    s := ClientWaitsLongEnough(0, MS, POW63 - 1, server);
    PeriodBounds(MS, server);
  }

  // ---------- the whole handshake ----------

  /** getHeartBeat on a CONNECT or STOMP frame. */
  function BeatsOf(f: Frame): Result<(nat, nat)> {
    match Lookup(f.header, HEART_BEAT) case None => Ok((0, 0)) case Some(text) => ServerParse(text)
  }

  /** handleConnect: the version and the two periods of the CONNECTED frame, in milliseconds. */
  function Handshake(f: Frame, authenticated: bool, server: int): Result<(string, nat, nat)> {
    if Lookup(f.header, RECEIPT).Some? then Err(ReceiptInConnect)
    else if !authenticated then Err(AuthenticationFailed)
    else
      match VersionFor(f)
      case Err(e) => Err(e)
      case Ok(version) =>
        if version == V10 then Err(UnsupportedVersion)
        else
          match BeatsOf(f)
          case Err(e) => Err(e)
          case Ok((cx, cy)) =>
            var min := AsMilliseconds(server, MAX_HEART_BEAT);
            Ok((version, Raise(cy, min), Raise(cx, min)))
  }

  /** The server accepts a client exactly when it authenticates, asks for no receipt, offers 1.1 or 1.2 by
      name, and sends no heart-beat header or a well-formed one; the version is then the greater of the two
      offered. A client that offers 1.0 only, or none, is refused although determineVersion succeeds. */
  lemma AcceptedExactly(f: Frame, authenticated: bool, server: int)
    requires f.command == Connect || f.command == Stomp
    ensures var offer, beats := Lookup(f.header, "accept-version"), Lookup(f.header, "heart-beat");
            var h := Handshake(f, authenticated, server);
            && (h.Ok? <==> authenticated && Lookup(f.header, "receipt").None?
                           && (beats.Some? ==> ServerParse(beats.value).Ok?) && offer.Some?
                           && ("1.1" in Tokens(offer.value) || "1.2" in Tokens(offer.value)))
            && (h.Ok? ==> h.value.0 == if "1.2" in Tokens(offer.value) then "1.2" else "1.1")
  {
    VersionsDiffer();
  }

  /** The reason of a refusal: the first that applies of a receipt, the authentication, the versions offered and
      the heart-beat header. */
  lemma RefusedBecause(f: Frame, authenticated: bool, server: int)
    requires f.command == Connect || f.command == Stomp
    ensures var offer, h := Lookup(f.header, "accept-version"), Handshake(f, authenticated, server);
            h.Err? ==>
              h.error == if Lookup(f.header, "receipt").Some? then ReceiptInConnect
                         else if !authenticated then AuthenticationFailed
                         else if offer.None? then if f.command == Stomp then MissingAcceptVersion else UnsupportedVersion
                         else if "1.1" in Tokens(offer.value) || "1.2" in Tokens(offer.value) then InvalidHeartBeat
                         else if "1.0" in Tokens(offer.value) then UnsupportedVersion else UnknownVersion
  {
    VersionsDiffer();
  }

  lemma VersionsDiffer()
    ensures V10 != V11 && V10 != V12 && V11 != V12
  {
    assert V10[2] == '0' && V11[2] == '1' && V12[2] == '2';
  }

  /** A client that is configured with some versions and with timeouts in range, and authenticates, is
      accepted exactly if it offers 1.1 or 1.2. */
  lemma ClientIsAccepted(f: Frame, offers: seq<string>, write: int, read: int, server: int)
    requires f.command == Connect || f.command == Stomp
    requires |offers| > 0 && forall i :: 0 <= i < |offers| ==> ',' !in offers[i]
    requires Lookup(f.header, ACCEPT_VERSION) == Some(Join(offers, ',')) && Lookup(f.header, RECEIPT).None?
    requires Lookup(f.header, HEART_BEAT) == Some(Pair(Millis(write), Millis(read)))
    ensures Handshake(f, true, server).Ok? <==> InRange(write) && InRange(read) && (V11 in offers || V12 in offers)
  {
    AcceptedExactly(f, true, server);
    SplitJoin(offers, ',');
    ServerAccepts(Millis(write), Millis(read));
  }

  // ---------- what the periods are ----------

  /** A direction that the client leaves off, or gives less than a millisecond, is off. Any other has the greater
      of the client's own period and the server's, which is at most 999999999 ms, in whole milliseconds. */
  function Imposed(d: int, server: int): int {
    var wish := d / 1_000_000;
    var least := if server / 1_000_000 > 999_999_999 then 999_999_999 else server / 1_000_000;
    if d < 1_000_000 then 0 else if wish < least then least else wish
  }

  lemma PeriodIsImposed(d: int, server: int)
    requires InRange(d)
    ensures ServerPeriod(d, server) == Imposed(d, server) * 1_000_000
  {
  }

  /** Both ends settle on the greater periods. The client's write timeout leaves the allowance to spare unless the
      period is no longer than the allowance; its read timeout adds the allowance to the longer of the period
      and its own wish, in 64 bits, or is off if both are. */
  lemma PeriodsSettled(write: int, read: int, slack: nat, server: int) returns (s: Settled)
    requires InRange(write) && InRange(read) && slack < POW63
    ensures Negotiate(write, read, slack, server) == Ok(s)
    ensures s.serverRead == Imposed(write, server) * 1_000_000 && s.serverWrite == Imposed(read, server) * 1_000_000
    ensures s.clientWrite == if s.serverRead > slack then s.serverRead - slack else s.serverRead
    ensures var longer := if s.serverWrite < read then read else s.serverWrite;
            s.clientRead == if longer <= 0 then longer
                            else if longer + slack < 0x8000_0000_0000_0000 then longer + slack
                            else longer + slack - 0x1_0000_0000_0000_0000
  {
    NegotiationOutcome(write, read, slack, server);
    PeriodIsImposed(write, server);
    PeriodIsImposed(read, server);
    PeriodBounds(read, server);
    ClientSideSays(ServerPeriod(read, server), ServerPeriod(write, server), read, slack);
    s := Negotiate(write, read, slack, server).value;
  }

  lemma ClientSideSays(y: nat, x: nat, read: int, slack: nat)
    requires y < POW63 && read < POW63 && slack < POW63
    ensures ClientSide(y, x, read, slack).1 == if x > slack then x - slack else x
    ensures var longer := if y < read then read else y;
            ClientSide(y, x, read, slack).0 == if longer <= 0 then longer
                                               else if longer + slack < 0x8000_0000_0000_0000 then longer + slack
                                               else longer + slack - 0x1_0000_0000_0000_0000
  {
  }

  /** The CONNECTED frame says the same: first how often the server writes, then how often it expects to read. The
      client reads that pair back as its own read and write periods. */
  lemma HandshakeSaysThePeriods(f: Frame, write: nat, read: nat, slack: nat, server: int)
    requires Lookup(f.header, "heart-beat") == Some(Decimal(write / 1_000_000) + "," + Decimal(read / 1_000_000))
    requires slack < POW63 && Handshake(f, true, server).Ok?
    ensures InRange(write) && InRange(read) && Negotiate(write, read, slack, server).Ok?
    ensures var h, s := Handshake(f, true, server).value, Negotiate(write, read, slack, server).value;
            && h.1 == Imposed(read, server) && h.1 * 1_000_000 == s.serverWrite
            && h.2 == Imposed(write, server) && h.2 * 1_000_000 == s.serverRead
            && ParseHeartBeat(Decimal(h.1) + "," + Decimal(h.2)) == Ok((s.serverWrite, s.serverRead))
  {
    ServerAccepts(write / 1_000_000, read / 1_000_000);
    PeriodIsImposed(write, server);
    PeriodIsImposed(read, server);
    NegotiationOutcome(write, read, slack, server);
    var h := Handshake(f, true, server).value;
    ClientAccepts(h.1, h.2);
  }

  /** A client without a heart-beat header gets none. */
  lemma NoHeaderNoBeats(f: Frame, server: int)
    requires Lookup(f.header, "heart-beat").None? && Handshake(f, true, server).Ok?
    ensures var h := Handshake(f, true, server).value; h.1 == 0 && h.2 == 0
  {
  }
}
