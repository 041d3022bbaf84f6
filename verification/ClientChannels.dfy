/** The client's process loop and its map from receipt and subscription ids to response channels
    (conn.go). Channels are named by their index; each request brings a channel of its own. */
module ClientChannels {
  import opened Text
  import opened Frames

  /** What a response channel has carried and whether it is still open. */
  datatype Chan = Chan(open: bool, got: seq<Frame>)

  /** `broken` is set where Go would panic: a send on, or a close of, a closed channel. */
  datatype State = State(channels: map<string, nat>, chans: seq<Chan>, written: seq<Frame>,
                         running: bool, broken: bool)

  const INITIAL := State(map[], [], [], true, false)

  /** What the loop's select can pick. `order` is the order in which a range over the map would visit its
      keys; `ok` says whether the write to the connection succeeds. */
  datatype Event =
    | Request(frame: Frame, ok: bool, order: seq<string>)
    | Incoming(frame: Frame, order: seq<string>)
    | Stop(notice: Frame, order: seq<string>)

  ghost predicate Visits(m: map<string, nat>, order: seq<string>) {
    && (forall k :: k in order <==> k in m)
    && (forall i, j :: 0 <= i < j < |order| ==> order[i] != order[j])
  }

  /** Every mapped name is an allocated channel. */
  ghost predicate Named(s: State) { forall k :: k in s.channels ==> s.channels[k] < |s.chans| }

  function Deliver(s: State, c: nat, f: Frame): State
    requires c < |s.chans|
  {
    if !s.chans[c].open then s.(broken := true)
    else s.(chans := s.chans[c := Chan(true, s.chans[c].got + [f])])
  }

  function CloseChan(s: State, c: nat): State
    requires c < |s.chans|
  {
    if !s.chans[c].open then s.(broken := true)
    else s.(chans := s.chans[c := s.chans[c].(open := false)])
  }

  /** Sends f to every mapped channel in turn, closing each when asked to. A panic ends the sweep. */
  function Sweep(s: State, order: seq<string>, f: Frame, close: bool): (r: State)
    requires Named(s) && forall k :: k in order ==> k in s.channels
    ensures r.channels == s.channels && |r.chans| == |s.chans| && r.running == s.running && r.written == s.written
    decreases |order|
  {
    if order == [] || s.broken then s
    else
      assert order[0] in order;
      var c := s.channels[order[0]];
      var s1 := Deliver(s, c, f);
      var s2 := if close && !s1.broken then CloseChan(s1, c) else s1;
      Sweep(s2, order[1..], f, close)
  }

  function Stopped(s: State, order: seq<string>, f: Frame, close: bool): State
    requires Named(s) && forall k :: k in order ==> k in s.channels
  {
    Sweep(s, order, f, close).(running := false)
  }

  /** The incoming frames that end the loop. */
  predicate Ends(f: Frame) { f.command == Error || (f.command == Receipt && Lookup(f.header, RECEIPT_ID).None?) }

  /** RECEIPT, ERROR and MESSAGE; other frames and heart-beats are ignored. */
  function DoIncoming(s: State, f: Frame, order: seq<string>): State
    requires Named(s) && (Ends(f) ==> forall k :: k in order ==> k in s.channels)
  {
    match f.command
    case Receipt =>
      (match Lookup(f.header, RECEIPT_ID)
       case None => Stopped(s, order, MISSING_RECEIPT_ID, false)
       case Some(id) =>
         if id !in s.channels then s
         else
           var s1 := Deliver(s, s.channels[id], f);
           if s1.broken then s1
           else CloseChan(s1.(channels := s1.channels - {id}), s.channels[id]))
    case Error => Stopped(s, order, f, true)
    case Message =>
      (match Lookup(f.header, SUBSCRIPTION)
       case None => s
       case Some(id) => if id in s.channels then Deliver(s, s.channels[id], f) else s)
    case _ => s
  }

  /** The error frames the loop makes up itself differ only in their text. */
  const MISSING_RECEIPT_ID := Frame(Error, [Entry("message", "missing receipt-id")], "")
  const WRITE_FAILED := Frame(Error, [Entry("message", "write failed")], "")

  /** The key under which a SUBSCRIBE frame is remembered. */
  function KeyOf(f: Frame): string {
    match Lookup(f.header, REPLY_TO)
    case Some(r) => r
    case None => if Lookup(f.header, ID).Some? then Lookup(f.header, ID).value else ""
  }

  /** Requests that ask for a receipt, and subscriptions, bring a response channel. */
  predicate HasChannel(f: Frame) { f.command == Subscribe || Lookup(f.header, RECEIPT).Some? }

  /** The request's channel, if any, is remembered under its receipt id, and under its key if it
      subscribes. */
  function Remember(s: State, f: Frame): State {
    if !HasChannel(f) then s
    else
      var c := |s.chans|;
      var m1 := match Lookup(f.header, RECEIPT) { case Some(r) => s.channels[r := c] case None => s.channels };
      var m2 := if f.command == Subscribe then m1[KeyOf(f) := c] else m1;
      s.(channels := m2, chans := s.chans + [Chan(true, [])])
  }

  /** UNSUBSCRIBE from a temporary queue closes its channel at once. */
  function Forget(s: State, f: Frame): State
    requires Named(s)
  {
    if f.command != Unsubscribe then s
    else
      match Lookup(f.header, REPLY_TO)
      case None => s
      case Some(r) =>
        if r !in s.channels then s
        else CloseChan(s.(channels := s.channels - {r}), s.channels[r])
  }

  /** What goes to the server: nothing for temporary queues, and UNSUBSCRIBE asks for a receipt under the
      subscription's id, so that the RECEIPT closes the subscription's channel. */
  function Outgoing(f: Frame): Option<Frame> {
    if f.command in {Subscribe, Unsubscribe} && Lookup(f.header, REPLY_TO).Some? then None
    else if f.command == Unsubscribe then Some(f.(header := SetEntry(f.header, RECEIPT, KeyOf(f))))
    else Some(f)
  }

  function DoRequest(s: State, f: Frame, ok: bool, order: seq<string>): State
    requires Named(s) && (!ok ==> forall k :: k in order ==> k in Forget(Remember(s, f), f).channels)
  {
    var s1 := Forget(Remember(s, f), f);
    if s1.broken || Outgoing(f).None? then s1
    else if ok then s1.(written := s1.written + [Outgoing(f).value])
    else Stopped(s1, order, WRITE_FAILED, false)
  }

  ghost predicate Enabled(s: State, e: Event) {
    && s.running && !s.broken && Named(s)
    && match e
       case Request(f, ok, order) => !ok ==> Visits(Forget(Remember(s, f), f).channels, order)
       case Incoming(f, order) => Ends(f) ==> Visits(s.channels, order)
       case Stop(_, order) => Visits(s.channels, order)
  }

  /** One turn of processLoop. Stop is a read timeout, a failed heart-beat, or a closed read or write
      channel. */
  function Next(s: State, e: Event): State
    requires Enabled(s, e)
  {
    match e
    case Request(f, ok, order) => DoRequest(s, f, ok, order)
    case Incoming(f, order) => DoIncoming(s, f, order)
    case Stop(notice, order) => Stopped(s, order, notice, false)
  }

  // ---------- distinct open channels ----------

  /** The map holds distinct open channels. */
  ghost predicate Good(s: State) {
    && !s.broken
    && (forall k :: k in s.channels ==> s.channels[k] < |s.chans| && s.chans[s.channels[k]].open)
    && (forall k, j :: k in s.channels && j in s.channels && k != j ==> s.channels[k] != s.channels[j])
  }

  /** A SUBSCRIBE frame that asks for a receipt under a name other than its own key. */
  predicate Hazard(f: Frame) {
    f.command == Subscribe && Lookup(f.header, RECEIPT).Some? && Lookup(f.header, RECEIPT).value != KeyOf(f)
  }

  predicate Harmless(e: Event) { e.Request? ==> !Hazard(e.frame) }

  ghost predicate AllHarmless(events: seq<Event>) { forall i :: 0 <= i < |events| ==> Harmless(events[i]) }

  lemma RememberGood(s: State, f: Frame)
    requires Good(s) && !Hazard(f)
    ensures Good(Remember(s, f))
  {
  }

  lemma ForgetGood(s: State, f: Frame)
    requires Good(s)
    ensures Good(Forget(s, f))
  {
  }

  /** A sweep over distinct open channels never panics. */
  lemma {:induction false} SweepGood(s: State, order: seq<string>, f: Frame, close: bool)
    requires !s.broken && Named(s)
    requires forall k :: k in order ==> k in s.channels && s.chans[s.channels[k]].open
    requires forall i, j :: 0 <= i < j < |order| ==> s.channels[order[i]] != s.channels[order[j]]
    ensures !Sweep(s, order, f, close).broken
    ensures !close && Good(s) ==> Good(Sweep(s, order, f, close))
    decreases |order|
  {
    if order != [] {
      assert order[0] in order;
      var c := s.channels[order[0]];
      var s1 := Deliver(s, c, f);
      var s2 := if close then CloseChan(s1, c) else s1;
      forall k | k in order[1..] ensures k in order && s2.chans[s.channels[k]].open {
        var i :| 1 <= i < |order| && order[i] == k;
        assert s.channels[order[0]] != s.channels[order[i]];
      }
      SweepGood(s2, order[1..], f, close);
    }
  }

  lemma RequestGood(s: State, f: Frame, ok: bool, order: seq<string>)
    requires Good(s) && !Hazard(f) && (!ok ==> Visits(Forget(Remember(s, f), f).channels, order))
    ensures Good(DoRequest(s, f, ok, order))
  {
    RememberGood(s, f);
    ForgetGood(Remember(s, f), f);
    if !ok { SweepGood(Forget(Remember(s, f), f), order, WRITE_FAILED, false); }
  }

  lemma IncomingGood(s: State, f: Frame, order: seq<string>)
    requires Good(s) && (Ends(f) ==> Visits(s.channels, order))
    ensures var s' := DoIncoming(s, f, order); !s'.broken && (Ends(f) || Good(s'))
  {
    if Ends(f) {
      SweepGood(s, order, if f.command == Error then f else MISSING_RECEIPT_ID, f.command == Error);
    }
  }

  lemma NextGood(s: State, e: Event)
    requires Good(s) && Enabled(s, e) && Harmless(e)
    ensures !Next(s, e).broken && (Next(s, e).running ==> Good(Next(s, e)))
  {
    match e
    case Request(f, ok, order) => RequestGood(s, f, ok, order);
    case Incoming(f, order) => IncomingGood(s, f, order);
    case Stop(notice, order) => SweepGood(s, order, notice, false);
  }

  ghost predicate Leads(s: State, events: seq<Event>, s': State)
    decreases |events|
  {
    if events == [] then s == s'
    else Enabled(s, events[0]) && Leads(Next(s, events[0]), events[1..], s')
  }

  /** As long as no SUBSCRIBE frame asks for a receipt under another name, no run sends on or closes a
      closed response channel, and while the loop runs the map holds distinct open channels. */
  lemma {:induction false} ResponseChannelsAreSafe(s: State, events: seq<Event>, s': State)
    requires Good(s) && s.running && Leads(s, events, s') && AllHarmless(events)
    ensures !s'.broken && (s'.running ==> Good(s'))
    decreases |events|
  {
    if events != [] {
      var n := Next(s, events[0]);
      NextGood(s, events[0]);
      if n.running { ResponseChannelsAreSafe(n, events[1..], s'); } else { assert events[1..] == []; }
    }
  }

  /** After such a SUBSCRIBE to a destination on the server, its receipt and then one message for the
      subscription bring the loop down. */
  lemma ReceiptBreaks(s: State, f: Frame) returns (events: seq<Event>, s': State)
    requires Good(s) && s.running && Hazard(f) && Outgoing(f).Some?
    ensures Leads(Next(s, Request(f, true, [])), events, s') && s'.broken
    ensures AllHarmless(events)
  {
    var r, key, c := Lookup(f.header, RECEIPT).value, KeyOf(f), |s.chans|;
    var receipt := Frame(Receipt, [Entry(RECEIPT_ID, r)], "");
    var message := Frame(Message, [Entry(SUBSCRIPTION, key)], "");
    var s1 := Next(s, Request(f, true, []));
    assert s1.channels[r] == c && s1.channels[key] == c && s1.chans[c].open;
    var s2 := Next(s1, Incoming(receipt, []));
    assert !s2.broken && s2.channels[key] == c && !s2.chans[c].open;
    s' := Next(s2, Incoming(message, []));
    events := [Incoming(receipt, []), Incoming(message, [])];
    assert events[1..] == [Incoming(message, [])] && events[1..][1..] == [];
    assert Leads(s2, events[1..], s');
  }

  /** Some order in which a range can visit the map. */
  lemma {:induction false} SomeOrder(m: map<string, nat>) returns (order: seq<string>)
    ensures Visits(m, order)
    decreases |m.Keys|
  {
    if m.Keys == {} {
      order := [];
    } else {
      var k :| k in m.Keys;
      var m' := m - {k};
      assert m'.Keys == m.Keys - {k};
      var rest := SomeOrder(m');
      order := [k] + rest;
      assert forall x :: x in order <==> x == k || x in rest;
    }
  }

  /** A sweep that visits a closed channel panics. */
  lemma {:induction false} SweepBreaks(s: State, order: seq<string>, f: Frame, r: string)
    requires Named(s) && (forall k :: k in order ==> k in s.channels) && r in order
    requires !s.chans[s.channels[r]].open
    ensures Sweep(s, order, f, false).broken
    decreases |order|
  {
    if !s.broken {
      assert order[0] in order;
      var s1 := Deliver(s, s.channels[order[0]], f);
      if order[0] != r { SweepBreaks(s1, order[1..], f, r); }
    }
  }

  lemma ByeForgets(s: State, key: string)
    requires Named(s) && key in s.channels && s.chans[s.channels[key]].open && !s.broken
    ensures var bye := Frame(Unsubscribe, [Entry(REPLY_TO, key)], "");
            DoRequest(s, bye, true, []) == CloseChan(s.(channels := s.channels - {key}), s.channels[key])
  {
    var bye := Frame(Unsubscribe, [Entry(REPLY_TO, key)], "");
    assert |REPLY_TO| != |RECEIPT| && bye.header[1..] == [];
    assert Lookup(bye.header, RECEIPT).None? && Lookup(bye.header, REPLY_TO) == Some(key);
  }

  /** After such a SUBSCRIBE to a temporary queue, of which the server knows nothing, unsubscribing closes the
      channel, and the end of the loop, whatever ends it, sends on it. */
  lemma ReplyToBreaks(s: State, f: Frame, notice: Frame) returns (events: seq<Event>, s': State)
    requires Good(s) && s.running && Hazard(f) && Outgoing(f).None?
    ensures Leads(Next(s, Request(f, true, [])), events, s') && s'.broken
    ensures AllHarmless(events)
  {
    var r, key, c := Lookup(f.header, RECEIPT).value, KeyOf(f), |s.chans|;
    var bye := Frame(Unsubscribe, [Entry(REPLY_TO, key)], "");
    var s1 := Next(s, Request(f, true, []));
    assert s1.channels[r] == c && s1.channels[key] == c && s1.chans[c].open;
    var s2 := Next(s1, Request(bye, true, []));
    ByeForgets(s1, key);
    assert s2.channels[r] == c && !s2.chans[c].open && Named(s2);
    var order := SomeOrder(s2.channels);
    SweepBreaks(s2, order, notice, r);
    s' := Next(s2, Stop(notice, order));
    events := [Request(bye, true, []), Stop(notice, order)];
    assert events[1..] == [Stop(notice, order)] && events[1..][1..] == [];
    assert Leads(s2, events[1..], s');
  }

  /** After such a SUBSCRIBE a few harmless events bring the loop down. */
  lemma HazardBreaks(s: State, f: Frame) returns (events: seq<Event>, s': State)
    requires Good(s) && s.running && Hazard(f)
    ensures Leads(Next(s, Request(f, true, [])), events, s') && s'.broken
    ensures AllHarmless(events)
  {
    if Outgoing(f).Some? { events, s' := ReceiptBreaks(s, f); } else { events, s' := ReplyToBreaks(s, f, WRITE_FAILED); }
  }

  /** The exact condition: in any good state a request is safe, whatever harmless events follow, if and
      only if it is not such a SUBSCRIBE. */
  lemma SafeExactlyWithoutHazard(s: State, f: Frame)
    requires Good(s) && s.running
    ensures !Hazard(f) <==>
            forall events, s' :: Leads(Next(s, Request(f, true, [])), events, s') && AllHarmless(events) ==>
                                   !s'.broken
  {
    var s1 := Next(s, Request(f, true, []));
    if Hazard(f) {
      var events, s' := HazardBreaks(s, f);
    } else {
      NextGood(s, Request(f, true, []));
      forall events, s' | Leads(s1, events, s') && AllHarmless(events) ensures !s'.broken
      {
        ResponseChannelsAreSafe(s1, events, s');
      }
    }
  }

  // ---------- the loop as it updates its variables ----------

  class ProcessLoop {
    var channels: map<string, nat>
    var chans: seq<Chan>
    var written: seq<Frame>
    var running: bool
    var broken: bool

    constructor ()
      ensures View() == INITIAL
    {
      channels, chans, written, running, broken := map[], [], [], true, false;
    }

    function View(): State
      reads this
    {
      State(channels, chans, written, running, broken)
    }

    method DeliverTo(c: nat, f: Frame)
      requires c < |chans|
      modifies this`chans, this`broken
      ensures View() == Deliver(old(View()), c, f)
    {
      if chans[c].open {
        chans := chans[c := Chan(true, chans[c].got + [f])];
      } else {
        broken := true;
      }
    }

    method CloseIt(c: nat)
      requires c < |chans|
      modifies this`chans, this`broken
      ensures View() == CloseChan(old(View()), c)
    {
      if chans[c].open {
        chans := chans[c := chans[c].(open := false)];
      } else {
        broken := true;
      }
    }

    /** sendError, and the loop that tells all channels about an ERROR frame and closes them. */
    method SendAll(order: seq<string>, f: Frame, close: bool)
      requires Named(View()) && forall k :: k in order ==> k in channels
      modifies this`chans, this`broken
      ensures View() == Sweep(old(View()), order, f, close)
    {
      var i := 0;
      while i < |order| && !broken
        invariant 0 <= i <= |order| && |chans| == |old(chans)|
        invariant Sweep(View(), order[i..], f, close) == Sweep(old(View()), order, f, close)
      {
        assert order[i] in order && order[i..][1..] == order[i + 1..];
        var c := channels[order[i]];
        DeliverTo(c, f);
        if close && !broken { CloseIt(c); }
        i := i + 1;
      }
    }

    method HandleRead(f: Frame, order: seq<string>)
      requires Enabled(View(), Incoming(f, order))
      modifies this
      ensures View() == Next(old(View()), Incoming(f, order))
    {
      match f.command
      case Receipt =>
        var id := Lookup(f.header, RECEIPT_ID);
        if id.None? {
          SendAll(order, MISSING_RECEIPT_ID, false);
          running := false;
        } else if id.value in channels {
          var ch := channels[id.value];
          DeliverTo(ch, f);
          if !broken {
            channels := channels - {id.value};
            CloseIt(ch);
          }
        }
      case Error =>
        SendAll(order, f, true);
        running := false;
      case Message =>
        var id := Lookup(f.header, SUBSCRIPTION);
        if id.Some? && id.value in channels { DeliverTo(channels[id.value], f); }
      case _ =>
    }

    method HandleWrite(f: Frame, ok: bool, order: seq<string>)
      requires Enabled(View(), Request(f, ok, order))
      modifies this
      ensures View() == Next(old(View()), Request(f, ok, order))
    {
      Register(f);
      ghost var registered := View();
      var sendFrame, out := true, f;
      match f.command {
        case Subscribe => sendFrame := Lookup(f.header, REPLY_TO).None?;
        case Unsubscribe =>
          var replyTo := Lookup(f.header, REPLY_TO);
          if replyTo.Some? {
            if replyTo.value in channels {
              var ch := channels[replyTo.value];
              channels := channels - {replyTo.value};
              CloseIt(ch);
            }
            sendFrame := false;
          } else {
            out := f.(header := SetEntry(f.header, RECEIPT, KeyOf(f)));
          }
        case _ =>
      }
      assert View() == Forget(registered, f);
      if sendFrame {
        if ok {
          written := written + [out];
        } else {
          SendAll(order, WRITE_FAILED, false);
          running := false;
        }
      }
    }

    /** Remembers the request's channel, first for its receipt and then for the subscription. */
    method Register(f: Frame)
      modifies this`channels, this`chans
      ensures View() == Remember(old(View()), f)
    {
      if f.command == Subscribe || Lookup(f.header, RECEIPT).Some? {
        var c := |chans|;
        chans := chans + [Chan(true, [])];
        if Lookup(f.header, RECEIPT).Some? { channels := channels[Lookup(f.header, RECEIPT).value := c]; }
        if f.command == Subscribe { channels := channels[KeyOf(f) := c]; }
      }
    }
  }
}
