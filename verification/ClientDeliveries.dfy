/** What every response channel of the client gets, and what the client writes, told by the events alone:
    the definitions here do not refer to the loop's map or to the functions that update it. */
module ClientDeliveries {
  import opened Text
  import opened Frames
  import opened ClientChannels
  import Session
  import Transactions

  // ---------- the events ----------

  /** A request that comes with a response channel. */
  predicate Brings(e: Event) {
    e.Request? && (e.frame.command == Subscribe || Lookup(e.frame.header, "receipt").Some?)
  }

  /** What the answers to the request are recognised by: the temporary queue or the id of a subscription, and
      the receipt of any other request. */
  function NameOf(f: Frame): string {
    var replyTo, id, receipt := Lookup(f.header, "reply-to"), Lookup(f.header, "id"), Lookup(f.header, "receipt");
    if f.command == Subscribe then if replyTo.Some? then replyTo.value else if id.Some? then id.value else ""
    else if receipt.Some? then receipt.value else ""
  }

  /** Requests about temporary queues stay with the client. */
  predicate Local(f: Frame) { f.command in {Subscribe, Unsubscribe} && Lookup(f.header, "reply-to").Some? }

  predicate FailsToWrite(e: Event) { e.Request? && !e.ok && !Local(e.frame) }

  /** UNSUBSCRIBE from the temporary queue. */
  predicate Leaves(f: Frame, name: string) { f.command == Unsubscribe && Lookup(f.header, "reply-to") == Some(name) }

  predicate Final(e: Event) {
    match e
    case Request(_, _, _) => FailsToWrite(e)
    case Incoming(f, _) => f.command == Error || (f.command == Receipt && Lookup(f.header, "receipt-id").None?)
    case Stop(_, _) => true
  }

  /** The channel known by the name, from the events after its request: its messages, until its receipt, the end
      of its temporary queue, the end of the loop, or another request that takes the name. */
  function After(name: string, es: seq<Event>): Chan {
    if es == [] then Chan(true, [])
    else
      match es[0]
      case Incoming(f, _) =>
        if f.command == Message && Lookup(f.header, "subscription") == Some(name)
        then Chan(After(name, es[1..]).open, [f] + After(name, es[1..]).got)
        else if f.command == Receipt && Lookup(f.header, "receipt-id") == Some(name) then Chan(false, [f])
        else if f.command == Error then Chan(false, [f])
        else if f.command == Receipt && Lookup(f.header, "receipt-id").None?
        then Chan(true, [Frame(Error, [Entry("message", "missing receipt-id")], "")])
        else After(name, es[1..])
      case Request(f, _, _) =>
        if Brings(es[0]) && NameOf(f) == name then Chan(true, [])
        else if Leaves(f, name) then Chan(false, [])
        else if FailsToWrite(es[0]) then Chan(true, [Frame(Error, [Entry("message", "write failed")], "")])
        else After(name, es[1..])
      case Stop(notice, _) => Chan(true, [notice])
  }

  /** The channel that the first event brings. */
  function ChannelOf(es: seq<Event>): Chan
    requires es != [] && Brings(es[0])
  {
    if Leaves(es[0].frame, NameOf(es[0].frame)) then Chan(false, [])
    else if FailsToWrite(es[0]) then Chan(true, [Frame(Error, [Entry("message", "write failed")], "")])
    else After(NameOf(es[0].frame), es[1..])
  }

  /** All channels, in the order of their requests. */
  function Channels(es: seq<Event>): seq<Chan> {
    if es == [] then []
    else if Brings(es[0]) then [ChannelOf(es)] + Channels(es[1..])
    else Channels(es[1..])
  }

  /** What the request puts on the wire: UNSUBSCRIBE asks for a receipt under its own id. */
  function Sent(e: Event): seq<Frame> {
    if !e.Request? || !e.ok || Local(e.frame) then []
    else if e.frame.command == Unsubscribe then
      var id := Lookup(e.frame.header, "id");
      [e.frame.(header := SetEntry(e.frame.header, "receipt", if id.Some? then id.value else ""))]
    else [e.frame]
  }

  function AllSent(es: seq<Event>): seq<Frame> { if es == [] then [] else Sent(es[0]) + AllSent(es[1..]) }

  /** A subscription that asks for a receipt asks for it under its own name. */
  ghost predicate Matching(es: seq<Event>) {
    forall e :: e in es && e.Request? && e.frame.command == Subscribe && Lookup(e.frame.header, "receipt").Some? ==>
                  Lookup(e.frame.header, "receipt").value == NameOf(e.frame)
  }

  // ---------- one sweep ----------

  lemma {:induction false} SweepSpares(s: State, order: seq<string>, f: Frame, close: bool, c: nat)
    requires Named(s) && (forall k :: k in order ==> k in s.channels && s.channels[k] != c) && c < |s.chans|
    ensures Sweep(s, order, f, close).chans[c] == s.chans[c]
    decreases |order|
  {
    if order != [] && !s.broken {
      assert order[0] in order;
      var s1 := Deliver(s, s.channels[order[0]], f);
      var s2 := if close && !s1.broken then CloseChan(s1, s.channels[order[0]]) else s1;
      SweepSpares(s2, order[1..], f, close, c);
    }
  }

  ghost predicate Sweepable(s: State, order: seq<string>) {
    && !s.broken && Named(s)
    && (forall k :: k in order ==> k in s.channels && s.chans[s.channels[k]].open)
    && (forall i, j :: 0 <= i < j < |order| ==> s.channels[order[i]] != s.channels[order[j]])
  }

  lemma SweepTail(s: State, order: seq<string>, f: Frame, close: bool)
    requires Sweepable(s, order) && order != []
    ensures var s1 := Deliver(s, s.channels[order[0]], f);
            Sweepable(if close then CloseChan(s1, s.channels[order[0]]) else s1, order[1..])
    ensures forall k :: k in order[1..] ==> s.channels[k] != s.channels[order[0]]
  {
    assert order[0] in order;
    forall k | k in order[1..] ensures k in order && s.channels[k] != s.channels[order[0]] {
      var i :| 1 <= i < |order| && order[i] == k;
      assert s.channels[order[0]] != s.channels[order[i]];
    }
  }

  lemma {:induction false} SweepTells(s: State, order: seq<string>, f: Frame, close: bool, k: string)
    requires Sweepable(s, order) && k in order
    ensures Sweep(s, order, f, close).chans[s.channels[k]] == Chan(!close, s.chans[s.channels[k]].got + [f])
    decreases |order|
  {
    SweepTail(s, order, f, close);
    var s1 := Deliver(s, s.channels[order[0]], f);
    var s2 := if close then CloseChan(s1, s.channels[order[0]]) else s1;
    if k == order[0] {
      SweepSpares(s2, order[1..], f, close, s.channels[k]);
    } else {
      SweepTells(s2, order[1..], f, close, k);
    }
  }

  // ---------- one event ----------

  /** Channel c is known by no name. */
  ghost predicate Loose(s: State, c: nat) { c < |s.chans| && forall k :: k in s.channels ==> s.channels[k] != c }

  ghost predicate Known(s: State, name: string, c: nat) {
    name in s.channels && s.channels[name] == c && c < |s.chans| && s.chans[c].open
  }

  lemma StopTells(s: State, order: seq<string>, f: Frame, close: bool, name: string)
    requires Good(s) && Visits(s.channels, order) && name in s.channels
    ensures Stopped(s, order, f, close).chans[s.channels[name]] == Chan(!close, s.chans[s.channels[name]].got + [f])
  {
    SweepTells(s, order, f, close, name);
  }

  lemma StopSpares(s: State, order: seq<string>, f: Frame, close: bool, c: nat)
    requires Good(s) && Visits(s.channels, order) && Loose(s, c)
    ensures Stopped(s, order, f, close).chans[c] == s.chans[c]
  {
    SweepSpares(s, order, f, close, c);
  }

  /** The request's channel is the next one, and its name is the only new one. */
  lemma Remembers(s: State, e: Event)
    requires e.Request? && Harmless(e)
    ensures Remember(s, e.frame) ==
            if Brings(e) then s.(channels := s.channels[NameOf(e.frame) := |s.chans|], chans := s.chans + [Chan(true, [])])
            else s
  {
  }

  lemma Forgets(s: State, e: Event)
    requires e.Request? && Good(s)
    ensures var r := Lookup(e.frame.header, "reply-to");
            Forget(s, e.frame) ==
            if e.frame.command == Unsubscribe && r.Some? && r.value in s.channels
            then s.(channels := s.channels - {r.value},
                    chans := s.chans[s.channels[r.value] := Chan(false, s.chans[s.channels[r.value]].got)])
            else s
  {
  }

  lemma Writes(s: State, e: Event)
    requires e.Request? && Good(s) && Harmless(e) && Enabled(s, e)
    ensures var s1 := Forget(Remember(s, e.frame), e.frame);
            && Good(s1) && (FailsToWrite(e) ==> Visits(s1.channels, e.order))
            && Next(s, e) == (if FailsToWrite(e) then Stopped(s1, e.order, Frame(Error, [Entry("message", "write failed")], ""), false)
                              else s1.(written := s1.written + Sent(e)))
  {
    RememberGood(s, e.frame);
    ForgetGood(Remember(s, e.frame), e.frame);
    var s1 := Forget(Remember(s, e.frame), e.frame);
    if e.ok { Unwritten(s1); }
  }

  lemma Unwritten(s: State)
    ensures s.(written := s.written + []) == s
  {
    assert s.written + [] == s.written;
  }

  /** What channel c has got and whether it is open, for a channel that was open. */
  ghost predicate Grown(s: State, s': State, c: nat, l: Chan) {
    c < |s.chans| && c < |s'.chans| && s'.chans[c] == Chan(l.open, s.chans[c].got + l.got)
  }

  ghost predicate Ready(s: State, e: Event) { Good(s) && Enabled(s, e) && Harmless(e) }

  lemma IncomingTells(s: State, e: Event, name: string)
    requires Ready(s, e) && e.Incoming? && name in s.channels
    ensures var n, c, f := Next(s, e), s.channels[name], e.frame;
            if f.command == Message && Lookup(f.header, "subscription") == Some(name)
            then Known(n, name, c) && Grown(s, n, c, Chan(true, [f])) && n.running
            else if f.command == Receipt && Lookup(f.header, "receipt-id") == Some(name)
            then Loose(n, c) && Grown(s, n, c, Chan(false, [f])) && n.running
            else if f.command == Error then Grown(s, n, c, Chan(false, [f])) && !n.running
            else if f.command == Receipt && Lookup(f.header, "receipt-id").None?
            then Grown(s, n, c, Chan(true, [Frame(Error, [Entry("message", "missing receipt-id")], "")])) && !n.running
            else Known(n, name, c) && n.chans[c] == s.chans[c] && n.running
  {
    if Ends(e.frame) {
      StopTells(s, e.order, if e.frame.command == Error then e.frame else MISSING_RECEIPT_ID, e.frame.command == Error, name);
    }
  }

  lemma IncomingSpares(s: State, e: Event, c: nat)
    requires Ready(s, e) && e.Incoming? && Loose(s, c)
    ensures var n := Next(s, e); n.chans[c] == s.chans[c] && (n.running ==> Loose(n, c)) && (n.running <==> !Final(e))
  {
    if Ends(e.frame) {
      StopSpares(s, e.order, if e.frame.command == Error then e.frame else MISSING_RECEIPT_ID, e.frame.command == Error, c);
    }
  }

  lemma Registers(s: State, e: Event, name: string)
    requires Ready(s, e) && e.Request? && name in s.channels
    ensures var n, c := Forget(Remember(s, e.frame), e.frame), s.channels[name];
            if Brings(e) && NameOf(e.frame) == name then Loose(n, c) && n.chans[c] == s.chans[c]
            else if Leaves(e.frame, name) then Loose(n, c) && Grown(s, n, c, Chan(false, []))
            else Known(n, name, c) && n.chans[c] == s.chans[c]
  {
    Remembers(s, e);
    RememberGood(s, e.frame);
    Forgets(Remember(s, e.frame), e);
    assert s.chans[s.channels[name]].got + [] == s.chans[s.channels[name]].got;
  }

  lemma RegistersOthers(s: State, e: Event, c: nat)
    requires Ready(s, e) && e.Request? && Loose(s, c)
    ensures var n := Forget(Remember(s, e.frame), e.frame); Loose(n, c) && n.chans[c] == s.chans[c]
  {
    Remembers(s, e);
    RememberGood(s, e.frame);
    Forgets(Remember(s, e.frame), e);
  }

  lemma RequestTells(s: State, e: Event, name: string)
    requires Ready(s, e) && e.Request? && name in s.channels
    ensures var n, c := Next(s, e), s.channels[name];
            && (n.running <==> !FailsToWrite(e))
            && if Brings(e) && NameOf(e.frame) == name then n.chans[c] == s.chans[c] && (n.running ==> Loose(n, c))
               else if Leaves(e.frame, name) then Grown(s, n, c, Chan(false, [])) && (n.running ==> Loose(n, c))
               else if FailsToWrite(e)
               then Grown(s, n, c, Chan(true, [Frame(Error, [Entry("message", "write failed")], "")]))
               else Known(n, name, c) && n.chans[c] == s.chans[c]
  {
    Registers(s, e, name);
    Writes(s, e);
    var s1 := Forget(Remember(s, e.frame), e.frame);
    if FailsToWrite(e) {
      if name in s1.channels && s1.channels[name] == s.channels[name] {
        StopTells(s1, e.order, Frame(Error, [Entry("message", "write failed")], ""), false, name);
      } else {
        StopSpares(s1, e.order, Frame(Error, [Entry("message", "write failed")], ""), false, s.channels[name]);
      }
    }
  }

  lemma RequestSpares(s: State, e: Event, c: nat)
    requires Ready(s, e) && e.Request? && Loose(s, c)
    ensures var n := Next(s, e); n.chans[c] == s.chans[c] && (n.running ==> Loose(n, c)) && (n.running <==> !FailsToWrite(e))
  {
    RegistersOthers(s, e, c);
    Writes(s, e);
    if FailsToWrite(e) {
      StopSpares(Forget(Remember(s, e.frame), e.frame), e.order, Frame(Error, [Entry("message", "write failed")], ""), false, c);
    }
  }

  /** The request's own channel. */
  lemma RequestBrings(s: State, e: Event)
    requires Ready(s, e) && e.Request? && Brings(e)
    ensures var n, c := Next(s, e), |s.chans|;
            && c < |n.chans| && (n.running <==> !FailsToWrite(e))
            && if Leaves(e.frame, NameOf(e.frame)) then n.chans[c] == Chan(false, []) && (n.running ==> Loose(n, c))
               else if FailsToWrite(e)
               then n.chans[c] == Chan(true, [Frame(Error, [Entry("message", "write failed")], "")])
               else Known(n, NameOf(e.frame), c) && n.chans[c] == Chan(true, [])
  {
    Remembers(s, e);
    RememberGood(s, e.frame);
    Forgets(Remember(s, e.frame), e);
    Writes(s, e);
    var s1 := Forget(Remember(s, e.frame), e.frame);
    if FailsToWrite(e) {
      StopTells(s1, e.order, Frame(Error, [Entry("message", "write failed")], ""), false, NameOf(e.frame));
    }
  }

  // ---------- whole runs ----------

  lemma {:induction false} LooseRun(s: State, es: seq<Event>, s': State, c: nat)
    requires Leads(s, es, s') && AllHarmless(es) && Good(s) && s.running && Loose(s, c)
    ensures c < |s'.chans| && s'.chans[c] == s.chans[c]
    decreases |es|, 0
  {
    if es != [] {
      var e, n := es[0], Next(s, es[0]);
      match e {
        case Request(_, _, _) => RequestSpares(s, e, c);
        case Incoming(_, _) => IncomingSpares(s, e, c);
        case Stop(notice, order) => StopSpares(s, order, notice, false, c);
      }
      NextGood(s, e);
      LooseOn(n, es[1..], s', c);
    }
  }

  lemma LooseOn(s: State, es: seq<Event>, s': State, c: nat)
    requires Leads(s, es, s') && AllHarmless(es) && c < |s.chans| && (s.running ==> Good(s) && Loose(s, c))
    ensures c < |s'.chans| && s'.chans[c] == s.chans[c]
    decreases |es|, 1
  {
    if s.running { LooseRun(s, es, s', c); } else { assert es == []; }
  }

  lemma GrownLater(s: State, n: State, s': State, c: nat, f: Frame, l: Chan)
    requires Grown(s, n, c, Chan(true, [f])) && Grown(n, s', c, l)
    ensures Grown(s, s', c, Chan(l.open, [f] + l.got))
  {
    assert s.chans[c].got + ([f] + l.got) == (s.chans[c].got + [f]) + l.got;
  }

  lemma GrownSame(s: State, n: State, s': State, c: nat, l: Chan)
    requires c < |s.chans| && c < |n.chans| && n.chans[c] == s.chans[c] && Grown(n, s', c, l)
    ensures Grown(s, s', c, l)
  {
  }

  /** A channel that is known by its name gets what the events say, and nothing else. */
  lemma {:induction false} KnownRun(s: State, es: seq<Event>, s': State, name: string)
    requires Leads(s, es, s') && AllHarmless(es) && Good(s) && s.running && name in s.channels
    ensures Grown(s, s', s.channels[name], After(name, es))
    decreases |es|
  {
    var c := s.channels[name];
    if es == [] {
      assert s.chans[c].got + [] == s.chans[c].got;
    } else {
      var e, n := es[0], Next(s, es[0]);
      NextGood(s, e);
      match e {
        case Request(f, _, _) => KnownRequest(s, es, s', name);
        case Incoming(f, _) =>
          IncomingTells(s, e, name);
          if f.command == Message && Lookup(f.header, "subscription") == Some(name) {
            KnownRun(n, es[1..], s', name);
            GrownLater(s, n, s', c, f, After(name, es[1..]));
          } else if n.running && name in n.channels && n.channels[name] == c {
            KnownRun(n, es[1..], s', name);
            GrownSame(s, n, s', c, After(name, es[1..]));
          } else {
            LooseOn(n, es[1..], s', c);
          }
        case Stop(notice, order) =>
          StopTells(s, order, notice, false, name);
          LooseOn(n, es[1..], s', c);
      }
    }
  }

  lemma {:induction false} KnownRequest(s: State, es: seq<Event>, s': State, name: string)
    requires Leads(s, es, s') && AllHarmless(es) && Good(s) && s.running && name in s.channels
    requires es != [] && es[0].Request?
    ensures Grown(s, s', s.channels[name], After(name, es))
    decreases |es|, 0
  {
    var c, e, n := s.channels[name], es[0], Next(s, es[0]);
    NextGood(s, e);
    RequestTells(s, e, name);
    assert s.chans[c].got + [] == s.chans[c].got;
    if n.running && name in n.channels && n.channels[name] == c {
      KnownRun(n, es[1..], s', name);
      GrownSame(s, n, s', c, After(name, es[1..]));
    } else {
      LooseOn(n, es[1..], s', c);
    }
  }

  /** The channel of the first request. */
  lemma BroughtRun(s: State, es: seq<Event>, s': State)
    requires Leads(s, es, s') && AllHarmless(es) && Good(s) && s.running && es != [] && Brings(es[0])
    ensures |s.chans| < |s'.chans| && s'.chans[|s.chans|] == ChannelOf(es)
  {
    var e, n, c := es[0], Next(s, es[0]), |s.chans|;
    NextGood(s, e);
    RequestBrings(s, e);
    if n.running && !Leaves(e.frame, NameOf(e.frame)) {
      KnownRun(n, es[1..], s', NameOf(e.frame));
      var l := After(NameOf(e.frame), es[1..]);
      assert [] + l.got == l.got;
    } else {
      LooseOn(n, es[1..], s', c);
    }
  }

  lemma StepCounts(s: State, e: Event)
    requires Ready(s, e)
    ensures |Next(s, e).chans| == |s.chans| + (if Brings(e) then 1 else 0)
    ensures Next(s, e).running <==> !Final(e)
    ensures Next(s, e).written == s.written + Sent(e)
  {
    assert s.written + [] == s.written;
    if e.Request? {
      Writes(s, e);
      Remembers(s, e);
      RememberGood(s, e.frame);
      Forgets(Remember(s, e.frame), e);
    }
  }

  lemma {:induction false} RunCounts(s: State, es: seq<Event>, s': State)
    requires Leads(s, es, s') && AllHarmless(es) && Good(s) && s.running
    ensures |s'.chans| == |s.chans| + |Channels(es)| && s'.written == s.written + AllSent(es)
    ensures s'.running <==> forall e :: e in es ==> !Final(e)
    decreases |es|
  {
    if es == [] {
      assert s.written + [] == s.written;
    } else {
      var n := Next(s, es[0]);
      NextGood(s, es[0]);
      StepCounts(s, es[0]);
      assert s.written + (Sent(es[0]) + AllSent(es[1..])) == (s.written + Sent(es[0])) + AllSent(es[1..]);
      assert forall e :: e in es <==> e == es[0] || e in es[1..];
      if n.running { RunCounts(n, es[1..], s'); } else { assert es[1..] == []; assert n.written + [] == n.written; }
    }
  }

  lemma Ended(s: State, es: seq<Event>, s': State)
    requires Leads(s, es, s')
    ensures !s.running ==> es == []
  {
  }

  lemma {:induction false} RunBrings(s: State, es: seq<Event>, s': State, i: nat)
    requires Leads(s, es, s') && AllHarmless(es) && Good(s) && s.running && i < |Channels(es)|
    ensures |s.chans| + i < |s'.chans| && s'.chans[|s.chans| + i] == Channels(es)[i]
    decreases |es|
  {
    var n := Next(s, es[0]);
    NextGood(s, es[0]);
    StepCounts(s, es[0]);
    if Brings(es[0]) && i == 0 {
      BroughtRun(s, es, s');
    } else {
      Ended(n, es[1..], s');
      RunBrings(n, es[1..], s', if Brings(es[0]) then i - 1 else i);
    }
  }

  /** From the start, with no subscription asking for a receipt under another name: every response channel has
      got what the events say and is closed when they say so, the requests went out as the events say, and the
      loop has ended exactly if some event ends it. */
  lemma EveryChannelGetsItsAnswers(es: seq<Event>, s': State)
    requires Leads(INITIAL, es, s') && Matching(es)
    ensures s'.chans == Channels(es) && s'.written == AllSent(es) && !s'.broken
    ensures s'.running <==> forall e :: e in es ==> !Final(e)
  {
    MatchingIsHarmless(es);
    ResponseChannelsAreSafe(INITIAL, es, s');
    RunCounts(INITIAL, es, s');
    forall i | 0 <= i < |Channels(es)| ensures s'.chans[i] == Channels(es)[i] { RunBrings(INITIAL, es, s', i); }
    assert [] + AllSent(es) == AllSent(es);
  }

  lemma MatchingIsHarmless(es: seq<Event>)
    requires Matching(es)
    ensures AllHarmless(es)
  {
    forall i | 0 <= i < |es| ensures Harmless(es[i]) { assert es[i] in es; }
  }

  /** No event is impossible while the loop runs: every frame can come in, every request can be taken and its
      write can succeed or fail, and the loop can be stopped. */
  lemma NothingBlocks(es: seq<Event>, s': State, f: Frame, ok: bool) returns (order: seq<string>, before: seq<string>)
    requires Leads(INITIAL, es, s') && Matching(es) && forall e :: e in es ==> !Final(e)
    ensures Enabled(s', Incoming(f, before)) && Enabled(s', Stop(f, before)) && Enabled(s', Request(f, ok, order))
  {
    MatchingIsHarmless(es);
    ResponseChannelsAreSafe(INITIAL, es, s');
    RunCounts(INITIAL, es, s');
    before := SomeOrder(s'.channels);
    order := SomeOrder(Forget(Remember(s', f), f).channels);
  }

  // ---------- receipts ----------

  lemma {:induction false} ChannelsAt(es: seq<Event>, i: nat)
    requires i < |es| && Brings(es[i])
    ensures |Channels(es[..i])| < |Channels(es)| && Channels(es)[|Channels(es[..i])|] == ChannelOf(es[i..])
  {
    if i == 0 {
      assert es[..0] == [] && es[0..] == es;
    } else {
      assert es[..i][1..] == es[1..][..i - 1] && es[1..][i - 1..] == es[i..];
      ChannelsAt(es[1..], i - 1);
    }
  }

  /** The event neither concerns the name nor ends the loop, unless it is a message for the name. */
  predicate Calm(name: string, e: Event) {
    && !Final(e)
    && (e.Request? ==> !(Brings(e) && NameOf(e.frame) == name) && !Leaves(e.frame, name))
    && (e.Incoming? && e.frame.command == Receipt ==> Lookup(e.frame.header, "receipt-id") != Some(name))
  }

  ghost predicate Quiet(name: string, es: seq<Event>) { forall e :: e in es ==> Calm(name, e) }

  predicate IsMessageFor(name: string, e: Event) {
    e.Incoming? && e.frame.command == Message && Lookup(e.frame.header, "subscription") == Some(name)
  }

  /** The messages for the name. */
  function MessagesFor(name: string, es: seq<Event>): seq<Frame> {
    if es == [] then []
    else
      (if IsMessageFor(name, es[0]) then [es[0].frame] else []) + MessagesFor(name, es[1..])
  }

  lemma AfterCalm(name: string, e: Event, rest: seq<Event>)
    requires Calm(name, e)
    ensures var l := After(name, rest);
            After(name, [e] + rest) == Chan(l.open, (if IsMessageFor(name, e) then [e.frame] else []) + l.got)
  {
    assert ([e] + rest)[1..] == rest && [] + After(name, rest).got == After(name, rest).got;
  }

  lemma Regroup(a: seq<Frame>, b: seq<Frame>, c: seq<Frame>)
    ensures a + (b + c) == a + b + c
  {
  }

  lemma {:induction false} AfterQuiet(name: string, es: seq<Event>, e: Event)
    requires Quiet(name, es) && e.Incoming? && e.frame.command == Receipt
    requires Lookup(e.frame.header, "receipt-id") == Some(name)
    ensures After(name, es + [e]) == Chan(false, MessagesFor(name, es) + [e.frame])
  {
    if es == [] {
      assert es + [e] == [e];
    } else {
      assert (es + [e])[0] == es[0] && (es + [e])[1..] == es[1..] + [e] && es[0] in es;
      AfterCalm(name, es[0], es[1..] + [e]);
      assert es + [e] == [es[0]] + (es[1..] + [e]);
      AfterQuiet(name, es[1..], e);
      var own := if IsMessageFor(name, es[0]) then [es[0].frame] else [];
      Regroup(own, MessagesFor(name, es[1..]), [e.frame]);
    }
  }

  lemma CutAt(before: seq<Event>, e: Event, rest: seq<Event>, es: seq<Event>)
    requires es == before + [e] + rest
    ensures |before| < |es| && es[..|before|] == before && es[|before|] == e
    ensures es[|before|..][0] == e && es[|before|..][1..] == rest
  {
  }

  lemma OwnChannel(es: seq<Event>)
    requires es != [] && Brings(es[0]) && !Final(es[0]) && !Leaves(es[0].frame, NameOf(es[0].frame))
    ensures ChannelOf(es) == After(NameOf(es[0].frame), es[1..])
  {
  }

  /** A receipt closes the channel that is known by its id, after the messages for it and nothing else. */
  lemma ReceiptClosesItsChannel(before: seq<Event>, e: Event, between: seq<Event>, receipt: Event, s': State)
    requires Leads(INITIAL, before + [e] + between + [receipt], s') && Matching(before + [e] + between + [receipt])
    requires Brings(e) && !Final(e) && !Leaves(e.frame, NameOf(e.frame)) && Quiet(NameOf(e.frame), between)
    requires receipt.Incoming? && receipt.frame.command == Receipt
    requires Lookup(receipt.frame.header, "receipt-id") == Some(NameOf(e.frame))
    ensures |Channels(before)| < |s'.chans|
    ensures s'.chans[|Channels(before)|] == Chan(false, MessagesFor(NameOf(e.frame), between) + [receipt.frame])
  {
    var es := before + [e] + between + [receipt];
    assert es == before + [e] + (between + [receipt]);
    EveryChannelGetsItsAnswers(es, s');
    CutAt(before, e, between + [receipt], es);
    ChannelsAt(es, |before|);
    OwnChannel(es[|before|..]);
    AfterQuiet(NameOf(e.frame), between, receipt);
  }

  /** The server's answer to a request that asks for a receipt closes the channel of that request. */
  lemma AnswerFindsItsRequest(before: seq<Event>, e: Event, between: seq<Event>, receipt: Event, s': State)
    requires Leads(INITIAL, before + [e] + between + [receipt], s') && Matching(before + [e] + between + [receipt])
    requires e.Request? && !Final(e) && Transactions.Asks(e.frame) && Quiet(NameOf(e.frame), between)
    requires receipt.Incoming? && Transactions.AskedBy(e.frame) == Session.Answer(receipt.frame)
    ensures |Channels(before)| < |s'.chans|
    ensures var c := s'.chans[|Channels(before)|]; !c.open && |c.got| > 0 && c.got[|c.got| - 1] == receipt.frame
  {
    assert receipt.frame == Frame(Receipt, [Entry("receipt-id", NameOf(e.frame))], "");
    ReceiptClosesItsChannel(before, e, between, receipt, s');
  }

  /** UNSUBSCRIBE goes out as it is but for its receipt, which is its id. */
  lemma UnsubscribeAsks(e: Event, id: string)
    requires e.Request? && e.ok && e.frame.command == Unsubscribe && !Local(e.frame) && Lookup(e.frame.header, "id") == Some(id)
    ensures |Sent(e)| == 1
    ensures var f := Sent(e)[0];
            && f.command == Unsubscribe && f.body == e.frame.body && Lookup(f.header, "receipt") == Some(id)
            && forall key :: key != "receipt" ==> Lookup(f.header, key) == Lookup(e.frame.header, key)
  {
    var f := Sent(e)[0];
    LookupAfterSet(e.frame.header, "receipt", id, "receipt");
    forall key | key != "receipt" ensures Lookup(f.header, key) == Lookup(e.frame.header, key) {
      LookupAfterSet(e.frame.header, "receipt", id, key);
    }
  }

  /** A subscription's channel has got its messages, in order, when a receipt under the id that the UNSUBSCRIBE
      carries closes it. */
  lemma UnsubscribeEndsTheSubscription(before: seq<Event>, sub: Event, between: seq<Event>, unsub: Event, receipt: Event,
                                       id: string, s': State)
    requires sub.Request? && sub.ok && sub.frame.command == Subscribe && !Local(sub.frame)
    requires unsub.Request? && unsub.ok && unsub.frame.command == Unsubscribe && !Local(unsub.frame)
    requires Lookup(sub.frame.header, "id") == Some(id) == Lookup(unsub.frame.header, "id")
    requires Quiet(id, between) && unsub in between && receipt.Incoming?
    requires receipt.frame.command == Receipt && Lookup(receipt.frame.header, "receipt-id") == Some(id)
    requires Leads(INITIAL, before + [sub] + between + [receipt], s') && Matching(before + [sub] + between + [receipt])
    ensures |Channels(before)| < |s'.chans|
    ensures s'.chans[|Channels(before)|] == Chan(false, MessagesFor(id, between) + [receipt.frame])
    ensures Sent(unsub)[0] in s'.written
  {
    ReceiptClosesItsChannel(before, sub, between, receipt, s');
    WrittenInIt(before + [sub] + between + [receipt], unsub, s');
  }

  lemma WrittenInIt(es: seq<Event>, e: Event, s': State)
    requires e in es && Leads(INITIAL, es, s') && Matching(es) && Sent(e) != []
    ensures Sent(e)[0] in s'.written
  {
    EveryChannelGetsItsAnswers(es, s');
    var i :| 0 <= i < |es| && es[i] == e;
    SentIsIn(es, i, Sent(e)[0]);
  }

  lemma {:induction false} SentIsIn(es: seq<Event>, i: nat, f: Frame)
    requires i < |es| && f in Sent(es[i])
    ensures f in AllSent(es)
  {
    if i > 0 { SentIsIn(es[1..], i - 1, f); }
  }

  // ---------- against this server ----------

  lemma {:induction false} SentBy(es: seq<Event>, f: Frame) returns (e: Event)
    requires f in AllSent(es)
    ensures e in es && f in Sent(e)
  {
    if f in Sent(es[0]) { e := es[0]; } else { e := SentBy(es[1..], f); }
  }

  /** Every answer of a session is the receipt that one of its frames asks for. */
  lemma {:induction false} AnswersAreAsked(s: Session.State, es: seq<Session.Event>, link: Session.Link, answer: Frame)
    returns (f: Frame)
    requires Session.Valid(s) && Session.Answer(answer) in Transactions.Due(s, es, link)
    ensures Session.FromClient(f) in es && Transactions.Asks(f) && Transactions.AskedBy(f) == Session.Answer(answer)
    decreases |es|
  {
    Session.ReactKeepsValid(s, es[0], link);
    if Session.Answer(answer) in Transactions.DueFor(s, es[0], link) {
      f := es[0].frame;
    } else {
      f := AnswersAreAsked(Session.React(s, es[0], link).state, es[1..], link, answer);
    }
  }

  lemma {:induction false} AfterOpen(name: string, es: seq<Event>)
    requires forall e :: e in es && e.Incoming? ==> e.frame.command != Error
    requires forall e :: e in es && e.Incoming? && e.frame.command == Receipt ==> Lookup(e.frame.header, "receipt-id") != Some(name)
    requires forall e :: e in es && e.Request? ==> !Leaves(e.frame, name)
    ensures After(name, es).open
  {
    if es != [] {
      assert es[0] in es;
      AfterOpen(name, es[1..]);
    }
  }

  /** The client and a session that reads only what the client wrote, while the client takes receipts only from
      what the session answered. */
  ghost predicate Connected(es: seq<Event>, written: seq<Frame>, session: seq<Session.Event>, link: Session.Link) {
    && Session.Run(Session.EMPTY, session, link).error.None?
    && (forall f :: Session.FromClient(f) in session ==> f in written)
    && (forall e :: e in es && e.Incoming? && e.frame.command == Receipt ==>
                      Session.Answer(e.frame) in Session.Run(Session.EMPTY, session, link).state.written)
  }

  /** No request asks for a receipt under the name, and none is about a temporary queue of that name. */
  ghost predicate Unshared(name: string, es: seq<Event>) {
    forall e :: e in es && e.Request? ==>
                  !Leaves(e.frame, name) && (e.frame.command != Subscribe ==> Lookup(e.frame.header, "receipt") != Some(name))
  }

  lemma NoReceiptFor(name: string, es: seq<Event>, session: seq<Session.Event>, link: Session.Link, e: Event)
    requires Connected(es, AllSent(es), session, link) && Unshared(name, es)
    requires e in es && e.Incoming? && e.frame.command == Receipt
    ensures Lookup(e.frame.header, "receipt-id") != Some(name)
  {
    Transactions.ReceiptsOnce(Session.EMPTY, session, link);
    assert Session.Answer(e.frame) in Transactions.Due(Session.EMPTY, session, link);
    var f := AnswersAreAsked(Session.EMPTY, session, link, e.frame);
    var asked := SentBy(es, f);
  }

  /** The server answers neither SUBSCRIBE nor UNSUBSCRIBE: as long as it sends no ERROR, a subscription's channel
      is never closed, whether or not the client has written UNSUBSCRIBE. */
  lemma UnsubscribeIsNeverAnswered(before: seq<Event>, sub: Event, later: seq<Event>, session: seq<Session.Event>,
                                   link: Session.Link, s': State)
    requires Leads(INITIAL, before + [sub] + later, s') && Matching(before + [sub] + later)
    requires sub.Request? && sub.ok && sub.frame.command == Subscribe && Unshared(NameOf(sub.frame), before + [sub] + later)
    requires Connected(before + [sub] + later, s'.written, session, link)
    requires forall e :: e in later && e.Incoming? ==> e.frame.command != Error
    ensures |Channels(before)| < |s'.chans| && s'.chans[|Channels(before)|].open
  {
    var es, name := before + [sub] + later, NameOf(sub.frame);
    EveryChannelGetsItsAnswers(es, s');
    assert es[..|before|] == before && es[|before|] == sub && es[|before|..][1..] == later;
    ChannelsAt(es, |before|);
    forall e | e in later && e.Incoming? && e.frame.command == Receipt
      ensures Lookup(e.frame.header, "receipt-id") != Some(name)
    {
      NoReceiptFor(name, es, session, link, e);
    }
    AfterOpen(name, later);
  }
}
