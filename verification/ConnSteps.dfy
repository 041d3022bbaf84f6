/** Every step of a connection keeps the ledger. */
module ConnSteps {
  import opened Text
  import opened Frames
  import opened Acks
  import opened Broker
  import opened Ledger
  import opened Steps

  // ---------- lists of held frames ----------

  lemma {:induction false} FramesHeldCount(h: Heap, l: seq<nat>, f: nat)
    requires AllHold(h, l)
    ensures multiset(FramesHeld(h, l))[f] == Held(h.subs, l, f)
  {
    if l != [] {
      assert l[0] in l && forall s :: s in l[1..] ==> s in l;
      FramesHeldCount(h, l[1..], f);
    }
  }

  lemma ReqConcat(xs: seq<Request>, ys: seq<Request>, x: nat)
    ensures ReqTokens(xs + ys, x) == ReqTokens(xs, x) + ReqTokens(ys, x)
    ensures ReqFrames(xs + ys, x) == ReqFrames(xs, x) + ReqFrames(ys, x)
  {
  }

  lemma ReqPair(f: nat, s: nat, x: nat)
    ensures ReqTokens([SubscribeOp(s)], x) == (if x == s then 1 else 0) && ReqFrames([SubscribeOp(s)], x) == 0
    ensures ReqFrames([RequeueOp(f)], x) == (if x == f then 1 else 0) && ReqTokens([RequeueOp(f)], x) == 0
  {
  }

  lemma ReleaseOfCount(h: Heap, s: nat, nack: bool, x: nat)
    requires s < |h.subs| && h.subs[s].frame.Some?
    ensures ReqTokens(ReleaseOf(h, s, nack), x) == if x == s then 1 else 0
    ensures ReqFrames(ReleaseOf(h, s, nack), x) == if nack then Points(h.subs, s, x) else 0
  {
    var f := h.subs[s].frame.value;
    ReqPair(f, s, x);
    ReqConcat([RequeueOp(f)], [SubscribeOp(s)], x);
  }

  lemma {:induction false} ReleasedCount(h: Heap, l: seq<nat>, nack: bool, x: nat)
    requires AllHold(h, l)
    ensures ReqTokens(Released(h, l, nack), x) == multiset(l)[x]
    ensures ReqFrames(Released(h, l, nack), x) == if nack then Held(h.subs, l, x) else 0
  {
    if l != [] {
      assert l[0] in l && forall s :: s in l[1..] ==> s in l;
      ReleasedCount(h, l[1..], nack, x);
      HeldHead(h.subs, l, x);
      ReleaseOfCount(h, l[0], nack, x);
      ReqConcat(ReleaseOf(h, l[0], nack), Released(h, l[1..], nack), x);
    }
  }

  lemma {:induction false} RequeuesCount(fs: seq<nat>, x: nat)
    ensures ReqTokens(Requeues(fs), x) == 0
    ensures ReqFrames(Requeues(fs), x) == multiset(fs)[x]
  {
    if fs != [] {
      RequeuesCount(fs[1..], x);
      assert fs == [fs[0]] + fs[1..];
    }
  }

  lemma {:induction false} UnsubscriptionsCount(k: Conn, order: seq<string>, x: nat)
    requires forall id :: id in order ==> id in k.subs
    ensures ReqTokens(Unsubscriptions(k, order), x) == 0
    ensures ReqFrames(Unsubscriptions(k, order), x) == 0
  {
    if order != [] { UnsubscriptionsCount(k, order[1..], x); }
  }

  lemma Cons(subs: seq<Sub>, s: nat, l: seq<nat>, x: nat)
    ensures multiset([s] + l)[x] == (if x == s then 1 else 0) + multiset(l)[x]
    ensures Held(subs, [s] + l, x) == Points(subs, s, x) + Held(subs, l, x)
  {
    assert ([s] + l)[1..] == l;
  }

  /** Acknowledging splits the list: every entry is either taken or kept. */
  lemma {:induction false} ReleaseSplits(h: Heap, l: seq<nat>, msgId: nat, nack: bool, x: nat)
    ensures multiset(Taken(h, l, msgId, nack))[x] + multiset(Kept(h, l, msgId, nack))[x] == multiset(l)[x]
    ensures Held(h.subs, Taken(h, l, msgId, nack), x) + Held(h.subs, Kept(h, l, msgId, nack), x) ==
            Held(h.subs, l, x)
  {
    if l != [] {
      ReleaseSplits(h, l[1..], msgId, nack, x);
      SplitOn(h.subs, l[0], l[1..], Taken(h, l[1..], msgId, nack), Kept(h, l[1..], msgId, nack), x);
      HeadAndRest(l);
      if Matched(h, l[0], msgId, nack) {
        HeadTaken(h, l, msgId, nack);
      } else {
        HeadKept(h, l, msgId, nack);
      }
    }
  }

  lemma HeadAndRest(l: seq<nat>)
    requires l != []
    ensures l == [l[0]] + l[1..]
  {
  }

  lemma SplitOn(subs: seq<Sub>, s: nat, l: seq<nat>, t: seq<nat>, k: seq<nat>, x: nat)
    requires multiset(t)[x] + multiset(k)[x] == multiset(l)[x] && Held(subs, t, x) + Held(subs, k, x) == Held(subs, l, x)
    ensures multiset([s] + t)[x] + multiset(k)[x] == multiset([s] + l)[x] == multiset(t)[x] + multiset([s] + k)[x]
    ensures Held(subs, [s] + t, x) + Held(subs, k, x) == Held(subs, [s] + l, x) == Held(subs, t, x) + Held(subs, [s] + k, x)
  {
    Cons(subs, s, l, x);
    Cons(subs, s, t, x);
    Cons(subs, s, k, x);
  }

  lemma HeadTaken(h: Heap, l: seq<nat>, msgId: nat, nack: bool)
    requires l != [] && Matched(h, l[0], msgId, nack)
    ensures Taken(h, l, msgId, nack) == [l[0]] + Taken(h, l[1..], msgId, nack)
    ensures Kept(h, l, msgId, nack) == Kept(h, l[1..], msgId, nack)
  {
  }

  lemma HeadKept(h: Heap, l: seq<nat>, msgId: nat, nack: bool)
    requires l != [] && !Matched(h, l[0], msgId, nack)
    ensures Taken(h, l, msgId, nack) == Taken(h, l[1..], msgId, nack)
    ensures Kept(h, l, msgId, nack) == [l[0]] + Kept(h, l[1..], msgId, nack)
  {
  }

  lemma HeldHead(subs: seq<Sub>, l: seq<nat>, f: nat)
    requires l != []
    ensures Held(subs, l, f) == Points(subs, l[0], f) + Held(subs, l[1..], f)
    ensures multiset(l)[f] == (if f == l[0] then 1 else 0) + multiset(l[1..])[f]
  {
    assert l == [l[0]] + l[1..];
  }

  // ---------- client frames ----------

  lemma ReleaseRequestsOk(h: Heap, h': Heap, c: nat, l: seq<nat>, nack: bool)
    requires AllHold(h, l) && (forall s :: s in l ==> UnackedOk(h, c, s))
    requires |h'.subs| == |h.subs| && h'.frames == h.frames
    requires forall s :: s in l ==> s in h'.released && h'.subs[s].listed && h'.subs[s].frame.None?
    ensures RequestsOk(h', Released(h, l, nack))
    decreases l
  {
    if l != [] {
      assert l[0] in l && forall s :: s in l[1..] ==> s in l;
      assert UnackedOk(h, c, l[0]);
      ReleaseRequestsOk(h, h', c, l[1..], nack);
      assert RequestsOk(h', ReleaseOf(h, l[0], nack));
    }
  }

  /** The un-acknowledged list of connection c loses the entries x to the step's hands. */
  lemma TakeUnacked(b: Broker, c: nat, kept: seq<nat>, taken: seq<nat>, k: Conn, hf: multiset<nat>)
    requires Inv(b, multiset{}, multiset{}) && c < |b.conns|
    requires k == b.conns[c].(unacked := kept, phase := k.phase, subs := k.subs)
    requires ConnOk(b.heap, c, k)
    requires forall x: nat :: multiset(taken)[x] + multiset(kept)[x] == multiset(b.conns[c].unacked)[x]
    requires forall x: nat :: hf[x] + Held(b.heap.subs, kept, x) == Held(b.heap.subs, b.conns[c].unacked, x)
    ensures Inv(SetConn(b, c, k), multiset(taken), hf)
  {
    SetConnInv(b, c, k, multiset{}, multiset{}, multiset(taken), hf);
  }

  function ReleasedHeap(h: Heap, taken: seq<nat>): Heap {
    h.(subs := ClearFrames(h.subs, taken), released := h.released + (set s | s in taken))
  }

  lemma ReleasedHeapInv(b: Broker, c: nat, taken: seq<nat>, hf: multiset<nat>)
    requires Inv(b, multiset(taken), hf)
    requires forall s :: s in taken ==> UnackedOk(b.heap, c, s)
    ensures Inv(b.(heap := ReleasedHeap(b.heap, taken)), multiset(taken), hf)
  {
    HeapInv(b, ReleasedHeap(b.heap, taken), set s | s in taken, multiset(taken), hf);
  }

  lemma TakeReleased(b: Broker, c: nat, msgId: nat, nack: bool)
    requires Inv(b, multiset{}, multiset{}) && c < |b.conns|
    ensures var k := b.conns[c];
            var taken := Taken(b.heap, k.unacked, msgId, nack);
            && (forall s :: s in taken ==> UnackedOk(b.heap, c, s))
            && Inv(SetConn(b, c, k.(unacked := Kept(b.heap, k.unacked, msgId, nack))),
                   multiset(taken), multiset(FramesHeld(b.heap, taken)))
  {
    var k := b.conns[c];
    var taken, kept := Taken(b.heap, k.unacked, msgId, nack), Kept(b.heap, k.unacked, msgId, nack);
    assert ConnOk(b.heap, c, k);
    assert forall s :: s in taken ==> UnackedOk(b.heap, c, s);
    var mt: multiset<nat>, mk: multiset<nat>, mu: multiset<nat> := multiset(taken), multiset(kept), multiset(k.unacked);
    var mh: multiset<nat> := multiset(FramesHeld(b.heap, taken));
    forall x: nat ensures mt[x] + mk[x] == mu[x]
                  ensures mh[x] + Held(b.heap.subs, kept, x) == Held(b.heap.subs, k.unacked, x)
    {
      ReleaseSplits(b.heap, k.unacked, msgId, nack, x);
      FramesHeldCount(b.heap, taken, x);
    }
    TakeUnacked(b, c, kept, taken, k.(unacked := kept), mh);
  }

  lemma ReleaseInv(b: Broker, c: nat, msgId: nat, nack: bool)
    requires Inv(b, multiset{}, multiset{}) && b.panic.None? && c < |b.conns| && b.conns[c].outbox == []
    ensures var b' := DoRelease(b, c, msgId, nack);
            && (b'.panic.None? ==> Inv(b', multiset{}, multiset{}))
            && b'.panic == (if !nack && InvalidModeWaiting(b, c) then Some(InvalidAckMode) else None)
  {
    if nack || !InvalidModeWaiting(b, c) {
      TakeReleased(b, c, msgId, nack);
      ReleaseRest(b, c, msgId, nack);
    }
  }

  ghost predicate InvalidModeWaiting(b: Broker, c: nat)
    requires c < |b.conns|
  {
    exists s :: s in b.conns[c].unacked && s < |b.heap.subs| && b.heap.subs[s].ack.Invalid?
  }

  lemma ReleaseCounts(h: Heap, taken: seq<nat>, nack: bool, x: nat)
    requires AllHold(h, taken)
    ensures ReqTokens(Released(h, taken, nack), x) == multiset(taken)[x]
    ensures ReqFrames(Released(h, taken, nack), x) == if nack then multiset(FramesHeld(h, taken))[x] else 0
  {
    ReleasedCount(h, taken, nack, x);
    FramesHeldCount(h, taken, x);
  }

  lemma ReleaseRest(b: Broker, c: nat, msgId: nat, nack: bool)
    requires Local(b) && c < |b.conns| && b.conns[c].outbox == []
    requires nack || !InvalidModeWaiting(b, c)
    requires var k := b.conns[c];
             var taken := Taken(b.heap, k.unacked, msgId, nack);
             && (forall s :: s in taken ==> UnackedOk(b.heap, c, s))
             && Inv(SetConn(b, c, k.(unacked := Kept(b.heap, k.unacked, msgId, nack))),
                    multiset(taken), multiset(FramesHeld(b.heap, taken)))
    ensures Inv(DoRelease(b, c, msgId, nack), multiset{}, multiset{})
  {
    var k := b.conns[c];
    var taken, kept := Taken(b.heap, k.unacked, msgId, nack), Kept(b.heap, k.unacked, msgId, nack);
    var b1 := SetConn(b, c, k.(unacked := kept));
    ReleasedHeapInv(b1, c, taken, multiset(FramesHeld(b.heap, taken)));
    var b2 := b1.(heap := ReleasedHeap(b.heap, taken));
    ReleaseRequestsOk(b.heap, b2.heap, c, taken, nack);
    EmitReleased(b.heap, b2, c, taken, nack);
  }

  /** The requests of the released subscriptions leave the step's hands; the frames of an ACK retire. */
  lemma EmitReleased(h: Heap, b: Broker, c: nat, taken: seq<nat>, nack: bool)
    requires AllHold(h, taken) && Inv(b, multiset(taken), multiset(FramesHeld(h, taken)))
    requires c < |b.conns| && b.conns[c].outbox == [] && RequestsOk(b.heap, Released(h, taken, nack))
    ensures var b' := if nack then b else b.(retired := b.retired + FramesHeld(h, taken));
            Inv(Emit(b', c, Released(h, taken, nack)), multiset{}, multiset{})
  {
    var held, rs := FramesHeld(h, taken), Released(h, taken, nack);
    var ht: multiset<nat>, hf: multiset<nat> := multiset(taken), multiset(held);
    forall x: nat ensures ReqTokens(rs, x) == ht[x]
                  ensures ReqFrames(rs, x) == if nack then hf[x] else 0
    {
      ReleaseCounts(h, taken, nack, x);
    }
    if nack {
      EmitInv(b, c, rs, ht, hf);
    } else {
      var b3 := b.(retired := b.retired + held);
      EndInv(b, b3, ht, hf);
      EmitInv(b3, c, rs, ht, multiset{});
    }
  }

  // ---------- the subscription channel ----------

  lemma TakeChannel(b: Broker, c: nat)
    requires Inv(b, multiset{}, multiset{}) && c < |b.conns| && b.conns[c].subChannel != []
    ensures var k := b.conns[c]; var s := k.subChannel[0];
            && ChannelOk(b.heap, c, s)
            && Inv(SetConn(b, c, k.(subChannel := k.subChannel[1..])), multiset{s},
                   multiset{b.heap.subs[s].frame.value})
  {
    var k := b.conns[c];
    var s, k' := k.subChannel[0], k.(subChannel := k.subChannel[1..]);
    assert ConnOk(b.heap, c, k) && s in k.subChannel;
    assert ChannelOk(b.heap, c, s);
    forall x: nat ensures ConnTokens(k', x) + multiset{s}[x] == ConnTokens(k, x)
                  ensures ConnFrames(b.heap.subs, k', x) + multiset{b.heap.subs[s].frame.value}[x] ==
                          ConnFrames(b.heap.subs, k, x)
    {
      HeldHead(b.heap.subs, k.subChannel, x);
    }
    SetConnInv(b, c, k', multiset{}, multiset{}, multiset{s}, multiset{b.heap.subs[s].frame.value});
  }

  lemma RequeueHeld(b: Broker, c: nat, s: nat, f: nat)
    requires Inv(b, multiset{s}, multiset{f}) && c < |b.conns| && b.conns[c].outbox == []
    requires RequestOk(b.heap, RequeueOp(f))
    ensures Inv(Emit(b, c, [RequeueOp(f)]), multiset{}, multiset{})
  {
    EmitInv(b, c, [RequeueOp(f)], multiset{s}, multiset{f});
  }

  /** Only bookkeeping of the connection changes. */
  lemma PhaseInv(b: Broker, c: nat, k: Conn, ht: multiset<nat>, hf: multiset<nat>)
    requires Inv(b, ht, hf) && c < |b.conns|
    requires k == b.conns[c].(phase := k.phase, lastMsgId := k.lastMsgId, log := k.log)
    ensures Inv(SetConn(b, c, k), ht, hf)
  {
    assert ConnOk(b.heap, c, b.conns[c]);
    SetConnInv(b, c, k, ht, hf, ht, hf);
  }

  lemma StampInv(b: Broker, c: nat, s: nat, n: nat, ht: multiset<nat>, hf: multiset<nat>)
    requires Inv(b, ht, hf) && ChannelOk(b.heap, c, s)
    ensures Inv(b.(heap := StampHeld(b.heap, s, n)), ht, hf)
  {
    StampSame(b.heap, s, n);
    HeapInv(b, StampHeld(b.heap, s, n), {}, ht, hf);
  }

  lemma StampSame(h: Heap, s: nat, n: nat)
    requires s < |h.subs| && h.subs[s].frame.Some? && h.subs[s].frame.value < |h.frames|
    ensures SameBut(h, StampHeld(h, s, n), {})
  {
    var f := h.subs[s].frame.value;
    StampKeepsDest(h.frames[f], n, h.subs[s].ack);
  }

  lemma DeliveredAuto(b: Broker, c: nat, s: nat, f: nat)
    requires Inv(b, multiset{s}, multiset{f}) && c < |b.conns| && b.conns[c].outbox == []
    requires ChannelOk(b.heap, c, s)
    ensures Inv(Emit(SetFrame(b, s, None).(retired := b.retired + [f]), c, [SubscribeOp(s)]), multiset{}, multiset{})
  {
    RetireInv(b, s, f);
    var b2 := SetFrame(b, s, None).(retired := b.retired + [f]);
    assert RequestOk(b2.heap, SubscribeOp(s));
    EmitInv(b2, c, [SubscribeOp(s)], multiset{s}, multiset{});
  }

  lemma RetireInv(b: Broker, s: nat, f: nat)
    requires Inv(b, multiset{s}, multiset{f}) && s < |b.heap.subs|
    ensures Inv(SetFrame(b, s, None).(retired := b.retired + [f]), multiset{s}, multiset{})
  {
    var b1 := SetFrame(b, s, None);
    HeapInv(b, b1.heap, {s}, multiset{s}, multiset{f});
    EndInv(b1, b1.(retired := b.retired + [f]), multiset{s}, multiset{f});
  }

  lemma AppendUnackedOk(h: Heap, c: nat, k: Conn, s: nat)
    requires ConnOk(h, c, k) && UnackedOk(h, c, s)
    ensures ConnOk(h, c, k.(unacked := k.unacked + [s]))
  {
  }

  lemma UnackedCounts(subs: seq<Sub>, k: Conn, s: nat, f: nat, x: nat)
    requires s < |subs| && subs[s].frame == Some(f)
    ensures var k' := k.(unacked := k.unacked + [s]);
            && ConnTokens(k', x) == ConnTokens(k, x) + multiset{s}[x]
            && ConnFrames(subs, k', x) == ConnFrames(subs, k, x) + multiset{f}[x]
  {
    HeldAppend(subs, k.unacked, s, x);
  }

  lemma AppendUnackedInv(b: Broker, c: nat, s: nat, f: nat)
    requires Inv(b, multiset{s}, multiset{f}) && c < |b.conns|
    requires UnackedOk(b.heap, c, s) && b.heap.subs[s].frame == Some(f)
    ensures var k := b.conns[c];
            Inv(SetConn(b, c, k.(unacked := k.unacked + [s])), multiset{}, multiset{})
  {
    var k := b.conns[c];
    var k' := k.(unacked := k.unacked + [s]);
    forall x: nat ensures ConnTokens(k', x) == ConnTokens(k, x) + multiset{s}[x]
                  ensures ConnFrames(b.heap.subs, k', x) == ConnFrames(b.heap.subs, k, x) + multiset{f}[x]
    {
      UnackedCounts(b.heap.subs, k, s, f, x);
    }
    AppendUnackedOk(b.heap, c, k, s);
    SetConnInv(b, c, k', multiset{s}, multiset{f}, multiset{}, multiset{});
  }

  lemma DeliveredToAck(b: Broker, c: nat, s: nat, f: nat)
    requires Inv(b, multiset{s}, multiset{f}) && c < |b.conns|
    requires ChannelOk(b.heap, c, s) && b.heap.subs[s].frame == Some(f)
    requires !b.heap.subs[s].listed && !b.heap.subs[s].ack.Auto?
    ensures var k := b.conns[c];
            Inv(SetListed(SetConn(b, c, k.(unacked := k.unacked + [s])), s, true), multiset{}, multiset{})
  {
    var b1, k := SetListed(b, s, true), b.conns[c];
    ListedSame(b.heap, s, true);
    HeapInv(b, b1.heap, {s}, multiset{s}, multiset{f});
    AppendUnackedInv(b1, c, s, f);
    var k' := k.(unacked := k.unacked + [s]);
    assert SetConn(b1, c, k') == SetListed(SetConn(b, c, k'), s, true);
  }

  /** The next subscription in the channel needs acknowledgement and was released before. */
  predicate StaleDelivery(b: Broker, c: nat)
    requires c < |b.conns|
  {
    var k := b.conns[c];
    && k.subChannel != []
    && var s := k.subChannel[0];
       && s < |b.heap.subs| && b.heap.subs[s].id in k.subs
       && !b.heap.subs[s].ack.Auto? && s in b.heap.released
  }

  lemma StampedInTwo(b: Broker, c: nat)
    requires Local(b) && c < |b.conns| && b.conns[c].subChannel != []
    requires ChannelOk(b.heap, c, b.conns[c].subChannel[0])
    ensures var k, n := b.conns[c], NextId(b.conns[c].lastMsgId);
            var b1 := SetConn(b, c, k.(subChannel := k.subChannel[1..]));
            Stamped(b, c) == SetConn(b1, c, b1.conns[c].(lastMsgId := n)).(heap := StampHeld(b.heap, k.subChannel[0], n))
  {
  }

  lemma StampedInv(b: Broker, c: nat)
    requires Inv(b, multiset{}, multiset{}) && c < |b.conns| && b.conns[c].subChannel != []
    ensures var s := b.conns[c].subChannel[0];
            && ChannelOk(b.heap, c, s) && ChannelOk(Stamped(b, c).heap, c, s)
            && Inv(Stamped(b, c), multiset{s}, multiset{b.heap.subs[s].frame.value})
  {
    TakeChannel(b, c);
    var k := b.conns[c];
    var s, n := k.subChannel[0], NextId(k.lastMsgId);
    var f := b.heap.subs[s].frame.value;
    var b1 := SetConn(b, c, k.(subChannel := k.subChannel[1..]));
    CountedInv(b1, c, s, n, multiset{s}, multiset{f});
    StampedInTwo(b, c);
    StampedChannelOk(b.heap, c, s, n);
  }

  lemma StampedChannelOk(h: Heap, c: nat, s: nat, n: nat)
    requires ChannelOk(h, c, s)
    ensures ChannelOk(StampHeld(h, s, n), c, s)
  {
    StampKeepsDest(h.frames[h.subs[s].frame.value], n, h.subs[s].ack);
  }

  lemma CountedInv(b: Broker, c: nat, s: nat, n: nat, ht: multiset<nat>, hf: multiset<nat>)
    requires Inv(b, ht, hf) && c < |b.conns| && ChannelOk(b.heap, c, s)
    ensures Inv(SetConn(b, c, b.conns[c].(lastMsgId := n)).(heap := StampHeld(b.heap, s, n)), ht, hf)
  {
    PhaseInv(b, c, b.conns[c].(lastMsgId := n), ht, hf);
    StampInv(SetConn(b, c, b.conns[c].(lastMsgId := n)), c, s, n, ht, hf);
  }

  lemma ReceiveInv(b: Broker, c: nat, writeOk: bool)
    requires Inv(b, multiset{}, multiset{}) && b.panic.None? && c < |b.conns|
    requires b.conns[c].outbox == [] && b.conns[c].subChannel != []
    ensures var b' := DoReceive(b, c, writeOk);
            && (b'.panic.None? ==> Inv(b', multiset{}, multiset{}))
            && b'.panic == (if writeOk && StaleDelivery(b, c) then Some(AlreadyListed) else None)
  {
    var k := b.conns[c];
    var s := k.subChannel[0];
    TakeChannel(b, c);
    if b.heap.subs[s].id !in k.subs {
      RequeueHeld(SetConn(b, c, k.(subChannel := k.subChannel[1..])), c, s, b.heap.subs[s].frame.value);
    } else {
      DeliverInv(b, c, writeOk);
    }
  }

  lemma DeliverInv(b: Broker, c: nat, writeOk: bool)
    requires Inv(b, multiset{}, multiset{}) && b.panic.None? && c < |b.conns|
    requires b.conns[c].outbox == [] && b.conns[c].subChannel != []
    requires var s := b.conns[c].subChannel[0]; s < |b.heap.subs| && b.heap.subs[s].id in b.conns[c].subs
    ensures var b' := DoReceive(b, c, writeOk);
            && (b'.panic.None? ==> Inv(b', multiset{}, multiset{}))
            && b'.panic == (if writeOk && StaleDelivery(b, c) then Some(AlreadyListed) else None)
  {
    var s := b.conns[c].subChannel[0];
    StampedInv(b, c);
    var b2, f := Stamped(b, c), b.heap.subs[s].frame.value;
    if !writeOk {
      BrokenInv(b2, c, s, f);
    } else if b.heap.subs[s].ack.Auto? {
      DeliveredAuto(b2, c, s, f);
    } else if !b.heap.subs[s].listed {
      DeliveredToAck(b2, c, s, f);
    }
  }

  lemma BrokenInv(b: Broker, c: nat, s: nat, f: nat)
    requires Inv(b, multiset{s}, multiset{f}) && c < |b.conns|
    ensures Inv(SetConn(b, c, b.conns[c].(phase := Broken)).(inDoubt := b.inDoubt + [f]), multiset{}, multiset{})
  {
    PhaseInv(b, c, b.conns[c].(phase := Broken), multiset{s}, multiset{f});
    var b1 := SetConn(b, c, b.conns[c].(phase := Broken));
    EndInv(b1, b1.(inDoubt := b.inDoubt + [f]), multiset{s}, multiset{f});
    DropTokens(b1.(inDoubt := b.inDoubt + [f]), multiset{s}, multiset{}, multiset{});
  }

  // ---------- cleaning up ----------

  lemma {:induction false} UnsubscriptionsOk(h: Heap, c: nat, k: Conn, order: seq<string>)
    requires forall id :: id in order ==> id in k.subs && OwnSub(h, c, id, k.subs[id])
    ensures RequestsOk(h, Unsubscriptions(k, order))
  {
    if order != [] {
      assert order[0] in order && forall id :: id in order[1..] ==> id in order;
      UnsubscriptionsOk(h, c, k, order[1..]);
    }
  }

  lemma {:induction false} RequeuesOk(h: Heap, h': Heap, c: nat, l: seq<nat>)
    requires AllHold(h, l) && (forall s :: s in l ==> Holds(h, c, s)) && h'.frames == h.frames
    ensures RequestsOk(h', Requeues(FramesHeld(h, l)))
    decreases l
  {
    if l != [] {
      assert l[0] in l && forall s :: s in l[1..] ==> s in l;
      assert Holds(h, c, l[0]);
      RequeuesOk(h, h', c, l[1..]);
      assert FramesHeld(h, l)[1..] == FramesHeld(h, l[1..]);
    }
  }

  lemma UnlistInv(b: Broker, l: seq<nat>, hf: multiset<nat>)
    requires Inv(b, multiset(l), hf)
    ensures Inv(b.(heap := b.heap.(subs := Unlist(b.heap.subs, l))), multiset(l), hf)
  {
    HeapInv(b, b.heap.(subs := Unlist(b.heap.subs, l)), set s | s in l, multiset(l), hf);
  }

  lemma TakeAllUnacked(b: Broker, c: nat)
    requires Inv(b, multiset{}, multiset{}) && c < |b.conns|
    ensures var k := b.conns[c];
            && (forall s :: s in k.unacked ==> UnackedOk(b.heap, c, s))
            && Inv(SetConn(b, c, k.(phase := Draining(false), subs := map[], unacked := [])),
                   multiset(k.unacked), multiset(FramesHeld(b.heap, k.unacked)))
  {
    var k := b.conns[c];
    assert ConnOk(b.heap, c, k);
    assert forall s :: s in k.unacked ==> UnackedOk(b.heap, c, s);
    var hf: multiset<nat> := multiset(FramesHeld(b.heap, k.unacked));
    forall x: nat ensures hf[x] == Held(b.heap.subs, k.unacked, x) {
      FramesHeldCount(b.heap, k.unacked, x);
    }
    TakeUnacked(b, c, [], k.unacked, k.(phase := Draining(false), subs := map[], unacked := []), hf);
  }

  lemma CloseCounts(b: Broker, c: nat, order: seq<string>, x: nat)
    requires Local(b) && c < |b.conns| && Visits(b.conns[c], order)
    requires AllHold(b.heap, b.conns[c].unacked)
    ensures var rs := Unsubscriptions(b.conns[c], order) + Requeues(FramesHeld(b.heap, b.conns[c].unacked));
            && ReqTokens(rs, x) == 0
            && ReqFrames(rs, x) == multiset(FramesHeld(b.heap, b.conns[c].unacked))[x]
  {
    UnsubscriptionsCount(b.conns[c], order, x);
    RequeuesCount(FramesHeld(b.heap, b.conns[c].unacked), x);
    ReqConcat(Unsubscriptions(b.conns[c], order), Requeues(FramesHeld(b.heap, b.conns[c].unacked)), x);
  }

  lemma CloseInv(b: Broker, c: nat, order: seq<string>)
    requires Inv(b, multiset{}, multiset{}) && c < |b.conns| && b.conns[c].outbox == []
    requires Visits(b.conns[c], order)
    ensures Inv(DoClose(b, c, order), multiset{}, multiset{})
  {
    var k := b.conns[c];
    TakeAllUnacked(b, c);
    var b1 := SetConn(b, c, k.(phase := Draining(false), subs := map[], unacked := []));
    var ht: multiset<nat>, hf: multiset<nat> := multiset(k.unacked), multiset(FramesHeld(b.heap, k.unacked));
    UnlistInv(b1, k.unacked, hf);
    CloseRest(b, c, order);
  }

  lemma CloseRest(b: Broker, c: nat, order: seq<string>)
    requires Local(b) && c < |b.conns| && b.conns[c].outbox == [] && Visits(b.conns[c], order)
    requires forall s :: s in b.conns[c].unacked ==> UnackedOk(b.heap, c, s)
    requires var k := b.conns[c];
             var b1 := SetConn(b, c, k.(phase := Draining(false), subs := map[], unacked := []));
             Inv(b1.(heap := b.heap.(subs := Unlist(b.heap.subs, k.unacked))),
                 multiset(k.unacked), multiset(FramesHeld(b.heap, k.unacked)))
    ensures Inv(DoClose(b, c, order), multiset{}, multiset{})
  {
    var k := b.conns[c];
    var b1 := SetConn(b, c, k.(phase := Draining(false), subs := map[], unacked := []));
    var b2 := b1.(heap := b.heap.(subs := Unlist(b.heap.subs, k.unacked)));
    var rs := Unsubscriptions(k, order) + Requeues(FramesHeld(b.heap, k.unacked));
    var ht: multiset<nat>, hf: multiset<nat> := multiset(k.unacked), multiset(FramesHeld(b.heap, k.unacked));
    assert ConnOk(b.heap, c, k);
    UnsubscriptionsOk(b2.heap, c, k, order);
    RequeuesOk(b.heap, b2.heap, c, k.unacked);
    forall x: nat ensures ReqTokens(rs, x) == 0 && ReqFrames(rs, x) == hf[x] { CloseCounts(b, c, order, x); }
    EmitInv(b2, c, rs, ht, hf);
  }

  lemma PhaseEmit(b: Broker, c: nat, phase: Phase, r: Request)
    requires Inv(b, multiset{}, multiset{}) && c < |b.conns| && b.conns[c].outbox == []
    requires r.ConnectedOp? || r.DisconnectedOp?
    ensures Inv(Emit(SetConn(b, c, b.conns[c].(phase := phase)), c, [r]), multiset{}, multiset{})
  {
    PhaseInv(b, c, b.conns[c].(phase := phase), multiset{}, multiset{});
    EmitInv(SetConn(b, c, b.conns[c].(phase := phase)), c, [r], multiset{}, multiset{});
  }

  lemma DrainInv(b: Broker, c: nat)
    requires Inv(b, multiset{}, multiset{}) && c < |b.conns| && b.conns[c].outbox == []
    requires b.conns[c].phase.Draining?
    ensures Inv(DoDrain(b, c), multiset{}, multiset{})
  {
    var k := b.conns[c];
    if k.subChannel != [] {
      TakeChannel(b, c);
      RequeueHeld(SetConn(b, c, k.(subChannel := k.subChannel[1..])), c, k.subChannel[0],
                  b.heap.subs[k.subChannel[0]].frame.value);
    } else if !k.phase.last {
      PhaseEmit(b, c, Draining(true), DisconnectedOp(c));
    } else {
      PhaseInv(b, c, k.(phase := Closed), multiset{}, multiset{});
    }
  }

  // ---------- the outbox and new objects ----------

  lemma ReqLast(rs: seq<Request>, r: Request, x: nat)
    ensures ReqTokens(rs + [r], x) == ReqTokens(rs, x) + ReqToken(r)[x]
    ensures ReqFrames(rs + [r], x) == ReqFrames(rs, x) + ReqFrame(r)[x]
  {
  }

  lemma AppendLocal(b: Broker, r: Request)
    requires Local(b) && RequestOk(b.heap, r)
    ensures Local(b.(requests := b.requests + [r]))
  {
  }

  lemma AppendRequest(b: Broker, r: Request)
    requires Inv(b, ReqToken(r), ReqFrame(r)) && RequestOk(b.heap, r)
    ensures Inv(b.(requests := b.requests + [r]), multiset{}, multiset{})
  {
    var b' := b.(requests := b.requests + [r]);
    AppendLocal(b, r);
    forall s: nat ensures Tokens(b', s) <= 1 {
      AppendCounts(b, r, s);
      assert Tokens(b, s) + ReqToken(r)[s] <= 1;
    }
    forall f: nat ensures Places(b', f) == if f < |b.heap.frames| then 1 else 0 {
      AppendCounts(b, r, f);
      assert Places(b, f) + ReqFrame(r)[f] == if f < |b.heap.frames| then 1 else 0;
    }
  }

  lemma AppendCounts(b: Broker, r: Request, x: nat)
    ensures var b' := b.(requests := b.requests + [r]);
            Tokens(b', x) == Tokens(b, x) + ReqToken(r)[x] && Places(b', x) == Places(b, x) + ReqFrame(r)[x]
  {
    ReqLast(b.requests, r, x);
  }

  lemma FlushInv(b: Broker, c: nat)
    requires Inv(b, multiset{}, multiset{}) && c < |b.conns| && b.conns[c].outbox != []
    ensures Inv(DoFlush(b, c), multiset{}, multiset{})
  {
    var k := b.conns[c];
    var r, k' := k.outbox[0], k.(outbox := k.outbox[1..]);
    assert ConnOk(b.heap, c, k) && r in k.outbox;
    forall x: nat ensures ConnTokens(k', x) + ReqToken(r)[x] == ConnTokens(k, x)
                  ensures ConnFrames(b.heap.subs, k', x) + ReqFrame(r)[x] == ConnFrames(b.heap.subs, k, x)
    {
      ReqHead(k.outbox, x);
    }
    SetConnInv(b, c, k', multiset{}, multiset{}, ReqToken(r), ReqFrame(r));
    AppendRequest(SetConn(b, c, k'), r);
  }

  lemma NewFrameInv(b: Broker, g: Frame)
    requires Inv(b, multiset{}, multiset{})
    ensures Inv(b.(heap := b.heap.(frames := b.heap.frames + [g])), multiset{}, multiset{|b.heap.frames|})
  {
    var b' := b.(heap := b.heap.(frames := b.heap.frames + [g]));
    HeapStep(b, b'.heap, {});
    forall s: nat ensures Tokens(b', s) <= 1 { assert Tokens(b, s) <= 1; }
    forall f: nat ensures Places(b', f) + multiset{|b.heap.frames|}[f] == if f < |b'.heap.frames| then 1 else 0 {
      assert Places(b, f) == if f < |b.heap.frames| then 1 else 0;
    }
  }

  lemma SendInv(b: Broker, c: nat, f: Frame)
    requires Inv(b, multiset{}, multiset{}) && c < |b.conns| && b.conns[c].outbox == []
    ensures Inv(DoSend(b, c, f), multiset{}, multiset{})
  {
    var g, n := f.(command := Message), |b.heap.frames|;
    NewFrameInv(b, g);
    var b1 := b.(heap := b.heap.(frames := b.heap.frames + [g]));
    SentInv(b1, b.sent + [g], multiset{n});
    assert RequestOk(b1.heap, EnqueueOp(n));
    EmitInv(b1.(sent := b.sent + [g]), c, [EnqueueOp(n)], multiset{}, multiset{n});
  }

  lemma SentInv(b: Broker, sent: seq<Frame>, hf: multiset<nat>)
    requires Inv(b, multiset{}, hf)
    ensures Inv(b.(sent := sent), multiset{}, hf)
  {
    var b' := b.(sent := sent);
    forall s: nat ensures Tokens(b', s) <= 1 { assert Tokens(b, s) + multiset{}[s] <= 1; }
    forall f: nat ensures Places(b', f) + hf[f] == if f < |b.heap.frames| then 1 else 0 {
      assert Places(b, f) + hf[f] == if f < |b.heap.frames| then 1 else 0;
    }
  }

  lemma {:induction false} NoConnToken(h: Heap, ks: seq<Conn>, from: nat, s: nat)
    requires forall c :: 0 <= c < |ks| ==> ConnOk(h, from + c, ks[c])
    requires s >= |h.subs|
    ensures AllConnTokens(ks, s) == 0
    decreases ks
  {
    if ks != [] {
      assert ConnOk(h, from + 0, ks[0]);
      assert SubscribeOp(s) !in ks[0].outbox && s !in ks[0].subChannel && s !in ks[0].unacked;
      forall c | 0 <= c < |ks[1..]| ensures ConnOk(h, from + 1 + c, ks[1..][c]) {
        assert ConnOk(h, from + (c + 1), ks[c + 1]);
      }
      NoConnToken(h, ks[1..], from + 1, s);
    }
  }

  lemma {:induction false} NoQueueToken(h: Heap, qs: seq<Named>, s: nat)
    requires forall i :: 0 <= i < |qs| ==> QueueOk(h, qs[i])
    requires s >= |h.subs|
    ensures QueueTokens(qs, s) == 0
  {
    if qs != [] {
      assert QueueOk(h, qs[0]) && s !in qs[0].queue.idle;
      NoQueueToken(h, qs[1..], s);
    }
  }

  lemma NewSubHeap(b: Broker, sub: Sub)
    requires Inv(b, multiset{}, multiset{}) && sub.conn < |b.conns|
    ensures Inv(b.(heap := b.heap.(subs := b.heap.subs + [sub])), multiset{|b.heap.subs|}, multiset{})
  {
    var b', s := b.(heap := b.heap.(subs := b.heap.subs + [sub])), |b.heap.subs|;
    NoConnToken(b.heap, b.conns, 0, s);
    NoQueueToken(b.heap, b.queues, s);
    assert SubscribeOp(s) !in b.requests;
    assert Tokens(b, s) == 0;
    HeapStep(b, b'.heap, {});
    forall x: nat ensures Tokens(b', x) + multiset{s}[x] <= 1 { assert Tokens(b, x) <= 1; }
    forall f: nat ensures Places(b', f) == if f < |b'.heap.frames| then 1 else 0 {
      assert Places(b, f) == if f < |b.heap.frames| then 1 else 0;
    }
  }

  lemma NewSubInv(b: Broker, c: nat, id: string, dest: string, ack: AckMode)
    requires Inv(b, multiset{}, multiset{}) && c < |b.conns| && b.conns[c].outbox == []
    ensures Inv(DoNewSub(b, c, id, dest, ack), multiset{}, multiset{})
  {
    var s, k := |b.heap.subs|, b.conns[c];
    var sub := Sub.Sub(c, dest, id, ack, 0, false, None);
    NewSubHeap(b, sub);
    var b1 := b.(heap := b.heap.(subs := b.heap.subs + [sub]));
    RegisterInv(b1, c, id, s);
    EmitInv(SetConn(b1, c, k.(subs := k.subs[id := s])), c, [SubscribeOp(s)], multiset{s}, multiset{});
  }

  lemma RegisterInv(b: Broker, c: nat, id: string, s: nat)
    requires Inv(b, multiset{s}, multiset{}) && c < |b.conns| && OwnSub(b.heap, c, id, s)
    ensures var k := b.conns[c]; Inv(SetConn(b, c, k.(subs := k.subs[id := s])), multiset{s}, multiset{})
  {
    var k := b.conns[c];
    assert ConnOk(b.heap, c, k);
    SetConnInv(b, c, k.(subs := k.subs[id := s]), multiset{s}, multiset{}, multiset{s}, multiset{});
  }

  lemma EndSubInv(b: Broker, c: nat, id: string)
    requires Inv(b, multiset{}, multiset{}) && c < |b.conns| && b.conns[c].outbox == [] && id in b.conns[c].subs
    ensures Inv(DoEndSub(b, c, id), multiset{}, multiset{})
  {
    var k := b.conns[c];
    var k' := k.(subs := k.subs - {id});
    assert ConnOk(b.heap, c, k) && OwnSub(b.heap, c, id, k.subs[id]);
    SetConnInv(b, c, k', multiset{}, multiset{}, multiset{}, multiset{});
    EmitInv(SetConn(b, c, k'), c, [UnsubscribeOp(k.subs[id])], multiset{}, multiset{});
  }

  lemma AcceptInv(b: Broker)
    requires Inv(b, multiset{}, multiset{})
    ensures Inv(b.(conns := b.conns + [Conn(Connecting, map[], [], [], [], 0, [])]), multiset{}, multiset{})
  {
    var k := Conn(Connecting, map[], [], [], [], 0, []);
    var b' := b.(conns := b.conns + [k]);
    forall s: nat ensures Tokens(b', s) <= 1 {
      ConnsAppend(b.heap.subs, b.conns, k, s);
      assert Tokens(b, s) <= 1;
    }
    forall f: nat ensures Places(b', f) == if f < |b.heap.frames| then 1 else 0 {
      ConnsAppend(b.heap.subs, b.conns, k, f);
      assert Places(b, f) == if f < |b.heap.frames| then 1 else 0;
    }
  }
}
