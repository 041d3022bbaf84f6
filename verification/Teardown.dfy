/** What a connection has told the processor when it is gone. */
module Teardown {
  import opened Frames
  import opened Acks
  import opened Broker
  import opened Ledger
  import opened ConnSteps
  import opened Effects
  import opened BrokerRuns

  /** Subscription s is in its connection's subscription map. */
  predicate Registered(h: Heap, k: Conn, s: nat) {
    s < |h.subs| && h.subs[s].id in k.subs && k.subs[h.subs[s].id] == s
  }

  /** Accepted subscriptions still registered have not been unsubscribed; all others have, once. */
  ghost predicate UnsubscribedOnce(h: Heap, c: nat, k: Conn) {
    && (forall s: nat :: UnsubscribeOp(s) in k.log ==> s < |h.subs|)
    && (forall s: nat :: s < |h.subs| && h.subs[s].conn == c ==>
          multiset(k.log)[UnsubscribeOp(s)] == if Registered(h, k, s) then 0 else 1)
  }

  predicate Announced(k: Conn) { k.phase == Draining(true) || k.phase == Closed }

  /** The end of the connection is announced once, after every unsubscription; only requeues follow. */
  ghost predicate DisconnectedLast(c: nat, k: Conn) {
    && multiset(k.log)[DisconnectedOp(c)] == (if Announced(k) then 1 else 0)
    && (forall i, j :: 0 <= i < j < |k.log| && k.log[i] == DisconnectedOp(c) ==> k.log[j].RequeueOp?)
    && (k.phase.Draining? || k.phase.Closed? ==> k.subs == map[] && k.unacked == [])
    && (k.phase.Closed? ==> k.outbox == [])
  }

  ghost predicate Orderly(b: Broker) {
    forall c :: 0 <= c < |b.conns| ==>
      UnsubscribedOnce(b.heap, c, b.conns[c]) && DisconnectedLast(c, b.conns[c])
  }

  /** Heaps that agree on who owns what. */
  ghost predicate SameOwners(h: Heap, h': Heap) {
    && |h'.subs| == |h.subs|
    && forall s :: 0 <= s < |h.subs| ==> h'.subs[s].conn == h.subs[s].conn && h'.subs[s].id == h.subs[s].id
  }

  lemma OwnersOnce(h: Heap, h': Heap, c: nat, k: Conn)
    requires UnsubscribedOnce(h, c, k) && SameOwners(h, h')
    ensures UnsubscribedOnce(h', c, k)
  {
    forall s: nat | s < |h'.subs| && h'.subs[s].conn == c
      ensures multiset(k.log)[UnsubscribeOp(s)] == if Registered(h', k, s) then 0 else 1
    {
      assert h.subs[s].conn == c;
    }
  }

  /** One connection moves and the owners stay. */
  lemma OrderlyStep(b: Broker, b': Broker, c: nat)
    requires Orderly(b) && c < |b.conns| == |b'.conns| && SameOwners(b.heap, b'.heap)
    requires forall d :: 0 <= d < |b.conns| && d != c ==> b'.conns[d] == b.conns[d]
    requires UnsubscribedOnce(b.heap, c, b'.conns[c]) && DisconnectedLast(c, b'.conns[c])
    ensures Orderly(b')
  {
    forall d | 0 <= d < |b'.conns|
      ensures UnsubscribedOnce(b'.heap, d, b'.conns[d]) && DisconnectedLast(d, b'.conns[d])
    {
      assert d != c ==> UnsubscribedOnce(b.heap, d, b.conns[d]) && DisconnectedLast(d, b.conns[d]);
      OwnersOnce(b.heap, b'.heap, d, b'.conns[d]);
    }
  }

  /** Two connections that differ in nothing teardown depends on. */
  predicate SameLog(k: Conn, k': Conn) {
    && k'.phase == k.phase && k'.subs == k.subs && k'.log == k.log
    && (k.unacked == [] ==> k'.unacked == [] || k.phase in {Connecting, Running, Broken})
    && (k.phase.Closed? ==> k'.outbox == k.outbox)
  }

  lemma LogStable(h: Heap, c: nat, k: Conn, k': Conn)
    requires UnsubscribedOnce(h, c, k) && DisconnectedLast(c, k) && SameLog(k, k')
    ensures UnsubscribedOnce(h, c, k') && DisconnectedLast(c, k')
  {
    forall s: nat | s < |h.subs| && h.subs[s].conn == c
      ensures multiset(k'.log)[UnsubscribeOp(s)] == if Registered(h, k', s) then 0 else 1
    {
      assert multiset(k.log)[UnsubscribeOp(s)] == if Registered(h, k, s) then 0 else 1;
    }
  }

  lemma OrderlyProcess(b: Broker)
    requires Local(b) && b.requests != [] && Orderly(b)
    ensures Orderly(Process(b))
  {
    var b' := Process(b);
    ProcessMild(b);
    forall c | 0 <= c < |b.conns|
      ensures UnsubscribedOnce(b'.heap, c, b'.conns[c]) && DisconnectedLast(c, b'.conns[c])
    {
      assert UnsubscribedOnce(b.heap, c, b.conns[c]) && DisconnectedLast(c, b.conns[c]);
      OwnersOnce(b.heap, b'.heap, c, b.conns[c]);
      LogStable(b'.heap, c, b.conns[c], b'.conns[c]);
    }
  }

  // ---------- emitting ----------

  lemma CountConcat(xs: seq<Request>, ys: seq<Request>, r: Request)
    ensures multiset(xs + ys)[r] == multiset(xs)[r] + multiset(ys)[r]
  {
  }

  /** Requests that are not about unsubscribing or disconnecting. */
  predicate Ordinary(rs: seq<Request>) {
    forall i :: 0 <= i < |rs| ==> !rs[i].UnsubscribeOp? && !rs[i].DisconnectedOp?
  }

  lemma NoneCounted(rs: seq<Request>, r: Request)
    requires r !in rs
    ensures multiset(rs)[r] == 0
  {
  }

  lemma EmitOrdinary(h: Heap, c: nat, k: Conn, rs: seq<Request>)
    requires UnsubscribedOnce(h, c, k) && DisconnectedLast(c, k) && Ordinary(rs) && !k.phase.Closed?
    requires Announced(k) ==> forall i :: 0 <= i < |rs| ==> rs[i].RequeueOp?
    ensures var k' := k.(outbox := rs, log := k.log + rs);
            UnsubscribedOnce(h, c, k') && DisconnectedLast(c, k')
  {
    var k' := k.(outbox := rs, log := k.log + rs);
    forall s: nat | s < |h.subs| && h.subs[s].conn == c
      ensures multiset(k'.log)[UnsubscribeOp(s)] == if Registered(h, k', s) then 0 else 1
    {
      CountConcat(k.log, rs, UnsubscribeOp(s));
      NoneCounted(rs, UnsubscribeOp(s));
      assert multiset(k.log)[UnsubscribeOp(s)] == if Registered(h, k, s) then 0 else 1;
    }
    EmitAfterEnd(c, k, rs);
  }

  lemma EmitAfterEnd(c: nat, k: Conn, rs: seq<Request>)
    requires DisconnectedLast(c, k) && DisconnectedOp(c) !in rs && !k.phase.Closed?
    requires Announced(k) ==> forall i :: 0 <= i < |rs| ==> rs[i].RequeueOp?
    ensures DisconnectedLast(c, k.(outbox := rs, log := k.log + rs))
  {
    CountConcat(k.log, rs, DisconnectedOp(c));
    NoneCounted(rs, DisconnectedOp(c));
    var log := k.log + rs;
    assert forall i :: |k.log| <= i < |log| ==> log[i] == rs[i - |k.log|] && log[i] in rs;
    forall i, j | 0 <= i < j < |log| && log[i] == DisconnectedOp(c) ensures log[j].RequeueOp? {
      assert k.log[i] == DisconnectedOp(c) && DisconnectedOp(c) in multiset(k.log);
    }
  }

  /** An unsubscription on client request. */
  lemma EndOrderly(h: Heap, c: nat, k: Conn, id: string)
    requires UnsubscribedOnce(h, c, k) && DisconnectedLast(c, k) && k.phase.Running?
    requires id in k.subs && OwnSub(h, c, id, k.subs[id])
    ensures var rs := [UnsubscribeOp(k.subs[id])];
            var k' := k.(subs := k.subs - {id}, outbox := rs, log := k.log + rs);
            UnsubscribedOnce(h, c, k') && DisconnectedLast(c, k')
  {
    var rs := [UnsubscribeOp(k.subs[id])];
    var k' := k.(subs := k.subs - {id}, outbox := rs, log := k.log + rs);
    forall s: nat | s < |h.subs| && h.subs[s].conn == c
      ensures multiset(k'.log)[UnsubscribeOp(s)] == if Registered(h, k', s) then 0 else 1
    {
      CountConcat(k.log, rs, UnsubscribeOp(s));
      assert multiset(k.log)[UnsubscribeOp(s)] == if Registered(h, k, s) then 0 else 1;
    }
    EmitAfterEnd(c, k, rs);
  }

  /** A new subscription has not been unsubscribed. */
  lemma NewOrderly(h: Heap, h': Heap, c: nat, k: Conn, id: string)
    requires UnsubscribedOnce(h, c, k) && DisconnectedLast(c, k) && k.phase.Running? && id !in k.subs
    requires |h'.subs| == |h.subs| + 1 && h'.subs[..|h.subs|] == h.subs && h'.subs[|h.subs|].id == id
    ensures var rs := [SubscribeOp(|h.subs|)];
            var k' := k.(subs := k.subs[id := |h.subs|], outbox := rs, log := k.log + rs);
            UnsubscribedOnce(h', c, k') && DisconnectedLast(c, k')
  {
    var n := |h.subs|;
    var rs := [SubscribeOp(n)];
    var k' := k.(subs := k.subs[id := n], outbox := rs, log := k.log + rs);
    forall s: nat | s < |h'.subs| && h'.subs[s].conn == c
      ensures multiset(k'.log)[UnsubscribeOp(s)] == if Registered(h', k', s) then 0 else 1
    {
      CountConcat(k.log, rs, UnsubscribeOp(s));
      if s < n {
        assert h'.subs[s] == h'.subs[..n][s] == h.subs[s];
        assert multiset(k.log)[UnsubscribeOp(s)] == if Registered(h, k, s) then 0 else 1;
      } else {
        NoneCounted(k.log, UnsubscribeOp(s));
      }
    }
    EmitAfterEnd(c, k, rs);
  }

  lemma OthersUnmoved(b: Broker, h': Heap, c: nat)
    requires Orderly(b) && c < |b.conns|
    requires |h'.subs| == |b.heap.subs| + 1 && h'.subs[..|b.heap.subs|] == b.heap.subs
    requires h'.subs[|b.heap.subs|].conn == c
    ensures forall d :: 0 <= d < |b.conns| && d != c ==> UnsubscribedOnce(h', d, b.conns[d])
  {
    forall d | 0 <= d < |b.conns| && d != c ensures UnsubscribedOnce(h', d, b.conns[d]) {
      assert UnsubscribedOnce(b.heap, d, b.conns[d]);
      forall s: nat | s < |h'.subs| && h'.subs[s].conn == d
        ensures multiset(b.conns[d].log)[UnsubscribeOp(s)] == if Registered(h', b.conns[d], s) then 0 else 1
      {
        assert s < |b.heap.subs| && h'.subs[s] == h'.subs[..|b.heap.subs|][s] == b.heap.subs[s];
      }
    }
  }

  /** cleanupConn unsubscribes every registered subscription exactly once. */
  lemma {:induction false} UnsubscriptionsOnce(h: Heap, c: nat, k: Conn, order: seq<string>, s: nat)
    requires forall id :: id in order ==> id in k.subs
    requires forall id :: id in k.subs ==> OwnSub(h, c, id, k.subs[id])
    requires forall i, j :: 0 <= i < j < |order| ==> order[i] != order[j]
    requires s < |h.subs|
    ensures multiset(Unsubscriptions(k, order))[UnsubscribeOp(s)] ==
            if h.subs[s].id in order && k.subs[h.subs[s].id] == s then 1 else 0
  {
    if order != [] {
      assert order[0] in order && forall id :: id in order[1..] ==> id in order;
      assert order == [order[0]] + order[1..];
      UnsubscriptionsOnce(h, c, k, order[1..], s);
      assert OwnSub(h, c, order[0], k.subs[order[0]]);
      CountConcat([UnsubscribeOp(k.subs[order[0]])], Unsubscriptions(k, order[1..]), UnsubscribeOp(s));
      assert order[0] !in order[1..];
    }
  }

  lemma {:induction false} RequeuesOnly(fs: seq<nat>)
    ensures forall i :: 0 <= i < |Requeues(fs)| ==> Requeues(fs)[i].RequeueOp?
  {
    if fs != [] { RequeuesOnly(fs[1..]); }
  }

  lemma {:induction false} UnsubscriptionsOnly(k: Conn, order: seq<string>)
    requires forall id :: id in order ==> id in k.subs
    ensures forall i :: 0 <= i < |Unsubscriptions(k, order)| ==> Unsubscriptions(k, order)[i].UnsubscribeOp?
  {
    if order != [] { UnsubscriptionsOnly(k, order[1..]); }
  }

  lemma CloseCount(h: Heap, c: nat, k: Conn, order: seq<string>, fs: seq<nat>, s: nat)
    requires UnsubscribedOnce(h, c, k) && Visits(k, order) && s < |h.subs| && h.subs[s].conn == c
    requires forall id :: id in k.subs ==> OwnSub(h, c, id, k.subs[id])
    ensures multiset(k.log + (Unsubscriptions(k, order) + Requeues(fs)))[UnsubscribeOp(s)] == 1
  {
    var us, qs := Unsubscriptions(k, order), Requeues(fs);
    CountConcat(k.log, us + qs, UnsubscribeOp(s));
    CountConcat(us, qs, UnsubscribeOp(s));
    RequeuesOnly(fs);
    NoneCounted(qs, UnsubscribeOp(s));
    UnsubscriptionsOnce(h, c, k, order, s);
    assert multiset(k.log)[UnsubscribeOp(s)] == if Registered(h, k, s) then 0 else 1;
  }

  lemma CloseOrderly(h: Heap, c: nat, k: Conn, order: seq<string>, fs: seq<nat>)
    requires UnsubscribedOnce(h, c, k) && DisconnectedLast(c, k) && k.phase in {Connecting, Running, Broken}
    requires Visits(k, order) && (forall id :: id in k.subs ==> OwnSub(h, c, id, k.subs[id]))
    ensures var rs := Unsubscriptions(k, order) + Requeues(fs);
            var k' := k.(phase := Draining(false), subs := map[], unacked := [], outbox := rs, log := k.log + rs);
            UnsubscribedOnce(h, c, k') && DisconnectedLast(c, k')
  {
    var rs := Unsubscriptions(k, order) + Requeues(fs);
    var k' := k.(phase := Draining(false), subs := map[], unacked := [], outbox := rs, log := k.log + rs);
    CloseInRange(h, c, k, order, fs);
    forall s: nat | s < |h.subs| && h.subs[s].conn == c
      ensures multiset(k'.log)[UnsubscribeOp(s)] == if Registered(h, k', s) then 0 else 1
    {
      CloseCount(h, c, k, order, fs, s);
    }
    EmitAfterEnd(c, k, rs);
  }

  lemma CloseInRange(h: Heap, c: nat, k: Conn, order: seq<string>, fs: seq<nat>)
    requires Visits(k, order) && (forall id :: id in k.subs ==> OwnSub(h, c, id, k.subs[id]))
    ensures var rs := Unsubscriptions(k, order) + Requeues(fs);
            DisconnectedOp(c) !in rs && forall s: nat :: UnsubscribeOp(s) in rs ==> s < |h.subs|
  {
    RequeuesOnly(fs);
    UnsubscriptionsOnly(k, order);
    UnsubscriptionsInRange(h, c, k, order);
  }

  lemma UnsubscriptionsInRange(h: Heap, c: nat, k: Conn, order: seq<string>)
    requires forall id :: id in order ==> id in k.subs && OwnSub(h, c, id, k.subs[id])
    ensures forall s: nat :: UnsubscribeOp(s) in Unsubscriptions(k, order) ==> s < |h.subs|
  {
    UnsubscriptionsOk(h, c, k, order);
    forall s: nat | UnsubscribeOp(s) in Unsubscriptions(k, order) ensures s < |h.subs| {
      assert RequestOk(h, UnsubscribeOp(s));
    }
  }

  // ---------- steps and runs ----------

  lemma {:induction false} ReleasedOrdinary(h: Heap, l: seq<nat>, nack: bool)
    requires AllHold(h, l)
    ensures Ordinary(Released(h, l, nack))
  {
    if l != [] {
      assert l[0] in l && forall s :: s in l[1..] ==> s in l;
      ReleasedOrdinary(h, l[1..], nack);
    }
  }

  lemma ReleaseConn(h: Heap, c: nat, k: Conn, msgId: nat, nack: bool)
    requires ConnOk(h, c, k) && UnsubscribedOnce(h, c, k) && DisconnectedLast(c, k) && k.phase.Running?
    ensures var taken := Taken(h, k.unacked, msgId, nack);
            && AllHold(h, taken)
            && var rs := Released(h, taken, nack);
               var k' := k.(unacked := Kept(h, k.unacked, msgId, nack), outbox := rs, log := k.log + rs);
               UnsubscribedOnce(h, c, k') && DisconnectedLast(c, k')
  {
    var taken := Taken(h, k.unacked, msgId, nack);
    assert forall s :: s in taken ==> UnackedOk(h, c, s);
    ReleasedOrdinary(h, taken, nack);
    var k1 := k.(unacked := Kept(h, k.unacked, msgId, nack));
    LogStable(h, c, k, k1);
    EmitOrdinary(h, c, k1, Released(h, taken, nack));
  }

  lemma OrderlyRelease(b: Broker, c: nat, msgId: nat, nack: bool)
    requires Local(b) && Orderly(b) && Ready(b, c, Running) && b.panic.None?
    ensures Orderly(DoRelease(b, c, msgId, nack))
  {
    assert UnsubscribedOnce(b.heap, c, b.conns[c]) && DisconnectedLast(c, b.conns[c]);
    assert ConnOk(b.heap, c, b.conns[c]);
    ReleaseConn(b.heap, c, b.conns[c], msgId, nack);
    OrderlyStep(b, DoRelease(b, c, msgId, nack), c);
  }

  /** The ways in which a delivery can leave its connection. */
  ghost predicate AfterReceive(k: Conn, s: nat, f: nat, k': Conn)
    requires k.subChannel != []
  {
    var k1 := k.(subChannel := k.subChannel[1..], lastMsgId := k'.lastMsgId);
    || k' == k1.(unacked := k'.unacked)
    || k' == k1.(phase := Broken)
    || (exists r :: r in {RequeueOp(f), SubscribeOp(s)} && k' == k1.(outbox := [r], log := k.log + [r]))
  }

  lemma ReceiveShape(b: Broker, c: nat, writeOk: bool)
    requires Local(b) && c < |b.conns| && b.conns[c].subChannel != []
    requires ChannelOk(b.heap, c, b.conns[c].subChannel[0])
    ensures var b', k, s := DoReceive(b, c, writeOk), b.conns[c], b.conns[c].subChannel[0];
            && AfterReceive(k, s, b.heap.subs[s].frame.value, b'.conns[c])
            && SameOwners(b.heap, b'.heap) && |b'.conns| == |b.conns|
            && (forall d :: 0 <= d < |b.conns| && d != c ==> b'.conns[d] == b.conns[d])
  {
    var b', k, s := DoReceive(b, c, writeOk), b.conns[c], b.conns[c].subChannel[0];
    var k', f := b'.conns[c], b.heap.subs[s].frame.value;
    var k1 := k.(subChannel := k.subChannel[1..], lastMsgId := k'.lastMsgId);
    if b.heap.subs[s].id !in k.subs {
      assert k' == k1.(outbox := [RequeueOp(f)], log := k.log + [RequeueOp(f)]);
    } else if writeOk && b.heap.subs[s].ack.Auto? {
      assert k' == k1.(outbox := [SubscribeOp(s)], log := k.log + [SubscribeOp(s)]);
    }
  }

  lemma ReceiveConn(h: Heap, c: nat, k: Conn, s: nat, f: nat, k': Conn)
    requires UnsubscribedOnce(h, c, k) && DisconnectedLast(c, k) && k.phase.Running? && k.subChannel != []
    requires AfterReceive(k, s, f, k')
    ensures UnsubscribedOnce(h, c, k') && DisconnectedLast(c, k')
  {
    var k1 := k.(subChannel := k.subChannel[1..], lastMsgId := k'.lastMsgId);
    LogStable(h, c, k, k1);
    if k' == k1.(unacked := k'.unacked) {
      LogStable(h, c, k, k');
    } else if k' == k1.(phase := Broken) {
      BrokenOrderly(h, c, k1);
    } else {
      var r :| r in {RequeueOp(f), SubscribeOp(s)} && k' == k1.(outbox := [r], log := k.log + [r]);
      EmitOrdinary(h, c, k1, [r]);
    }
  }

  lemma OrderlyReceive(b: Broker, c: nat, writeOk: bool)
    requires Local(b) && Orderly(b) && Ready(b, c, Running) && b.conns[c].subChannel != []
    requires ChannelOk(b.heap, c, b.conns[c].subChannel[0])
    ensures Orderly(DoReceive(b, c, writeOk))
  {
    var b', k, s := DoReceive(b, c, writeOk), b.conns[c], b.conns[c].subChannel[0];
    assert UnsubscribedOnce(b.heap, c, k) && DisconnectedLast(c, k);
    ReceiveShape(b, c, writeOk);
    ReceiveConn(b.heap, c, k, s, b.heap.subs[s].frame.value, b'.conns[c]);
    OrderlyStep(b, b', c);
  }

  lemma BrokenOrderly(h: Heap, c: nat, k: Conn)
    requires UnsubscribedOnce(h, c, k) && DisconnectedLast(c, k) && k.phase in {Connecting, Running}
    ensures UnsubscribedOnce(h, c, k.(phase := Broken)) && DisconnectedLast(c, k.(phase := Broken))
    ensures UnsubscribedOnce(h, c, k.(phase := Running)) && DisconnectedLast(c, k.(phase := Running))
  {
    forall s: nat | s < |h.subs| && h.subs[s].conn == c
      ensures multiset(k.log)[UnsubscribeOp(s)] == if Registered(h, k.(phase := Broken), s) then 0 else 1
      ensures multiset(k.log)[UnsubscribeOp(s)] == if Registered(h, k.(phase := Running), s) then 0 else 1
    {
      assert multiset(k.log)[UnsubscribeOp(s)] == if Registered(h, k, s) then 0 else 1;
    }
  }

  lemma EndDrain(h: Heap, c: nat, k: Conn)
    requires UnsubscribedOnce(h, c, k) && DisconnectedLast(c, k) && k.phase == Draining(false)
    ensures var rs := [DisconnectedOp(c)];
            var k' := k.(phase := Draining(true), outbox := rs, log := k.log + rs);
            UnsubscribedOnce(h, c, k') && DisconnectedLast(c, k')
  {
    var rs := [DisconnectedOp(c)];
    var k' := k.(phase := Draining(true), outbox := rs, log := k.log + rs);
    CountConcat(k.log, rs, DisconnectedOp(c));
    forall s: nat | s < |h.subs| && h.subs[s].conn == c
      ensures multiset(k'.log)[UnsubscribeOp(s)] == if Registered(h, k', s) then 0 else 1
    {
      CountConcat(k.log, rs, UnsubscribeOp(s));
      assert multiset(k.log)[UnsubscribeOp(s)] == if Registered(h, k, s) then 0 else 1;
    }
    assert DisconnectedOp(c) !in multiset(k.log);
    assert forall i :: 0 <= i < |k.log| ==> k.log[i] in multiset(k.log);
  }

  lemma DrainOne(h: Heap, c: nat, k: Conn, f: nat)
    requires UnsubscribedOnce(h, c, k) && DisconnectedLast(c, k) && k.phase.Draining? && k.subChannel != []
    ensures var k' := k.(subChannel := k.subChannel[1..], outbox := [RequeueOp(f)], log := k.log + [RequeueOp(f)]);
            UnsubscribedOnce(h, c, k') && DisconnectedLast(c, k')
  {
    var k1 := k.(subChannel := k.subChannel[1..]);
    LogStable(h, c, k, k1);
    EmitOrdinary(h, c, k1, [RequeueOp(f)]);
  }

  lemma OrderlyDrain(b: Broker, c: nat)
    requires Local(b) && Orderly(b) && c < |b.conns| && b.conns[c].outbox == [] && b.conns[c].phase.Draining?
    ensures Orderly(DoDrain(b, c))
  {
    var b', k := DoDrain(b, c), b.conns[c];
    assert UnsubscribedOnce(b.heap, c, k) && DisconnectedLast(c, k);
    if k.subChannel != [] {
      assert ConnOk(b.heap, c, k) && k.subChannel[0] in k.subChannel;
      assert ChannelOk(b.heap, c, k.subChannel[0]);
      DrainOne(b.heap, c, k, b.heap.subs[k.subChannel[0]].frame.value);
    } else if !k.phase.last {
      EndDrain(b.heap, c, k);
    } else {
      ClosedOnce(b.heap, c, k);
    }
    OrderlyStep(b, b', c);
  }

  lemma ClosedOnce(h: Heap, c: nat, k: Conn)
    requires UnsubscribedOnce(h, c, k)
    ensures UnsubscribedOnce(h, c, k.(phase := Closed))
  {
    forall s: nat | s < |h.subs| && h.subs[s].conn == c
      ensures multiset(k.log)[UnsubscribeOp(s)] == if Registered(h, k.(phase := Closed), s) then 0 else 1
    {
      assert multiset(k.log)[UnsubscribeOp(s)] == if Registered(h, k, s) then 0 else 1;
    }
  }

  lemma OrderlyClose(b: Broker, c: nat, order: seq<string>)
    requires Local(b) && Orderly(b) && c < |b.conns| && Visits(b.conns[c], order)
    requires b.conns[c].phase in {Connecting, Running, Broken}
    ensures Orderly(DoClose(b, c, order))
  {
    var b', k := DoClose(b, c, order), b.conns[c];
    assert UnsubscribedOnce(b.heap, c, k) && DisconnectedLast(c, k);
    assert ConnOk(b.heap, c, k);
    assert forall s :: s in k.unacked ==> UnackedOk(b.heap, c, s);
    CloseOrderly(b.heap, c, k, order, FramesHeld(b.heap, k.unacked));
    CloseOwners(b, c, order);
    OrderlyStep(b, b', c);
  }

  lemma CloseOwners(b: Broker, c: nat, order: seq<string>)
    requires Local(b) && c < |b.conns| && Visits(b.conns[c], order)
    ensures SameOwners(b.heap, DoClose(b, c, order).heap)
  {
  }

  lemma OrderlyNewSub(b: Broker, c: nat, id: string, dest: string, ack: AckMode)
    requires Local(b) && Orderly(b) && Ready(b, c, Running) && id !in b.conns[c].subs
    ensures Orderly(DoNewSub(b, c, id, dest, ack))
  {
    var b' := DoNewSub(b, c, id, dest, ack);
    assert UnsubscribedOnce(b.heap, c, b.conns[c]) && DisconnectedLast(c, b.conns[c]);
    NewOrderly(b.heap, b'.heap, c, b.conns[c], id);
    OthersUnmoved(b, b'.heap, c);
    forall d | 0 <= d < |b'.conns|
      ensures UnsubscribedOnce(b'.heap, d, b'.conns[d]) && DisconnectedLast(d, b'.conns[d])
    {
      assert d != c ==> DisconnectedLast(d, b.conns[d]);
    }
  }

  lemma OrderlyEndSub(b: Broker, c: nat, id: string)
    requires Local(b) && Orderly(b) && Ready(b, c, Running) && id in b.conns[c].subs
    ensures Orderly(DoEndSub(b, c, id))
  {
    assert UnsubscribedOnce(b.heap, c, b.conns[c]) && DisconnectedLast(c, b.conns[c]);
    assert ConnOk(b.heap, c, b.conns[c]);
    EndOrderly(b.heap, c, b.conns[c], id);
    OrderlyStep(b, DoEndSub(b, c, id), c);
  }

  lemma OrderlyAccept(b: Broker)
    requires Local(b) && Orderly(b) && Enabled(b, Accept)
    ensures Orderly(Next(b, Accept))
  {
    var b' := Next(b, Accept);
    forall d | 0 <= d < |b'.conns|
      ensures UnsubscribedOnce(b'.heap, d, b'.conns[d]) && DisconnectedLast(d, b'.conns[d])
    {
      assert d < |b.conns| ==> UnsubscribedOnce(b.heap, d, b.conns[d]) && DisconnectedLast(d, b.conns[d]);
    }
  }

  lemma OrderlyHandshake(b: Broker, c: nat)
    requires Local(b) && Orderly(b) && Enabled(b, Handshake(c))
    ensures Orderly(Next(b, Handshake(c)))
  {
    var k := b.conns[c];
    assert UnsubscribedOnce(b.heap, c, k) && DisconnectedLast(c, k);
    BrokenOrderly(b.heap, c, k);
    EmitOrdinary(b.heap, c, k.(phase := Running), [ConnectedOp(c)]);
    OrderlyStep(b, Next(b, Handshake(c)), c);
  }

  lemma OrderlySend(b: Broker, c: nat, f: Frame)
    requires Local(b) && Orderly(b) && Enabled(b, ClientSend(c, f))
    ensures Orderly(Next(b, ClientSend(c, f)))
  {
    assert UnsubscribedOnce(b.heap, c, b.conns[c]) && DisconnectedLast(c, b.conns[c]);
    EmitOrdinary(b.heap, c, b.conns[c], [EnqueueOp(|b.heap.frames|)]);
    OrderlyStep(b, Next(b, ClientSend(c, f)), c);
  }

  lemma OrderlyPush(b: Broker, c: nat, counts: bool, writeOk: bool)
    requires Orderly(b) && Ready(b, c, Running)
    ensures Orderly(DoPush(b, c, counts, writeOk))
  {
    var k, b' := b.conns[c], DoPush(b, c, counts, writeOk);
    assert UnsubscribedOnce(b.heap, c, k) && DisconnectedLast(c, k);
    BrokenOrderly(b.heap, c, k);
    LogStable(b.heap, c, k.(phase := b'.conns[c].phase), b'.conns[c]);
    OrderlyStep(b, b', c);
  }

  lemma OrderlyFlush(b: Broker, c: nat)
    requires Local(b) && Orderly(b) && Enabled(b, Flush(c))
    ensures Orderly(Next(b, Flush(c)))
  {
    var k := b.conns[c];
    assert UnsubscribedOnce(b.heap, c, k) && DisconnectedLast(c, k);
    LogStable(b.heap, c, k, k.(outbox := k.outbox[1..]));
    OrderlyStep(b, Next(b, Flush(c)), c);
  }

  lemma OrderlyNext(b: Broker, a: Action)
    requires Inv(b, multiset{}, multiset{}) && Orderly(b) && Enabled(b, a)
    ensures Orderly(Next(b, a))
  {
    match a
    case Handle => OrderlyProcess(b);
    case Receive(c, writeOk) => TakeChannel(b, c); OrderlyReceive(b, c, writeOk);
    case ClientRelease(c, msgId, nack) => OrderlyRelease(b, c, msgId, nack);
    case Close(c, order) => OrderlyClose(b, c, order);
    case Drain(c) => OrderlyDrain(b, c);
    case ClientSubscribe(c, id, dest, ack) => OrderlyNewSub(b, c, id, dest, ack);
    case ClientUnsubscribe(c, id) => OrderlyEndSub(b, c, id);
    case Accept => OrderlyAccept(b);
    case Handshake(c) => OrderlyHandshake(b, c);
    case ClientSend(c, f) => OrderlySend(b, c, f);
    case Flush(c) => OrderlyFlush(b, c);
    case Push(c, counts, writeOk) => OrderlyPush(b, c, counts, writeOk);
  }

  lemma {:induction false} RunOrderly(b: Broker, actions: seq<Action>, b': Broker)
    requires Leads(b, actions, b') && b.panic.None? && Inv(b, multiset{}, multiset{}) && Orderly(b)
    ensures Orderly(b')
    decreases |actions|
  {
    if actions != [] {
      NextInv(b, actions[0]);
      OrderlyNext(b, actions[0]);
      if actions[1..] != [] { RunOrderly(Next(b, actions[0]), actions[1..], b'); }
    }
  }

  /** A connection that is gone has told the processor exactly once to unsubscribe each subscription it
      ever accepted, whether on client request or while cleaning up, all before its single DisconnectedOp,
      after which it only returns frames; it holds no unacknowledged message and nothing is left to
      send. */
  lemma ClosedConnections(actions: seq<Action>, b: Broker, c: nat, s: nat)
    requires Leads(INITIAL, actions, b) && c < |b.conns| && b.conns[c].phase.Closed?
    ensures var k := b.conns[c];
            && (s < |b.heap.subs| && b.heap.subs[s].conn == c ==> multiset(k.log)[UnsubscribeOp(s)] == 1)
            && multiset(k.log)[DisconnectedOp(c)] == 1
            && (forall i, j :: 0 <= i < j < |k.log| && k.log[i] == DisconnectedOp(c) ==> k.log[j].RequeueOp?)
            && k.outbox == [] && k.unacked == [] && k.subs == map[]
  {
    RunOrderly(INITIAL, actions, b);
    assert UnsubscribedOnce(b.heap, c, b.conns[c]) && DisconnectedLast(c, b.conns[c]);
  }
}
