/** Every step of the broker keeps the ledger. */
module Steps {
  import opened Text
  import opened Frames
  import opened Acks
  import opened Queues
  import opened Broker
  import opened Ledger

  // ---------- building blocks ----------

  lemma SetConnInv(b: Broker, c: nat, k: Conn, ht: multiset<nat>, hf: multiset<nat>,
                   ht': multiset<nat>, hf': multiset<nat>)
    requires Inv(b, ht, hf) && c < |b.conns| && ConnOk(b.heap, c, k)
    requires forall s: nat :: ConnTokens(k, s) + ht'[s] <= ConnTokens(b.conns[c], s) + ht[s]
    requires forall f: nat :: ConnFrames(b.heap.subs, k, f) + hf'[f] == ConnFrames(b.heap.subs, b.conns[c], f) + hf[f]
    ensures Inv(SetConn(b, c, k), ht', hf')
  {
    var b' := SetConn(b, c, k);
    forall s: nat ensures Tokens(b', s) + ht'[s] <= 1 {
      ConnTokensUpdate(b.conns, c, k, s);
      assert Tokens(b, s) + ht[s] <= 1;
    }
    forall f: nat ensures Places(b', f) + hf'[f] == if f < |b.heap.frames| then 1 else 0 {
      ConnFramesUpdate(b.heap.subs, b.conns, c, k, f);
      assert Places(b, f) + hf[f] == if f < |b.heap.frames| then 1 else 0;
    }
  }

  lemma SetQueueInv(b: Broker, i: nat, q: Queue<nat, nat>, ht: multiset<nat>, hf: multiset<nat>,
                    ht': multiset<nat>, hf': multiset<nat>)
    requires Inv(b, ht, hf) && i < |b.queues| && QueueOk(b.heap, Named(b.queues[i].dest, q))
    requires multiset(q.idle) + ht' <= multiset(b.queues[i].queue.idle) + ht
    requires multiset(q.stored) + hf' == multiset(b.queues[i].queue.stored) + hf
    ensures Inv(SetQueue(b, i, q), ht', hf')
  {
    var b', n := SetQueue(b, i, q), b.queues[i].(queue := q);
    forall s: nat ensures Tokens(b', s) + ht'[s] <= 1 {
      QueuesUpdate(b.queues, i, n, s);
      assert (multiset(q.idle) + ht')[s] <= (multiset(b.queues[i].queue.idle) + ht)[s];
      assert Tokens(b, s) + ht[s] <= 1;
    }
    forall f: nat ensures Places(b', f) + hf'[f] == if f < |b.heap.frames| then 1 else 0 {
      QueuesUpdate(b.queues, i, n, f);
      assert (multiset(q.stored) + hf')[f] == (multiset(b.queues[i].queue.stored) + hf)[f];
      assert Places(b, f) + hf[f] == if f < |b.heap.frames| then 1 else 0;
    }
  }

  /** Subscriptions in hand may be changed freely. */
  lemma HeapInv(b: Broker, h': Heap, x: set<nat>, ht: multiset<nat>, hf: multiset<nat>)
    requires Inv(b, ht, hf) && SameBut(b.heap, h', x)
    requires forall s :: s in x ==> s in ht
    requires |h'.frames| == |b.heap.frames| && |h'.subs| == |b.heap.subs|
    requires forall s :: s in h'.released ==> s < |h'.subs|
    ensures Inv(b.(heap := h'), ht, hf)
  {
    forall s | s in x ensures Tokens(b, s) == 0 { assert Tokens(b, s) + ht[s] <= 1; }
    AbsentFromCount(b, x);
    HeapStep(b, h', x);
    forall s: nat ensures Tokens(b.(heap := h'), s) + ht[s] <= 1 { assert Tokens(b, s) + ht[s] <= 1; }
    forall f: nat ensures Places(b.(heap := h'), f) + hf[f] == if f < |h'.frames| then 1 else 0 {
      assert Places(b, f) + hf[f] == if f < |b.heap.frames| then 1 else 0;
    }
  }

  /** The requests of a handler take over what the step has in hand; tokens may be dropped. */
  lemma EmitInv(b: Broker, c: nat, rs: seq<Request>, ht: multiset<nat>, hf: multiset<nat>)
    requires Inv(b, ht, hf) && c < |b.conns| && b.conns[c].outbox == []
    requires RequestsOk(b.heap, rs)
    requires forall x: nat :: ReqTokens(rs, x) <= ht[x] && ReqFrames(rs, x) == hf[x]
    ensures Inv(Emit(b, c, rs), multiset{}, multiset{})
  {
    var k := b.conns[c];
    SetConnInv(b, c, k.(outbox := rs, log := k.log + rs), ht, hf, multiset{}, multiset{});
  }

  /** Frames in hand reach a final place. */
  lemma EndInv(b: Broker, b': Broker, ht: multiset<nat>, hf: multiset<nat>)
    requires Inv(b, ht, hf)
    requires b' == b.(retired := b'.retired, inDoubt := b'.inDoubt, broadcast := b'.broadcast)
    requires forall f: nat :: Ended(b', f) == Ended(b, f) + hf[f]
    ensures Inv(b', ht, multiset{})
  {
    forall s: nat ensures Tokens(b', s) + ht[s] <= 1 { assert Tokens(b, s) + ht[s] <= 1; }
    forall f: nat ensures Places(b', f) == if f < |b.heap.frames| then 1 else 0 {
      assert Places(b, f) + hf[f] == if f < |b.heap.frames| then 1 else 0;
    }
  }

  lemma DropTokens(b: Broker, ht: multiset<nat>, ht': multiset<nat>, hf: multiset<nat>)
    requires Inv(b, ht, hf) && ht' <= ht
    ensures Inv(b, ht', hf)
  {
    forall s: nat ensures Tokens(b, s) + ht'[s] <= 1 { assert Tokens(b, s) + ht[s] <= 1; }
  }

  lemma StampKeepsDest(f: Frame, n: nat, mode: AckMode)
    ensures Lookup(Stamp(f, n, mode).header, DESTINATION) == Lookup(f.header, DESTINATION)
  {
    var t := Decimal(n);
    var h := SetEntry(f.header, MESSAGE_ID, t);
    LookupAfterSet(f.header, MESSAGE_ID, t, DESTINATION);
    LookupAfterSet(h, ID, t, DESTINATION);
    LookupAfterSet(SetEntry(h, ID, t), ACK, t, DESTINATION);
    LookupAfterWithout(SetEntry(h, ID, t), ACK, DESTINATION);
  }

  // ---------- the processor ----------

  function ReqToken(r: Request): multiset<nat> { if r.SubscribeOp? then multiset{r.sub} else multiset{} }

  function ReqFrame(r: Request): multiset<nat> {
    if r.EnqueueOp? || r.RequeueOp? then multiset{r.frame} else multiset{}
  }

  lemma ReqHead(rs: seq<Request>, x: nat)
    requires rs != []
    ensures ReqTokens(rs, x) == ReqToken(rs[0])[x] + ReqTokens(rs[1..], x)
    ensures ReqFrames(rs, x) == ReqFrame(rs[0])[x] + ReqFrames(rs[1..], x)
  {
    assert rs == [rs[0]] + rs[1..];
  }

  lemma TakeRequestInv(b: Broker)
    requires Inv(b, multiset{}, multiset{}) && b.requests != []
    ensures RequestOk(b.heap, b.requests[0])
    ensures Inv(TakeRequest(b), ReqToken(b.requests[0]), ReqFrame(b.requests[0]))
  {
    var b', r := TakeRequest(b), b.requests[0];
    assert r in b.requests;
    forall s: nat ensures Tokens(b', s) + ReqToken(r)[s] <= 1 {
      ReqHead(b.requests, s);
      assert Tokens(b, s) <= 1;
    }
    forall f: nat ensures Places(b', f) + ReqFrame(r)[f] == if f < |b.heap.frames| then 1 else 0 {
      ReqHead(b.requests, f);
      assert Places(b, f) == if f < |b.heap.frames| then 1 else 0;
    }
  }

  lemma FindQueueInv(b: Broker, dest: string, ht: multiset<nat>, hf: multiset<nat>)
    requires Inv(b, ht, hf) && IsQueue(dest)
    ensures Inv(FindQueue(b, dest), ht, hf)
    ensures FindQueue(b, dest).heap == b.heap
    ensures FindQueue(b, dest).panic == b.panic
  {
    var b' := FindQueue(b, dest);
    forall s: nat ensures Tokens(b', s) + ht[s] <= 1 {
      QueuesAppend(b.queues, dest, s);
      assert Tokens(b, s) + ht[s] <= 1;
    }
    forall f: nat ensures Places(b', f) + hf[f] == if f < |b.heap.frames| then 1 else 0 {
      QueuesAppend(b.queues, dest, f);
      assert Places(b, f) + hf[f] == if f < |b.heap.frames| then 1 else 0;
    }
  }

  lemma ChannelCounts(subs: seq<Sub>, k: Conn, s: nat, f: nat, x: nat)
    requires s < |subs| && subs[s].frame == Some(f)
    ensures var k' := k.(subChannel := k.subChannel + [s]);
            && ConnTokens(k', x) == ConnTokens(k, x) + multiset{s}[x]
            && ConnFrames(subs, k', x) == ConnFrames(subs, k, x) + multiset{f}[x]
  {
    HeldAppend(subs, k.subChannel, s, x);
  }

  lemma AppendChannelInv(b: Broker, c: nat, s: nat, f: nat)
    requires Inv(b, multiset{s}, multiset{f}) && c < |b.conns|
    requires ChannelOk(b.heap, c, s) && b.heap.subs[s].frame == Some(f)
    ensures var k := b.conns[c];
            Inv(SetConn(b, c, k.(subChannel := k.subChannel + [s])), multiset{}, multiset{})
  {
    var k := b.conns[c];
    var k' := k.(subChannel := k.subChannel + [s]);
    forall x: nat ensures ConnTokens(k', x) == ConnTokens(k, x) + multiset{s}[x]
                  ensures ConnFrames(b.heap.subs, k', x) == ConnFrames(b.heap.subs, k, x) + multiset{f}[x]
    {
      ChannelCounts(b.heap.subs, k, s, f, x);
    }
    AppendChannelOk(b.heap, c, k, s);
    SetConnInv(b, c, k', multiset{s}, multiset{f}, multiset{}, multiset{});
  }

  lemma AppendChannelOk(h: Heap, c: nat, k: Conn, s: nat)
    requires ConnOk(h, c, k) && ChannelOk(h, c, s)
    ensures ConnOk(h, c, k.(subChannel := k.subChannel + [s]))
  {
  }

  /** The heap after a frame has been put on a subscription. */
  function HandOver(h: Heap, s: nat, f: nat): Heap
    requires s < |h.subs| && f < |h.frames|
  {
    var g := h.frames[f].(header := SetEntry(h.frames[f].header, SUBSCRIPTION, h.subs[s].id));
    h.(frames := h.frames[f := g], subs := h.subs[s := h.subs[s].(frame := Some(f))])
  }

  lemma HandOverSame(h: Heap, s: nat, f: nat)
    requires s < |h.subs| && f < |h.frames|
    ensures SameBut(h, HandOver(h, s, f), {s})
  {
    LookupAfterSet(h.frames[f].header, SUBSCRIPTION, h.subs[s].id, DESTINATION);
  }

  /** A subscription and a frame in hand, fit for each other, go to the connection's channel. */
  lemma SendQueueFrameInv(b: Broker, s: nat, f: nat)
    requires Inv(b, multiset{s}, multiset{f})
    requires s < |b.heap.subs| && b.heap.subs[s].frame.None? && IsQueue(b.heap.subs[s].dest)
    requires b.heap.subs[s].listed <==> s in b.heap.released
    requires StoredOk(b.heap, b.heap.subs[s].dest, f)
    ensures SendQueueFrame(b, s, f).panic == b.panic
    ensures Inv(SendQueueFrame(b, s, f), multiset{}, multiset{})
  {
    var h' := HandOver(b.heap, s, f);
    HandOverSame(b.heap, s, f);
    HeapInv(b, h', {s}, multiset{s}, multiset{f});
    assert ChannelOk(h', b.heap.subs[s].conn, s);
    AppendChannelInv(b.(heap := h'), b.heap.subs[s].conn, s, f);
  }

  lemma ListedSame(h: Heap, s: nat, listed: bool)
    requires s < |h.subs|
    ensures SameBut(h, h.(subs := h.subs[s := h.subs[s].(listed := listed)]), {s})
  {
  }

  lemma HandStored(b: Broker, i: nat, s: nat)
    requires Inv(b, multiset{s}, multiset{}) && i < |b.queues| && b.queues[i].queue.stored != []
    ensures var q := b.queues[i].queue;
            && StoredOk(b.heap, b.queues[i].dest, q.stored[0])
            && Inv(SetQueue(b, i, q.(stored := q.stored[1..])), multiset{s}, multiset{q.stored[0]})
  {
    var q := b.queues[i].queue;
    assert QueueOk(b.heap, b.queues[i]) && q.stored[0] in q.stored;
    assert q.stored == [q.stored[0]] + q.stored[1..];
    SetQueueInv(b, i, q.(stored := q.stored[1..]), multiset{s}, multiset{}, multiset{s}, multiset{q.stored[0]});
  }

  lemma JoinIdle(b: Broker, i: nat, s: nat)
    requires Inv(b, multiset{s}, multiset{}) && i < |b.queues| && b.queues[i].queue.stored == []
    requires RequestOk(b.heap, SubscribeOp(s)) && b.heap.subs[s].dest == b.queues[i].dest
    requires s !in b.heap.released
    ensures var q := b.queues[i].queue;
            Inv(SetListed(SetQueue(b, i, q.(idle := q.idle + [s])), s, true), multiset{}, multiset{})
  {
    var q, b1 := b.queues[i].queue, SetListed(b, s, true);
    ListedSame(b.heap, s, true);
    HeapInv(b, b1.heap, {s}, multiset{s}, multiset{});
    var q' := q.(idle := q.idle + [s]);
    assert QueueOk(b1.heap, b1.queues[i]) && IdleOk(b1.heap, b.queues[i].dest, s);
    SetQueueInv(b1, i, q', multiset{s}, multiset{}, multiset{}, multiset{});
    assert SetQueue(b1, i, q') == SetListed(SetQueue(b, i, q'), s, true);
  }

  lemma SubscribeInv(b: Broker, i: nat, s: nat)
    requires Inv(b, multiset{s}, multiset{}) && i < |b.queues| && b.panic.None?
    requires RequestOk(b.heap, SubscribeOp(s)) && b.heap.subs[s].dest == b.queues[i].dest
    requires IsQueue(b.heap.subs[s].dest)
    ensures var b' := DoSubscribe(b, i, s);
            if b.queues[i].queue.stored == [] && s in b.heap.released
            then b'.panic == Some(AlreadyListed)
            else b'.panic.None? && Inv(b', multiset{}, multiset{})
  {
    var q := b.queues[i].queue;
    if q.stored != [] {
      HandStored(b, i, s);
      SendQueueFrameInv(SetQueue(b, i, q.(stored := q.stored[1..])), s, q.stored[0]);
    } else if s !in b.heap.released {
      JoinIdle(b, i, s);
    }
  }

  lemma LeaveIdle(b: Broker, i: nat, idle: seq<nat>, s: nat, hf: multiset<nat>)
    requires Inv(b, multiset{}, hf) && i < |b.queues| && s < |b.heap.subs|
    requires multiset(b.queues[i].queue.idle) == multiset(idle) + multiset{s}
    ensures var q := b.queues[i].queue.(idle := idle);
            Inv(SetListed(SetQueue(b, i, q), s, false), multiset{s}, hf)
  {
    var q := b.queues[i].queue.(idle := idle);
    assert forall x :: x in idle ==> x in multiset(b.queues[i].queue.idle);
    assert QueueOk(b.heap, b.queues[i]);
    assert |multiset(b.queues[i].queue.idle)| > 0;
    SetQueueInv(b, i, q, multiset{}, hf, multiset{s}, hf);
    var b1 := SetQueue(b, i, q);
    ListedSame(b1.heap, s, false);
    HeapInv(b1, SetListed(b1, s, false).heap, {s}, multiset{s}, hf);
  }

  lemma UnsubscribeInv(b: Broker, i: nat, s: nat)
    requires Inv(b, multiset{}, multiset{}) && i < |b.queues| && s < |b.heap.subs|
    ensures DoUnsubscribe(b, i, s).panic == b.panic
    ensures Inv(DoUnsubscribe(b, i, s), multiset{}, multiset{})
  {
    var q := b.queues[i].queue;
    if s in q.idle {
      RemoveFirstMembers(q.idle, s);
      assert s in multiset(q.idle);
      LeaveIdle(b, i, RemoveFirst(q.idle, s), s, multiset{});
      DropTokens(DoUnsubscribe(b, i, s), multiset{s}, multiset{}, multiset{});
    }
  }

  lemma StoreInv(b: Broker, i: nat, f: nat, front: bool)
    requires Inv(b, multiset{}, multiset{f}) && i < |b.queues| && b.queues[i].queue.idle == []
    requires StoredOk(b.heap, b.queues[i].dest, f)
    ensures Inv(DoEnqueue(b, i, f, front), multiset{}, multiset{})
  {
    var q := b.queues[i].queue;
    assert QueueOk(b.heap, b.queues[i]);
    var q' := q.(stored := if front then [f] + q.stored else q.stored + [f]);
    SetQueueInv(b, i, q', multiset{}, multiset{f}, multiset{}, multiset{});
  }

  lemma EnqueueInv(b: Broker, i: nat, f: nat, front: bool)
    requires Inv(b, multiset{}, multiset{f}) && i < |b.queues|
    requires StoredOk(b.heap, b.queues[i].dest, f)
    ensures DoEnqueue(b, i, f, front).panic == b.panic
    ensures Inv(DoEnqueue(b, i, f, front), multiset{}, multiset{})
  {
    var q := b.queues[i].queue;
    if q.idle == [] {
      StoreInv(b, i, f, front);
    } else {
      var s := q.idle[0];
      assert QueueOk(b.heap, b.queues[i]) && IdleOk(b.heap, b.queues[i].dest, s);
      assert q.idle == [s] + q.idle[1..];
      LeaveIdle(b, i, q.idle[1..], s, multiset{f});
      SendQueueFrameInv(SetListed(SetQueue(b, i, q.(idle := q.idle[1..])), s, false), s, f);
    }
  }

  /** The frames stored for a destination. */
  function StoredAt(b: Broker, dest: string): seq<nat> {
    var i := QueueIndex(b.queues, dest);
    if i < |b.queues| then b.queues[i].queue.stored else []
  }

  /** The next request announces again a subscription that was released before, and no frame is there for
      it. */
  predicate StaleAnnouncement(b: Broker) {
    && b.requests != [] && b.requests[0].SubscribeOp?
    && var s := b.requests[0].sub;
       s < |b.heap.subs| && s in b.heap.released && IsQueue(b.heap.subs[s].dest)
       && StoredAt(b, b.heap.subs[s].dest) == []
  }

  /** The next request enqueues a frame that has no destination. */
  predicate Undeliverable(b: Broker) {
    && b.requests != [] && b.requests[0].EnqueueOp?
    && var f := b.requests[0].frame; f < |b.heap.frames| && DestOf(b.heap, f).None?
  }

  lemma FindStored(b: Broker, dest: string)
    requires Local(b)
    ensures var b' := FindQueue(b, dest);
            b'.queues[QueueIndex(b'.queues, dest)].queue.stored == StoredAt(b, dest)
  {
    IndexAfterAppend(b.queues, dest);
  }

  lemma AnnounceAt(b: Broker, s: nat, dest: string)
    requires Inv(b, multiset{s}, multiset{}) && b.panic.None?
    requires RequestOk(b.heap, SubscribeOp(s)) && dest == b.heap.subs[s].dest && IsQueue(dest)
    ensures Local(FindQueue(b, dest))
    ensures var b2 := FindQueue(b, dest);
            var b' := DoSubscribe(b2, QueueIndex(b2.queues, dest), s);
            if StoredAt(b, dest) == [] && s in b.heap.released
            then b'.panic == Some(AlreadyListed)
            else b'.panic.None? && Inv(b', multiset{}, multiset{})
  {
    FindQueueInv(b, dest, multiset{s}, multiset{});
    FindStored(b, dest);
    var b2 := FindQueue(b, dest);
    SubscribeInv(b2, QueueIndex(b2.queues, dest), s);
  }

  lemma HandleSubscribe(b: Broker)
    requires Inv(b, multiset{}, multiset{}) && b.panic.None? && b.requests != [] && b.requests[0].SubscribeOp?
    ensures var b' := Process(b);
            && (b'.panic.None? ==> Inv(b', multiset{}, multiset{}))
            && b'.panic == (if StaleAnnouncement(b) then Some(AlreadyListed) else None)
  {
    TakeRequestInv(b);
    ProcessSubscribe(b);
    var s := b.requests[0].sub;
    if IsQueue(b.heap.subs[s].dest) {
      AnnounceNext(b, s);
    } else {
      DropTokens(TakeRequest(b), multiset{s}, multiset{}, multiset{});
    }
  }

  lemma AnnounceNext(b: Broker, s: nat)
    requires b.requests != [] && b.requests[0] == SubscribeOp(s) && b.panic.None? && RequestOk(b.heap, SubscribeOp(s))
    requires Inv(TakeRequest(b), multiset{s}, multiset{}) && IsQueue(b.heap.subs[s].dest)
    ensures Local(FindQueue(TakeRequest(b), b.heap.subs[s].dest))
    ensures var dest := b.heap.subs[s].dest;
            var b2 := FindQueue(TakeRequest(b), dest);
            var b' := DoSubscribe(b2, QueueIndex(b2.queues, dest), s);
            && (b'.panic.None? ==> Inv(b', multiset{}, multiset{}))
            && b'.panic == (if StaleAnnouncement(b) then Some(AlreadyListed) else None)
  {
    AnnounceAt(TakeRequest(b), s, b.heap.subs[s].dest);
  }

  lemma ProcessSubscribe(b: Broker)
    requires Local(b) && b.requests != [] && b.requests[0].SubscribeOp? && RequestOk(b.heap, b.requests[0])
    ensures var s, b1 := b.requests[0].sub, TakeRequest(b);
            var dest := b.heap.subs[s].dest;
            if IsQueue(dest)
            then Local(FindQueue(b1, dest)) &&
                 Process(b) == DoSubscribe(FindQueue(b1, dest), QueueIndex(FindQueue(b1, dest).queues, dest), s)
            else Process(b) == b1
  {
    var dest := b.heap.subs[b.requests[0].sub].dest;
    if IsQueue(dest) { assert FindKeepsLocal(TakeRequest(b), dest) == FindQueue(TakeRequest(b), dest); }
  }

  lemma HandleFrame(b: Broker)
    requires Inv(b, multiset{}, multiset{}) && b.panic.None? && b.requests != []
    requires b.requests[0].EnqueueOp? || b.requests[0].RequeueOp?
    ensures var b' := Process(b);
            && (b'.panic.None? ==> Inv(b', multiset{}, multiset{}))
            && b'.panic == (if Undeliverable(b) then Some(MissingDestination) else None)
  {
    TakeRequestInv(b);
    var f, b1 := b.requests[0].frame, TakeRequest(b);
    var dest := DestOf(b.heap, f);
    if dest.Some? {
      if IsQueue(dest.value) {
        FindQueueInv(b1, dest.value, multiset{}, multiset{f});
        var b2 := FindQueue(b1, dest.value);
        EnqueueInv(b2, QueueIndex(b2.queues, dest.value), f, b.requests[0].RequeueOp?);
      } else {
        EndInv(b1, b1.(broadcast := b1.broadcast + [f]), multiset{}, multiset{f});
      }
    }
  }

  /** The processor keeps the ledger, or panics for one of exactly two reasons. */
  lemma ProcessInv(b: Broker)
    requires Inv(b, multiset{}, multiset{}) && b.panic.None? && b.requests != []
    ensures var b' := Process(b);
            && (b'.panic.None? ==> Inv(b', multiset{}, multiset{}))
            && b'.panic == (if StaleAnnouncement(b) then Some(AlreadyListed)
                            else if Undeliverable(b) then Some(MissingDestination) else None)
  {
    match b.requests[0]
    case SubscribeOp(_) => HandleSubscribe(b);
    case EnqueueOp(_) => HandleFrame(b);
    case RequeueOp(_) => HandleFrame(b);
    case UnsubscribeOp(s) =>
      TakeRequestInv(b);
      var b1, dest := TakeRequest(b), b.heap.subs[s].dest;
      if IsQueue(dest) {
        FindQueueInv(b1, dest, multiset{}, multiset{});
        var b2 := FindQueue(b1, dest);
        UnsubscribeInv(b2, QueueIndex(b2.queues, dest), s);
      }
    case _ => TakeRequestInv(b);
  }
}
