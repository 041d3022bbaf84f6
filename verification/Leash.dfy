/** With automatic acknowledgement and no subscription id used twice on a connection, a subscription that has
    been given up keeps its UnsubscribeOp ahead of it: as long as it can be handed a frame, the request that
    takes it out is still on its way. */
module Leash {
  import opened Frames
  import opened Acks
  import opened Queues
  import opened Broker
  import opened Ledger
  import opened ConnSteps
  import opened Effects
  import opened BrokerRuns
  import opened Teardown
  import opened Stranding

  // ---------- requests about one subscription ----------

  predicate IsAbout(r: Request, s: nat) { r == SubscribeOp(s) || r == UnsubscribeOp(s) }

  /** The announcements and withdrawals of subscription s among the requests, in order. */
  function About(rs: seq<Request>, s: nat): seq<Request> {
    if rs == [] then [] else (if IsAbout(rs[0], s) then [rs[0]] else []) + About(rs[1..], s)
  }

  lemma {:induction false} AboutConcat(a: seq<Request>, b: seq<Request>, s: nat)
    ensures About(a + b, s) == About(a, s) + About(b, s)
  {
    if a == [] {
      assert a + b == b;
    } else {
      assert (a + b)[1..] == a[1..] + b && (a + b)[0] == a[0];
      AboutConcat(a[1..], b, s);
      var first := if IsAbout(a[0], s) then [a[0]] else [];
      assert first + (About(a[1..], s) + About(b, s)) == (first + About(a[1..], s)) + About(b, s);
    }
  }

  lemma {:induction false} AboutMembers(rs: seq<Request>, s: nat)
    ensures forall r :: r in About(rs, s) <==> r in rs && IsAbout(r, s)
  {
    if rs != [] {
      AboutMembers(rs[1..], s);
      assert rs == [rs[0]] + rs[1..];
    }
  }

  lemma NothingAbout(rs: seq<Request>, s: nat)
    requires forall r :: r in rs ==> !IsAbout(r, s)
    ensures About(rs, s) == []
  {
    AboutMembers(rs, s);
    var l := About(rs, s);
    assert forall r :: r in l ==> r in rs && IsAbout(r, s);
    if l != [] { var r := AnyOf(l); }
  }

  lemma AnyOf(l: seq<Request>) returns (r: Request)
    requires l != []
    ensures r in l
  {
    r := l[0];
  }

  /** The requests about s that are still to be handled. */
  function Pending(b: Broker, s: nat): seq<Request>
    requires s < |b.heap.subs| && b.heap.subs[s].conn < |b.conns|
  {
    About(b.requests, s) + About(b.conns[b.heap.subs[s].conn].outbox, s)
  }

  ghost predicate IdleIn(qs: seq<Named>, s: nat) { exists i :: 0 <= i < |qs| && s in qs[i].queue.idle }

  ghost predicate Idle(b: Broker, s: nat) { IdleIn(b.queues, s) }

  function Last(l: seq<Request>): Request
    requires l != []
  {
    l[|l| - 1]
  }

  /** A registered subscription has no withdrawal pending; for any other the withdrawal is the last request
      pending, and it is pending as long as the subscription waits. */
  ghost predicate Leashed(b: Broker, s: nat)
    requires s < |b.heap.subs| && b.heap.subs[s].conn < |b.conns|
  {
    var ops := Pending(b, s);
    if Registered(b.heap, b.conns[b.heap.subs[s].conn], s) then UnsubscribeOp(s) !in ops
    else (ops != [] ==> Last(ops) == UnsubscribeOp(s)) && (Idle(b, s) ==> ops != [])
  }

  /** Connections only make requests about their own subscriptions. */
  ghost predicate Own(b: Broker) {
    forall c, r :: 0 <= c < |b.conns| && r in b.conns[c].outbox && (r.SubscribeOp? || r.UnsubscribeOp?) ==>
      r.sub < |b.heap.subs| && b.heap.subs[r.sub].conn == c
  }

  /** No connection has used an id twice. */
  ghost predicate Unique(h: Heap) {
    forall s, t :: 0 <= s < t < |h.subs| ==> h.subs[s].conn != h.subs[t].conn || h.subs[s].id != h.subs[t].id
  }

  ghost predicate DistinctNames(qs: seq<Named>) { forall i, j :: 0 <= i < j < |qs| ==> qs[i].dest != qs[j].dest }

  ghost predicate Sound(b: Broker) {
    && Inv(b, multiset{}, multiset{}) && b.panic.None? && TameState(b)
    && Own(b) && Unique(b.heap) && DistinctNames(b.queues)
    && forall s :: 0 <= s < |b.heap.subs| ==> Leashed(b, s)
  }

  // ---------- steps of connections ----------

  /** A step of connection c that makes the requests rs and leaves the queues and the shared channel. */
  ghost predicate Emits(b: Broker, b': Broker, c: nat, rs: seq<Request>) {
    && c < |b.conns| == |b'.conns| && b.conns[c].outbox == [] && b'.conns[c].outbox == rs
    && b'.requests == b.requests && b'.queues == b.queues && |b.heap.subs| <= |b'.heap.subs|
    && (forall s :: 0 <= s < |b.heap.subs| ==>
          b'.heap.subs[s].conn == b.heap.subs[s].conn && b'.heap.subs[s].id == b.heap.subs[s].id)
    && (forall d :: 0 <= d < |b.conns| && d != c ==> b'.conns[d] == b.conns[d])
  }

  /** What the step may say about s: nothing, an announcement if s stays registered, or the withdrawal if s
      is given up. */
  ghost predicate Allowed(b: Broker, b': Broker, c: nat, rs: seq<Request>, s: nat)
    requires s < |b.heap.subs| <= |b'.heap.subs| && c < |b.conns| == |b'.conns|
  {
    var before, after := Registered(b.heap, b.conns[c], s), Registered(b'.heap, b'.conns[c], s);
    || (About(rs, s) == [] && after == before)
    || (About(rs, s) == [SubscribeOp(s)] && after && before)
    || (About(rs, s) == [UnsubscribeOp(s)] && !after)
  }

  lemma EmitLeashed(b: Broker, b': Broker, c: nat, rs: seq<Request>, s: nat)
    requires Emits(b, b', c, rs) && s < |b.heap.subs| && b.heap.subs[s].conn < |b.conns| && Leashed(b, s)
    requires b.heap.subs[s].conn == c ==> Allowed(b, b', c, rs, s)
    ensures Leashed(b', s)
  {
    assert Idle(b', s) == Idle(b, s);
    if b.heap.subs[s].conn == c {
      var ops, more := About(b.requests, s), About(rs, s);
      assert About([], s) == [] && ops + [] == ops;
      assert Pending(b, s) == ops && Pending(b', s) == ops + more;
    }
  }

  ghost predicate OwnRequests(h: Heap, c: nat, rs: seq<Request>) {
    forall r :: r in rs && (r.SubscribeOp? || r.UnsubscribeOp?) ==> r.sub < |h.subs| && h.subs[r.sub].conn == c
  }

  lemma EmitOwn(b: Broker, b': Broker, c: nat, rs: seq<Request>)
    requires Own(b) && Emits(b, b', c, rs) && OwnRequests(b'.heap, c, rs)
    ensures Own(b')
  {
    forall d, r | 0 <= d < |b'.conns| && r in b'.conns[d].outbox && (r.SubscribeOp? || r.UnsubscribeOp?)
      ensures r.sub < |b'.heap.subs| && b'.heap.subs[r.sub].conn == d
    {
      if d != c { assert r in b.conns[d].outbox; }
    }
  }

  /** The step keeps everything but, perhaps, the leash of a subscription it creates. */
  lemma EmitSound(b: Broker, b': Broker, c: nat, rs: seq<Request>)
    requires Sound(b) && Emits(b, b', c, rs) && OwnRequests(b'.heap, c, rs)
    requires Inv(b', multiset{}, multiset{}) && b'.panic.None? && TameState(b') && Unique(b'.heap)
    requires forall s :: 0 <= s < |b.heap.subs| && b.heap.subs[s].conn == c ==> Allowed(b, b', c, rs, s)
    requires forall s :: |b.heap.subs| <= s < |b'.heap.subs| ==> Leashed(b', s)
    ensures Sound(b')
  {
    EmitOwn(b, b', c, rs);
    forall s | 0 <= s < |b'.heap.subs| ensures Leashed(b', s) {
      if s < |b.heap.subs| {
        assert Leashed(b, s);
        EmitLeashed(b, b', c, rs, s);
      }
    }
  }

  lemma SameUnique(h: Heap, h': Heap)
    requires Unique(h) && |h'.subs| == |h.subs|
    requires forall s :: 0 <= s < |h.subs| ==> h'.subs[s].conn == h.subs[s].conn && h'.subs[s].id == h.subs[s].id
    ensures Unique(h')
  {
  }

  /** A step that neither announces nor withdraws a subscription. */
  lemma QuietSound(b: Broker, b': Broker, c: nat, rs: seq<Request>)
    requires Sound(b) && Emits(b, b', c, rs) && |b'.heap.subs| == |b.heap.subs|
    requires Inv(b', multiset{}, multiset{}) && b'.panic.None? && TameState(b')
    requires b'.conns[c].subs == b.conns[c].subs
    requires forall r :: r in rs ==> !r.SubscribeOp? && !r.UnsubscribeOp?
    ensures Sound(b')
  {
    SameUnique(b.heap, b'.heap);
    forall s | 0 <= s < |b.heap.subs| && b.heap.subs[s].conn == c ensures Allowed(b, b', c, rs, s) {
      NothingAbout(rs, s);
    }
    EmitSound(b, b', c, rs);
  }

  lemma ReceiveEmits(b: Broker, c: nat, writeOk: bool)
    requires Local(b) && c < |b.conns| && b.conns[c].subChannel != [] && b.conns[c].outbox == [] && TameState(b)
    requires ChannelOk(b.heap, c, b.conns[c].subChannel[0])
    ensures var b', s := DoReceive(b, c, writeOk), b.conns[c].subChannel[0];
            var f := b.heap.subs[s].frame.value;
            var rs := if b.heap.subs[s].id !in b.conns[c].subs then [RequeueOp(f)]
                      else if writeOk then [SubscribeOp(s)] else [];
            Emits(b, b', c, rs) && |b'.heap.subs| == |b.heap.subs| && b'.conns[c].subs == b.conns[c].subs
  {
  }

  lemma ReceiveSound(b: Broker, c: nat, writeOk: bool)
    requires Sound(b) && Enabled(b, Receive(c, writeOk))
    requires Inv(DoReceive(b, c, writeOk), multiset{}, multiset{}) && DoReceive(b, c, writeOk).panic.None?
    requires TameState(DoReceive(b, c, writeOk)) && ChannelOk(b.heap, c, b.conns[c].subChannel[0])
    ensures Sound(DoReceive(b, c, writeOk))
  {
    var b', k, s := DoReceive(b, c, writeOk), b.conns[c], b.conns[c].subChannel[0];
    ReceiveEmits(b, c, writeOk);
    if b.heap.subs[s].id !in k.subs || !writeOk {
      QuietSound(b, b', c, b'.conns[c].outbox);
    } else {
      assert ConnOk(b.heap, c, k) && OwnSub(b.heap, c, b.heap.subs[s].id, k.subs[b.heap.subs[s].id]);
      AnnounceSound(b, b', c, s);
    }
  }

  /** Announcing a registered subscription again. */
  lemma AnnounceSound(b: Broker, b': Broker, c: nat, s: nat)
    requires Sound(b) && Emits(b, b', c, [SubscribeOp(s)]) && |b'.heap.subs| == |b.heap.subs|
    requires Inv(b', multiset{}, multiset{}) && b'.panic.None? && TameState(b')
    requires b'.conns[c].subs == b.conns[c].subs && Registered(b.heap, b.conns[c], s) && b.heap.subs[s].conn == c
    ensures Sound(b')
  {
    SameUnique(b.heap, b'.heap);
    forall t | 0 <= t < |b.heap.subs| && b.heap.subs[t].conn == c
      ensures Allowed(b, b', c, [SubscribeOp(s)], t)
    {
      assert [SubscribeOp(s)][1..] == [];
    }
    EmitSound(b, b', c, [SubscribeOp(s)]);
  }

  lemma EndSubSound(b: Broker, c: nat, id: string)
    requires Sound(b) && Enabled(b, ClientUnsubscribe(c, id)) && Inv(DoEndSub(b, c, id), multiset{}, multiset{})
    ensures Sound(DoEndSub(b, c, id))
  {
    var b', k := DoEndSub(b, c, id), b.conns[c];
    var s := k.subs[id];
    assert ConnOk(b.heap, c, k) && OwnSub(b.heap, c, id, s);
    var rs := [UnsubscribeOp(s)];
    forall t | 0 <= t < |b.heap.subs| && b.heap.subs[t].conn == c ensures Allowed(b, b', c, rs, t) {
      assert rs[1..] == [];
    }
    EmitSound(b, b', c, rs);
  }

  lemma NewSubSound(b: Broker, c: nat, id: string, dest: string)
    requires Sound(b) && Enabled(b, ClientSubscribe(c, id, dest, Auto))
    requires Inv(DoNewSub(b, c, id, dest, Auto), multiset{}, multiset{}) && TameState(DoNewSub(b, c, id, dest, Auto))
    requires forall s :: 0 <= s < |b.heap.subs| && b.heap.subs[s].conn == c ==> b.heap.subs[s].id != id
    ensures Sound(DoNewSub(b, c, id, dest, Auto))
  {
    var b', rs := DoNewSub(b, c, id, dest, Auto), [SubscribeOp(|b.heap.subs|)];
    forall t | 0 <= t < |b.heap.subs| && b.heap.subs[t].conn == c ensures Allowed(b, b', c, rs, t) {
      NewSubAllowed(b, c, id, dest, t);
    }
    NewSubLeashed(b, c, id, dest);
    NewSubUnique(b, c, id, dest);
    EmitSound(b, b', c, rs);
  }

  lemma NewSubAllowed(b: Broker, c: nat, id: string, dest: string, t: nat)
    requires c < |b.conns| && t < |b.heap.subs| && b.heap.subs[t].id != id
    ensures Allowed(b, DoNewSub(b, c, id, dest, Auto), c, [SubscribeOp(|b.heap.subs|)], t)
  {
    var rs := [SubscribeOp(|b.heap.subs|)];
    assert rs[1..] == [] && About(rs, t) == [];
  }

  lemma NewSubUnique(b: Broker, c: nat, id: string, dest: string)
    requires c < |b.conns| && Unique(b.heap)
    requires forall s :: 0 <= s < |b.heap.subs| && b.heap.subs[s].conn == c ==> b.heap.subs[s].id != id
    ensures Unique(DoNewSub(b, c, id, dest, Auto).heap)
  {
  }

  lemma NewSubLeashed(b: Broker, c: nat, id: string, dest: string)
    requires Local(b) && c < |b.conns|
    ensures Leashed(DoNewSub(b, c, id, dest, Auto), |b.heap.subs|)
  {
    var b', s := DoNewSub(b, c, id, dest, Auto), |b.heap.subs|;
    var rs := [SubscribeOp(s)];
    NewIsUnheardOf(b);
    assert About(rs, s) == rs by { assert rs[1..] == []; }
    assert Pending(b', s) == [] + rs;
  }

  /** Nothing is pending about a subscription that does not exist yet. */
  lemma NewIsUnheardOf(b: Broker)
    requires Local(b)
    ensures About(b.requests, |b.heap.subs|) == []
  {
    forall r | r in b.requests ensures !IsAbout(r, |b.heap.subs|) { assert RequestOk(b.heap, r); }
    NothingAbout(b.requests, |b.heap.subs|);
  }

  lemma {:induction false} AboutWithdrawals(rs: seq<Request>, s: nat)
    requires forall i :: 0 <= i < |rs| ==> rs[i].UnsubscribeOp?
    ensures |About(rs, s)| == multiset(rs)[UnsubscribeOp(s)]
    ensures forall i :: 0 <= i < |About(rs, s)| ==> About(rs, s)[i] == UnsubscribeOp(s)
  {
    if rs != [] {
      assert rs == [rs[0]] + rs[1..];
      AboutWithdrawals(rs[1..], s);
    }
  }

  lemma CloseAllowed(b: Broker, c: nat, order: seq<string>, s: nat)
    requires Local(b) && c < |b.conns| && Visits(b.conns[c], order) && b.conns[c].unacked == []
    requires s < |b.heap.subs| && b.heap.subs[s].conn == c
    ensures var b' := DoClose(b, c, order); Allowed(b, b', c, Unsubscriptions(b.conns[c], order), s)
  {
    var k, rs := b.conns[c], Unsubscriptions(b.conns[c], order);
    assert ConnOk(b.heap, c, k);
    UnsubscriptionsOnce(b.heap, c, k, order, s);
    UnsubscriptionsOnly(k, order);
    AboutWithdrawals(rs, s);
    var l := About(rs, s);
    if |l| == 1 { assert l == [l[0]]; }
  }

  lemma CloseEmits(b: Broker, c: nat, order: seq<string>)
    requires Local(b) && c < |b.conns| && Visits(b.conns[c], order) && b.conns[c].unacked == []
    requires b.conns[c].outbox == []
    ensures var b' := DoClose(b, c, order);
            Emits(b, b', c, Unsubscriptions(b.conns[c], order)) && |b'.heap.subs| == |b.heap.subs|
  {
    var rs := Unsubscriptions(b.conns[c], order);
    assert FramesHeld(b.heap, []) == [] && Requeues([]) == [] && rs + [] == rs;
  }

  lemma OwnWithdrawals(h: Heap, c: nat, k: Conn, order: seq<string>)
    requires (forall id :: id in order ==> id in k.subs) && ConnOk(h, c, k)
    ensures OwnRequests(h, c, Unsubscriptions(k, order))
    decreases order
  {
    if order != [] {
      assert order[0] in order && OwnSub(h, c, order[0], k.subs[order[0]]);
      assert forall id :: id in order[1..] ==> id in order;
      OwnWithdrawals(h, c, k, order[1..]);
    }
  }

  lemma CloseSound(b: Broker, c: nat, order: seq<string>)
    requires Sound(b) && Enabled(b, Close(c, order))
    requires Inv(DoClose(b, c, order), multiset{}, multiset{}) && TameState(DoClose(b, c, order))
    ensures Sound(DoClose(b, c, order))
  {
    var b', k := DoClose(b, c, order), b.conns[c];
    NothingUnacked(b, c);
    CloseEmits(b, c, order);
    forall s | 0 <= s < |b.heap.subs| && b.heap.subs[s].conn == c
      ensures Allowed(b, b', c, Unsubscriptions(k, order), s)
    {
      CloseAllowed(b, c, order, s);
    }
    assert ConnOk(b.heap, c, k);
    OwnWithdrawals(b.heap, c, k, order);
    SameUnique(b.heap, b'.heap);
    EmitSound(b, b', c, Unsubscriptions(k, order));
  }

  // ---------- flushing ----------

  lemma FlushLeashed(b: Broker, c: nat, s: nat)
    requires Local(b) && Own(b) && c < |b.conns| && b.conns[c].outbox != []
    requires s < |b.heap.subs| && b.heap.subs[s].conn < |b.conns| && Leashed(b, s)
    ensures Leashed(DoFlush(b, c), s)
  {
    var b', k := DoFlush(b, c), b.conns[c];
    var r := k.outbox[0];
    assert r in k.outbox;
    assert Idle(b', s) == Idle(b, s);
    AboutConcat(b.requests, [r], s);
    assert [r][1..] == [];
    if b.heap.subs[s].conn == c {
      AboutConcat([r], k.outbox[1..], s);
      assert k.outbox == [r] + k.outbox[1..];
      var x, y, z := About(b.requests, s), About([r], s), About(k.outbox[1..], s);
      assert (x + y) + z == x + (y + z);
      assert Pending(b', s) == Pending(b, s);
    } else {
      assert About([r], s) == [] && About(b.requests, s) + [] == About(b.requests, s);
      assert Pending(b', s) == Pending(b, s);
    }
  }

  lemma FlushSound(b: Broker, c: nat)
    requires Sound(b) && Enabled(b, Flush(c)) && Inv(DoFlush(b, c), multiset{}, multiset{})
    ensures Sound(DoFlush(b, c))
  {
    var b' := DoFlush(b, c);
    forall s | 0 <= s < |b'.heap.subs| ensures Leashed(b', s) {
      assert Leashed(b, s);
      FlushLeashed(b, c, s);
    }
    forall d, r | 0 <= d < |b'.conns| && r in b'.conns[d].outbox && (r.SubscribeOp? || r.UnsubscribeOp?)
      ensures r.sub < |b'.heap.subs| && b'.heap.subs[r.sub].conn == d
    {
      assert r in b.conns[d].outbox;
    }
  }

  // ---------- the processor ----------

  predicate SameNames(qs: seq<Named>, qs': seq<Named>) {
    |qs'| == |qs| && forall i :: 0 <= i < |qs| ==> qs'[i].dest == qs[i].dest
  }

  lemma {:induction false} IndexAbsent(qs: seq<Named>, dest: string)
    requires QueueIndex(qs, dest) == |qs|
    ensures forall i :: 0 <= i < |qs| ==> qs[i].dest != dest
  {
    if qs != [] {
      IndexAbsent(qs[1..], dest);
      assert forall i :: 0 < i < |qs| ==> qs[i] == qs[1..][i - 1];
    }
  }

  lemma FindNames(b: Broker, dest: string, t: nat)
    requires DistinctNames(b.queues)
    ensures DistinctNames(FindQueue(b, dest).queues) && (IdleIn(FindQueue(b, dest).queues, t) ==> Idle(b, t))
  {
    if QueueIndex(b.queues, dest) == |b.queues| { IndexAbsent(b.queues, dest); }
  }

  lemma SubscribeIdle(b: Broker, i: nat, s: nat, t: nat)
    requires Local(b) && i < |b.queues| && s < |b.heap.subs|
    ensures var b' := DoSubscribe(b, i, s); SameNames(b.queues, b'.queues) && (Idle(b', t) ==> Idle(b, t) || t == s)
  {
    var q := b.queues[i].queue;
    assert t in q.idle + [s] ==> t in q.idle || t == s;
    if t in q.idle { assert IdleIn(b.queues, t); }
  }

  lemma EnqueueIdle(b: Broker, i: nat, f: nat, front: bool, t: nat)
    requires Local(b) && i < |b.queues| && f < |b.heap.frames|
    ensures var b' := DoEnqueue(b, i, f, front); SameNames(b.queues, b'.queues) && (Idle(b', t) ==> Idle(b, t))
  {
    var q := b.queues[i].queue;
    if q.idle != [] { assert t in q.idle[1..] ==> t in q.idle; }
    if t in q.idle { assert IdleIn(b.queues, t); }
  }

  lemma IdleOnce(b: Broker, i: nat, s: nat)
    requires Inv(b, multiset{}, multiset{}) && i < |b.queues|
    ensures multiset(b.queues[i].queue.idle)[s] <= 1
  {
    QueuesMember(b.queues, i, s);
    assert Tokens(b, s) + multiset{}[s] <= 1;
  }

  lemma RemovedOnce(l: seq<nat>, s: nat)
    requires multiset(l)[s] <= 1
    ensures s !in RemoveFirst(l, s) && forall t :: t in RemoveFirst(l, s) ==> t in l
  {
    RemoveFirstMembers(l, s);
    assert forall x :: x in RemoveFirst(l, s) <==> x in multiset(RemoveFirst(l, s));
  }

  /** A subscription waits only at its own destination. */
  lemma WaitsAtHome(b: Broker, i: nat, s: nat)
    requires Local(b) && DistinctNames(b.queues) && s < |b.heap.subs|
    requires i < |b.queues| ==> b.queues[i].dest == b.heap.subs[s].dest
    ensures forall j :: 0 <= j < |b.queues| && s in b.queues[j].queue.idle ==>
                          b.queues[j].dest == b.heap.subs[s].dest && IsQueue(b.queues[j].dest) && (i < |b.queues| ==> j == i)
  {
    forall j | 0 <= j < |b.queues| && s in b.queues[j].queue.idle
      ensures b.queues[j].dest == b.heap.subs[s].dest && IsQueue(b.queues[j].dest)
    {
      assert QueueOk(b.heap, b.queues[j]) && IdleOk(b.heap, b.queues[j].dest, s);
    }
  }

  lemma UnsubscribeIdle(b: Broker, i: nat, s: nat, t: nat)
    requires Local(b) && DistinctNames(b.queues) && i < |b.queues| && multiset(b.queues[i].queue.idle)[s] <= 1
    requires s < |b.heap.subs| && b.queues[i].dest == b.heap.subs[s].dest
    ensures var b' := DoUnsubscribe(b, i, s);
            SameNames(b.queues, b'.queues) && (Idle(b', t) ==> Idle(b, t)) && !Idle(b', s)
  {
    RemovedOnce(b.queues[i].queue.idle, s);
    WaitsAtHome(b, i, s);
    if t in b.queues[i].queue.idle { assert IdleIn(b.queues, t); }
  }

  lemma NamesStay(qs: seq<Named>, qs': seq<Named>)
    requires DistinctNames(qs) && SameNames(qs, qs')
    ensures DistinctNames(qs')
  {
  }

  lemma FindOnce(b: Broker, dest: string, s: nat)
    requires Local(b) && forall i :: 0 <= i < |b.queues| ==> multiset(b.queues[i].queue.idle)[s] <= 1
    ensures var b2 := FindQueue(b, dest); multiset(b2.queues[QueueIndex(b2.queues, dest)].queue.idle)[s] <= 1
  {
    FoundQueue(b, dest);
  }

  /** What handling a request does to the idle lists. */
  ghost predicate IdleStep(b: Broker, r: Request, b': Broker, t: nat) {
    && DistinctNames(b'.queues)
    && (Idle(b', t) ==> Idle(b, t) || r == SubscribeOp(t))
    && (r == UnsubscribeOp(t) ==> !Idle(b', t))
  }

  lemma AnnounceIdle(b: Broker, s: nat, t: nat)
    requires Local(b) && DistinctNames(b.queues) && s < |b.heap.subs| && IsQueue(b.heap.subs[s].dest)
    ensures var b2 := FindKeepsLocal(b, b.heap.subs[s].dest);
            IdleStep(b, SubscribeOp(s), DoSubscribe(b2, QueueIndex(b2.queues, b.heap.subs[s].dest), s), t)
  {
    var dest := b.heap.subs[s].dest;
    var b2 := FindKeepsLocal(b, dest);
    FindNames(b, dest, t);
    SubscribeIdle(b2, QueueIndex(b2.queues, dest), s, t);
    NamesStay(b2.queues, DoSubscribe(b2, QueueIndex(b2.queues, dest), s).queues);
  }

  lemma WithdrawIdle(b: Broker, s: nat, t: nat)
    requires Local(b) && DistinctNames(b.queues) && s < |b.heap.subs| && IsQueue(b.heap.subs[s].dest)
    requires forall i :: 0 <= i < |b.queues| ==> multiset(b.queues[i].queue.idle)[s] <= 1
    ensures var b2 := FindKeepsLocal(b, b.heap.subs[s].dest);
            IdleStep(b, UnsubscribeOp(s), DoUnsubscribe(b2, QueueIndex(b2.queues, b.heap.subs[s].dest), s), t)
  {
    var dest := b.heap.subs[s].dest;
    var b2 := FindKeepsLocal(b, dest);
    FindNames(b, dest, t);
    FindOnce(b, dest, s);
    UnsubscribeIdle(b2, QueueIndex(b2.queues, dest), s, t);
    NamesStay(b2.queues, DoUnsubscribe(b2, QueueIndex(b2.queues, dest), s).queues);
  }

  lemma CarryIdle(b: Broker, r: Request, f: nat, front: bool, t: nat)
    requires Local(b) && DistinctNames(b.queues) && f < |b.heap.frames| && (r.EnqueueOp? || r.RequeueOp?)
    ensures DestOf(b.heap, f).Some? && IsQueue(DestOf(b.heap, f).value) ==>
              var dest := DestOf(b.heap, f).value;
              var b2 := FindKeepsLocal(b, dest);
              IdleStep(b, r, DoEnqueue(b2, QueueIndex(b2.queues, dest), f, front), t)
  {
    var d := DestOf(b.heap, f);
    if d.Some? && IsQueue(d.value) {
      var b2 := FindKeepsLocal(b, d.value);
      FindNames(b, d.value, t);
      EnqueueIdle(b2, QueueIndex(b2.queues, d.value), f, front, t);
      NamesStay(b2.queues, DoEnqueue(b2, QueueIndex(b2.queues, d.value), f, front).queues);
    }
  }

  lemma HandleIdle(b: Broker, t: nat)
    requires Inv(b, multiset{}, multiset{}) && DistinctNames(b.queues) && b.requests != []
    ensures IdleStep(b, b.requests[0], Process(b), t)
  {
    var r, b1 := b.requests[0], TakeRequest(b);
    assert r in b.requests && RequestOk(b.heap, r);
    match r
    case SubscribeOp(s) => if IsQueue(b.heap.subs[s].dest) { AnnounceIdle(b1, s, t); }
    case UnsubscribeOp(s) =>
      if IsQueue(b.heap.subs[s].dest) {
        forall i | 0 <= i < |b.queues| ensures multiset(b.queues[i].queue.idle)[s] <= 1 { IdleOnce(b, i, s); }
        WithdrawIdle(b1, s, t);
      } else {
        WaitsAtHome(b, |b.queues|, s);
      }
    case EnqueueOp(f) => CarryIdle(b1, r, f, false, t);
    case RequeueOp(f) => CarryIdle(b1, r, f, true, t);
    case _ =>
  }

  /** Taking the head off what is pending about s. */
  lemma HandlePending(b: Broker, s: nat)
    requires Local(b) && b.requests != [] && s < |b.heap.subs| && b.heap.subs[s].conn < |b.conns|
    ensures var b', r := Process(b), b.requests[0];
            && s < |b'.heap.subs| && b'.heap.subs[s].conn == b.heap.subs[s].conn < |b'.conns|
            && Registered(b'.heap, b'.conns[b.heap.subs[s].conn], s) == Registered(b.heap, b.conns[b.heap.subs[s].conn], s)
            && Pending(b, s) == (if IsAbout(r, s) then [r] else []) + Pending(b', s)
  {
    ProcessMild(b);
    ProcessTakes(b);
    var r, rest := b.requests[0], About(b.requests[1..], s);
    var first, out := if IsAbout(r, s) then [r] else [], About(b.conns[b.heap.subs[s].conn].outbox, s);
    assert (first + rest) + out == first + (rest + out);
  }

  lemma ProcessTakes(b: Broker)
    requires Local(b) && b.requests != []
    ensures Process(b).requests == b.requests[1..]
  {
    assert RequestOk(b.heap, b.requests[0]);
  }

  lemma HandleLeashed(b: Broker, s: nat)
    requires Inv(b, multiset{}, multiset{}) && DistinctNames(b.queues) && b.requests != []
    requires s < |b.heap.subs| && b.heap.subs[s].conn < |b.conns| && Leashed(b, s)
    ensures s < |Process(b).heap.subs| && Process(b).heap.subs[s].conn < |Process(b).conns| && Leashed(Process(b), s)
  {
    HandlePending(b, s);
    HandleIdle(b, s);
    var r, ops, left := b.requests[0], Pending(b, s), Pending(Process(b), s);
    assert left != [] ==> Last(ops) == Last(left);
    assert forall x :: x in left ==> x in ops;
    if IsAbout(r, s) { assert ops[0] == r; }
  }

  lemma HandleSound(b: Broker)
    requires Sound(b) && Enabled(b, Handle)
    requires Inv(Process(b), multiset{}, multiset{}) && Process(b).panic.None? && TameState(Process(b))
    ensures Sound(Process(b))
  {
    var b' := Process(b);
    ProcessMild(b);
    HandleIdle(b, 0);
    SameUnique(b.heap, b'.heap);
    forall s | 0 <= s < |b'.heap.subs| ensures Leashed(b', s) {
      assert Leashed(b, s);
      HandleLeashed(b, s);
    }
    forall d, r | 0 <= d < |b'.conns| && r in b'.conns[d].outbox && (r.SubscribeOp? || r.UnsubscribeOp?)
      ensures r.sub < |b'.heap.subs| && b'.heap.subs[r.sub].conn == d
    {
      assert r in b.conns[d].outbox;
    }
  }

  // ---------- every step ----------

  lemma AcceptSound(b: Broker)
    requires Sound(b) && Enabled(b, Accept) && Inv(Next(b, Accept), multiset{}, multiset{}) && TameState(Next(b, Accept))
    ensures Sound(Next(b, Accept))
  {
    var b' := Next(b, Accept);
    forall s | 0 <= s < |b'.heap.subs| ensures Leashed(b', s) {
      assert Leashed(b, s) && b'.conns[b.heap.subs[s].conn] == b.conns[b.heap.subs[s].conn];
    }
  }

  lemma SendSound(b: Broker, c: nat, f: Frame)
    requires Sound(b) && Enabled(b, ClientSend(c, f))
    requires Inv(DoSend(b, c, f), multiset{}, multiset{}) && TameState(DoSend(b, c, f))
    ensures Sound(DoSend(b, c, f))
  {
    QuietSound(b, DoSend(b, c, f), c, [EnqueueOp(|b.heap.frames|)]);
  }

  lemma HandshakeSound(b: Broker, c: nat)
    requires Sound(b) && Enabled(b, Handshake(c)) && Inv(Next(b, Handshake(c)), multiset{}, multiset{})
    ensures Sound(Next(b, Handshake(c)))
  {
    QuietSound(b, Next(b, Handshake(c)), c, [ConnectedOp(c)]);
  }

  lemma ReleaseSound(b: Broker, c: nat, msgId: nat, nack: bool)
    requires Sound(b) && Enabled(b, ClientRelease(c, msgId, nack)) && DoRelease(b, c, msgId, nack).panic.None?
    requires Inv(DoRelease(b, c, msgId, nack), multiset{}, multiset{}) && TameState(DoRelease(b, c, msgId, nack))
    ensures Sound(DoRelease(b, c, msgId, nack))
  {
    NothingUnacked(b, c);
    assert Taken(b.heap, [], msgId, nack) == [] && Released(b.heap, [], nack) == [];
    QuietSound(b, DoRelease(b, c, msgId, nack), c, []);
  }

  lemma DrainSound(b: Broker, c: nat)
    requires Sound(b) && Enabled(b, Drain(c)) && Inv(DoDrain(b, c), multiset{}, multiset{})
    ensures Sound(DoDrain(b, c))
  {
    assert ConnOk(b.heap, c, b.conns[c]);
    QuietSound(b, DoDrain(b, c), c, DoDrain(b, c).conns[c].outbox);
  }

  /** The step uses no id that its connection has used before. */
  ghost predicate NewId(b: Broker, a: Action) {
    a.ClientSubscribe? ==>
      forall s :: 0 <= s < |b.heap.subs| && b.heap.subs[s].conn == a.c ==> b.heap.subs[s].id != a.id
  }

  lemma NextSound(b: Broker, a: Action)
    requires Sound(b) && Enabled(b, a) && Tame(a) && NewId(b, a)
    ensures Sound(Next(b, a))
  {
    TameNext(b, a);
    NextInv(b, a);
    match a
    case Accept => AcceptSound(b);
    case Handshake(c) => HandshakeSound(b, c);
    case ClientSend(c, f) => SendSound(b, c, f);
    case ClientSubscribe(c, id, dest, ack) => NewSubSound(b, c, id, dest);
    case ClientUnsubscribe(c, id) => EndSubSound(b, c, id);
    case ClientRelease(c, msgId, nack) => ReleaseSound(b, c, msgId, nack);
    case Receive(c, writeOk) => TakeChannel(b, c); ReceiveSound(b, c, writeOk);
    case Push(c, counts, writeOk) => QuietSound(b, DoPush(b, c, counts, writeOk), c, []);
    case Close(c, order) => CloseSound(b, c, order);
    case Drain(c) => DrainSound(b, c);
    case Flush(c) => FlushSound(b, c);
    case Handle => HandleSound(b);
  }

  // ---------- every run ----------

  /** None of the actions uses an id that is in use. */
  ghost predicate AllNew(h: Heap, actions: seq<Action>) {
    forall i, s :: 0 <= i < |actions| && actions[i].ClientSubscribe? && 0 <= s < |h.subs| ==>
                     h.subs[s].conn != actions[i].c || h.subs[s].id != actions[i].id
  }

  /** A step creates a subscription only when the client asks for it. */
  lemma NewSubscriptions(b: Broker, a: Action)
    requires Local(b) && Enabled(b, a)
    ensures var h, h' := b.heap, Next(b, a).heap;
            && |h.subs| <= |h'.subs|
            && (forall s :: 0 <= s < |h.subs| ==> h'.subs[s].conn == h.subs[s].conn && h'.subs[s].id == h.subs[s].id)
            && (forall s :: |h.subs| <= s < |h'.subs| ==>
                  a.ClientSubscribe? && h'.subs[s].conn == a.c && h'.subs[s].id == a.id)
  {
    match a
    case Handle => ProcessMild(b);
    case Receive(c, writeOk) =>
      assert ConnOk(b.heap, c, b.conns[c]) && b.conns[c].subChannel[0] in b.conns[c].subChannel;
      ReceiveOwners(b, c, writeOk);
    case _ =>
  }

  lemma ReceiveOwners(b: Broker, c: nat, writeOk: bool)
    requires Local(b) && c < |b.conns| && b.conns[c].subChannel != []
    requires ChannelOk(b.heap, c, b.conns[c].subChannel[0])
    ensures var h, h' := b.heap, DoReceive(b, c, writeOk).heap;
            && |h'.subs| == |h.subs|
            && (forall s :: 0 <= s < |h.subs| ==> h'.subs[s].conn == h.subs[s].conn && h'.subs[s].id == h.subs[s].id)
  {
  }

  lemma StillNew(b: Broker, actions: seq<Action>)
    requires actions != [] && Local(b) && Enabled(b, actions[0]) && NoReuse(actions) && AllNew(b.heap, actions)
    ensures NewId(b, actions[0]) && NoReuse(actions[1..]) && AllNew(Next(b, actions[0]).heap, actions[1..])
  {
    var rest, h' := actions[1..], Next(b, actions[0]).heap;
    NewSubscriptions(b, actions[0]);
    forall i, s | 0 <= i < |rest| && rest[i].ClientSubscribe? && 0 <= s < |h'.subs|
      ensures h'.subs[s].conn != rest[i].c || h'.subs[s].id != rest[i].id
    {
      assert rest[i] == actions[i + 1];
    }
  }

  lemma {:induction false} RunSound(b: Broker, actions: seq<Action>, b': Broker)
    requires Sound(b) && Leads(b, actions, b') && AllTame(actions) && NoReuse(actions) && AllNew(b.heap, actions)
    ensures Sound(b')
    decreases |actions|
  {
    if actions != [] {
      StillNew(b, actions);
      NextSound(b, actions[0]);
      RunSound(Next(b, actions[0]), actions[1..], b');
    }
  }

  /** In every run with automatic acknowledgement, addressed messages and no id used twice on a connection: as
      long as a subscription of a connection that is gone waits for a frame, or is about to, its UnsubscribeOp
      is still to be handled, after everything else about it. */
  lemma WithdrawalIsAhead(actions: seq<Action>, b: Broker, s: nat)
    requires Leads(INITIAL, actions, b) && AllTame(actions) && NoReuse(actions)
    requires s < |b.heap.subs| && b.heap.subs[s].conn < |b.conns| && b.conns[b.heap.subs[s].conn].phase.Closed?
    requires Idle(b, s) || SubscribeOp(s) in b.requests
    ensures UnsubscribeOp(s) in b.requests
    ensures About(b.requests, s) != [] && Last(About(b.requests, s)) == UnsubscribeOp(s)
  {
    RunSound(INITIAL, actions, b);
    RunOrderly(INITIAL, actions, b);
    var k := b.conns[b.heap.subs[s].conn];
    assert DisconnectedLast(b.heap.subs[s].conn, k) && Leashed(b, s);
    AboutMembers(b.requests, s);
    assert About([], s) == [] && Pending(b, s) == About(b.requests, s);
    assert Last(About(b.requests, s)) in About(b.requests, s);
  }

  /** In such runs a frame is stranded only while the UnsubscribeOp of the subscription that gets it is still
      waiting to be handled: never after it. */
  lemma StrandingWindow(actions: seq<Action>, b: Broker, a: Action)
    requires Leads(INITIAL, actions, b) && Local(b) && Enabled(b, a) && AllTame(actions) && NoReuse(actions)
    requires Strands(b, a)
    ensures HandsTo(b).Some? && UnsubscribeOp(HandsTo(b).value) in b.requests
  {
    StrandsExactly(actions, b, a);
    var s := HandsTo(b).value;
    OfferedIs(b);
    WithdrawalIsAhead(actions, b, s);
  }

  lemma OfferedIs(b: Broker)
    requires Local(b) && HandsTo(b).Some?
    ensures var s := HandsTo(b).value; Idle(b, s) || SubscribeOp(s) in b.requests
  {
    assert b.requests[0] in b.requests && RequestOk(b.heap, b.requests[0]);
  }
}
