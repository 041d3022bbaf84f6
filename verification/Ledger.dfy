/** Where every subscription and every frame of the broker is, counted. */
module Ledger {
  import opened Text
  import opened Queues
  import opened Broker

  // ---------- counting ----------

  /** How often subscription s is announced by the requests. */
  function ReqTokens(rs: seq<Request>, s: nat): nat { multiset(rs)[SubscribeOp(s)] }

  /** How often frame f is carried by the requests. */
  function ReqFrames(rs: seq<Request>, f: nat): nat {
    multiset(rs)[EnqueueOp(f)] + multiset(rs)[RequeueOp(f)]
  }

  function Points(subs: seq<Sub>, s: nat, f: nat): nat {
    if s < |subs| && subs[s].frame == Some(f) then 1 else 0
  }

  /** How many of the listed subscriptions hold frame f. */
  function Held(subs: seq<Sub>, l: seq<nat>, f: nat): nat {
    if l == [] then 0 else Points(subs, l[0], f) + Held(subs, l[1..], f)
  }

  function ConnTokens(k: Conn, s: nat): nat {
    ReqTokens(k.outbox, s) + multiset(k.subChannel)[s] + multiset(k.unacked)[s]
  }

  function ConnFrames(subs: seq<Sub>, k: Conn, f: nat): nat {
    ReqFrames(k.outbox, f) + Held(subs, k.subChannel, f) + Held(subs, k.unacked, f)
  }

  function AllConnTokens(ks: seq<Conn>, s: nat): nat {
    if ks == [] then 0 else ConnTokens(ks[0], s) + AllConnTokens(ks[1..], s)
  }

  function AllConnFrames(subs: seq<Sub>, ks: seq<Conn>, f: nat): nat {
    if ks == [] then 0 else ConnFrames(subs, ks[0], f) + AllConnFrames(subs, ks[1..], f)
  }

  function QueueTokens(qs: seq<Named>, s: nat): nat {
    if qs == [] then 0 else multiset(qs[0].queue.idle)[s] + QueueTokens(qs[1..], s)
  }

  function QueueFrames(qs: seq<Named>, f: nat): nat {
    if qs == [] then 0 else multiset(qs[0].queue.stored)[f] + QueueFrames(qs[1..], f)
  }

  /** How many places queue subscription s is in: pending SubscribeOps, on their way or still in an outbox,
      idle lists, subscription channels and un-acknowledged lists. */
  function Tokens(b: Broker, s: nat): nat {
    ReqTokens(b.requests, s) + AllConnTokens(b.conns, s) + QueueTokens(b.queues, s)
  }

  /** How many final places frame f is in: retired, in doubt, broadcast to a topic, or dropped. */
  function Ended(b: Broker, f: nat): nat {
    multiset(b.retired)[f] + multiset(b.inDoubt)[f] + multiset(b.broadcast)[f] + multiset(b.dropped)[f]
  }

  /** How many places frame f is in: EnqueueOps or RequeueOps in flight, subscriptions holding it in a
      channel or un-acknowledged list, stores, and final places. */
  function Places(b: Broker, f: nat): nat {
    ReqFrames(b.requests, f) + AllConnFrames(b.heap.subs, b.conns, f) + QueueFrames(b.queues, f) + Ended(b, f)
  }

  /** The invariant while a step holds the tokens ht and the frames hf in its hands: no subscription is in
      two places, and every frame ever sent is in exactly one. */
  ghost predicate Inv(b: Broker, ht: multiset<nat>, hf: multiset<nat>) {
    && Local(b)
    && (forall s: nat :: Tokens(b, s) + ht[s] <= 1)
    && (forall f: nat :: Places(b, f) + hf[f] == if f < |b.heap.frames| then 1 else 0)
  }

  // ---------- sums under updates ----------

  lemma {:induction false} HeldAppend(subs: seq<Sub>, l: seq<nat>, s: nat, f: nat)
    ensures Held(subs, l + [s], f) == Held(subs, l, f) + Points(subs, s, f)
  {
    if l == [] {
      assert (l + [s])[1..] == [];
    } else {
      assert (l + [s])[1..] == l[1..] + [s];
      HeldAppend(subs, l[1..], s, f);
    }
  }

  lemma {:induction false} HeldSame(subs: seq<Sub>, subs': seq<Sub>, l: seq<nat>, f: nat)
    requires forall s :: s in l ==> Points(subs, s, f) == Points(subs', s, f)
    ensures Held(subs, l, f) == Held(subs', l, f)
  {
    if l != [] {
      assert l[0] in l && forall s :: s in l[1..] ==> s in l;
      HeldSame(subs, subs', l[1..], f);
    }
  }

  lemma {:induction false} ConnTokensUpdate(ks: seq<Conn>, c: nat, k: Conn, s: nat)
    requires c < |ks|
    ensures AllConnTokens(ks[c := k], s) + ConnTokens(ks[c], s) == AllConnTokens(ks, s) + ConnTokens(k, s)
  {
    if c == 0 {
      assert ks[0 := k][1..] == ks[1..];
    } else {
      assert ks[c := k][1..] == ks[1..][c - 1 := k];
      ConnTokensUpdate(ks[1..], c - 1, k, s);
    }
  }

  lemma {:induction false} ConnFramesUpdate(subs: seq<Sub>, ks: seq<Conn>, c: nat, k: Conn, f: nat)
    requires c < |ks|
    ensures AllConnFrames(subs, ks[c := k], f) + ConnFrames(subs, ks[c], f) ==
            AllConnFrames(subs, ks, f) + ConnFrames(subs, k, f)
  {
    if c == 0 {
      assert ks[0 := k][1..] == ks[1..];
    } else {
      assert ks[c := k][1..] == ks[1..][c - 1 := k];
      ConnFramesUpdate(subs, ks[1..], c - 1, k, f);
    }
  }

  lemma {:induction false} ConnsAppend(subs: seq<Sub>, ks: seq<Conn>, k: Conn, x: nat)
    requires k.outbox == [] && k.subChannel == [] && k.unacked == []
    ensures AllConnTokens(ks + [k], x) == AllConnTokens(ks, x)
    ensures AllConnFrames(subs, ks + [k], x) == AllConnFrames(subs, ks, x)
  {
    if ks == [] {
      assert (ks + [k])[1..] == [];
    } else {
      assert (ks + [k])[1..] == ks[1..] + [k];
      ConnsAppend(subs, ks[1..], k, x);
    }
  }

  lemma {:induction false} QueuesUpdate(qs: seq<Named>, i: nat, n: Named, x: nat)
    requires i < |qs|
    ensures QueueTokens(qs[i := n], x) + multiset(qs[i].queue.idle)[x] ==
            QueueTokens(qs, x) + multiset(n.queue.idle)[x]
    ensures QueueFrames(qs[i := n], x) + multiset(qs[i].queue.stored)[x] ==
            QueueFrames(qs, x) + multiset(n.queue.stored)[x]
  {
    if i == 0 {
      assert qs[0 := n][1..] == qs[1..];
    } else {
      assert qs[i := n][1..] == qs[1..][i - 1 := n];
      QueuesUpdate(qs[1..], i - 1, n, x);
    }
  }

  lemma {:induction false} QueuesAppend(qs: seq<Named>, dest: string, x: nat)
    ensures QueueTokens(qs + [Named(dest, Queue([], []))], x) == QueueTokens(qs, x)
    ensures QueueFrames(qs + [Named(dest, Queue([], []))], x) == QueueFrames(qs, x)
  {
    var n := Named(dest, Queue([], []));
    if qs == [] {
      assert (qs + [n])[1..] == [];
    } else {
      assert (qs + [n])[1..] == qs[1..] + [n];
      QueuesAppend(qs[1..], dest, x);
    }
  }

  lemma {:induction false} ConnsMember(ks: seq<Conn>, c: nat, s: nat)
    requires c < |ks|
    ensures ConnTokens(ks[c], s) <= AllConnTokens(ks, s)
  {
    if c > 0 { ConnsMember(ks[1..], c - 1, s); }
  }

  lemma {:induction false} QueuesMember(qs: seq<Named>, i: nat, s: nat)
    requires i < |qs|
    ensures multiset(qs[i].queue.idle)[s] <= QueueTokens(qs, s)
  {
    if i > 0 { QueuesMember(qs[1..], i - 1, s); }
  }

  lemma {:induction false} ConnFramesSame(subs: seq<Sub>, subs': seq<Sub>, ks: seq<Conn>, f: nat)
    requires forall c, s :: 0 <= c < |ks| && (s in ks[c].subChannel || s in ks[c].unacked) ==>
                              Points(subs, s, f) == Points(subs', s, f)
    ensures AllConnFrames(subs, ks, f) == AllConnFrames(subs', ks, f)
  {
    if ks != [] {
      HeldSame(subs, subs', ks[0].subChannel, f);
      HeldSame(subs, subs', ks[0].unacked, f);
      assert forall c :: 0 <= c < |ks| - 1 ==> ks[1..][c] == ks[c + 1];
      ConnFramesSame(subs, subs', ks[1..], f);
    }
  }

  // ---------- a token in hand is nowhere else ----------

  /** None of the subscriptions in x is anywhere. */
  ghost predicate Absent(b: Broker, x: set<nat>) {
    && (forall s :: s in x ==> SubscribeOp(s) !in b.requests)
    && (forall c, s :: 0 <= c < |b.conns| && s in x ==>
          SubscribeOp(s) !in b.conns[c].outbox && s !in b.conns[c].subChannel && s !in b.conns[c].unacked)
    && (forall i, s :: 0 <= i < |b.queues| && s in x ==> s !in b.queues[i].queue.idle)
  }

  lemma AbsentFromCount(b: Broker, x: set<nat>)
    requires forall s :: s in x ==> Tokens(b, s) == 0
    ensures Absent(b, x)
  {
    forall s | s in x ensures SubscribeOp(s) !in b.requests {
      assert multiset(b.requests)[SubscribeOp(s)] == 0;
    }
    forall c, s | 0 <= c < |b.conns| && s in x
      ensures SubscribeOp(s) !in b.conns[c].outbox && s !in b.conns[c].subChannel && s !in b.conns[c].unacked
    {
      ConnsMember(b.conns, c, s);
      assert multiset(b.conns[c].outbox)[SubscribeOp(s)] == 0;
    }
    forall i, s | 0 <= i < |b.queues| && s in x ensures s !in b.queues[i].queue.idle {
      QueuesMember(b.queues, i, s);
    }
  }

  /** The heaps agree on everything except the subscriptions in x; frames keep their destination. */
  ghost predicate SameBut(h: Heap, h': Heap, x: set<nat>) {
    && |h.frames| <= |h'.frames| && |h.subs| <= |h'.subs|
    && (forall f :: 0 <= f < |h.frames| ==> DestOf(h, f) == DestOf(h', f))
    && (forall s :: 0 <= s < |h.subs| ==>
          && h'.subs[s].conn == h.subs[s].conn && h'.subs[s].id == h.subs[s].id
          && (s !in x ==> h'.subs[s] == h.subs[s]))
    && (forall s :: 0 <= s < |h.subs| && s !in x ==> (s in h'.released <==> s in h.released))
  }

  lemma RequestsStable(h: Heap, h': Heap, x: set<nat>, rs: seq<Request>)
    requires SameBut(h, h', x) && RequestsOk(h, rs)
    requires forall s :: s in x ==> SubscribeOp(s) !in rs
    ensures RequestsOk(h', rs)
  {
    forall r | r in rs ensures RequestOk(h', r) { assert RequestOk(h, r); }
  }

  lemma ConnStable(h: Heap, h': Heap, x: set<nat>, c: nat, k: Conn)
    requires SameBut(h, h', x) && ConnOk(h, c, k)
    requires forall s :: s in x ==> SubscribeOp(s) !in k.outbox && s !in k.subChannel && s !in k.unacked
    ensures ConnOk(h', c, k)
  {
    RequestsStable(h, h', x, k.outbox);
    forall s | s in k.subChannel ensures ChannelOk(h', c, s) { assert ChannelOk(h, c, s); }
    forall s | s in k.unacked ensures UnackedOk(h', c, s) { assert UnackedOk(h, c, s); }
  }

  lemma QueueStable(h: Heap, h': Heap, x: set<nat>, n: Named)
    requires SameBut(h, h', x) && QueueOk(h, n)
    requires forall s :: s in x ==> s !in n.queue.idle
    ensures QueueOk(h', n)
  {
    forall s | s in n.queue.idle ensures IdleOk(h', n.dest, s) { assert IdleOk(h, n.dest, s); }
    forall f | f in n.queue.stored ensures StoredOk(h', n.dest, f) { assert StoredOk(h, n.dest, f); }
  }

  /** Changing subscriptions that are nowhere leaves the state consistent and the books unchanged. */
  lemma HeapStep(b: Broker, h': Heap, x: set<nat>)
    requires Local(b) && Absent(b, x) && SameBut(b.heap, h', x)
    requires forall s :: |b.heap.subs| <= s < |h'.subs| ==> h'.subs[s].conn < |b.conns|
    requires forall s :: s in h'.released ==> s < |h'.subs|
    ensures Local(b.(heap := h'))
    ensures forall f: nat :: AllConnFrames(h'.subs, b.conns, f) == AllConnFrames(b.heap.subs, b.conns, f)
  {
    RequestsStable(b.heap, h', x, b.requests);
    forall c | 0 <= c < |b.conns| ensures ConnOk(h', c, b.conns[c]) {
      ConnStable(b.heap, h', x, c, b.conns[c]);
    }
    forall i | 0 <= i < |b.queues| ensures QueueOk(h', b.queues[i]) {
      QueueStable(b.heap, h', x, b.queues[i]);
    }
    forall f: nat ensures AllConnFrames(h'.subs, b.conns, f) == AllConnFrames(b.heap.subs, b.conns, f) {
      PointsStable(b, h', x, f);
      ConnFramesSame(b.heap.subs, h'.subs, b.conns, f);
    }
  }

  lemma PointsStable(b: Broker, h': Heap, x: set<nat>, f: nat)
    requires Local(b) && Absent(b, x) && SameBut(b.heap, h', x)
    ensures forall c, s :: 0 <= c < |b.conns| && (s in b.conns[c].subChannel || s in b.conns[c].unacked) ==>
                             Points(b.heap.subs, s, f) == Points(h'.subs, s, f)
  {
    forall c, s | 0 <= c < |b.conns| && (s in b.conns[c].subChannel || s in b.conns[c].unacked)
      ensures Points(b.heap.subs, s, f) == Points(h'.subs, s, f)
    {
      assert ConnOk(b.heap, c, b.conns[c]);
      assert Holds(b.heap, c, s);
    }
  }
}
