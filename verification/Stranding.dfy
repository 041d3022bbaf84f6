/** When a frame handed to a connection is lost: it reaches the channel of a connection that is gone. */
module Stranding {
  import opened Text
  import opened Frames
  import opened Acks
  import opened Broker
  import opened Steps
  import opened BrokerRuns
  import opened Teardown
  import opened Cleanup
  import opened Scenarios

  /** Connection c is gone and subscription s, with frame f, is still in its channel. */
  predicate Stranded(b: Broker, c: nat, s: nat, f: nat) {
    && c < |b.conns| && b.conns[c].phase.Closed? && b.conns[c].outbox == [] && s in b.conns[c].subChannel
    && s < |b.heap.subs| && b.heap.subs[s].conn == c && b.heap.subs[s].frame == Some(f)
  }

  lemma NextStrands(b: Broker, a: Action, c: nat, s: nat, f: nat)
    requires Local(b) && Enabled(b, a) && Stranded(b, c, s, f)
    ensures Stranded(Next(b, a), c, s, f)
  {
    if a.Handle? {
      ProcessAside(b, c);
      StillIn(b.conns[c].subChannel, Process(b).conns[c].subChannel, s);
    } else {
      OthersStepAside(b, a, c);
    }
  }

  lemma StillIn(l: seq<nat>, l': seq<nat>, s: nat)
    requires l <= l' && s in l
    ensures s in l'
  {
    var i :| 0 <= i < |l| && l[i] == s;
    assert l'[i] == s;
  }

  /** A frame that reaches the channel of a connection after its last drain stays there, in every
      continuation: it is neither delivered nor returned to its queue. */
  lemma {:induction false} LateFramesAreStranded(b: Broker, actions: seq<Action>, b': Broker, c: nat, s: nat, f: nat)
    requires Leads(b, actions, b') && Stranded(b, c, s, f)
    ensures Stranded(b', c, s, f)
    decreases |actions|
  {
    if actions != [] {
      NextStrands(b, actions[0], c, s, f);
      LateFramesAreStranded(Next(b, actions[0]), actions[1..], b', c, s, f);
    }
  }

  // ---------- exactly when ----------

  function IdleAt(b: Broker, dest: string): seq<nat> {
    var i := QueueIndex(b.queues, dest);
    if i < |b.queues| then b.queues[i].queue.idle else []
  }

  /** The subscription to which handling the next request hands a frame: the one announced if a frame is
      stored for it, or the one that has waited longest if a frame is sent or returned to its queue. */
  function HandsTo(b: Broker): Option<nat>
    requires Local(b)
  {
    if b.requests == [] then None
    else
      assert RequestOk(b.heap, b.requests[0]);
      match b.requests[0]
      case SubscribeOp(s) =>
        if IsQueue(b.heap.subs[s].dest) && StoredAt(b, b.heap.subs[s].dest) != [] then Some(s) else None
      case EnqueueOp(f) => FirstWaiting(b, f)
      case RequeueOp(f) => FirstWaiting(b, f)
      case _ => None
  }

  function FirstWaiting(b: Broker, f: nat): Option<nat>
    requires f < |b.heap.frames|
  {
    var d := DestOf(b.heap, f);
    if d.Some? && IsQueue(d.value) && IdleAt(b, d.value) != [] then Some(IdleAt(b, d.value)[0]) else None
  }

  /** The step gives s a frame and puts it on its connection's channel, or touches no channel. */
  ghost predicate Hands(b: Broker, to: Option<nat>, b': Broker) {
    && |b'.conns| == |b.conns| && |b'.heap.subs| == |b.heap.subs|
    && (to.None? ==> forall c :: 0 <= c < |b.conns| ==> b'.conns[c].subChannel == b.conns[c].subChannel)
    && (to.Some? ==>
          && to.value < |b.heap.subs| && b.heap.subs[to.value].conn < |b.conns|
          && b.heap.subs[to.value].frame.None? && b'.heap.subs[to.value].frame.Some?
          && b'.heap.subs[to.value].conn == b.heap.subs[to.value].conn
          && forall c :: 0 <= c < |b.conns| ==>
               b'.conns[c].subChannel ==
               b.conns[c].subChannel + if c == b.heap.subs[to.value].conn then [to.value] else [])
  }

  lemma SubscribeHands(b: Broker, i: nat, s: nat)
    requires Local(b) && i < |b.queues| && s < |b.heap.subs| && b.heap.subs[s].frame.None?
    ensures Hands(b, if b.queues[i].queue.stored == [] then None else Some(s), DoSubscribe(b, i, s))
  {
    var q := b.queues[i].queue;
    if q.stored != [] {
      assert QueueOk(b.heap, b.queues[i]) && q.stored[0] in q.stored;
      assert StoredOk(b.heap, b.queues[i].dest, q.stored[0]);
    }
  }

  lemma EnqueueHands(b: Broker, i: nat, f: nat, front: bool)
    requires Local(b) && i < |b.queues| && f < |b.heap.frames|
    ensures var idle := b.queues[i].queue.idle;
            Hands(b, if idle == [] then None else Some(idle[0]), DoEnqueue(b, i, f, front))
  {
    var q := b.queues[i].queue;
    assert QueueOk(b.heap, b.queues[i]);
    if q.idle != [] { assert IdleOk(b.heap, b.queues[i].dest, q.idle[0]); }
  }

  lemma FoundQueue(b: Broker, dest: string)
    requires Local(b)
    ensures var q := FindQueue(b, dest); var n := q.queues[QueueIndex(q.queues, dest)].queue;
            n.stored == StoredAt(b, dest) && n.idle == IdleAt(b, dest)
  {
    FindStored(b, dest);
    IndexAfterAppend(b.queues, dest);
  }

  lemma FrameHands(b: Broker, f: nat, front: bool)
    requires Local(b) && f < |b.heap.frames|
    ensures DestOf(b.heap, f).Some? && IsQueue(DestOf(b.heap, f).value) ==>
              var dest := DestOf(b.heap, f).value;
              var b2 := FindKeepsLocal(b, dest);
              Hands(b, FirstWaiting(b, f), DoEnqueue(b2, QueueIndex(b2.queues, dest), f, front))
  {
    var d := DestOf(b.heap, f);
    if d.Some? && IsQueue(d.value) {
      var b2 := FindKeepsLocal(b, d.value);
      FoundQueue(b, d.value);
      EnqueueHands(b2, QueueIndex(b2.queues, d.value), f, front);
    }
  }

  lemma AnnounceHands(b: Broker, s: nat)
    requires Local(b) && s < |b.heap.subs| && b.heap.subs[s].frame.None?
    ensures IsQueue(b.heap.subs[s].dest) ==>
              var dest := b.heap.subs[s].dest;
              var b2 := FindKeepsLocal(b, dest);
              Hands(b, if StoredAt(b, dest) == [] then None else Some(s), DoSubscribe(b2, QueueIndex(b2.queues, dest), s))
  {
    var dest := b.heap.subs[s].dest;
    if IsQueue(dest) {
      var b2 := FindKeepsLocal(b, dest);
      FoundQueue(b, dest);
      SubscribeHands(b2, QueueIndex(b2.queues, dest), s);
    }
  }

  lemma HandleHands(b: Broker)
    requires Local(b) && b.requests != []
    ensures Hands(b, HandsTo(b), Process(b))
  {
    var r := b.requests[0];
    assert r in b.requests && RequestOk(b.heap, r);
    match r
    case SubscribeOp(s) => AnnounceHands(TakeRequest(b), s);
    case EnqueueOp(f) => CarryHands(b);
    case RequeueOp(f) => CarryHands(b);
    case _ =>
  }

  lemma CarryHands(b: Broker)
    requires Local(b) && b.requests != [] && (b.requests[0].EnqueueOp? || b.requests[0].RequeueOp?)
    ensures Hands(b, HandsTo(b), Process(b))
  {
    var r := b.requests[0];
    assert r in b.requests && RequestOk(b.heap, r);
    FrameHands(TakeRequest(b), r.frame, r.RequeueOp?);
  }

  /** The step strands a frame that was not stranded before. */
  ghost predicate Strands(b: Broker, a: Action)
    requires Local(b) && Enabled(b, a)
  {
    exists c, s, f :: !Stranded(b, c, s, f) && Stranded(Next(b, a), c, s, f)
  }

  /** The next request hands a frame to a subscription of a connection that is gone. */
  ghost predicate HandsToGone(b: Broker)
    requires Local(b)
  {
    HandsTo(b).Some? && var s := HandsTo(b).value;
      s < |b.heap.subs| && b.heap.subs[s].conn < |b.conns| && b.conns[b.heap.subs[s].conn].phase.Closed?
  }

  /** Connections that are gone have nothing left to send. */
  ghost predicate GoneAreSilent(b: Broker) {
    forall c :: 0 <= c < |b.conns| && b.conns[c].phase.Closed? ==> b.conns[c].outbox == []
  }

  lemma OthersDoNotStrand(b: Broker, a: Action, c: nat, s: nat, f: nat)
    requires Local(b) && Enabled(b, a) && !a.Handle? && c < |b.conns| && ActorOf(a) != Some(c)
    requires Stranded(Next(b, a), c, s, f)
    ensures Stranded(b, c, s, f)
  {
    OthersStepAside(b, a, c);
    assert ConnOk(b.heap, c, b.conns[c]) && ChannelOk(b.heap, c, s);
  }

  lemma OwnStepDoesNotStrand(b: Broker, a: Action, c: nat, s: nat, f: nat)
    requires Local(b) && Enabled(b, a) && GoneAreSilent(b) && (c >= |b.conns| || ActorOf(a) == Some(c))
    ensures !a.Handle? ==> !Stranded(Next(b, a), c, s, f)
  {
  }

  lemma OnlyHandleStrands(b: Broker, a: Action, c: nat, s: nat, f: nat)
    requires Local(b) && Enabled(b, a) && !a.Handle? && GoneAreSilent(b) && Stranded(Next(b, a), c, s, f)
    ensures Stranded(b, c, s, f)
  {
    if c < |b.conns| && ActorOf(a) != Some(c) {
      OthersDoNotStrand(b, a, c, s, f);
    } else {
      OwnStepDoesNotStrand(b, a, c, s, f);
    }
  }

  lemma HandledStrands(b: Broker, c: nat, s: nat, f: nat)
    requires Local(b) && Enabled(b, Handle) && !Stranded(b, c, s, f) && Stranded(Process(b), c, s, f)
    ensures HandsToGone(b)
  {
    HandleHands(b);
    ProcessAside(b, c);
    assert ConnOk(b.heap, c, b.conns[c]);
    assert forall x :: x in b.conns[c].subChannel ==> ChannelOk(b.heap, c, x);
  }

  lemma GoneGetsStranded(b: Broker)
    requires Local(b) && Enabled(b, Handle) && GoneAreSilent(b) && HandsToGone(b)
    ensures Strands(b, Handle)
  {
    HandleHands(b);
    var s := HandsTo(b).value;
    var c, b' := b.heap.subs[s].conn, Process(b);
    ProcessAside(b, c);
    assert s in b'.conns[c].subChannel;
    assert !Stranded(b, c, s, b'.heap.subs[s].frame.value);
    assert Stranded(b', c, s, b'.heap.subs[s].frame.value);
  }

  /** In every reachable state a step strands a frame if and only if it handles a request that hands a frame
      to a subscription of a connection that is gone. */
  lemma StrandsExactly(actions: seq<Action>, b: Broker, a: Action)
    requires Leads(INITIAL, actions, b) && Local(b) && Enabled(b, a)
    ensures Strands(b, a) <==> a.Handle? && HandsToGone(b)
  {
    RunOrderly(INITIAL, actions, b);
    forall c | 0 <= c < |b.conns| && b.conns[c].phase.Closed? ensures b.conns[c].outbox == [] {
      assert DisconnectedLast(c, b.conns[c]);
    }
    if a.Handle? && HandsToGone(b) { GoneGetsStranded(b); }
    if c, s, f :| !Stranded(b, c, s, f) && Stranded(Next(b, a), c, s, f) {
      if a.Handle? { HandledStrands(b, c, s, f); } else { OnlyHandleStrands(b, a, c, s, f); }
    }
  }

  // ---------- and it does happen ----------

  predicate Quiet(b: Broker, phase: Phase, outbox: seq<Request>) {
    && |b.conns| == 1 && b.conns[0].phase == phase && b.conns[0].outbox == outbox
    && b.conns[0].unacked == [] && b.conns[0].subChannel == []
  }

  /** A frame for the only queue is on its way, and the only subscription waits for one. */
  predicate OnItsWay(b: Broker, id: string, dest: string, ack: AckMode) {
    && b.heap.subs == [Sub.Sub(0, dest, id, ack, 0, true, None)] && IsQueue(dest)
    && OnlyQueue(b, dest, [0]) && |b.heap.frames| == 1 && DestOf(b.heap, 0) == Some(dest)
    && b.requests != [] && b.requests[0] == EnqueueOp(0)
  }

  lemma FlushQuiet(actions: seq<Action>, b: Broker, phase: Phase, r: Request, id: string, dest: string, ack: AckMode)
    requires At(actions, b) && Quiet(b, phase, [r]) && OnItsWay(b, id, dest, ack)
    ensures At(actions + [Flush(0)], Next(b, Flush(0)))
    ensures Quiet(Next(b, Flush(0)), phase, []) && OnItsWay(Next(b, Flush(0)), id, dest, ack)
    ensures Modest(actions, ack) ==> Modest(actions + [Flush(0)], ack)
  {
    Go(actions, b, Flush(0));
    assert [r][1..] == [];
  }

  lemma CloseQuiet(b: Broker, id: string, dest: string, ack: AckMode)
    requires Local(b) && Only(b, [], [], []) && OnlySub(b, id, dest, ack, true, None) && OnItsWay(b, id, dest, ack)
    ensures Visits(b.conns[0], [id])
    ensures var b' := DoClose(b, 0, [id]); Quiet(b', Draining(false), [UnsubscribeOp(0)]) && OnItsWay(b', id, dest, ack)
  {
    var k := b.conns[0];
    assert Visits(k, [id]) && [id][1..] == [];
    assert Unsubscriptions(k, [id]) == [UnsubscribeOp(0)];
    assert Requeues(FramesHeld(b.heap, k.unacked)) == [];
    assert [UnsubscribeOp(0)] + [] == [UnsubscribeOp(0)];
    assert Unlist(b.heap.subs, []) == b.heap.subs;
  }

  lemma DrainQuiet(actions: seq<Action>, b: Broker, last: bool, id: string, dest: string, ack: AckMode)
    requires At(actions, b) && Quiet(b, Draining(last), []) && OnItsWay(b, id, dest, ack)
    ensures At(actions + [Drain(0)], Next(b, Drain(0))) && OnItsWay(Next(b, Drain(0)), id, dest, ack)
    ensures Modest(actions, ack) ==> Modest(actions + [Drain(0)], ack)
    ensures Quiet(Next(b, Drain(0)), if last then Closed else Draining(true), if last then [] else [DisconnectedOp(0)])
  {
    Go(actions, b, Drain(0));
  }

  lemma HandOverLate(b: Broker, id: string, dest: string, ack: AckMode)
    requires Local(b) && b.panic.None? && Quiet(b, Closed, []) && OnItsWay(b, id, dest, ack)
    ensures Stranded(Process(b), 0, 0, 0) && PanicOf(b, Handle).None?
  {
    var b1 := TakeRequest(b);
    assert QueueIndex(b1.queues, dest) == 0 && FindQueue(b1, dest) == b1;
    assert Process(b) == DoEnqueue(b1, 0, 0, false);
    assert [0][1..] == [] && [] + [0] == [0];
  }

  lemma CloseFirst(id: string, dest: string, ack: AckMode, f: Frame) returns (actions: seq<Action>, b: Broker)
    requires IsQueue(dest) && Lookup(f.header, DESTINATION) == Some(dest)
    ensures At(actions, b) && Modest(actions, ack) && Quiet(b, Draining(false), []) && OnItsWay(b, id, dest, ack)
  {
    var as0, b0 := SendOne(id, dest, ack, f);
    CloseQuiet(b0, id, dest, ack);
    var a := Close(0, [id]);
    Go(as0, b0, a);
    FlushQuiet(as0 + [a], Next(b0, a), Draining(false), UnsubscribeOp(0), id, dest, ack);
    actions, b := as0 + [a] + [Flush(0)], Next(Next(b0, a), Flush(0));
  }

  lemma CloseFully(id: string, dest: string, ack: AckMode, f: Frame) returns (actions: seq<Action>, b: Broker)
    requires IsQueue(dest) && Lookup(f.header, DESTINATION) == Some(dest)
    ensures At(actions, b) && Modest(actions, ack) && Quiet(b, Closed, []) && OnItsWay(b, id, dest, ack)
  {
    var as0, b0 := CloseFirst(id, dest, ack, f);
    DrainQuiet(as0, b0, false, id, dest, ack);
    var b1 := Next(b0, Drain(0));
    FlushQuiet(as0 + [Drain(0)], b1, Draining(true), DisconnectedOp(0), id, dest, ack);
    var b2 := Next(b1, Flush(0));
    actions := as0 + [Drain(0)] + [Flush(0)];
    DrainQuiet(actions, b2, true, id, dest, ack);
    actions, b := actions + [Drain(0)], Next(b2, Drain(0));
  }

  /** For every queue, subscription id, ack mode and message there is a run, without a panic and with one
      subscription only, that strands the message: its EnqueueOp is handled after the subscriber's connection
      has gone but before its UnsubscribeOp. */
  lemma StrandingHappens(id: string, dest: string, ack: AckMode, f: Frame) returns (actions: seq<Action>, b: Broker)
    requires IsQueue(dest) && Lookup(f.header, DESTINATION) == Some(dest)
    ensures Leads(INITIAL, actions, b) && b.panic.None? && Stranded(b, 0, 0, 0)
    ensures NoReuse(actions) && (ack.Auto? ==> AllTame(actions))
  {
    var as0, b0 := CloseFully(id, dest, ack, f);
    HandOverLate(b0, id, dest, ack);
    Go(as0, b0, Handle);
    actions, b := as0 + [Handle], Next(b0, Handle);
  }
}
