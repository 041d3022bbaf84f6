/** What holds in every state the broker can reach, over every interleaving of its processor and its
    connections. */
module BrokerRuns {
  import opened Text
  import opened Frames
  import opened Acks
  import opened Queues
  import opened Broker
  import opened Ledger
  import opened Steps
  import opened ConnSteps
  import opened Effects

  /** The panic a step ends in, if any. */
  ghost function PanicOf(b: Broker, a: Action): Option<Panic>
    requires Enabled(b, a)
  {
    match a
    case Handle =>
      if StaleAnnouncement(b) then Some(AlreadyListed)
      else if Undeliverable(b) then Some(MissingDestination) else None
    case Receive(c, writeOk) => if writeOk && StaleDelivery(b, c) then Some(AlreadyListed) else None
    case ClientRelease(c, _, nack) => if !nack && InvalidModeWaiting(b, c) then Some(InvalidAckMode) else None
    case _ => None
  }

  /** Every step either keeps the ledger or panics for exactly the reason PanicOf names. */
  lemma NextInv(b: Broker, a: Action)
    requires Inv(b, multiset{}, multiset{}) && Enabled(b, a)
    ensures Next(b, a).panic == PanicOf(b, a)
    ensures PanicOf(b, a).None? ==> Inv(Next(b, a), multiset{}, multiset{})
  {
    match a
    case Accept => AcceptInv(b);
    case Handshake(c) => PhaseEmit(b, c, Running, ConnectedOp(c));
    case ClientSend(c, f) => SendInv(b, c, f);
    case ClientSubscribe(c, id, dest, ack) => NewSubInv(b, c, id, dest, ack);
    case ClientUnsubscribe(c, id) => EndSubInv(b, c, id);
    case ClientRelease(c, msgId, nack) => ReleaseInv(b, c, msgId, nack);
    case Receive(c, writeOk) => ReceiveInv(b, c, writeOk);
    case Push(c, counts, writeOk) => PhaseInv(b, c, DoPush(b, c, counts, writeOk).conns[c], multiset{}, multiset{});
    case Close(c, order) => CloseInv(b, c, order);
    case Drain(c) => DrainInv(b, c);
    case Flush(c) => FlushInv(b, c);
    case Handle => ProcessInv(b);
  }

  // ---------- runs ----------

  /** The actions lead from b to b'. A state after a panic has no successor. */
  ghost predicate Leads(b: Broker, actions: seq<Action>, b': Broker)
    decreases |actions|
  {
    if actions == [] then b == b'
    else Local(b) && Enabled(b, actions[0]) && Leads(Next(b, actions[0]), actions[1..], b')
  }

  lemma {:induction false} LeadsOn(b: Broker, actions: seq<Action>, b': Broker, a: Action)
    requires Leads(b, actions, b') && Local(b') && Enabled(b', a)
    ensures Leads(b, actions + [a], Next(b', a))
    decreases |actions|
  {
    if actions == [] {
      assert (actions + [a])[1..] == [];
    } else {
      assert (actions + [a])[1..] == actions[1..] + [a];
      LeadsOn(Next(b, actions[0]), actions[1..], b', a);
    }
  }

  lemma {:induction false} LeadsConcat(b: Broker, first: seq<Action>, m: Broker, second: seq<Action>, b': Broker)
    requires Leads(b, first, m) && Leads(m, second, b')
    ensures Leads(b, first + second, b')
    decreases |first|
  {
    if first == [] {
      assert first + second == second;
    } else {
      assert (first + second)[1..] == first[1..] + second;
      LeadsConcat(Next(b, first[0]), first[1..], m, second, b');
    }
  }

  lemma {:induction false} RunInv(b: Broker, actions: seq<Action>, b': Broker)
    requires Leads(b, actions, b') && b.panic.None? && Inv(b, multiset{}, multiset{})
    ensures b'.panic.None? ==> Inv(b', multiset{}, multiset{})
    ensures b'.panic != Some(FramePending)
    decreases |actions|
  {
    if actions != [] {
      NextInv(b, actions[0]);
      var n := Next(b, actions[0]);
      if n.panic.None? {
        RunInv(n, actions[1..], b');
      } else if actions[1..] != [] {
        assert false;
      }
    }
  }

  /** Where a subscription can be, and what it then holds. */
  ghost predicate Placed(b: Broker, s: nat) {
    && (SubscribeOp(s) in b.requests ==> s < |b.heap.subs| && b.heap.subs[s].frame.None?)
    && (forall c :: 0 <= c < |b.conns| ==>
          && (SubscribeOp(s) in b.conns[c].outbox ==> s < |b.heap.subs| && b.heap.subs[s].frame.None?)
          && (s in b.conns[c].subChannel || s in b.conns[c].unacked ==>
                s < |b.heap.subs| && b.heap.subs[s].frame.Some? && b.heap.subs[s].conn == c))
    && (forall i :: 0 <= i < |b.queues| && s in b.queues[i].queue.idle ==>
          s < |b.heap.subs| && b.heap.subs[s].frame.None? && b.heap.subs[s].dest == b.queues[i].dest)
  }

  /** Single token: in every state reached without a panic a queue subscription is in at most one of a
      pending SubscribeOp, an idle list, a subscription channel and an un-acknowledged list; it has no
      frame in the first two and one in the last two. The "already has a frame pending" panic is never
      reached at all. */
  lemma SingleToken(actions: seq<Action>, b: Broker, s: nat)
    requires Leads(INITIAL, actions, b)
    ensures b.panic.None? ==> Tokens(b, s) <= 1 && Placed(b, s)
    ensures b.panic != Some(FramePending)
  {
    RunInv(INITIAL, actions, b);
    if b.panic.None? {
      assert Tokens(b, s) + multiset{}[s] <= 1;
      forall c | 0 <= c < |b.conns|
        ensures SubscribeOp(s) in b.conns[c].outbox ==> s < |b.heap.subs| && b.heap.subs[s].frame.None?
        ensures s in b.conns[c].subChannel || s in b.conns[c].unacked ==>
                  s < |b.heap.subs| && b.heap.subs[s].frame.Some? && b.heap.subs[s].conn == c
      {
        assert ConnOk(b.heap, c, b.conns[c]);
      }
      forall i | 0 <= i < |b.queues| && s in b.queues[i].queue.idle
        ensures s < |b.heap.subs| && b.heap.subs[s].frame.None? && b.heap.subs[s].dest == b.queues[i].dest
      {
        assert QueueOk(b.heap, b.queues[i]);
      }
    }
  }

  /** Frame conservation: in every state reached without a panic each frame ever sent is in exactly one
      place, and no other frame is anywhere. */
  lemma FrameConservation(actions: seq<Action>, b: Broker, f: nat)
    requires Leads(INITIAL, actions, b) && b.panic.None?
    ensures Places(b, f) == if f < |b.heap.frames| then 1 else 0
  {
    RunInv(INITIAL, actions, b);
    assert Places(b, f) + multiset{}[f] == if f < |b.heap.frames| then 1 else 0;
  }

  /** At no destination do subscriptions and frames wait at the same time, and every stored frame is
      addressed to the queue that stores it. */
  lemma QueuesStayApart(actions: seq<Action>, b: Broker, i: nat)
    requires Leads(INITIAL, actions, b) && b.panic.None? && i < |b.queues|
    ensures Apart(b.queues[i].queue)
    ensures forall f :: f in b.queues[i].queue.stored ==> StoredOk(b.heap, b.queues[i].dest, f)
  {
    RunInv(INITIAL, actions, b);
    assert QueueOk(b.heap, b.queues[i]);
  }

  // ---------- panics ----------

  /** In every reachable state the next step panics exactly when PanicOf says so: an ack-mode subscription
      is put on a list again after having been released by ACK or NACK, a frame without destination is
      enqueued, or an ACK meets a subscription with an unknown ack mode. */
  lemma PanicsExactly(actions: seq<Action>, b: Broker, a: Action)
    requires Leads(INITIAL, actions, b) && b.panic.None? && Local(b) && Enabled(b, a)
    ensures Next(b, a).panic == PanicOf(b, a)
  {
    RunInv(INITIAL, actions, b);
    NextInv(b, a);
  }

  /** Only auto-acknowledging subscriptions, and only messages with a destination. */
  predicate Tame(a: Action) {
    && (a.ClientSubscribe? ==> a.ack.Auto?)
    && (a.ClientSend? ==> Lookup(a.frame.header, DESTINATION).Some?)
  }

  ghost predicate AllTame(actions: seq<Action>) { forall i :: 0 <= i < |actions| ==> Tame(actions[i]) }

  /** No two SUBSCRIBE frames of a connection use the same id. */
  ghost predicate NoReuse(actions: seq<Action>) {
    forall i, j :: 0 <= i < j < |actions| && actions[i].ClientSubscribe? && actions[j].ClientSubscribe? ==>
                     actions[i].c != actions[j].c || actions[i].id != actions[j].id
  }

  /** The only SUBSCRIBE frames ask for this mode, with different ids, and all messages are addressed. */
  ghost predicate Modest(actions: seq<Action>, ack: AckMode) {
    && NoReuse(actions)
    && forall i :: 0 <= i < |actions| ==>
         && (actions[i].ClientSubscribe? ==> actions[i].ack == ack)
         && (actions[i].ClientSend? ==> Lookup(actions[i].frame.header, DESTINATION).Some?)
  }

  lemma ModestOn(actions: seq<Action>, a: Action, ack: AckMode)
    requires Modest(actions, ack)
    requires a.ClientSubscribe? ==> a.ack == ack && forall i :: 0 <= i < |actions| ==> !actions[i].ClientSubscribe?
    requires a.ClientSend? ==> Lookup(a.frame.header, DESTINATION).Some?
    ensures Modest(actions + [a], ack)
  {
  }

  ghost predicate TameState(b: Broker) {
    && b.heap.released == {}
    && (forall s :: 0 <= s < |b.heap.subs| ==> b.heap.subs[s].ack.Auto?)
    && (forall f :: 0 <= f < |b.heap.frames| ==> Lookup(b.heap.frames[f].header, DESTINATION).Some?)
  }

  /** With all subscriptions automatic, no un-acknowledged list has an entry. */
  lemma NothingUnacked(b: Broker, c: nat)
    requires Local(b) && TameState(b) && c < |b.conns|
    ensures b.conns[c].unacked == []
  {
    assert ConnOk(b.heap, c, b.conns[c]);
    var l := b.conns[c].unacked;
    assert forall s :: s in l ==> UnackedOk(b.heap, c, s);
    if l != [] { var s := Member(l); }
  }

  lemma Member(l: seq<nat>) returns (s: nat)
    requires l != []
    ensures s in l
  {
    s := l[0];
  }

  /** Delivering changes at most the frame that is delivered, and only by giving it a message id. */
  lemma ReceiveFrames(b: Broker, c: nat, writeOk: bool)
    requires Local(b) && c < |b.conns| && b.conns[c].subChannel != []
    requires ChannelOk(b.heap, c, b.conns[c].subChannel[0])
    ensures var s, n, h' := b.conns[c].subChannel[0], NextId(b.conns[c].lastMsgId), DoReceive(b, c, writeOk).heap;
            && (h'.frames == b.heap.frames || h'.frames == StampHeld(b.heap, s, n).frames)
            && h'.released == b.heap.released && |h'.subs| == |b.heap.subs|
            && (forall x :: 0 <= x < |h'.subs| ==> h'.subs[x].ack == b.heap.subs[x].ack)
  {
  }

  lemma StampMild(h: Heap, s: nat, n: nat)
    requires s < |h.subs| && h.subs[s].frame.Some? && h.subs[s].frame.value < |h.frames|
    ensures MildFrames(h, StampHeld(h, s, n))
  {
    var f := h.subs[s].frame.value;
    StampSameMessage(h.frames[f], n, h.subs[s].ack);
  }

  lemma MildKeepsDest(h: Heap, h': Heap)
    requires MildFrames(h, h')
    ensures forall f :: 0 <= f < |h.frames| ==>
              Lookup(h'.frames[f].header, DESTINATION) == Lookup(h.frames[f].header, DESTINATION)
  {
    forall f | 0 <= f < |h.frames|
      ensures Lookup(h'.frames[f].header, DESTINATION) == Lookup(h.frames[f].header, DESTINATION)
    {
      assert SameMessage(h'.frames[f], h.frames[f]);
      LookupInPayload(h.frames[f].header, DESTINATION);
      LookupInPayload(h'.frames[f].header, DESTINATION);
    }
  }

  lemma TameProcess(b: Broker)
    requires Local(b) && b.requests != [] && TameState(b)
    ensures TameState(Process(b))
  {
    ProcessMild(b);
    MildKeepsDest(b.heap, Process(b).heap);
  }

  lemma TameReceive(b: Broker, c: nat, writeOk: bool)
    requires Local(b) && TameState(b) && c < |b.conns| && b.conns[c].subChannel != []
    requires ChannelOk(b.heap, c, b.conns[c].subChannel[0])
    ensures TameState(DoReceive(b, c, writeOk)) && !StaleDelivery(b, c)
  {
    var s, n := b.conns[c].subChannel[0], NextId(b.conns[c].lastMsgId);
    ReceiveFrames(b, c, writeOk);
    StampMild(b.heap, s, n);
    MildKeepsDest(b.heap, StampHeld(b.heap, s, n));
  }

  lemma TameSend(b: Broker, c: nat, f: Frame)
    requires TameState(b) && c < |b.conns| && Lookup(f.header, DESTINATION).Some?
    ensures TameState(DoSend(b, c, f))
  {
    var h' := DoSend(b, c, f).heap;
    assert forall i :: 0 <= i < |b.heap.frames| ==> h'.frames[i] == b.heap.frames[i];
  }

  lemma TameNext(b: Broker, a: Action)
    requires Inv(b, multiset{}, multiset{}) && Enabled(b, a) && TameState(b) && Tame(a)
    ensures TameState(Next(b, a)) && PanicOf(b, a).None?
  {
    match a
    case Handle => TameProcess(b);
    case ClientRelease(c, _, _) => NothingUnacked(b, c);
    case Receive(c, writeOk) => TakeChannel(b, c); TameReceive(b, c, writeOk);
    case ClientSend(c, f) => TameSend(b, c, f);
    case _ =>
  }

  /** With automatic acknowledgement and addressed messages no run panics. */
  lemma AutoNeverPanics(actions: seq<Action>, b: Broker)
    requires Leads(INITIAL, actions, b) && AllTame(actions)
    ensures b.panic.None?
  {
    TameRun(INITIAL, actions, b);
  }

  lemma {:induction false} TameRun(b: Broker, actions: seq<Action>, b': Broker)
    requires Leads(b, actions, b') && Inv(b, multiset{}, multiset{}) && b.panic.None? && TameState(b)
    requires AllTame(actions)
    ensures b'.panic.None?
    decreases |actions|
  {
    if actions != [] {
      TameNext(b, actions[0]);
      NextInv(b, actions[0]);
      TameRun(Next(b, actions[0]), actions[1..], b');
    }
  }

  // ---------- messages arrive as they were sent ----------

  ghost predicate Faithful(b: Broker) {
    && b.dropped == [] && |b.sent| == |b.heap.frames|
    && forall f :: 0 <= f < |b.sent| ==> SameMessage(b.heap.frames[f], b.sent[f])
  }

  lemma FaithfulMild(b: Broker, b': Broker)
    requires Faithful(b) && MildFrames(b.heap, b'.heap) && b'.sent == b.sent && b'.dropped == b.dropped
    ensures Faithful(b')
  {
    forall f | 0 <= f < |b.sent| ensures SameMessage(b'.heap.frames[f], b.sent[f]) {
      assert SameMessage(b'.heap.frames[f], b.heap.frames[f]) && SameMessage(b.heap.frames[f], b.sent[f]);
    }
  }

  lemma FaithfulReceive(b: Broker, c: nat, writeOk: bool)
    requires Local(b) && Faithful(b) && c < |b.conns| && b.conns[c].subChannel != []
    requires ChannelOk(b.heap, c, b.conns[c].subChannel[0])
    ensures Faithful(DoReceive(b, c, writeOk))
  {
    ReceiveFrames(b, c, writeOk);
    StampMild(b.heap, b.conns[c].subChannel[0], NextId(b.conns[c].lastMsgId));
    FaithfulMild(b, DoReceive(b, c, writeOk));
  }

  lemma FaithfulNext(b: Broker, a: Action)
    requires Inv(b, multiset{}, multiset{}) && Enabled(b, a) && Faithful(b)
    ensures Faithful(Next(b, a))
  {
    match a
    case Handle => ProcessMild(b); FaithfulMild(b, Process(b));
    case Receive(c, writeOk) => TakeChannel(b, c); FaithfulReceive(b, c, writeOk);
    case _ =>
  }

  lemma {:induction false} RunFaithful(b: Broker, actions: seq<Action>, b': Broker)
    requires Leads(b, actions, b') && b.panic.None? && Inv(b, multiset{}, multiset{}) && Faithful(b)
    ensures Faithful(b')
    decreases |actions|
  {
    if actions != [] {
      NextInv(b, actions[0]);
      FaithfulNext(b, actions[0]);
      if actions[1..] != [] { RunFaithful(Next(b, actions[0]), actions[1..], b'); }
    }
  }

  /** However often a frame is delivered, rejected and requeued, its command, its body and every header
      entry except subscription, message-id, id and ack stay as the client sent them; its destination in
      particular, so it always returns to the same queue, and no requeue is ever discarded. */
  lemma MessagesStayIntact(actions: seq<Action>, b: Broker, f: nat, key: string)
    requires Leads(INITIAL, actions, b) && f < |b.heap.frames|
    ensures b.dropped == [] && f < |b.sent| && SameMessage(b.heap.frames[f], b.sent[f])
    ensures key !in {SUBSCRIPTION, MESSAGE_ID, ID, ACK} ==>
              Lookup(b.heap.frames[f].header, key) == Lookup(b.sent[f].header, key)
  {
    RunFaithful(INITIAL, actions, b);
    if key !in {SUBSCRIPTION, MESSAGE_ID, ID, ACK} {
      LookupInPayload(b.heap.frames[f].header, key);
      LookupInPayload(b.sent[f].header, key);
    }
  }

  // ---------- topic subscriptions never hold a frame ----------

  ghost predicate QueueFramesOnly(h: Heap) {
    forall s :: 0 <= s < |h.subs| && h.subs[s].frame.Some? ==> IsQueue(h.subs[s].dest)
  }

  lemma SubscribeHolds(b: Broker, i: nat, s: nat)
    requires Local(b) && i < |b.queues| && s < |b.heap.subs| && IsQueue(b.heap.subs[s].dest)
    requires QueueFramesOnly(b.heap)
    ensures QueueFramesOnly(DoSubscribe(b, i, s).heap)
  {
  }

  lemma EnqueueHolds(b: Broker, i: nat, f: nat, front: bool)
    requires Local(b) && i < |b.queues| && f < |b.heap.frames| && QueueFramesOnly(b.heap)
    ensures QueueFramesOnly(DoEnqueue(b, i, f, front).heap)
  {
    var q := b.queues[i].queue;
    assert QueueOk(b.heap, b.queues[i]);
    if q.idle != [] { assert IdleOk(b.heap, b.queues[i].dest, q.idle[0]); }
  }

  lemma ProcessHolds(b: Broker)
    requires Local(b) && b.requests != [] && QueueFramesOnly(b.heap)
    ensures QueueFramesOnly(Process(b).heap)
  {
    var r, b1 := b.requests[0], TakeRequest(b);
    assert r in b.requests && RequestOk(b.heap, r);
    match r
    case SubscribeOp(s) =>
      var dest := b.heap.subs[s].dest;
      if IsQueue(dest) {
        var b2 := FindKeepsLocal(b1, dest);
        SubscribeHolds(b2, QueueIndex(b2.queues, dest), s);
      }
    case EnqueueOp(f) => FrameHolds(b1, f, false);
    case RequeueOp(f) => FrameHolds(b1, f, true);
    case _ =>
  }

  lemma FrameHolds(b: Broker, f: nat, front: bool)
    requires Local(b) && f < |b.heap.frames| && QueueFramesOnly(b.heap)
    ensures DestOf(b.heap, f).Some? && IsQueue(DestOf(b.heap, f).value) ==>
              var dest := DestOf(b.heap, f).value;
              var b2 := FindKeepsLocal(b, dest);
              QueueFramesOnly(DoEnqueue(b2, QueueIndex(b2.queues, dest), f, front).heap)
  {
    var d := DestOf(b.heap, f);
    if d.Some? && IsQueue(d.value) {
      var b2 := FindKeepsLocal(b, d.value);
      EnqueueHolds(b2, QueueIndex(b2.queues, d.value), f, front);
    }
  }

  lemma ReceiveHolds(b: Broker, c: nat, writeOk: bool)
    requires Local(b) && c < |b.conns| && b.conns[c].subChannel != [] && QueueFramesOnly(b.heap)
    requires ChannelOk(b.heap, c, b.conns[c].subChannel[0])
    ensures QueueFramesOnly(DoReceive(b, c, writeOk).heap)
  {
    var h' := DoReceive(b, c, writeOk).heap;
    assert forall s :: 0 <= s < |h'.subs| ==> h'.subs[s].dest == b.heap.subs[s].dest;
  }

  lemma NewSubHolds(b: Broker, c: nat, id: string, dest: string, ack: AckMode)
    requires c < |b.conns| && QueueFramesOnly(b.heap)
    ensures QueueFramesOnly(DoNewSub(b, c, id, dest, ack).heap)
  {
    var h' := DoNewSub(b, c, id, dest, ack).heap;
    assert forall s :: 0 <= s < |b.heap.subs| ==> h'.subs[s] == b.heap.subs[s];
  }

  lemma ReleaseHolds(b: Broker, c: nat, msgId: nat, nack: bool)
    requires Local(b) && c < |b.conns| && QueueFramesOnly(b.heap)
    ensures QueueFramesOnly(DoRelease(b, c, msgId, nack).heap)
  {
    var h' := DoRelease(b, c, msgId, nack).heap;
    assert forall s :: 0 <= s < |b.heap.subs| ==>
      h'.subs[s].dest == b.heap.subs[s].dest && (h'.subs[s].frame.Some? ==> b.heap.subs[s].frame.Some?);
  }

  lemma CloseHolds(b: Broker, c: nat, order: seq<string>)
    requires Local(b) && c < |b.conns| && Visits(b.conns[c], order) && QueueFramesOnly(b.heap)
    ensures QueueFramesOnly(DoClose(b, c, order).heap)
  {
    var h' := DoClose(b, c, order).heap;
    assert forall s :: 0 <= s < |b.heap.subs| ==> h'.subs[s].(listed := false) == b.heap.subs[s].(listed := false);
  }

  lemma NextHolds(b: Broker, a: Action)
    requires Local(b) && Enabled(b, a) && QueueFramesOnly(b.heap)
    ensures QueueFramesOnly(Next(b, a).heap)
  {
    match a
    case Handle => ProcessHolds(b);
    case Receive(c, writeOk) =>
      assert ConnOk(b.heap, c, b.conns[c]) && b.conns[c].subChannel[0] in b.conns[c].subChannel;
      ReceiveHolds(b, c, writeOk);
    case ClientSubscribe(c, id, dest, ack) => NewSubHolds(b, c, id, dest, ack);
    case ClientRelease(c, msgId, nack) => ReleaseHolds(b, c, msgId, nack);
    case Close(c, order) => CloseHolds(b, c, order);
    case _ =>
  }

  lemma {:induction false} RunHolds(b: Broker, actions: seq<Action>, b': Broker)
    requires Leads(b, actions, b') && QueueFramesOnly(b.heap)
    ensures QueueFramesOnly(b'.heap)
    decreases |actions|
  {
    if actions != [] {
      NextHolds(b, actions[0]);
      RunHolds(Next(b, actions[0]), actions[1..], b');
    }
  }

  /** A subscription to a topic never holds a frame, so sending it a broadcast never panics. */
  lemma TopicSubscriptionsAreFree(actions: seq<Action>, b: Broker, s: nat)
    requires Leads(INITIAL, actions, b) && s < |b.heap.subs| && !IsQueue(b.heap.subs[s].dest)
    ensures b.heap.subs[s].frame.None?
  {
    RunHolds(INITIAL, actions, b);
  }

  // ---------- frames in doubt ----------

  lemma ProcessKeepsDoubt(b: Broker)
    requires Local(b) && b.requests != []
    ensures Process(b).inDoubt == b.inDoubt
  {
    assert RequestOk(b.heap, b.requests[0]);
  }

  /** A step puts a frame in doubt exactly if it is a delivery to a registered subscription whose write fails,
      and then it is the frame that was being written. */
  lemma InDoubtExactly(b: Broker, a: Action)
    requires Local(b) && Enabled(b, a)
    ensures a.Receive? ==> ChannelOk(b.heap, a.c, b.conns[a.c].subChannel[0])
    ensures var failed := a.Receive? && !a.writeOk && b.heap.subs[b.conns[a.c].subChannel[0]].id in b.conns[a.c].subs;
            Next(b, a).inDoubt ==
            b.inDoubt + if failed then [b.heap.subs[b.conns[a.c].subChannel[0]].frame.value] else []
  {
    match a
    case Handle => ProcessKeepsDoubt(b);
    case Receive(c, writeOk) =>
      assert ConnOk(b.heap, c, b.conns[c]) && b.conns[c].subChannel[0] in b.conns[c].subChannel;
    case _ =>
  }
}
