/** What a message says when it is on its way to a client: the id of the subscription it goes to, and on
    delivery its message id. */
module Tags {
  import opened Text
  import opened Frames
  import opened Acks
  import opened Queues
  import opened Broker
  import opened Ledger
  import opened Steps
  import opened Effects
  import opened BrokerRuns
  import opened ConnSteps
  import opened Cleanup
  import opened Stranding

  /** The subscription holds a frame that carries its id. */
  predicate SaysItsId(h: Heap, s: nat) {
    && s < |h.subs| && h.subs[s].frame.Some? && h.subs[s].frame.value < |h.frames|
    && Lookup(h.frames[h.subs[s].frame.value].header, "subscription") == Some(h.subs[s].id)
  }

  ghost predicate AllSay(h: Heap, l: seq<nat>) { forall s :: s in l ==> SaysItsId(h, s) }

  ghost predicate Tagged(b: Broker) {
    forall c :: 0 <= c < |b.conns| ==> AllSay(b.heap, b.conns[c].subChannel) && AllSay(b.heap, b.conns[c].unacked)
  }

  ghost predicate HeldByNobody(b: Broker, f: nat) {
    forall c, s :: 0 <= c < |b.conns| && (s in b.conns[c].subChannel || s in b.conns[c].unacked) && s < |b.heap.subs| ==>
                     b.heap.subs[s].frame != Some(f)
  }

  // ---------- frames that are elsewhere ----------

  lemma {:induction false} HoldersCount(subs: seq<Sub>, l: seq<nat>, s: nat, f: nat)
    requires s in l && s < |subs| && subs[s].frame == Some(f)
    ensures Held(subs, l, f) >= 1
  {
    if l[0] != s { HoldersCount(subs, l[1..], s, f); }
  }

  lemma {:induction false} StoredCount(qs: seq<Named>, i: nat, f: nat)
    requires i < |qs|
    ensures multiset(qs[i].queue.stored)[f] <= QueueFrames(qs, f)
  {
    if i > 0 { StoredCount(qs[1..], i - 1, f); }
  }

  lemma NotWithConnections(b: Broker, f: nat)
    requires Inv(b, multiset{}, multiset{}) && ReqFrames(b.requests, f) + QueueFrames(b.queues, f) >= 1
    ensures HeldByNobody(b, f)
  {
    assert Places(b, f) + multiset{}[f] <= 1;
    forall c, s | 0 <= c < |b.conns| && (s in b.conns[c].subChannel || s in b.conns[c].unacked) && s < |b.heap.subs|
      ensures b.heap.subs[s].frame != Some(f)
    {
      ConnFramesMember(b.heap.subs, b.conns, c, f);
      if b.heap.subs[s].frame == Some(f) {
        if s in b.conns[c].subChannel { HoldersCount(b.heap.subs, b.conns[c].subChannel, s, f); }
        if s in b.conns[c].unacked { HoldersCount(b.heap.subs, b.conns[c].unacked, s, f); }
      }
    }
  }

  // ---------- the processor ----------

  /** Handing a frame over writes the subscription's id into it. */
  lemma SendTags(b: Broker, s: nat, f: nat)
    requires s < |b.heap.subs| && f < |b.heap.frames| && b.heap.subs[s].conn < |b.conns|
    requires b.heap.subs[s].frame.None? && Tagged(b) && HeldByNobody(b, f)
    ensures Tagged(SendQueueFrame(b, s, f)) && SaysItsId(SendQueueFrame(b, s, f).heap, s)
  {
    var b' := SendQueueFrame(b, s, f);
    LookupAfterSet(b.heap.frames[f].header, SUBSCRIPTION, b.heap.subs[s].id, "subscription");
    forall c | 0 <= c < |b.conns|
      ensures AllSay(b'.heap, b'.conns[c].subChannel) && AllSay(b'.heap, b'.conns[c].unacked)
    {
      forall x | x in b'.conns[c].subChannel || x in b'.conns[c].unacked ensures SaysItsId(b'.heap, x) {
        if x != s { assert x in b.conns[c].subChannel || x in b.conns[c].unacked; assert SaysItsId(b.heap, x); }
      }
    }
  }

  /** Changing queues and listed pointers does not matter. */
  lemma SameTags(b: Broker, b': Broker)
    requires Tagged(b) && b'.conns == b.conns && b'.heap.frames == b.heap.frames && |b'.heap.subs| == |b.heap.subs|
    requires forall s :: 0 <= s < |b.heap.subs| ==>
               b'.heap.subs[s].frame == b.heap.subs[s].frame && b'.heap.subs[s].id == b.heap.subs[s].id
    ensures Tagged(b')
    ensures forall f :: HeldByNobody(b, f) ==> HeldByNobody(b', f)
  {
    forall c | 0 <= c < |b.conns|
      ensures AllSay(b'.heap, b'.conns[c].subChannel) && AllSay(b'.heap, b'.conns[c].unacked)
    {
      forall x | x in b.conns[c].subChannel || x in b.conns[c].unacked ensures SaysItsId(b'.heap, x) { assert SaysItsId(b.heap, x); }
    }
  }

  lemma SubscribeTags(b: Broker, i: nat, s: nat)
    requires Local(b) && i < |b.queues| && s < |b.heap.subs| && b.heap.subs[s].frame.None? && Tagged(b)
    requires b.queues[i].queue.stored != [] ==> HeldByNobody(b, b.queues[i].queue.stored[0])
    ensures Tagged(DoSubscribe(b, i, s))
    ensures b.queues[i].queue.stored != [] ==> SaysItsId(DoSubscribe(b, i, s).heap, s)
  {
    var q := b.queues[i].queue;
    if q.stored != [] {
      assert QueueOk(b.heap, b.queues[i]) && q.stored[0] in q.stored && StoredOk(b.heap, b.queues[i].dest, q.stored[0]);
      var b1 := SetQueue(b, i, q.(stored := q.stored[1..]));
      SameTags(b, b1);
      SendTags(b1, s, q.stored[0]);
    } else {
      SameTags(b, DoSubscribe(b, i, s));
    }
  }

  lemma EnqueueTags(b: Broker, i: nat, f: nat, front: bool)
    requires Local(b) && i < |b.queues| && f < |b.heap.frames| && Tagged(b) && HeldByNobody(b, f)
    ensures Tagged(DoEnqueue(b, i, f, front))
    ensures b.queues[i].queue.idle != [] ==> SaysItsId(DoEnqueue(b, i, f, front).heap, b.queues[i].queue.idle[0])
  {
    var q := b.queues[i].queue;
    assert QueueOk(b.heap, b.queues[i]);
    if q.idle != [] {
      var s := q.idle[0];
      assert IdleOk(b.heap, b.queues[i].dest, s);
      var b1 := SetListed(SetQueue(b, i, q.(idle := q.idle[1..])), s, false);
      SameTags(b, b1);
      SendTags(b1, s, f);
    } else {
      SameTags(b, DoEnqueue(b, i, f, front));
    }
  }

  lemma StoredIsAway(b: Broker, dest: string)
    requires Inv(b, multiset{}, multiset{}) && StoredAt(b, dest) != []
    ensures HeldByNobody(b, StoredAt(b, dest)[0])
  {
    var f := StoredAt(b, dest)[0];
    StoredCount(b.queues, QueueIndex(b.queues, dest), f);
    NotWithConnections(b, f);
  }

  lemma AnnounceTags(b: Broker)
    requires Inv(b, multiset{}, multiset{}) && Tagged(b) && b.requests != [] && b.requests[0].SubscribeOp?
    ensures Tagged(Process(b))
  {
    var s, b1 := b.requests[0].sub, TakeRequest(b);
    assert b.requests[0] in b.requests && RequestOk(b.heap, b.requests[0]);
    ProcessSubscribe(b);
    var dest := b.heap.subs[s].dest;
    if IsQueue(dest) {
      var b2 := FindQueue(b1, dest);
      FoundQueue(b1, dest);
      SameTags(b, b2);
      if StoredAt(b, dest) != [] { StoredIsAway(b, dest); }
      SubscribeTags(b2, QueueIndex(b2.queues, dest), s);
    } else {
      SameTags(b, b1);
    }
  }

  lemma WithdrawTags(b: Broker)
    requires Local(b) && Tagged(b) && b.requests != [] && b.requests[0].UnsubscribeOp?
    ensures Tagged(Process(b))
  {
    assert RequestOk(b.heap, b.requests[0]);
    SameTags(b, Process(b));
  }

  lemma CarryTags(b: Broker)
    requires Inv(b, multiset{}, multiset{}) && Tagged(b) && b.requests != []
    requires b.requests[0].EnqueueOp? || b.requests[0].RequeueOp?
    ensures Tagged(Process(b))
  {
    var f, b1 := b.requests[0].frame, TakeRequest(b);
    assert b.requests[0] in b.requests && RequestOk(b.heap, b.requests[0]);
    NotWithConnections(b, f);
    SameTags(b, b1);
    var dest := DestOf(b.heap, f);
    if dest.Some? && IsQueue(dest.value) {
      var b2 := FindKeepsLocal(b1, dest.value);
      SameTags(b, b2);
      EnqueueTags(b2, QueueIndex(b2.queues, dest.value), f, b.requests[0].RequeueOp?);
    }
  }

  lemma ProcessTags(b: Broker)
    requires Inv(b, multiset{}, multiset{}) && Tagged(b) && b.requests != []
    ensures Tagged(Process(b))
  {
    match b.requests[0]
    case SubscribeOp(_) => AnnounceTags(b);
    case UnsubscribeOp(_) => WithdrawTags(b);
    case EnqueueOp(_) => CarryTags(b);
    case RequeueOp(_) => CarryTags(b);
    case _ => SameTags(b, Process(b));
  }

  // ---------- the connections ----------

  /** Frames keep what they say about their subscription, and subscriptions their id. */
  ghost predicate KeepsTags(h: Heap, h': Heap) {
    && |h.frames| <= |h'.frames| && |h.subs| <= |h'.subs|
    && (forall f :: 0 <= f < |h.frames| ==>
          Lookup(h'.frames[f].header, "subscription") == Lookup(h.frames[f].header, "subscription"))
    && (forall s :: 0 <= s < |h.subs| ==> h'.subs[s].id == h.subs[s].id)
  }

  lemma StampKeepsTag(f: Frame, n: nat, mode: AckMode)
    ensures Lookup(Stamp(f, n, mode).header, "subscription") == Lookup(f.header, "subscription")
  {
    var t := Decimal(n);
    var h := SetEntry(f.header, MESSAGE_ID, t);
    LookupAfterSet(f.header, MESSAGE_ID, t, "subscription");
    LookupAfterSet(h, ID, t, "subscription");
    LookupAfterSet(SetEntry(h, ID, t), ACK, t, "subscription");
    LookupAfterWithout(SetEntry(h, ID, t), ACK, "subscription");
  }

  lemma ReceiveKeepsTags(b: Broker, c: nat, writeOk: bool)
    requires Local(b) && c < |b.conns| && b.conns[c].subChannel != []
    requires ChannelOk(b.heap, c, b.conns[c].subChannel[0])
    ensures KeepsTags(b.heap, DoReceive(b, c, writeOk).heap)
  {
    var s := b.conns[c].subChannel[0];
    StampKeepsTag(b.heap.frames[b.heap.subs[s].frame.value], NextId(b.conns[c].lastMsgId), b.heap.subs[s].ack);
  }

  lemma StepKeepsTags(b: Broker, a: Action)
    requires Local(b) && Enabled(b, a) && !a.Handle?
    ensures KeepsTags(b.heap, Next(b, a).heap)
  {
    match a
    case Receive(c, writeOk) =>
      assert ConnOk(b.heap, c, b.conns[c]) && b.conns[c].subChannel[0] in b.conns[c].subChannel;
      ReceiveKeepsTags(b, c, writeOk);
    case _ =>
  }

  /** What the connection holds after the step it held before, with the same frames. */
  ghost predicate Holdover(b: Broker, b': Broker, c: nat) {
    && c < |b.conns| <= |b'.conns| && |b.heap.subs| <= |b'.heap.subs|
    && forall s :: s in b'.conns[c].subChannel || s in b'.conns[c].unacked ==>
         && (s in b.conns[c].subChannel || s in b.conns[c].unacked)
         && s < |b.heap.subs| && b'.heap.subs[s].frame == b.heap.subs[s].frame
  }

  /** The subscription that is about to be delivered is nowhere else in its connection. */
  lemma HeadIsOnce(b: Broker, c: nat)
    requires Inv(b, multiset{}, multiset{}) && c < |b.conns| && b.conns[c].subChannel != []
    ensures var k := b.conns[c]; k.subChannel[0] !in k.subChannel[1..] && k.subChannel[0] !in k.unacked
  {
    var k := b.conns[c];
    var s := k.subChannel[0];
    ConnsMember(b.conns, c, s);
    assert Tokens(b, s) + multiset{}[s] <= 1;
    assert k.subChannel == [s] + k.subChannel[1..];
    assert multiset(k.subChannel)[s] + multiset(k.unacked)[s] <= 1;
  }

  lemma HeldExist(b: Broker, c: nat)
    requires Local(b) && c < |b.conns|
    ensures forall x :: x in b.conns[c].subChannel || x in b.conns[c].unacked ==> x < |b.heap.subs|
  {
    assert ConnOk(b.heap, c, b.conns[c]);
    forall x | x in b.conns[c].subChannel || x in b.conns[c].unacked ensures x < |b.heap.subs| { assert Holds(b.heap, c, x); }
  }

  lemma ReceiveHoldover(b: Broker, c: nat, writeOk: bool)
    requires Local(b) && c < |b.conns| && b.conns[c].subChannel != []
    requires ChannelOk(b.heap, c, b.conns[c].subChannel[0])
    requires var k := b.conns[c]; k.subChannel[0] !in k.subChannel[1..] && k.subChannel[0] !in k.unacked
    ensures Holdover(b, DoReceive(b, c, writeOk), c)
  {
    HeldExist(b, c);
    assert forall x :: x in b.conns[c].subChannel[1..] ==> x in b.conns[c].subChannel;
  }

  lemma ReleaseHoldover(b: Broker, c: nat, msgId: nat, nack: bool)
    requires Local(b) && c < |b.conns|
    requires Tagged(b) && Inv(b, multiset{}, multiset{})
    ensures Holdover(b, DoRelease(b, c, msgId, nack), c)
  {
    var k := b.conns[c];
    assert ConnOk(b.heap, c, k);
    forall x | x in k.subChannel || x in k.unacked
      ensures x < |b.heap.subs| && (x in k.subChannel ==> x !in k.unacked)
    {
      assert Holds(b.heap, c, x);
      ConnsMember(b.conns, c, x);
      assert Tokens(b, x) + multiset{}[x] <= 1;
    }
    KeptAreNotTaken(b.heap, k.unacked, msgId, nack);
  }

  lemma {:induction false} KeptAreNotTaken(h: Heap, l: seq<nat>, msgId: nat, nack: bool)
    ensures forall s :: s in Kept(h, l, msgId, nack) ==> s in l && !Matched(h, s, msgId, nack)
    ensures forall s :: s in Taken(h, l, msgId, nack) ==> s in l && Matched(h, s, msgId, nack)
  {
    if l != [] { KeptAreNotTaken(h, l[1..], msgId, nack); }
  }

  lemma OwnHoldover(b: Broker, a: Action, c: nat)
    requires Inv(b, multiset{}, multiset{}) && Tagged(b) && Enabled(b, a) && ActorOf(a) == Some(c)
    ensures Holdover(b, Next(b, a), c)
  {
    match a
    case Receive(_, writeOk) =>
      TakeChannel(b, c);
      HeadIsOnce(b, c);
      ReceiveHoldover(b, c, writeOk);
    case ClientRelease(_, msgId, nack) => ReleaseHoldover(b, c, msgId, nack);
    case _ => SimpleHoldover(b, a, c);
  }

  lemma SimpleHoldover(b: Broker, a: Action, c: nat)
    requires Local(b) && Enabled(b, a) && ActorOf(a) == Some(c) && !a.Receive? && !a.ClientRelease?
    ensures Holdover(b, Next(b, a), c)
  {
    HeldExist(b, c);
    match a
    case Close(_, order) => CloseHoldover(b, c, order);
    case Drain(_) => DrainHoldover(b, c);
    case _ =>
  }

  lemma CloseHoldover(b: Broker, c: nat, order: seq<string>)
    requires Local(b) && c < |b.conns| && Visits(b.conns[c], order)
    ensures Holdover(b, DoClose(b, c, order), c)
  {
    HeldExist(b, c);
  }

  lemma DrainHoldover(b: Broker, c: nat)
    requires Local(b) && c < |b.conns| && b.conns[c].phase.Draining?
    ensures Holdover(b, DoDrain(b, c), c)
  {
    HeldExist(b, c);
  }

  lemma StillSays(h: Heap, h': Heap, s: nat)
    requires SaysItsId(h, s) && KeepsTags(h, h') && h'.subs[s].frame == h.subs[s].frame
    ensures SaysItsId(h', s)
  {
  }

  lemma ConnTags(b: Broker, a: Action, c: nat)
    requires Inv(b, multiset{}, multiset{}) && Tagged(b) && Enabled(b, a) && !a.Handle? && c < |b.conns| <= |Next(b, a).conns|
    ensures AllSay(Next(b, a).heap, Next(b, a).conns[c].subChannel)
    ensures AllSay(Next(b, a).heap, Next(b, a).conns[c].unacked)
  {
    var b' := Next(b, a);
    StepKeepsTags(b, a);
    if ActorOf(a) == Some(c) { OwnHoldover(b, a, c); } else { OthersHoldover(b, a, c); }
    forall s | s in b'.conns[c].subChannel || s in b'.conns[c].unacked ensures SaysItsId(b'.heap, s) {
      assert SaysItsId(b.heap, s);
      StillSays(b.heap, b'.heap, s);
    }
  }

  lemma OthersHoldover(b: Broker, a: Action, c: nat)
    requires Local(b) && Enabled(b, a) && !a.Handle? && ActorOf(a) != Some(c) && c < |b.conns|
    ensures Holdover(b, Next(b, a), c)
  {
    OthersStepAside(b, a, c);
    assert ConnOk(b.heap, c, b.conns[c]);
    forall x | x in b.conns[c].subChannel || x in b.conns[c].unacked
      ensures x < |b.heap.subs| && Next(b, a).heap.subs[x].frame == b.heap.subs[x].frame
    {
      assert Holds(b.heap, c, x);
    }
  }

  lemma NextTags(b: Broker, a: Action)
    requires Inv(b, multiset{}, multiset{}) && Tagged(b) && Enabled(b, a)
    ensures Tagged(Next(b, a))
  {
    if a.Handle? {
      ProcessTags(b);
    } else {
      var b' := Next(b, a);
      StepKeepsConns(b, a);
      forall c | 0 <= c < |b'.conns|
        ensures AllSay(b'.heap, b'.conns[c].subChannel) && AllSay(b'.heap, b'.conns[c].unacked)
      {
        if c < |b.conns| { ConnTags(b, a, c); } else { OnlyAcceptAdds(b, a); }
      }
    }
  }

  lemma OnlyAcceptAdds(b: Broker, a: Action)
    requires Local(b) && Enabled(b, a) && !a.Handle?
    ensures forall c :: |b.conns| <= c < |Next(b, a).conns| ==>
                          Next(b, a).conns[c].subChannel == [] && Next(b, a).conns[c].unacked == []
  {
  }

  lemma {:induction false} RunTags(b: Broker, actions: seq<Action>, b': Broker)
    requires Leads(b, actions, b') && b.panic.None? && Inv(b, multiset{}, multiset{}) && Tagged(b)
    ensures Tagged(b')
    decreases |actions|
  {
    if actions != [] {
      NextInv(b, actions[0]);
      NextTags(b, actions[0]);
      if actions[1..] != [] { RunTags(Next(b, actions[0]), actions[1..], b'); }
    }
  }

  /** In every reachable state, every message in a connection's channel or un-acknowledged list names the
      subscription it is for: its subscription header is the id that the client gave. */
  lemma MessagesNameTheirSubscription(actions: seq<Action>, b: Broker, c: nat, s: nat)
    requires Leads(INITIAL, actions, b) && c < |b.conns|
    requires s in b.conns[c].subChannel || s in b.conns[c].unacked
    ensures SaysItsId(b.heap, s)
  {
    RunTags(INITIAL, actions, b);
    assert AllSay(b.heap, b.conns[c].subChannel) && AllSay(b.heap, b.conns[c].unacked);
  }

  /** What a message that gets message id n says, by the names of STOMP 1.2. */
  lemma StampSays(f: Frame, n: nat, mode: AckMode)
    requires f.command == Message
    ensures var g := Stamp(f, n, mode);
            && g.command == Message && g.body == f.body
            && Lookup(g.header, "message-id") == Some(Decimal(n)) && Lookup(g.header, "id") == Some(Decimal(n))
            && Lookup(g.header, "ack") == (if mode.Auto? then None else Some(Decimal(n)))
            && (forall key :: key !in {"message-id", "id", "ack"} ==> Lookup(g.header, key) == Lookup(f.header, key))
  {
    var t := Decimal(n);
    var h1 := SetEntry(f.header, MESSAGE_ID, t);
    var h2 := SetEntry(h1, ID, t);
    forall key
      ensures Lookup(h2, key) == if key == "message-id" || key == "id" then Some(t) else Lookup(f.header, key)
      ensures Lookup(SetEntry(h2, ACK, t), key) == if key == "ack" then Some(t) else Lookup(h2, key)
      ensures Lookup(Without(h2, ACK), key) == if key == "ack" then None else Lookup(h2, key)
    {
      LookupAfterSet(f.header, MESSAGE_ID, t, key);
      LookupAfterSet(h1, ID, t, key);
      LookupAfterSet(h2, ACK, t, key);
      LookupAfterWithout(h2, ACK, key);
    }
    assert "ack" != "id" && "ack" != "message-id";
  }

  // ---------- deliveries ----------

  ghost predicate AllMessages(h: Heap) { forall f :: 0 <= f < |h.frames| ==> h.frames[f].command == Message }

  lemma NextMessages(b: Broker, a: Action)
    requires Local(b) && Enabled(b, a) && AllMessages(b.heap)
    ensures AllMessages(Next(b, a).heap)
  {
    match a
    case Handle =>
      ProcessMild(b);
      assert forall f :: 0 <= f < |b.heap.frames| ==> SameMessage(Process(b).heap.frames[f], b.heap.frames[f]);
    case Receive(c, writeOk) =>
      assert ConnOk(b.heap, c, b.conns[c]) && b.conns[c].subChannel[0] in b.conns[c].subChannel;
      ReceiveFrames(b, c, writeOk);
      StampMild(b.heap, b.conns[c].subChannel[0], NextId(b.conns[c].lastMsgId));
    case _ =>
  }

  /** Queues hold MESSAGE frames only. */
  lemma {:induction false} QueuesHoldMessages(b: Broker, actions: seq<Action>, b': Broker)
    requires Leads(b, actions, b') && AllMessages(b.heap)
    ensures AllMessages(b'.heap)
    decreases |actions|
  {
    if actions != [] {
      NextMessages(b, actions[0]);
      QueuesHoldMessages(Next(b, actions[0]), actions[1..], b');
    }
  }

  lemma DeliveryStamps(b: Broker, c: nat)
    requires Local(b) && c < |b.conns| && b.conns[c].subChannel != []
    requires ChannelOk(b.heap, c, b.conns[c].subChannel[0])
    requires b.heap.subs[b.conns[c].subChannel[0]].id in b.conns[c].subs
    ensures var s, h := b.conns[c].subChannel[0], b.heap;
            var f := h.subs[s].frame.value;
            f < |DoReceive(b, c, true).heap.frames| &&
            DoReceive(b, c, true).heap.frames[f] == Stamp(h.frames[f], NextId(b.conns[c].lastMsgId), h.subs[s].ack)
  {
  }

  /** In every reachable state the message that is written when a registered subscription's turn comes is a
      MESSAGE frame that names the subscription and carries the connection's next message id, as id and
      message-id always and as ack exactly outside automatic mode; all else is as the broker kept it. */
  lemma DeliveredSays(actions: seq<Action>, b: Broker, c: nat)
    requires Leads(INITIAL, actions, b) && Local(b) && Enabled(b, Receive(c, true))
    requires ChannelOk(b.heap, c, b.conns[c].subChannel[0])
    requires b.heap.subs[b.conns[c].subChannel[0]].id in b.conns[c].subs
    ensures var sub, n := b.heap.subs[b.conns[c].subChannel[0]], Decimal(NextId(b.conns[c].lastMsgId));
            && sub.frame.value < |Next(b, Receive(c, true)).heap.frames|
            && var was, g := b.heap.frames[sub.frame.value], Next(b, Receive(c, true)).heap.frames[sub.frame.value];
               && g.command == Message && g.body == was.body
               && Lookup(g.header, "subscription") == Some(sub.id)
               && Lookup(g.header, "message-id") == Some(n) && Lookup(g.header, "id") == Some(n)
               && Lookup(g.header, "ack") == (if sub.ack.Auto? then None else Some(n))
               && forall key :: key !in {"message-id", "id", "ack"} ==> Lookup(g.header, key) == Lookup(was.header, key)
  {
    QueuesHoldMessages(INITIAL, actions, b);
    var s := b.conns[c].subChannel[0];
    MessagesNameTheirSubscription(actions, b, c, s);
    DeliveryStamps(b, c);
    StampSays(b.heap.frames[b.heap.subs[s].frame.value], NextId(b.conns[c].lastMsgId), b.heap.subs[s].ack);
  }
}
