/** What becomes of the frames a connection holds when it ends: those of its un-acknowledged list and those
    in its channel while it drains go back, one request each and in order. */
module Cleanup {
  import opened Text
  import opened Broker
  import opened Ledger
  import opened ConnSteps
  import opened Effects
  import opened BrokerRuns
  import opened Teardown

  // ---------- frames go back ----------

  lemma RequeueCount(rs: seq<Request>, f: nat)
    requires forall i :: 0 <= i < |rs| ==> rs[i].UnsubscribeOp? || rs[i].RequeueOp?
    ensures multiset(rs)[RequeueOp(f)] == ReqFrames(rs, f)
  {
    assert EnqueueOp(f) !in rs;
  }

  /** When a connection in any reachable state closes, each frame of its un-acknowledged list becomes
      exactly one RequeueOp, and no other frame does. */
  lemma UnackedFramesGoBack(actions: seq<Action>, b: Broker, c: nat, order: seq<string>, f: nat)
    requires Leads(INITIAL, actions, b) && Local(b) && Enabled(b, Close(c, order))
    ensures multiset(Next(b, Close(c, order)).conns[c].outbox)[RequeueOp(f)] == Held(b.heap.subs, b.conns[c].unacked, f)
    ensures Held(b.heap.subs, b.conns[c].unacked, f) <= 1
    ensures Next(b, Close(c, order)).conns[c].unacked == []
  {
    RunInv(INITIAL, actions, b);
    var k := b.conns[c];
    assert ConnOk(b.heap, c, k) && AllHold(b.heap, k.unacked);
    var fs := FramesHeld(b.heap, k.unacked);
    var rs := Unsubscriptions(k, order) + Requeues(fs);
    RequeuesOnly(fs);
    UnsubscriptionsOnly(k, order);
    RequeueCount(rs, f);
    CloseCounts(b, c, order, f);
    FramesHeldCount(b.heap, k.unacked, f);
    HeldOnce(b, c, f);
  }

  lemma HeldOnce(b: Broker, c: nat, f: nat)
    requires Inv(b, multiset{}, multiset{}) && c < |b.conns|
    ensures Held(b.heap.subs, b.conns[c].unacked, f) + Held(b.heap.subs, b.conns[c].subChannel, f) <= 1
  {
    ConnFramesMember(b.heap.subs, b.conns, c, f);
    assert Places(b, f) + multiset{}[f] <= 1;
  }

  lemma {:induction false} ConnFramesMember(subs: seq<Sub>, ks: seq<Conn>, c: nat, f: nat)
    requires c < |ks|
    ensures ConnFrames(subs, ks[c], f) <= AllConnFrames(subs, ks, f)
  {
    if c > 0 { ConnFramesMember(subs, ks[1..], c - 1, f); }
  }

  // ---------- steps that leave a channel alone ----------

  /** Channels only grow, and a subscription that holds a frame keeps it. */
  ghost predicate Undisturbed(b: Broker, b': Broker) {
    && |b'.conns| == |b.conns| && |b'.heap.subs| == |b.heap.subs|
    && (forall c :: 0 <= c < |b.conns| ==> b.conns[c].subChannel <= b'.conns[c].subChannel)
    && (forall s :: 0 <= s < |b.heap.subs| && b.heap.subs[s].frame.Some? ==>
          b'.heap.subs[s].frame == b.heap.subs[s].frame)
  }

  lemma SubscribeUndisturbed(b: Broker, i: nat, s: nat)
    requires Local(b) && i < |b.queues| && s < |b.heap.subs|
    ensures Undisturbed(b, DoSubscribe(b, i, s))
  {
  }

  lemma EnqueueUndisturbed(b: Broker, i: nat, f: nat, front: bool)
    requires Local(b) && i < |b.queues| && f < |b.heap.frames|
    ensures Undisturbed(b, DoEnqueue(b, i, f, front))
  {
    var q := b.queues[i].queue;
    assert QueueOk(b.heap, b.queues[i]);
    if q.idle != [] { assert IdleOk(b.heap, b.queues[i].dest, q.idle[0]); }
  }

  lemma FrameUndisturbed(b: Broker, f: nat, front: bool)
    requires Local(b) && f < |b.heap.frames|
    ensures DestOf(b.heap, f).Some? && IsQueue(DestOf(b.heap, f).value) ==>
              var dest := DestOf(b.heap, f).value;
              var b2 := FindKeepsLocal(b, dest);
              Undisturbed(b, DoEnqueue(b2, QueueIndex(b2.queues, dest), f, front))
  {
    var d := DestOf(b.heap, f);
    if d.Some? && IsQueue(d.value) {
      var b2 := FindKeepsLocal(b, d.value);
      EnqueueUndisturbed(b2, QueueIndex(b2.queues, d.value), f, front);
    }
  }

  lemma AnnounceUndisturbed(b: Broker, s: nat)
    requires Local(b) && s < |b.heap.subs|
    ensures IsQueue(b.heap.subs[s].dest) ==>
              var dest := b.heap.subs[s].dest;
              var b2 := FindKeepsLocal(b, dest);
              Undisturbed(b, DoSubscribe(b2, QueueIndex(b2.queues, dest), s))
  {
    var dest := b.heap.subs[s].dest;
    if IsQueue(dest) {
      var b2 := FindKeepsLocal(b, dest);
      SubscribeUndisturbed(b2, QueueIndex(b2.queues, dest), s);
    }
  }

  lemma ProcessUndisturbed(b: Broker)
    requires Local(b) && b.requests != []
    ensures Undisturbed(b, Process(b))
  {
    var r, b1 := b.requests[0], TakeRequest(b);
    assert r in b.requests && RequestOk(b.heap, r);
    match r
    case SubscribeOp(s) => AnnounceUndisturbed(b1, s);
    case EnqueueOp(f) => FrameUndisturbed(b1, f, false);
    case RequeueOp(f) => FrameUndisturbed(b1, f, true);
    case UnsubscribeOp(s) => if IsQueue(b.heap.subs[s].dest) { WithdrawalUndisturbed(b1, s); }
    case _ =>
  }

  lemma WithdrawalUndisturbed(b: Broker, s: nat)
    requires Local(b) && s < |b.heap.subs| && IsQueue(b.heap.subs[s].dest)
    ensures var b2 := FindKeepsLocal(b, b.heap.subs[s].dest);
            Undisturbed(b, DoUnsubscribe(b2, QueueIndex(b2.queues, b.heap.subs[s].dest), s))
  {
  }

  /** The connection that takes the step. */
  function ActorOf(a: Action): Option<nat> {
    match a
    case Accept => None
    case Handle => None
    case _ => Some(a.c)
  }

  /** No subscription of connection c loses or changes its frame. */
  ghost predicate Aside(b: Broker, b': Broker, c: nat) {
    && |b.conns| <= |b'.conns| && |b.heap.subs| <= |b'.heap.subs|
    && forall s :: 0 <= s < |b.heap.subs| && b.heap.subs[s].conn == c && b.heap.subs[s].frame.Some? ==>
         b'.heap.subs[s].frame == b.heap.subs[s].frame && b'.heap.subs[s].conn == c
  }

  lemma ReceiveAside(b: Broker, d: nat, writeOk: bool, c: nat)
    requires Local(b) && d < |b.conns| && b.conns[d].subChannel != [] && d != c < |b.conns|
    requires ChannelOk(b.heap, d, b.conns[d].subChannel[0])
    ensures var b' := DoReceive(b, d, writeOk); Aside(b, b', c) && b'.conns[c] == b.conns[c]
  {
  }

  lemma ReleaseAside(b: Broker, d: nat, msgId: nat, nack: bool, c: nat)
    requires Local(b) && d < |b.conns| && d != c < |b.conns| && ConnOk(b.heap, d, b.conns[d])
    ensures var b' := DoRelease(b, d, msgId, nack); Aside(b, b', c) && b'.conns[c] == b.conns[c]
  {
    assert forall s :: s in b.conns[d].unacked ==> UnackedOk(b.heap, d, s);
  }

  lemma CloseAside(b: Broker, d: nat, order: seq<string>, c: nat)
    requires Local(b) && d < |b.conns| && d != c < |b.conns| && Visits(b.conns[d], order)
    ensures var b' := DoClose(b, d, order); Aside(b, b', c) && b'.conns[c] == b.conns[c]
  {
  }

  /** A step of another connection changes neither this one nor the frames of its subscriptions. */
  lemma OthersStepAside(b: Broker, a: Action, c: nat)
    requires Local(b) && Enabled(b, a) && !a.Handle? && ActorOf(a) != Some(c) && c < |b.conns|
    ensures Aside(b, Next(b, a), c) && Next(b, a).conns[c] == b.conns[c]
  {
    match a
    case Receive(d, writeOk) =>
      assert ConnOk(b.heap, d, b.conns[d]) && b.conns[d].subChannel[0] in b.conns[d].subChannel;
      ReceiveAside(b, d, writeOk, c);
    case ClientRelease(d, msgId, nack) =>
      assert ConnOk(b.heap, d, b.conns[d]);
      ReleaseAside(b, d, msgId, nack, c);
    case Close(d, order) => CloseAside(b, d, order, c);
    case _ =>
  }

  lemma ProcessAside(b: Broker, c: nat)
    requires Local(b) && b.requests != [] && c < |b.conns|
    ensures var b' := Process(b);
            && Aside(b, b', c) && b.conns[c].subChannel <= b'.conns[c].subChannel
            && b'.conns[c] == b.conns[c].(subChannel := b'.conns[c].subChannel)
  {
    ProcessUndisturbed(b);
    ProcessMild(b);
  }

  // ---------- what a channel carries ----------

  /** The frames of the listed subscriptions, in order. */
  function Carried(subs: seq<Sub>, l: seq<nat>): seq<nat> {
    if l == [] then []
    else (if l[0] < |subs| && subs[l[0]].frame.Some? then [subs[l[0]].frame.value] else []) + Carried(subs, l[1..])
  }

  /** The frames that the requests return, in order. */
  function Returned(rs: seq<Request>): seq<nat> {
    if rs == [] then [] else (if rs[0].RequeueOp? then [rs[0].frame] else []) + Returned(rs[1..])
  }

  lemma Regroup(a: seq<nat>, b: seq<nat>, c: seq<nat>)
    ensures a + (b + c) == (a + b) + c
  {
  }

  lemma {:induction false} CarriedConcat(subs: seq<Sub>, a: seq<nat>, b: seq<nat>)
    ensures Carried(subs, a + b) == Carried(subs, a) + Carried(subs, b)
  {
    if a == [] {
      assert a + b == b;
    } else {
      assert (a + b)[1..] == a[1..] + b && (a + b)[0] == a[0];
      CarriedConcat(subs, a[1..], b);
      var first := if a[0] < |subs| && subs[a[0]].frame.Some? then [subs[a[0]].frame.value] else [];
      Regroup(first, Carried(subs, a[1..]), Carried(subs, b));
    }
  }

  lemma {:induction false} ReturnedConcat(a: seq<Request>, b: seq<Request>)
    ensures Returned(a + b) == Returned(a) + Returned(b)
  {
    if a == [] {
      assert a + b == b;
    } else {
      assert (a + b)[1..] == a[1..] + b && (a + b)[0] == a[0];
      ReturnedConcat(a[1..], b);
      var first := if a[0].RequeueOp? then [a[0].frame] else [];
      Regroup(first, Returned(a[1..]), Returned(b));
    }
  }

  lemma {:induction false} CarriedSame(subs: seq<Sub>, subs': seq<Sub>, l: seq<nat>)
    requires forall i :: 0 <= i < |l| ==> l[i] < |subs| <= |subs'| && subs'[l[i]].frame == subs[l[i]].frame
    ensures Carried(subs', l) == Carried(subs, l)
  {
    if l != [] {
      assert forall i :: 0 <= i < |l[1..]| ==> l[1..][i] == l[i + 1];
      CarriedSame(subs, subs', l[1..]);
    }
  }

  lemma {:induction false} CarriedIsHeld(h: Heap, l: seq<nat>)
    requires AllHold(h, l)
    ensures Carried(h.subs, l) == FramesHeld(h, l)
  {
    if l != [] {
      assert l[0] in l && forall s :: s in l[1..] ==> s in l;
      CarriedIsHeld(h, l[1..]);
    }
  }

  // ---------- draining ----------

  predicate Ending(k: Conn) { k.phase.Draining? || k.phase.Closed? }

  /** What connection c has logged between the two states. */
  function Logged(b: Broker, b': Broker, c: nat): seq<Request>
    requires c < |b.conns| && c < |b'.conns|
  {
    if |b.conns[c].log| <= |b'.conns[c].log| then b'.conns[c].log[|b.conns[c].log|..] else []
  }

  /** The frames that a step brings to the channel of connection c. */
  ghost function Arriving(b: Broker, a: Action, c: nat): seq<nat>
    requires Local(b) && Enabled(b, a) && c < |b.conns|
  {
    var b' := Next(b, a);
    if a.Handle? && c < |b'.conns| && |b.conns[c].subChannel| <= |b'.conns[c].subChannel|
    then Carried(b'.heap.subs, b'.conns[c].subChannel[|b.conns[c].subChannel|..]) else []
  }

  /** The books of one step of an ending connection: what it returns and what its channel carries after the
      step is what the channel carried before and what the step brought. */
  ghost predicate Balanced(b: Broker, a: Action, c: nat)
    requires Local(b) && Enabled(b, a) && c < |b.conns| <= |Next(b, a).conns|
  {
    var b' := Next(b, a);
    && b.conns[c].log <= b'.conns[c].log && Ending(b'.conns[c])
    && (forall r :: r in Logged(b, b', c) ==> r.RequeueOp? || r == DisconnectedOp(c))
    && (b.conns[c].phase.Closed? ==> b'.conns[c].phase.Closed? && Logged(b, b', c) == [])
    && (b.conns[c].phase.Draining? && b'.conns[c].phase.Closed? ==> b'.conns[c].subChannel == [])
    && Returned(Logged(b, b', c)) + Carried(b'.heap.subs, b'.conns[c].subChannel) ==
       Carried(b.heap.subs, b.conns[c].subChannel) + Arriving(b, a, c)
  }

  lemma ChannelStays(b: Broker, b': Broker, c: nat, l: seq<nat>)
    requires Local(b) && c < |b.conns| && l <= b.conns[c].subChannel && Aside(b, b', c)
    ensures Carried(b'.heap.subs, l) == Carried(b.heap.subs, l)
  {
    assert ConnOk(b.heap, c, b.conns[c]);
    forall i | 0 <= i < |l| ensures ChannelOk(b.heap, c, l[i]) {
      assert l[i] == b.conns[c].subChannel[i] && l[i] in b.conns[c].subChannel;
    }
    CarriedSame(b.heap.subs, b'.heap.subs, l);
  }

  lemma OthersBalance(b: Broker, a: Action, c: nat)
    requires Local(b) && Enabled(b, a) && !a.Handle? && ActorOf(a) != Some(c) && c < |b.conns| && Ending(b.conns[c])
    ensures |b.conns| <= |Next(b, a).conns| && Balanced(b, a, c)
  {
    OthersStepAside(b, a, c);
    ChannelStays(b, Next(b, a), c, b.conns[c].subChannel);
  }

  lemma HandleBalance(b: Broker, c: nat)
    requires Local(b) && Enabled(b, Handle) && c < |b.conns| && Ending(b.conns[c])
    ensures |b.conns| <= |Next(b, Handle).conns| && Balanced(b, Handle, c)
  {
    ProcessAside(b, c);
    var b' := Process(b);
    var l, l' := b.conns[c].subChannel, b'.conns[c].subChannel;
    ChannelStays(b, b', c, l);
    Extended(b'.heap.subs, l, l');
    assert Logged(b, b', c) == [];
  }

  lemma Extended(subs: seq<Sub>, l: seq<nat>, l': seq<nat>)
    requires l <= l'
    ensures Carried(subs, l') == Carried(subs, l) + Carried(subs, l'[|l|..])
  {
    CarriedConcat(subs, l, l'[|l|..]);
    assert l' == l + l'[|l|..];
  }

  lemma DrainBalance(b: Broker, c: nat)
    requires Local(b) && Enabled(b, Drain(c))
    ensures |b.conns| <= |Next(b, Drain(c)).conns| && Balanced(b, Drain(c), c)
  {
    var k := b.conns[c];
    if k.subChannel != [] {
      DrainHead(b, c);
    } else {
      assert (k.log + [DisconnectedOp(c)])[|k.log|..] == [DisconnectedOp(c)] && [DisconnectedOp(c)][1..] == [];
    }
  }

  lemma DrainHead(b: Broker, c: nat)
    requires Local(b) && Enabled(b, Drain(c)) && b.conns[c].subChannel != []
    ensures |b.conns| <= |Next(b, Drain(c)).conns| && Balanced(b, Drain(c), c)
  {
    var k := b.conns[c];
    assert ConnOk(b.heap, c, k) && k.subChannel[0] in k.subChannel;
    assert ChannelOk(b.heap, c, k.subChannel[0]);
    var r := RequeueOp(b.heap.subs[k.subChannel[0]].frame.value);
    assert (k.log + [r])[|k.log|..] == [r] && [r][1..] == [];
  }

  lemma FlushBalance(b: Broker, c: nat)
    requires Local(b) && Enabled(b, Flush(c)) && Ending(b.conns[c])
    ensures |b.conns| <= |Next(b, Flush(c)).conns| && Balanced(b, Flush(c), c)
  {
  }

  lemma StepBalance(b: Broker, a: Action, c: nat)
    requires Local(b) && Enabled(b, a) && c < |b.conns| && Ending(b.conns[c])
    ensures |b.conns| <= |Next(b, a).conns| && Balanced(b, a, c)
  {
    if a.Handle? {
      HandleBalance(b, c);
    } else if ActorOf(a) != Some(c) {
      OthersBalance(b, a, c);
    } else if a.Drain? {
      DrainBalance(b, c);
    } else {
      FlushBalance(b, c);
    }
  }

  // ---------- over whole runs ----------

  /** The frames that a run brings to the channel of connection c, in order. */
  ghost function Arrivals(b: Broker, actions: seq<Action>, b': Broker, c: nat): seq<nat>
    requires Leads(b, actions, b') && c < |b.conns|
    decreases |actions|
  {
    if actions == [] then []
    else
      StepKeepsConns(b, actions[0]);
      Arriving(b, actions[0], c) + Arrivals(Next(b, actions[0]), actions[1..], b', c)
  }

  lemma StepKeepsConns(b: Broker, a: Action)
    requires Local(b) && Enabled(b, a)
    ensures |b.conns| <= |Next(b, a).conns|
  {
    if a.Handle? { ProcessMild(b); }
  }

  /** The books of a run of an ending connection. */
  ghost predicate Settled(b: Broker, actions: seq<Action>, b': Broker, c: nat)
    requires Leads(b, actions, b') && c < |b.conns| <= |b'.conns|
  {
    && b.conns[c].log <= b'.conns[c].log && Ending(b'.conns[c])
    && (forall r :: r in Logged(b, b', c) ==> r.RequeueOp? || r == DisconnectedOp(c))
    && (b.conns[c].phase.Closed? ==> b'.conns[c].phase.Closed? && Logged(b, b', c) == [])
    && Returned(Logged(b, b', c)) + Carried(b'.heap.subs, b'.conns[c].subChannel) ==
       Carried(b.heap.subs, b.conns[c].subChannel) + Arrivals(b, actions, b', c)
  }

  lemma LoggedOn(b: Broker, m: Broker, b': Broker, c: nat)
    requires c < |b.conns| && c < |m.conns| && c < |b'.conns|
    requires b.conns[c].log <= m.conns[c].log <= b'.conns[c].log
    ensures Logged(b, b', c) == Logged(b, m, c) + Logged(m, b', c)
    ensures Returned(Logged(b, b', c)) == Returned(Logged(b, m, c)) + Returned(Logged(m, b', c))
  {
    ReturnedConcat(Logged(b, m, c), Logged(m, b', c));
  }

  lemma Chained(r1: seq<nat>, c1: seq<nat>, c0: seq<nat>, a1: seq<nat>, r2: seq<nat>, c2: seq<nat>, a2: seq<nat>)
    requires r1 + c1 == c0 + a1 && r2 + c2 == c1 + a2
    ensures (r1 + r2) + c2 == c0 + (a1 + a2)
  {
    assert (r1 + r2) + c2 == r1 + (c1 + a2) == (c0 + a1) + a2;
  }

  lemma {:induction false} RunBalance(b: Broker, actions: seq<Action>, b': Broker, c: nat)
    requires Leads(b, actions, b') && c < |b.conns| && Ending(b.conns[c])
    ensures |b.conns| <= |b'.conns| && Settled(b, actions, b', c)
    decreases |actions|
  {
    if actions == [] {
      assert Logged(b, b', c) == [];
    } else {
      var a, n := actions[0], Next(b, actions[0]);
      StepBalance(b, a, c);
      RunBalance(n, actions[1..], b', c);
      LoggedOn(b, n, b', c);
      Chained(Returned(Logged(b, n, c)), Carried(n.heap.subs, n.conns[c].subChannel),
              Carried(b.heap.subs, b.conns[c].subChannel), Arriving(b, a, c), Returned(Logged(n, b', c)),
              Carried(b'.heap.subs, b'.conns[c].subChannel), Arrivals(n, actions[1..], b', c));
    }
  }

  lemma ClosedCarries(b: Broker, actions: seq<Action>, b': Broker, c: nat)
    requires Leads(b, actions, b') && c < |b.conns| && c < |b'.conns|
    requires b.conns[c].phase.Closed? && b.conns[c].subChannel == []
    ensures Carried(b'.heap.subs, b'.conns[c].subChannel) == Arrivals(b, actions, b', c)
  {
    RunBalance(b, actions, b', c);
    Blank(Returned(Logged(b, b', c)), Carried(b'.heap.subs, b'.conns[c].subChannel),
          Carried(b.heap.subs, b.conns[c].subChannel), Arrivals(b, actions, b', c));
  }

  lemma Blank(r: seq<nat>, c': seq<nat>, c: seq<nat>, a: seq<nat>)
    requires r + c' == c + a && r == [] && c == []
    ensures c' == a
  {
    assert [] + c' == c' && [] + a == a;
  }

  /** What a closed connection's channel carries has arrived since the draining began. */
  lemma {:induction false} LeftoversArrived(b: Broker, actions: seq<Action>, b': Broker, c: nat)
    requires Leads(b, actions, b') && c < |b.conns| && c < |b'.conns|
    requires b.conns[c].phase.Draining? && b'.conns[c].phase.Closed?
    ensures |Carried(b'.heap.subs, b'.conns[c].subChannel)| <= |Arrivals(b, actions, b', c)|
    decreases |actions|
  {
    var n, rest := Next(b, actions[0]), actions[1..];
    StepBalance(b, actions[0], c);
    assert |Arrivals(b, actions, b', c)| >= |Arrivals(n, rest, b', c)|;
    if n.conns[c].phase.Closed? {
      ClosedCarries(n, rest, b', c);
    } else {
      LeftoversArrived(n, rest, b', c);
    }
  }

  /** While a connection drains, every frame that its channel carried at the start goes back in one
      RequeueOp, in order, followed by one for each frame that arrived in time; the frames that arrived
      later are what its channel carries when it is gone. Besides these requests it only announces its end. */
  lemma DrainedFramesGoBack(b: Broker, actions: seq<Action>, b': Broker, c: nat) returns (early: seq<nat>)
    requires Leads(b, actions, b') && c < |b.conns| && c < |b'.conns|
    requires b.conns[c].phase.Draining? && b'.conns[c].phase.Closed?
    ensures b.conns[c].log <= b'.conns[c].log
    ensures forall r :: r in Logged(b, b', c) ==> r.RequeueOp? || r == DisconnectedOp(c)
    ensures Returned(Logged(b, b', c)) == Carried(b.heap.subs, b.conns[c].subChannel) + early
    ensures Arrivals(b, actions, b', c) == early + Carried(b'.heap.subs, b'.conns[c].subChannel)
  {
    RunBalance(b, actions, b', c);
    LeftoversArrived(b, actions, b', c);
    early := Divide(Returned(Logged(b, b', c)), Carried(b'.heap.subs, b'.conns[c].subChannel),
                    Carried(b.heap.subs, b.conns[c].subChannel), Arrivals(b, actions, b', c));
  }

  lemma Divide(x: seq<nat>, c': seq<nat>, c: seq<nat>, a: seq<nat>) returns (early: seq<nat>)
    requires x + c' == c + a && |c'| <= |a|
    ensures x == c + early && a == early + c'
  {
    early := a[..|a| - |c'|];
    var all := c + a;
    assert all[..|x|] == x && all[|x|..] == c';
    assert all[..|x|] == c + early && all[|x|..] == a[|a| - |c'|..];
  }

  // ---------- from the decision to close until the end ----------

  lemma {:induction false} ReturnedRequeues(fs: seq<nat>)
    ensures Returned(Requeues(fs)) == fs
  {
    if fs != [] {
      assert Requeues(fs)[1..] == Requeues(fs[1..]);
      ReturnedRequeues(fs[1..]);
    }
  }

  lemma {:induction false} ReturnedUnsubscriptions(k: Conn, order: seq<string>)
    requires forall id :: id in order ==> id in k.subs
    ensures Returned(Unsubscriptions(k, order)) == []
  {
    if order != [] {
      assert Unsubscriptions(k, order)[1..] == Unsubscriptions(k, order[1..]);
      ReturnedUnsubscriptions(k, order[1..]);
    }
  }

  /** Closing returns the frames of the un-acknowledged list and leaves the channel as it was. */
  lemma CloseReturns(b: Broker, c: nat, order: seq<string>)
    requires Local(b) && c < |b.conns| && Visits(b.conns[c], order)
    ensures var n, k := DoClose(b, c, order), b.conns[c];
            && |n.conns| == |b.conns| && n.conns[c].phase.Draining? && k.log <= n.conns[c].log
            && Returned(Logged(b, n, c)) == Carried(b.heap.subs, k.unacked)
            && n.conns[c].subChannel == k.subChannel
            && Carried(n.heap.subs, k.subChannel) == Carried(b.heap.subs, k.subChannel)
  {
    var k, n := b.conns[c], DoClose(b, c, order);
    assert ConnOk(b.heap, c, k) && AllHold(b.heap, k.unacked);
    var fs := FramesHeld(b.heap, k.unacked);
    var rs := Unsubscriptions(k, order) + Requeues(fs);
    assert n.conns[c].log == k.log + rs && (k.log + rs)[|k.log|..] == rs;
    CarriedIsHeld(b.heap, k.unacked);
    ReturnedRequeues(fs);
    ReturnedUnsubscriptions(k, order);
    ReturnedConcat(Unsubscriptions(k, order), Requeues(fs));
    forall i | 0 <= i < |k.subChannel| ensures ChannelOk(b.heap, c, k.subChannel[i]) {
      assert k.subChannel[i] in k.subChannel;
    }
    CarriedSame(b.heap.subs, n.heap.subs, k.subChannel);
  }

  /** From the moment a connection closes until it is gone, in every interleaving, the frames it returns are
      those of its un-acknowledged list, then those its channel carried, each once and in order, then those
      that arrived in time. */
  lemma HeldFramesGoBack(b: Broker, order: seq<string>, actions: seq<Action>, b': Broker, c: nat)
    returns (early: seq<nat>)
    requires Local(b) && Enabled(b, Close(c, order)) && Leads(Next(b, Close(c, order)), actions, b')
    requires c < |b'.conns| && b'.conns[c].phase.Closed?
    ensures c < |Next(b, Close(c, order)).conns|
    ensures Returned(Logged(b, b', c)) ==
            Carried(b.heap.subs, b.conns[c].unacked) + (Carried(b.heap.subs, b.conns[c].subChannel) + early)
    ensures Arrivals(Next(b, Close(c, order)), actions, b', c) ==
            early + Carried(b'.heap.subs, b'.conns[c].subChannel)
  {
    var n := Next(b, Close(c, order));
    CloseReturns(b, c, order);
    early := DrainedFramesGoBack(n, actions, b', c);
    LoggedOn(b, n, b', c);
  }

  lemma {:induction false} CarriedCount(subs: seq<Sub>, l: seq<nat>, f: nat)
    ensures multiset(Carried(subs, l))[f] == Held(subs, l, f)
  {
    if l != [] { CarriedCount(subs, l[1..], f); }
  }

  /** What a connection holds it holds once: no frame is both un-acknowledged and in the channel, or twice
      in either. */
  lemma HeldFramesAreDistinct(actions: seq<Action>, b: Broker, c: nat, f: nat)
    requires Leads(INITIAL, actions, b) && b.panic.None? && c < |b.conns|
    ensures multiset(Carried(b.heap.subs, b.conns[c].unacked) + Carried(b.heap.subs, b.conns[c].subChannel))[f] <= 1
  {
    RunInv(INITIAL, actions, b);
    HeldOnce(b, c, f);
    CarriedCount(b.heap.subs, b.conns[c].unacked, f);
    CarriedCount(b.heap.subs, b.conns[c].subChannel, f);
  }
}
