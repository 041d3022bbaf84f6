/** A connection can always end, by its own steps alone, and what it then leaves to the processor. */
module Shutdown {
  import opened Text
  import opened Broker
  import opened Ledger
  import opened BrokerRuns

  /** Only steps with which connection c cleans up. */
  ghost predicate Own(actions: seq<Action>, c: nat) {
    forall a :: a in actions ==> a == Flush(c) || a == Drain(c) || (a.Close? && a.c == c)
  }

  /** One UnsubscribeOp for each subscription in the order of the visit. */
  function Withdrawn(k: Conn, order: seq<string>): seq<Request>
    requires forall id :: id in order ==> id in k.subs
  {
    seq(|order|, i requires 0 <= i < |order| => UnsubscribeOp(k.subs[order[i]]))
  }

  /** One RequeueOp for the frame that each subscription of the list holds. */
  function Back(h: Heap, l: seq<nat>): seq<Request>
    requires AllHold(h, l)
  {
    seq(|l|, i requires 0 <= i < |l| => assert l[i] in l; RequeueOp(h.subs[l[i]].frame.value))
  }

  lemma {:induction false} UnsubscriptionsAre(k: Conn, order: seq<string>)
    requires forall id :: id in order ==> id in k.subs
    ensures Unsubscriptions(k, order) == Withdrawn(k, order)
  {
    if order != [] {
      UnsubscriptionsAre(k, order[1..]);
      assert Withdrawn(k, order) == [UnsubscribeOp(k.subs[order[0]])] + Withdrawn(k, order[1..]);
    }
  }

  lemma {:induction false} RequeuesAre(h: Heap, l: seq<nat>)
    requires AllHold(h, l)
    ensures Requeues(FramesHeld(h, l)) == Back(h, l)
  {
    if l != [] {
      assert forall s :: s in l[1..] ==> s in l;
      RequeuesAre(h, l[1..]);
      assert l[0] in l && FramesHeld(h, l)[1..] == FramesHeld(h, l[1..]);
      assert Back(h, l) == [RequeueOp(h.subs[l[0]].frame.value)] + Back(h, l[1..]);
    }
  }

  ghost predicate Sound(b: Broker, c: nat) { Inv(b, multiset{}, multiset{}) && b.panic.None? && c < |b.conns| }

  /** The handler's requests go out one by one. */
  lemma {:induction false} FlushAll(b: Broker, c: nat) returns (actions: seq<Action>, b': Broker)
    requires Sound(b, c)
    ensures Leads(b, actions, b') && Own(actions, c) && Sound(b', c)
    ensures b'.conns[c] == b.conns[c].(outbox := []) && b'.heap == b.heap
    ensures b'.requests == b.requests + b.conns[c].outbox
    decreases |b.conns[c].outbox|
  {
    var out := b.conns[c].outbox;
    if out == [] {
      actions, b' := [], b;
      assert b.requests + out == b.requests;
    } else {
      var n := Next(b, Flush(c));
      NextInv(b, Flush(c));
      var rest: seq<Action>;
      rest, b' := FlushAll(n, c);
      actions := [Flush(c)] + rest;
      assert actions[1..] == rest;
      assert b.requests + out == (b.requests + [out[0]]) + out[1..];
    }
  }

  lemma ChannelHolds(b: Broker, c: nat)
    requires Local(b) && c < |b.conns|
    ensures AllHold(b.heap, b.conns[c].subChannel) && AllHold(b.heap, b.conns[c].unacked)
  {
    assert ConnOk(b.heap, c, b.conns[c]);
  }

  /** One subscription is taken from the channel and its frame goes back. */
  lemma DrainOne(b: Broker, c: nat) returns (b': Broker)
    requires Sound(b, c) && b.conns[c].phase.Draining? && b.conns[c].outbox == [] && b.conns[c].subChannel != []
    ensures Leads(b, [Drain(c), Flush(c)], b') && Sound(b', c) && AllHold(b.heap, b.conns[c].subChannel)
    ensures var k, k' := b.conns[c], b'.conns[c];
            k'.phase == k.phase && k'.outbox == [] && k'.subChannel == k.subChannel[1..] && b'.heap == b.heap
    ensures AllHold(b.heap, b.conns[c].subChannel[..1]) && AllHold(b.heap, b.conns[c].subChannel[1..])
    ensures b'.requests == b.requests + Back(b.heap, b.conns[c].subChannel[..1])
  {
    ChannelHolds(b, c);
    NextInv(b, Drain(c));
    var n := Next(b, Drain(c));
    NextInv(n, Flush(c));
    b' := Next(n, Flush(c));
    var two := [Drain(c), Flush(c)];
    assert two[1..] == [Flush(c)] && two[1..][1..] == [] && Leads(b', [], b') && Leads(n, two[1..], b');
    assert Back(b.heap, b.conns[c].subChannel[..1]) == n.conns[c].outbox;
  }

  lemma {:induction false} DrainAll(b: Broker, c: nat) returns (actions: seq<Action>, b': Broker)
    requires Sound(b, c) && b.conns[c].phase.Draining? && b.conns[c].outbox == []
    ensures Leads(b, actions, b') && Own(actions, c) && Sound(b', c) && AllHold(b.heap, b.conns[c].subChannel)
    ensures var k' := b'.conns[c];
            k'.phase == b.conns[c].phase && k'.outbox == [] && k'.subChannel == [] && b'.heap == b.heap
    ensures b'.requests == b.requests + Back(b.heap, b.conns[c].subChannel)
    decreases |b.conns[c].subChannel|
  {
    var l := b.conns[c].subChannel;
    ChannelHolds(b, c);
    if l == [] {
      actions, b' := [], b;
      assert b.requests + Back(b.heap, l) == b.requests;
    } else {
      var m := DrainOne(b, c);
      var rest: seq<Action>;
      rest, b' := DrainAll(m, c);
      LeadsConcat(b, [Drain(c), Flush(c)], m, rest, b');
      actions := [Drain(c), Flush(c)] + rest;
      BackSplit(b.requests, b.heap, l);
    }
  }

  lemma BackSplit(rs: seq<Request>, h: Heap, l: seq<nat>)
    requires l != [] && AllHold(h, l) && AllHold(h, l[..1]) && AllHold(h, l[1..])
    ensures (rs + Back(h, l[..1])) + Back(h, l[1..]) == rs + Back(h, l)
  {
    assert Back(h, l[..1]) + Back(h, l[1..]) == Back(h, l);
  }

  /** With its channel empty the connection says goodbye to the processor and is gone. */
  lemma LastSteps(b: Broker, c: nat) returns (b': Broker)
    requires Sound(b, c) && b.conns[c].phase == Draining(false) && b.conns[c].outbox == [] && b.conns[c].subChannel == []
    ensures Leads(b, [Drain(c), Flush(c), Drain(c)], b') && Sound(b', c)
    ensures b'.conns[c].phase == Closed && b'.conns[c].outbox == [] && b'.conns[c].subChannel == [] && b'.heap == b.heap
    ensures b'.requests == b.requests + [DisconnectedOp(c)]
  {
    NextInv(b, Drain(c));
    var n := Next(b, Drain(c));
    NextInv(n, Flush(c));
    var m := Next(n, Flush(c));
    NextInv(m, Drain(c));
    b' := Next(m, Drain(c));
    var three := [Drain(c), Flush(c), Drain(c)];
    assert three[1..][1..][1..] == [] && three[1..] == [Flush(c), Drain(c)] && three[1..][1..] == [Drain(c)];
    assert Leads(b', [], b') && Leads(m, [Drain(c)], b') && Leads(n, three[1..], b');
  }

  /** Closing gives up the subscriptions and the un-acknowledged frames. */
  lemma CloseNow(b: Broker, c: nat, order: seq<string>) returns (b': Broker)
    requires Sound(b, c) && b.conns[c].phase in {Connecting, Running, Broken} && b.conns[c].outbox == []
    requires Visits(b.conns[c], order)
    ensures Leads(b, [Close(c, order)], b') && Sound(b', c) && AllHold(b.heap, b.conns[c].unacked)
    ensures var k, k' := b.conns[c], b'.conns[c];
            && k'.phase == Draining(false) && k'.subChannel == k.subChannel && k'.subs == map[] && k'.unacked == []
            && k'.outbox == Withdrawn(k, order) + Back(b.heap, k.unacked) && b'.requests == b.requests
    ensures |b'.heap.subs| == |b.heap.subs|
    ensures forall s :: 0 <= s < |b.heap.subs| ==> b'.heap.subs[s].frame == b.heap.subs[s].frame
  {
    ChannelHolds(b, c);
    NextInv(b, Close(c, order));
    b' := Next(b, Close(c, order));
    UnsubscriptionsAre(b.conns[c], order);
    RequeuesAre(b.heap, b.conns[c].unacked);
    assert [Close(c, order)][1..] == [] && Leads(b', [], b');
  }

  lemma SameBack(h: Heap, h': Heap, l: seq<nat>)
    requires AllHold(h, l) && |h'.subs| == |h.subs|
    requires forall s :: 0 <= s < |h.subs| ==> h'.subs[s].frame == h.subs[s].frame
    ensures AllHold(h', l) && Back(h', l) == Back(h, l)
  {
    forall i | 0 <= i < |l| ensures l[i] < |h.subs| && h'.subs[l[i]].frame == h.subs[l[i]].frame { assert l[i] in l; }
  }

  /** Up to the first look into the channel. */
  lemma GivesUp(b: Broker, c: nat, order: seq<string>) returns (actions: seq<Action>, b': Broker)
    requires Sound(b, c) && b.conns[c].phase in {Connecting, Running, Broken} && Visits(b.conns[c], order)
    ensures Leads(b, actions, b') && Own(actions, c) && Sound(b', c)
    ensures var k, k' := b.conns[c], b'.conns[c];
            && AllHold(b.heap, k.unacked) && AllHold(b.heap, k.subChannel) && AllHold(b'.heap, k.subChannel)
            && k'.phase == Draining(false) && k'.subChannel == k.subChannel && k'.outbox == []
            && b'.requests == b.requests + k.outbox + Withdrawn(k, order) + Back(b.heap, k.unacked)
            && Back(b'.heap, k.subChannel) == Back(b.heap, k.subChannel)
  {
    ChannelHolds(b, c);
    var k := b.conns[c];
    var first, b1 := FlushAll(b, c);
    var b2 := CloseNow(b1, c, order);
    var second: seq<Action>;
    second, b' := FlushAll(b2, c);
    SameBack(b.heap, b2.heap, k.subChannel);
    assert Withdrawn(b1.conns[c], order) == Withdrawn(k, order);
    FourParts(b.requests + k.outbox, Withdrawn(k, order), Back(b.heap, k.unacked));
    actions := ThreeRuns(b, first, b1, [Close(c, order)], b2, second, b', c);
  }

  /** From every reachable state a connection that is not yet ending can end by its own steps alone, whatever the
      order in which it visits its subscriptions. The processor then has, after the requests that were still to
      be sent, one withdrawal for each subscription, the un-acknowledged frames and the frames of the channel in
      their order, and the goodbye. */
  lemma EveryConnectionCanEnd(run: seq<Action>, b: Broker, c: nat, order: seq<string>) returns (actions: seq<Action>, b': Broker)
    requires Leads(INITIAL, run, b) && b.panic.None? && c < |b.conns| && b.conns[c].phase in {Connecting, Running, Broken}
    requires Visits(b.conns[c], order)
    ensures Leads(b, actions, b') && Own(actions, c) && b'.panic.None? && c < |b'.conns|
    ensures b'.conns[c].phase == Closed && b'.conns[c].outbox == [] && b'.conns[c].subChannel == []
    ensures var k := b.conns[c];
            && AllHold(b.heap, k.unacked) && AllHold(b.heap, k.subChannel)
            && b'.requests == b.requests + k.outbox + Withdrawn(k, order) + Back(b.heap, k.unacked) +
                              Back(b.heap, k.subChannel) + [DisconnectedOp(c)]
  {
    RunInv(INITIAL, run, b);
    var first, b1 := GivesUp(b, c, order);
    var second, b2 := DrainAll(b1, c);
    b' := LastSteps(b2, c);
    actions := ThreeRuns(b, first, b1, second, b2, [Drain(c), Flush(c), Drain(c)], b', c);
  }

  lemma ThreeRuns(b: Broker, first: seq<Action>, b1: Broker, second: seq<Action>, b2: Broker, third: seq<Action>, b': Broker,
                  c: nat) returns (actions: seq<Action>)
    requires Leads(b, first, b1) && Leads(b1, second, b2) && Leads(b2, third, b')
    requires Own(first, c) && Own(second, c) && Own(third, c)
    ensures Leads(b, actions, b') && Own(actions, c)
  {
    LeadsConcat(b, first, b1, second, b2);
    LeadsConcat(b, first + second, b2, third, b');
    actions := first + second + third;
  }

  lemma FourParts(a: seq<Request>, b: seq<Request>, c: seq<Request>)
    ensures a + (b + c) == a + b + c
  {
  }
}
