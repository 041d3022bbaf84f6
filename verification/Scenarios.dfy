/** Complete runs of the broker with one connection. The main one shows that the broker does not survive
    the first acknowledgement of an ack-mode subscription, for every queue, subscription id and message. */
module Scenarios {
  import opened Text
  import opened Frames
  import opened Acks
  import opened Queues
  import opened Broker
  import opened Ledger
  import opened Steps
  import opened ConnSteps
  import opened BrokerRuns

  /** The only connection, seen without its log and counters. */
  predicate Only(b: Broker, outbox: seq<Request>, unacked: seq<nat>, subChannel: seq<nat>) {
    && |b.conns| == 1 && b.conns[0].phase == Running
    && b.conns[0].outbox == outbox && b.conns[0].unacked == unacked && b.conns[0].subChannel == subChannel
  }

  /** The only subscription, known to its connection. */
  predicate OnlySub(b: Broker, id: string, dest: string, ack: AckMode, listed: bool, frame: Option<nat>) {
    && b.heap.subs == [Sub.Sub(0, dest, id, ack, 0, listed, frame)] && b.heap.released == {}
    && |b.conns| == 1 && b.conns[0].subs == map[id := 0]
  }

  predicate OnlyQueue(b: Broker, dest: string, idle: seq<nat>) {
    |b.queues| == 1 && b.queues[0].dest == dest && b.queues[0].queue == Queue(idle, [])
  }

  /** A sound state reached by the actions. */
  ghost predicate At(actions: seq<Action>, b: Broker) {
    Leads(INITIAL, actions, b) && Inv(b, multiset{}, multiset{}) && b.panic.None?
  }

  lemma Go(actions: seq<Action>, b: Broker, a: Action)
    requires At(actions, b) && Enabled(b, a) && PanicOf(b, a).None?
    ensures At(actions + [a], Next(b, a))
    ensures forall ack :: Modest(actions, ack) && Calm(a) ==> Modest(actions + [a], ack)
  {
    LeadsOn(INITIAL, actions, b, a);
    NextInv(b, a);
    forall ack | Modest(actions, ack) && Calm(a) ensures Modest(actions + [a], ack) { ModestOn(actions, a, ack); }
  }

  predicate Calm(a: Action) {
    !a.ClientSubscribe? && (a.ClientSend? ==> Lookup(a.frame.header, DESTINATION).Some?)
  }

  lemma FlushOne(actions: seq<Action>, b: Broker, r: Request, unacked: seq<nat>)
    requires At(actions, b) && Only(b, [r], unacked, [])
    ensures At(actions + [Flush(0)], Next(b, Flush(0)))
    ensures Only(Next(b, Flush(0)), [], unacked, [])
    ensures b.requests == [] ==> Next(b, Flush(0)).requests == [r]
    ensures forall ack :: Modest(actions, ack) ==> Modest(actions + [Flush(0)], ack)
  {
    Go(actions, b, Flush(0));
    assert [r][1..] == [];
  }

  ghost predicate Silent(actions: seq<Action>) { forall i :: 0 <= i < |actions| ==> !actions[i].ClientSubscribe? && !actions[i].ClientSend? }

  lemma ConnectOne() returns (actions: seq<Action>, b: Broker)
    ensures At(actions, b) && Only(b, [ConnectedOp(0)], [], []) && AllTame(actions) && Silent(actions)
    ensures b.heap == INITIAL.heap && b.queues == [] && b.requests == [] && b.conns[0].subs == map[]
  {
    assert At([], INITIAL);
    Go([], INITIAL, Accept);
    var b1 := Next(INITIAL, Accept);
    Go([] + [Accept], b1, Handshake(0));
    actions, b := [] + [Accept] + [Handshake(0)], Next(b1, Handshake(0));
  }

  lemma ConnectHandled() returns (actions: seq<Action>, b: Broker)
    ensures At(actions, b) && Only(b, [], [], []) && AllTame(actions) && Silent(actions)
    ensures b.heap == INITIAL.heap && b.queues == [] && b.requests == [] && b.conns[0].subs == map[]
  {
    var as0, b0 := ConnectFlushed();
    Greeted(b0);
    Go(as0, b0, Handle);
    actions, b := as0 + [Handle], Next(b0, Handle);
  }

  lemma ConnectFlushed() returns (actions: seq<Action>, b: Broker)
    ensures At(actions, b) && Only(b, [], [], []) && AllTame(actions) && Silent(actions) && b.requests == [ConnectedOp(0)]
    ensures b.heap == INITIAL.heap && b.queues == [] && b.conns[0].subs == map[]
  {
    var as0, b0 := ConnectOne();
    FlushOne(as0, b0, ConnectedOp(0), []);
    actions, b := as0 + [Flush(0)], Next(b0, Flush(0));
  }

  lemma Greeted(b: Broker)
    requires Local(b) && b.requests == [ConnectedOp(0)]
    ensures Process(b) == b.(requests := [])
  {
    assert [ConnectedOp(0)][1..] == [];
  }

  lemma SubscribeOne(id: string, dest: string, ack: AckMode) returns (actions: seq<Action>, b: Broker)
    ensures At(actions, b) && Only(b, [], [], []) && OnlySub(b, id, dest, ack, false, None) && Modest(actions, ack)
    ensures b.heap.frames == [] && b.queues == [] && b.requests == [SubscribeOp(0)]
  {
    var as0, b0 := ConnectHandled();
    var a := ClientSubscribe(0, id, dest, ack);
    Go(as0, b0, a);
    ModestOn(as0, a, ack);
    FlushOne(as0 + [a], Next(b0, a), SubscribeOp(0), []);
    actions, b := as0 + [a] + [Flush(0)], Next(Next(b0, a), Flush(0));
  }

  lemma AddFirst(b: Broker, id: string, dest: string, ack: AckMode)
    requires Local(b) && Only(b, [], [], []) && OnlySub(b, id, dest, ack, false, None) && IsQueue(dest)
    requires b.queues == [] && b.requests == [SubscribeOp(0)]
    ensures var b' := Process(b);
            OnlySub(b', id, dest, ack, true, None) && OnlyQueue(b', dest, [0]) && b'.requests == []
            && Only(b', [], [], []) && b'.heap.frames == b.heap.frames
  {
    var b1 := FindKeepsLocal(TakeRequest(b), dest);
    assert b1.queues == [Named(dest, Queue([], []))] && QueueIndex(b1.queues, dest) == 0;
    assert Process(b) == DoSubscribe(b1, 0, 0);
    assert [] + [0] == [0];
  }

  lemma SubscribeHandled(id: string, dest: string, ack: AckMode) returns (actions: seq<Action>, b: Broker)
    requires IsQueue(dest)
    ensures At(actions, b) && Only(b, [], [], []) && OnlySub(b, id, dest, ack, true, None) && Modest(actions, ack)
    ensures b.heap.frames == [] && OnlyQueue(b, dest, [0]) && b.requests == []
  {
    var as0, b0 := SubscribeOne(id, dest, ack);
    AddFirst(b0, id, dest, ack);
    Go(as0, b0, Handle);
    actions, b := as0 + [Handle], Next(b0, Handle);
  }

  lemma SendOne(id: string, dest: string, ack: AckMode, f: Frame) returns (actions: seq<Action>, b: Broker)
    requires IsQueue(dest) && Lookup(f.header, DESTINATION) == Some(dest)
    ensures At(actions, b) && Only(b, [], [], []) && OnlySub(b, id, dest, ack, true, None) && Modest(actions, ack)
    ensures OnlyQueue(b, dest, [0]) && b.requests == [EnqueueOp(0)]
    ensures |b.heap.frames| == 1 && DestOf(b.heap, 0) == Some(dest)
  {
    var as0, b0 := SubscribeHandled(id, dest, ack);
    var a := ClientSend(0, f);
    Go(as0, b0, a);
    FlushOne(as0 + [a], Next(b0, a), EnqueueOp(0), []);
    actions, b := as0 + [a] + [Flush(0)], Next(Next(b0, a), Flush(0));
  }

  lemma HandOver(b: Broker, id: string, dest: string, ack: AckMode)
    requires Local(b) && Only(b, [], [], []) && OnlySub(b, id, dest, ack, true, None) && IsQueue(dest)
    requires OnlyQueue(b, dest, [0]) && b.requests == [EnqueueOp(0)]
    requires |b.heap.frames| == 1 && DestOf(b.heap, 0) == Some(dest)
    ensures var b' := Process(b);
            OnlySub(b', id, dest, ack, false, Some(0)) && OnlyQueue(b', dest, []) && b'.requests == []
            && Only(b', [], [], [0])
  {
    var b1 := TakeRequest(b);
    assert QueueIndex(b1.queues, dest) == 0 && FindQueue(b1, dest) == b1;
    assert Process(b) == DoEnqueue(b1, 0, 0, false);
    assert [0][1..] == [] && [] + [0] == [0];
  }

  lemma SendHandled(id: string, dest: string, ack: AckMode, f: Frame) returns (actions: seq<Action>, b: Broker)
    requires IsQueue(dest) && Lookup(f.header, DESTINATION) == Some(dest)
    ensures At(actions, b) && Only(b, [], [], [0]) && OnlySub(b, id, dest, ack, false, Some(0))
    ensures OnlyQueue(b, dest, []) && b.requests == []
  {
    var as0, b0 := SendOne(id, dest, ack, f);
    HandOver(b0, id, dest, ack);
    Go(as0, b0, Handle);
    actions, b := as0 + [Handle], Next(b0, Handle);
  }

  lemma TakeOver(b: Broker, id: string, dest: string, ack: AckMode)
    requires Local(b) && Only(b, [], [], [0]) && OnlySub(b, id, dest, ack, false, Some(0)) && !ack.Auto?
    ensures var b' := DoReceive(b, 0, true);
            OnlySub(b', id, dest, ack, true, Some(0)) && b'.queues == b.queues && b'.requests == b.requests
            && Only(b', [], [0], [])
  {
    assert ChannelOk(b.heap, 0, b.conns[0].subChannel[0]);
    assert [0][1..] == [] && [] + [0] == [0];
  }

  lemma DeliverOne(id: string, dest: string, ack: AckMode, f: Frame) returns (actions: seq<Action>, b: Broker)
    requires !ack.Auto? && IsQueue(dest) && Lookup(f.header, DESTINATION) == Some(dest)
    ensures At(actions, b) && Only(b, [], [0], []) && OnlySub(b, id, dest, ack, true, Some(0))
    ensures OnlyQueue(b, dest, []) && b.requests == []
  {
    var as0, b0 := SendHandled(id, dest, ack, f);
    TakeOver(b0, id, dest, ack);
    Go(as0, b0, Receive(0, true));
    actions, b := as0 + [Receive(0, true)], Next(b0, Receive(0, true));
  }

  lemma GiveBack(b: Broker, id: string, dest: string, msgId: nat)
    requires Local(b) && Only(b, [], [0], []) && OnlySub(b, id, dest, Client, true, Some(0))
    ensures var b' := DoRelease(b, 0, msgId, false);
            Only(b', [SubscribeOp(0)], [], []) && 0 in b'.heap.released && b'.queues == b.queues
            && b'.requests == b.requests && |b'.heap.subs| == 1 && b'.heap.subs[0].dest == dest
  {
    assert Matched(b.heap, 0, msgId, false) && [0][1..] == [];
    assert Taken(b.heap, [], msgId, false) == [] && Kept(b.heap, [], msgId, false) == [];
    assert Taken(b.heap, [0], msgId, false) == [0] && Kept(b.heap, [0], msgId, false) == [];
    assert Released(b.heap, [], false) == [] && Released(b.heap, [0], false) == [SubscribeOp(0)];
  }

  /** For every queue, subscription id, message and acknowledged id: subscribing in client mode, receiving
      the message and acknowledging it brings the broker down when the subscription is announced again. */
  lemma FirstAckPanics(id: string, dest: string, f: Frame, msgId: nat)
    returns (actions: seq<Action>, b: Broker)
    requires IsQueue(dest) && Lookup(f.header, DESTINATION) == Some(dest)
    ensures Leads(INITIAL, actions, b) && b.panic == Some(AlreadyListed)
  {
    var as0, b0 := DeliverOne(id, dest, Client, f);
    var a := ClientRelease(0, msgId, false);
    GiveBack(b0, id, dest, msgId);
    Go(as0, b0, a);
    actions, b := Announce(as0 + [a], Next(b0, a), dest);
  }

  lemma Announce(as0: seq<Action>, b0: Broker, dest: string) returns (actions: seq<Action>, b: Broker)
    requires At(as0, b0) && Only(b0, [SubscribeOp(0)], [], []) && b0.requests == [] && OnlyQueue(b0, dest, [])
    requires |b0.heap.subs| == 1 && b0.heap.subs[0].dest == dest && IsQueue(dest) && 0 in b0.heap.released
    ensures Leads(INITIAL, actions, b) && b.panic == Some(AlreadyListed)
  {
    FlushOne(as0, b0, SubscribeOp(0), []);
    var b1 := Next(b0, Flush(0));
    assert QueueIndex(b1.queues, dest) == 0;
    assert StaleAnnouncement(b1);
    LeadsOn(INITIAL, as0 + [Flush(0)], b1, Handle);
    NextInv(b1, Handle);
    actions, b := as0 + [Flush(0)] + [Handle], Next(b1, Handle);
  }

  /** For every queue, subscription id, message, unknown ack mode and acknowledged id: subscribing under that
      mode, receiving the message and acknowledging it brings the broker down. */
  lemma UnknownModePanics(id: string, dest: string, mode: string, f: Frame, msgId: nat)
    returns (actions: seq<Action>, b: Broker)
    requires IsQueue(dest) && Lookup(f.header, DESTINATION) == Some(dest)
    ensures Leads(INITIAL, actions, b) && b.panic == Some(InvalidAckMode)
  {
    var as0, b0 := DeliverOne(id, dest, Invalid(mode), f);
    var a := ClientRelease(0, msgId, false);
    assert 0 in b0.conns[0].unacked && InvalidModeWaiting(b0, 0);
    LeadsOn(INITIAL, as0, b0, a);
    NextInv(b0, a);
    actions, b := as0 + [a], Next(b0, a);
  }

  /** A message without a destination brings the broker down when it is handled. */
  lemma UnaddressedPanics(f: Frame) returns (actions: seq<Action>, b: Broker)
    requires Lookup(f.header, DESTINATION).None?
    ensures Leads(INITIAL, actions, b) && b.panic == Some(MissingDestination)
  {
    var as0, b0 := SendUnaddressed(f);
    assert DestOf(b0.heap, 0).None? && Undeliverable(b0) && !StaleAnnouncement(b0);
    LeadsOn(INITIAL, as0, b0, Handle);
    NextInv(b0, Handle);
    actions, b := as0 + [Handle], Next(b0, Handle);
  }

  lemma SendUnaddressed(f: Frame) returns (actions: seq<Action>, b: Broker)
    requires Lookup(f.header, DESTINATION).None?
    ensures At(actions, b) && b.requests == [EnqueueOp(0)] && |b.heap.frames| == 1 && b.heap.frames[0].header == f.header
  {
    var as0, b0 := ConnectHandled();
    var a := ClientSend(0, f);
    Go(as0, b0, a);
    FlushOne(as0 + [a], Next(b0, a), EnqueueOp(0), []);
    actions, b := as0 + [a] + [Flush(0)], Next(Next(b0, a), Flush(0));
  }
}
