/** Using a subscription id twice on a connection breaks the leash: a run, in automatic mode and without a
    panic, after which a subscription of a connection that is gone waits for ever. */
module Reuse {
  import opened Text
  import opened Frames
  import opened Acks
  import opened Queues
  import opened Broker
  import opened Steps
  import opened Effects
  import opened BrokerRuns
  import opened Scenarios
  import opened Leash

  /** A state with one connection and one queue, on which nothing is stored. */
  datatype Scene = Scene(phase: Phase, ids: map<string, nat>, channel: seq<nat>, outbox: seq<Request>,
                         requests: seq<Request>, subs: seq<Sub>, idle: seq<nat>)

  predicate Shows(b: Broker, dest: string, x: Scene) {
    && |b.conns| == 1 && b.conns[0].phase == x.phase && b.conns[0].subs == x.ids && b.conns[0].unacked == []
    && b.conns[0].subChannel == x.channel && b.conns[0].outbox == x.outbox && b.requests == x.requests
    && b.heap.subs == x.subs && b.heap.released == {} && IsQueue(dest)
    && |b.queues| == 1 && b.queues[0].dest == dest && b.queues[0].queue == Queue(x.idle, [])
    && Addressed(b.heap.frames, dest)
  }

  predicate Addressed(frames: seq<Frame>, dest: string) {
    forall f :: 0 <= f < |frames| ==> Lookup(frames[f].header, DESTINATION) == Some(dest)
  }

  function Automatic(id: string, dest: string, listed: bool, frame: Option<nat>): Sub {
    Sub.Sub(0, dest, id, Auto, 0, listed, frame)
  }

  ghost predicate Here(actions: seq<Action>, b: Broker, dest: string, x: Scene) {
    At(actions, b) && Shows(b, dest, x) && AllTame(actions)
  }

  lemma Then(actions: seq<Action>, b: Broker, a: Action)
    requires At(actions, b) && AllTame(actions) && Tame(a) && Enabled(b, a) && PanicOf(b, a).None?
    ensures At(actions + [a], Next(b, a)) && AllTame(actions + [a])
  {
    Go(actions, b, a);
  }

  // ---------- what the processor does ----------

  lemma AtHome(b: Broker, dest: string, x: Scene)
    requires Local(b) && Shows(b, dest, x) && b.requests != []
    ensures QueueIndex(TakeRequest(b).queues, dest) == 0 && FindQueue(TakeRequest(b), dest) == TakeRequest(b)
  {
  }

  lemma AddIdle(b: Broker, dest: string, x: Scene, s: nat)
    requires Local(b) && Shows(b, dest, x) && x.requests == [SubscribeOp(s)] && s < |x.subs|
    requires x.subs[s].dest == dest && !x.subs[s].listed
    ensures Shows(Process(b), dest, x.(requests := [], subs := x.subs[s := x.subs[s].(listed := true)], idle := x.idle + [s]))
  {
    AtHome(b, dest, x);
    assert Process(b) == DoSubscribe(TakeRequest(b), 0, s);
  }

  lemma SubscribeThen(as0: seq<Action>, b0: Broker, dest: string, x: Scene, s: nat)
    returns (actions: seq<Action>, b: Broker)
    requires Here(as0, b0, dest, x) && x.requests == [SubscribeOp(s)] && s < |x.subs|
    requires x.subs[s].dest == dest && !x.subs[s].listed
    ensures Here(actions, b, dest, x.(requests := [], subs := x.subs[s := x.subs[s].(listed := true)], idle := x.idle + [s]))
    ensures |b.heap.frames| == |b0.heap.frames|
  {
    AddIdle(b0, dest, x, s);
    ProcessMild(b0);
    Then(as0, b0, Handle);
    actions, b := as0 + [Handle], Next(b0, Handle);
  }

  /** The longest-waiting subscription gets the frame on its way. */
  lemma HandOn(b: Broker, dest: string, x: Scene, f: nat)
    requires Local(b) && Shows(b, dest, x) && x.requests == [EnqueueOp(f)] && f < |b.heap.frames|
    requires x.idle == [0] && |x.subs| == 1 && x.subs[0].frame.None? && x.subs[0].conn == 0 && x.channel == []
    ensures Shows(Process(b), dest,
                  x.(requests := [], idle := [], channel := [0], subs := [x.subs[0].(listed := false, frame := Some(f))]))
  {
    AtHome(b, dest, x);
    assert DestOf(b.heap, f) == Some(dest);
    assert Process(b) == DoEnqueue(TakeRequest(b), 0, f, false);
    assert [0][1..] == [] && [] + [0] == [0];
    LookupAfterSet(b.heap.frames[f].header, SUBSCRIPTION, x.subs[0].id, DESTINATION);
  }

  /** Withdrawing a subscription that does not wait changes nothing; one that waits first leaves the list. */
  lemma Withdraw(b: Broker, dest: string, x: Scene, s: nat, more: seq<Request>)
    requires Local(b) && Shows(b, dest, x) && x.requests == [UnsubscribeOp(s)] + more && s < |x.subs|
    requires x.subs[s].dest == dest && (s in x.idle ==> x.idle[0] == s)
    ensures Shows(Process(b), dest,
                  if s in x.idle
                  then x.(requests := more, idle := x.idle[1..], subs := x.subs[s := x.subs[s].(listed := false)])
                  else x.(requests := more))
  {
    AtHome(b, dest, x);
    assert Process(b) == DoUnsubscribe(TakeRequest(b), 0, s);
    assert ([UnsubscribeOp(s)] + more)[1..] == more;
  }

  lemma HandleThen(as0: seq<Action>, b0: Broker, dest: string, x: Scene)
    returns (actions: seq<Action>, b: Broker)
    requires At(as0, b0) && AllTame(as0) && b0.requests != [] && PanicOf(b0, Handle).None?
    requires Shows(Process(b0), dest, x)
    ensures Here(actions, b, dest, x) && |b.heap.frames| == |b0.heap.frames|
  {
    ProcessMild(b0);
    Then(as0, b0, Handle);
    actions, b := as0 + [Handle], Next(b0, Handle);
  }

  // ---------- the story ----------

  lemma Asked(id: string, dest: string) returns (actions: seq<Action>, b: Broker)
    ensures At(actions, b) && AllTame(actions) && Only(b, [], [], []) && b.requests == [SubscribeOp(0)]
    ensures b.heap.subs == [Automatic(id, dest, false, None)] && b.heap.released == {} && b.heap.frames == []
    ensures b.conns[0].subs == map[id := 0] && b.queues == []
  {
    var as0, b0 := ConnectHandled();
    var a := ClientSubscribe(0, id, dest, Auto);
    Go(as0, b0, a);
    var b1 := Next(b0, a);
    FlushOne(as0 + [a], b1, SubscribeOp(0), []);
    actions, b := as0 + [a] + [Flush(0)], Next(b1, Flush(0));
  }

  /** The subscription waits on its queue. */
  lemma Waiting(id: string, dest: string) returns (actions: seq<Action>, b: Broker)
    requires IsQueue(dest)
    ensures Here(actions, b, dest, Scene(Running, map[id := 0], [], [], [], [Automatic(id, dest, true, None)], [0]))
    ensures b.heap.frames == []
  {
    var as0, b0 := Asked(id, dest);
    FirstIdle(b0, id, dest);
    Then(as0, b0, Handle);
    actions, b := as0 + [Handle], Next(b0, Handle);
  }

  lemma FirstIdle(b: Broker, id: string, dest: string)
    requires Local(b) && Only(b, [], [], []) && b.heap.subs == [Automatic(id, dest, false, None)] && IsQueue(dest)
    requires b.heap.released == {} && b.conns[0].subs == map[id := 0] && b.heap.frames == []
    requires b.queues == [] && b.requests == [SubscribeOp(0)]
    ensures Shows(Process(b), dest, Scene(Running, map[id := 0], [], [], [], [Automatic(id, dest, true, None)], [0]))
    ensures Process(b).heap.frames == []
  {
    var b1 := FindKeepsLocal(TakeRequest(b), dest);
    assert b1.queues == [Named(dest, Queue([], []))] && QueueIndex(b1.queues, dest) == 0;
    assert Process(b) == DoSubscribe(b1, 0, 0);
    assert [] + [0] == [0];
  }

  function Sent(id: string, dest: string): Scene {
    Scene(Running, map[id := 0], [0], [], [], [Automatic(id, dest, false, Some(0))], [])
  }

  lemma SendScene(b: Broker, dest: string, x: Scene, f: Frame)
    requires Shows(b, dest, x) && x.outbox == [] && Lookup(f.header, DESTINATION) == Some(dest) && b.heap.frames == []
    ensures Shows(DoSend(b, 0, f), dest, x.(outbox := [EnqueueOp(0)]))
  {
  }

  /** A message is in the subscription's channel. */
  lemma InChannel(id: string, dest: string, f: Frame) returns (actions: seq<Action>, b: Broker)
    requires IsQueue(dest) && Lookup(f.header, DESTINATION) == Some(dest)
    ensures Here(actions, b, dest, Sent(id, dest)) && |b.heap.frames| == 1
  {
    var as0, b0 := Waiting(id, dest);
    var x := Scene(Running, map[id := 0], [], [], [], [Automatic(id, dest, true, None)], [0]);
    SendScene(b0, dest, x, f);
    Then(as0, b0, ClientSend(0, f));
    var b1 := Next(b0, ClientSend(0, f));
    actions, b := FlushThen(as0 + [ClientSend(0, f)], b1, dest, x.(outbox := [EnqueueOp(0)]), EnqueueOp(0));
    assert x.requests + [EnqueueOp(0)] == [EnqueueOp(0)];
    actions, b := Handed(actions, b, id, dest, x.(requests := [EnqueueOp(0)]));
  }

  lemma FlushThen(as0: seq<Action>, b0: Broker, dest: string, x: Scene, r: Request)
    returns (actions: seq<Action>, b: Broker)
    requires Here(as0, b0, dest, x) && x.outbox == [r]
    ensures Here(actions, b, dest, x.(outbox := [], requests := x.requests + [r])) && b.heap == b0.heap
  {
    Then(as0, b0, Flush(0));
    assert [r][1..] == [];
    actions, b := as0 + [Flush(0)], Next(b0, Flush(0));
  }

  lemma Handed(as0: seq<Action>, b0: Broker, id: string, dest: string, x: Scene)
    returns (actions: seq<Action>, b: Broker)
    requires x == Scene(Running, map[id := 0], [], [], [EnqueueOp(0)], [Automatic(id, dest, true, None)], [0])
    requires Here(as0, b0, dest, x) && |b0.heap.frames| == 1
    ensures Here(actions, b, dest, Sent(id, dest)) && |b.heap.frames| == 1
  {
    HandOn(b0, dest, x, 0);
    assert DestOf(b0.heap, 0) == Some(dest);
    ProcessMild(b0);
    Then(as0, b0, Handle);
    actions, b := as0 + [Handle], Next(b0, Handle);
  }

  lemma EndScene(b: Broker, dest: string, x: Scene, id: string, s: nat)
    requires Shows(b, dest, x) && x.outbox == [] && x.ids == map[id := s]
    ensures Shows(DoEndSub(b, 0, id), dest, x.(ids := map[], outbox := [UnsubscribeOp(s)]))
  {
    assert x.ids - {id} == map[];
  }

  lemma NewScene(b: Broker, dest: string, x: Scene, id: string)
    requires Shows(b, dest, x) && x.outbox == [] && x.ids == map[]
    ensures Shows(DoNewSub(b, 0, id, dest, Auto), dest,
                  x.(ids := map[id := |x.subs|], outbox := [SubscribeOp(|x.subs|)],
                     subs := x.subs + [Automatic(id, dest, false, None)]))
  {
  }

  lemma AsksToGiveUp(id: string, dest: string, f: Frame) returns (actions: seq<Action>, b: Broker)
    requires IsQueue(dest) && Lookup(f.header, DESTINATION) == Some(dest)
    ensures Here(actions, b, dest, Sent(id, dest).(ids := map[], requests := [UnsubscribeOp(0)])) && |b.heap.frames| == 1
  {
    var as0, b0 := InChannel(id, dest, f);
    var x, r := Sent(id, dest), UnsubscribeOp(0);
    EndScene(b0, dest, x, id, 0);
    Then(as0, b0, ClientUnsubscribe(0, id));
    var y := x.(ids := map[], outbox := [r]);
    actions, b := FlushThen(as0 + [ClientUnsubscribe(0, id)], Next(b0, ClientUnsubscribe(0, id)), dest, y, r);
    assert [] + [r] == [r];
  }

  /** UNSUBSCRIBE while the message is in the channel. */
  lemma GivenUp(id: string, dest: string, f: Frame) returns (actions: seq<Action>, b: Broker)
    requires IsQueue(dest) && Lookup(f.header, DESTINATION) == Some(dest)
    ensures Here(actions, b, dest, Sent(id, dest).(ids := map[])) && |b.heap.frames| == 1
  {
    var x, r := Sent(id, dest).(ids := map[]), UnsubscribeOp(0);
    actions, b := AsksToGiveUp(id, dest, f);
    assert [r] + [] == [r];
    Withdraw(b, dest, x.(requests := [r]), 0, []);
    actions, b := HandleThen(actions, b, dest, x);
  }

  function Again(id: string, dest: string): Scene {
    Scene(Running, map[id := 1], [0], [], [], [Automatic(id, dest, false, Some(0)), Automatic(id, dest, true, None)], [1])
  }

  /** SUBSCRIBE with the same id. */
  lemma Reused(id: string, dest: string, f: Frame) returns (actions: seq<Action>, b: Broker)
    requires IsQueue(dest) && Lookup(f.header, DESTINATION) == Some(dest)
    ensures Here(actions, b, dest, Again(id, dest)) && |b.heap.frames| == 1
  {
    var as0, b0 := GivenUp(id, dest, f);
    var x, a, r := Sent(id, dest).(ids := map[]), ClientSubscribe(0, id, dest, Auto), SubscribeOp(1);
    NewScene(b0, dest, x, id);
    Then(as0, b0, a);
    var subs := [Automatic(id, dest, false, Some(0)), Automatic(id, dest, false, None)];
    var y := x.(ids := map[id := 1], outbox := [r], subs := subs);
    actions, b := FlushThen(as0 + [a], Next(b0, a), dest, y, r);
    assert [] + [r] == [r];
    actions, b := SubscribeThen(actions, b, dest, y.(outbox := [], requests := [r]), 1);
    assert [] + [1] == [1] && subs[1 := Automatic(id, dest, true, None)] == Again(id, dest).subs;
  }

  lemma ReceiveScene(b: Broker, id: string, dest: string)
    requires Local(b) && Shows(b, dest, Again(id, dest)) && |b.heap.frames| == 1
    ensures Shows(DoReceive(b, 0, true), dest,
                  Again(id, dest).(channel := [], outbox := [SubscribeOp(0)],
                                   subs := [Automatic(id, dest, false, None), Automatic(id, dest, true, None)]))
  {
    assert ConnOk(b.heap, 0, b.conns[0]) && b.conns[0].subChannel[0] in b.conns[0].subChannel;
    assert ChannelOk(b.heap, 0, 0);
    assert [0][1..] == [];
    StampKeepsDest(b.heap.frames[0], NextId(b.conns[0].lastMsgId), Auto);
  }

  function Both(id: string, dest: string): Scene {
    Scene(Running, map[id := 1], [], [], [], [Automatic(id, dest, true, None), Automatic(id, dest, true, None)], [1, 0])
  }

  /** The message is delivered under the new id, and the old subscription announced again. */
  lemma BothWait(id: string, dest: string, f: Frame) returns (actions: seq<Action>, b: Broker)
    requires IsQueue(dest) && Lookup(f.header, DESTINATION) == Some(dest)
    ensures Here(actions, b, dest, Both(id, dest))
  {
    var as0, b0 := Reused(id, dest, f);
    var r := SubscribeOp(0);
    ReceiveScene(b0, id, dest);
    Then(as0, b0, Receive(0, true));
    var subs := [Automatic(id, dest, false, None), Automatic(id, dest, true, None)];
    var y := Again(id, dest).(channel := [], outbox := [r], subs := subs);
    actions, b := FlushThen(as0 + [Receive(0, true)], Next(b0, Receive(0, true)), dest, y, r);
    assert [] + [r] == [r];
    actions, b := SubscribeThen(actions, b, dest, y.(outbox := [], requests := [r]), 0);
    assert [1] + [0] == [1, 0] && subs[0 := Automatic(id, dest, true, None)] == Both(id, dest).subs;
  }

  lemma CloseScene(b: Broker, id: string, dest: string)
    requires Local(b) && Shows(b, dest, Both(id, dest))
    ensures Visits(b.conns[0], [id])
    ensures Shows(DoClose(b, 0, [id]), dest,
                  Both(id, dest).(phase := Draining(false), ids := map[], outbox := [UnsubscribeOp(1)]))
  {
    var k := b.conns[0];
    assert Visits(k, [id]) && [id][1..] == [];
    assert Unsubscriptions(k, [id]) == [UnsubscribeOp(1)];
    assert Requeues(FramesHeld(b.heap, k.unacked)) == [] && [UnsubscribeOp(1)] + [] == [UnsubscribeOp(1)];
    assert Unlist(b.heap.subs, []) == b.heap.subs;
  }

  lemma DrainThen(as0: seq<Action>, b0: Broker, dest: string, x: Scene) returns (actions: seq<Action>, b: Broker)
    requires Here(as0, b0, dest, x) && x.phase.Draining? && x.channel == [] && x.outbox == []
    ensures Here(actions, b, dest,
                 if x.phase.last then x.(phase := Closed)
                 else x.(phase := Draining(true), outbox := [DisconnectedOp(0)]))
  {
    Then(as0, b0, Drain(0));
    actions, b := as0 + [Drain(0)], Next(b0, Drain(0));
  }

  lemma StillDraining(id: string, dest: string, f: Frame) returns (actions: seq<Action>, b: Broker)
    requires IsQueue(dest) && Lookup(f.header, DESTINATION) == Some(dest)
    ensures Here(actions, b, dest,
                 Both(id, dest).(phase := Draining(false), ids := map[], requests := [UnsubscribeOp(1)]))
  {
    var as0, b0 := BothWait(id, dest, f);
    var a, u := Close(0, [id]), UnsubscribeOp(1);
    CloseScene(b0, id, dest);
    Then(as0, b0, a);
    var x := Both(id, dest).(phase := Draining(false), ids := map[], outbox := [u]);
    actions, b := FlushThen(as0 + [a], Next(b0, a), dest, x, u);
    assert [] + [u] == [u];
  }

  function Gone(id: string, dest: string): Scene {
    Both(id, dest).(phase := Closed, ids := map[], requests := [UnsubscribeOp(1), DisconnectedOp(0)])
  }

  lemma Closing(id: string, dest: string, f: Frame) returns (actions: seq<Action>, b: Broker)
    requires IsQueue(dest) && Lookup(f.header, DESTINATION) == Some(dest)
    ensures Here(actions, b, dest, Gone(id, dest))
  {
    actions, b := StillDraining(id, dest, f);
    var u, d := UnsubscribeOp(1), DisconnectedOp(0);
    var x := Both(id, dest).(phase := Draining(false), ids := map[], requests := [u]);
    actions, b := DrainThen(actions, b, dest, x);
    actions, b := FlushThen(actions, b, dest, x.(phase := Draining(true), outbox := [d]), d);
    assert [u] + [d] == [u, d];
    actions, b := DrainThen(actions, b, dest, x.(phase := Draining(true), requests := [u, d]));
  }

  function Left(id: string, dest: string): Scene {
    Gone(id, dest).(requests := [DisconnectedOp(0)], idle := [0],
                    subs := [Automatic(id, dest, true, None), Automatic(id, dest, false, None)])
  }

  lemma Withdrawn(id: string, dest: string, f: Frame) returns (actions: seq<Action>, b: Broker)
    requires IsQueue(dest) && Lookup(f.header, DESTINATION) == Some(dest)
    ensures Here(actions, b, dest, Left(id, dest))
  {
    var as0, b0 := Closing(id, dest, f);
    var x, d := Gone(id, dest), DisconnectedOp(0);
    assert x.requests == [UnsubscribeOp(1)] + [d] && [1, 0][1..] == [0];
    Withdraw(b0, dest, x, 1, [d]);
    assert x.subs[1 := Automatic(id, dest, false, None)] == Left(id, dest).subs;
    actions, b := HandleThen(as0, b0, dest, Left(id, dest));
  }

  /** For every queue, id and message: a connection that used the id twice is gone, every request has been
      handled, and its first subscription still waits, so that the next frame for the queue is stranded. */
  lemma ReuseBreaksTheLeash(id: string, dest: string, f: Frame) returns (actions: seq<Action>, b: Broker)
    requires IsQueue(dest) && Lookup(f.header, DESTINATION) == Some(dest)
    ensures Leads(INITIAL, actions, b) && b.panic.None? && AllTame(actions)
    ensures |b.conns| == 1 && b.conns[0].phase.Closed? && b.requests == [] && |b.heap.subs| == 2
    ensures |b.queues| == 1 && b.queues[0].dest == dest && b.queues[0].queue.idle == [0] && Idle(b, 0)
    ensures b.heap.subs[0].conn == 0
  {
    var as0, b0 := Withdrawn(id, dest, f);
    assert [DisconnectedOp(0)][1..] == [];
    actions, b := HandleThen(as0, b0, dest, Left(id, dest).(requests := []));
    assert 0 in b.queues[0].queue.idle;
  }
}
