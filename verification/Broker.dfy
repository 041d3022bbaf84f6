/** The broker as a step system: one processor consuming requests and any number of connection loops,
    interleaved in every possible way (server/processor.go, server/client/conn.go,
    server/queue/queue.go, server/client/subscription.go, server/client/subscription_list.go).

    Frames and subscriptions are heap objects named by their index in `frames` and `subs`; channels and
    lists hold such names. A step of a connection changes its own state and fills its outbox with the
    requests of that handler; a later step of the same connection puts them on the shared channel one
    at a time, so the requests of different connections interleave freely. */
module Broker {
  import opened Text
  import opened Frames
  import opened Acks
  import opened Queues

  predicate IsQueue(dest: string) { "/queue" <= dest }

  /** A subscription; `listed` says whether its subList pointer is set. */
  datatype Sub = Sub(conn: nat, dest: string, id: string, ack: AckMode, msgId: nat,
                     listed: bool, frame: Option<nat>)

  datatype Request = SubscribeOp(sub: nat) | UnsubscribeOp(sub: nat)
                   | EnqueueOp(frame: nat) | RequeueOp(frame: nat)
                   | ConnectedOp(conn: nat) | DisconnectedOp(conn: nat)

  datatype Phase = Connecting | Running | Broken | Draining(last: bool) | Closed

  /** `log` records every request the connection has decided to send, in order. */
  datatype Conn = Conn(phase: Phase, subs: map<string, nat>, unacked: seq<nat>, subChannel: seq<nat>,
                       outbox: seq<Request>, lastMsgId: nat, log: seq<Request>)

  datatype Named = Named(dest: string, queue: Queue<nat, nat>)

  datatype Panic = FramePending | AlreadyListed | MissingDestination | InvalidAckMode

  /** `released` are the subscriptions whose message was acknowledged or rejected by the client at least
      once. */
  datatype Heap = Heap(frames: seq<Frame>, subs: seq<Sub>, released: set<nat>)

  /** `sent` holds each frame as it was first enqueued. The last four lists are where frames end. */
  datatype Broker = Broker(
    heap: Heap, conns: seq<Conn>, requests: seq<Request>, queues: seq<Named>, panic: Option<Panic>,
    sent: seq<Frame>, retired: seq<nat>, inDoubt: seq<nat>, broadcast: seq<nat>, dropped: seq<nat>)

  const INITIAL := Broker(Heap([], [], {}), [], [], [], None, [], [], [], [], [])

  // ---------- consistency of one state ----------

  function DestOf(h: Heap, f: nat): Option<string>
    requires f < |h.frames|
  {
    Lookup(h.frames[f].header, DESTINATION)
  }

  predicate RequestOk(h: Heap, r: Request) {
    match r
    case SubscribeOp(s) => s < |h.subs| && h.subs[s].frame.None? && (h.subs[s].listed <==> s in h.released)
    case UnsubscribeOp(s) => s < |h.subs|
    case EnqueueOp(f) => f < |h.frames|
    case RequeueOp(f) => f < |h.frames| && DestOf(h, f).Some? && IsQueue(DestOf(h, f).value)
    case _ => true
  }

  /** The subscription belongs to connection c and holds a frame of its own queue. */
  predicate Holds(h: Heap, c: nat, s: nat) {
    && s < |h.subs| && h.subs[s].conn == c && IsQueue(h.subs[s].dest)
    && h.subs[s].frame.Some? && h.subs[s].frame.value < |h.frames|
    && DestOf(h, h.subs[s].frame.value) == Some(h.subs[s].dest)
  }

  predicate ChannelOk(h: Heap, c: nat, s: nat) {
    Holds(h, c, s) && (h.subs[s].listed <==> s in h.released)
  }

  predicate UnackedOk(h: Heap, c: nat, s: nat) {
    Holds(h, c, s) && h.subs[s].listed && s !in h.released && !h.subs[s].ack.Auto?
  }

  predicate IdleOk(h: Heap, dest: string, s: nat) {
    && s < |h.subs| && h.subs[s].frame.None? && h.subs[s].dest == dest
    && h.subs[s].listed && s !in h.released
  }

  predicate StoredOk(h: Heap, dest: string, f: nat) { f < |h.frames| && DestOf(h, f) == Some(dest) }

  ghost predicate QueueOk(h: Heap, n: Named) {
    && IsQueue(n.dest) && Apart(n.queue)
    && (forall s :: s in n.queue.idle ==> IdleOk(h, n.dest, s))
    && (forall f :: f in n.queue.stored ==> StoredOk(h, n.dest, f))
  }

  ghost predicate RequestsOk(h: Heap, rs: seq<Request>) { forall r :: r in rs ==> RequestOk(h, r) }

  predicate OwnSub(h: Heap, c: nat, id: string, s: nat) {
    s < |h.subs| && h.subs[s].conn == c && h.subs[s].id == id
  }

  ghost predicate ConnOk(h: Heap, c: nat, k: Conn) {
    && RequestsOk(h, k.outbox)
    && (forall s :: s in k.subChannel ==> ChannelOk(h, c, s))
    && (forall s :: s in k.unacked ==> UnackedOk(h, c, s))
    && (forall id :: id in k.subs ==> OwnSub(h, c, id, k.subs[id]))
  }

  /** Every name refers to something, and everything that is somewhere is fit to be there. */
  ghost predicate Local(b: Broker) {
    && (forall s :: 0 <= s < |b.heap.subs| ==> b.heap.subs[s].conn < |b.conns|)
    && (forall s :: s in b.heap.released ==> s < |b.heap.subs|)
    && RequestsOk(b.heap, b.requests)
    && (forall c :: 0 <= c < |b.conns| ==> ConnOk(b.heap, c, b.conns[c]))
    && (forall i :: 0 <= i < |b.queues| ==> QueueOk(b.heap, b.queues[i]))
  }

  // ---------- the processor ----------

  function QueueIndex(qs: seq<Named>, dest: string): (i: nat)
    ensures i <= |qs|
    ensures i < |qs| ==> qs[i].dest == dest
  {
    if qs == [] || qs[0].dest == dest then 0 else 1 + QueueIndex(qs[1..], dest)
  }

  /** Manager.Find: creates the queue on first use. */
  function FindQueue(b: Broker, dest: string): (b': Broker)
    ensures QueueIndex(b'.queues, dest) < |b'.queues|
  {
    var i := QueueIndex(b.queues, dest);
    if i < |b.queues| then b
    else
      IndexAfterAppend(b.queues, dest);
      b.(queues := b.queues + [Named(dest, Queue([], []))])
  }

  lemma {:induction false} IndexAfterAppend(qs: seq<Named>, dest: string)
    ensures QueueIndex(qs, dest) == |qs| ==>
              QueueIndex(qs + [Named(dest, Queue([], []))], dest) == |qs|
  {
    if qs != [] {
      assert (qs + [Named(dest, Queue([], []))])[1..] == qs[1..] + [Named(dest, Queue([], []))];
      IndexAfterAppend(qs[1..], dest);
    }
  }

  function SetQueue(b: Broker, i: nat, q: Queue<nat, nat>): Broker
    requires i < |b.queues|
  {
    b.(queues := b.queues[i := b.queues[i].(queue := q)])
  }

  function SetListed(b: Broker, s: nat, listed: bool): Broker
    requires s < |b.heap.subs|
  {
    b.(heap := b.heap.(subs := b.heap.subs[s := b.heap.subs[s].(listed := listed)]))
  }

  /** Subscription.SendQueueFrame. */
  function SendQueueFrame(b: Broker, s: nat, f: nat): Broker
    requires s < |b.heap.subs| && f < |b.heap.frames| && b.heap.subs[s].conn < |b.conns|
  {
    var sub := b.heap.subs[s];
    if sub.frame.Some? then b.(panic := Some(FramePending))
    else
      var g := b.heap.frames[f].(header := SetEntry(b.heap.frames[f].header, SUBSCRIPTION, sub.id));
      var k := b.conns[sub.conn];
      b.(heap := b.heap.(frames := b.heap.frames[f := g],
                         subs := b.heap.subs[s := sub.(frame := Some(f))]),
         conns := b.conns[sub.conn := k.(subChannel := k.subChannel + [s])])
  }

  function DoSubscribe(b: Broker, i: nat, s: nat): Broker
    requires Local(b) && i < |b.queues| && s < |b.heap.subs|
  {
    var o := Queues.Subscribe(b.queues[i].queue, s);
    if o.handed.Some? then
      assert StoredOk(b.heap, b.queues[i].dest, o.handed.value.1);
      SendQueueFrame(SetQueue(b, i, o.queue), s, o.handed.value.1)
    else if b.heap.subs[s].listed then b.(panic := Some(AlreadyListed))
    else SetListed(SetQueue(b, i, o.queue), s, true)
  }

  function DoUnsubscribe(b: Broker, i: nat, s: nat): Broker
    requires i < |b.queues| && s < |b.heap.subs|
  {
    var q := b.queues[i].queue;
    if s in q.idle then SetListed(SetQueue(b, i, Queues.Unsubscribe(q, s)), s, false) else b
  }

  /** The frame goes to the longest-waiting subscription, or else into the store. */
  function DoEnqueue(b: Broker, i: nat, f: nat, front: bool): Broker
    requires Local(b) && i < |b.queues| && f < |b.heap.frames|
  {
    var q := b.queues[i].queue;
    var o := if front then Queues.Requeue(q, f) else Queues.Enqueue(q, f);
    if o.handed.None? then SetQueue(b, i, o.queue)
    else
      var s := o.handed.value.0;
      assert IdleOk(b.heap, b.queues[i].dest, s);
      SendQueueFrame(SetListed(SetQueue(b, i, o.queue), s, false), s, f)
  }

  function FindKeepsLocal(b: Broker, dest: string): (b': Broker)
    requires Local(b) && IsQueue(dest)
    ensures Local(b') && b' == FindQueue(b, dest)
  {
    FindQueue(b, dest)
  }

  function TakeRequest(b: Broker): Broker
    requires b.requests != []
  {
    b.(requests := b.requests[1..])
  }

  /** One iteration of the loop in requestProcessor.Serve. */
  function Process(b: Broker): Broker
    requires Local(b) && b.requests != []
  {
    var r, b1 := b.requests[0], TakeRequest(b);
    assert RequestOk(b.heap, r);
    match r
    case SubscribeOp(s) =>
      var dest := b.heap.subs[s].dest;
      if !IsQueue(dest) then b1
      else var b2 := FindKeepsLocal(b1, dest); DoSubscribe(b2, QueueIndex(b2.queues, dest), s)
    case UnsubscribeOp(s) =>
      var dest := b.heap.subs[s].dest;
      if !IsQueue(dest) then b1
      else var b2 := FindKeepsLocal(b1, dest); DoUnsubscribe(b2, QueueIndex(b2.queues, dest), s)
    case EnqueueOp(f) =>
      match DestOf(b.heap, f) {
        case None => b1.(panic := Some(MissingDestination))
        case Some(dest) =>
          if !IsQueue(dest) then b1.(broadcast := b1.broadcast + [f])
          else var b2 := FindKeepsLocal(b1, dest); DoEnqueue(b2, QueueIndex(b2.queues, dest), f, false)
      }
    case RequeueOp(f) =>
      match DestOf(b.heap, f) {
        case None => b1.(panic := Some(MissingDestination))
        case Some(dest) =>
          if !IsQueue(dest) then b1.(dropped := b1.dropped + [f])
          else var b2 := FindKeepsLocal(b1, dest); DoEnqueue(b2, QueueIndex(b2.queues, dest), f, true)
      }
    case _ => b1
  }

  // ---------- the connections ----------

  function SetConn(b: Broker, c: nat, k: Conn): Broker
    requires c < |b.conns|
  {
    b.(conns := b.conns[c := k])
  }

  /** The handler's requests go to the outbox. */
  function Emit(b: Broker, c: nat, rs: seq<Request>): Broker
    requires c < |b.conns|
  {
    var k := b.conns[c];
    SetConn(b, c, k.(outbox := rs, log := k.log + rs))
  }

  function Matched(h: Heap, s: nat, msgId: nat, nack: bool): bool {
    s < |h.subs| &&
    if nack then Nacked(h.subs[s].msgId, msgId)
    else !h.subs[s].ack.Invalid? && Acked(h.subs[s].ack, h.subs[s].msgId, msgId)
  }

  function Taken(h: Heap, l: seq<nat>, msgId: nat, nack: bool): (r: seq<nat>)
    ensures forall s :: s in r ==> s in l && Matched(h, s, msgId, nack)
  {
    if l == [] then []
    else (if Matched(h, l[0], msgId, nack) then [l[0]] else []) + Taken(h, l[1..], msgId, nack)
  }

  function Kept(h: Heap, l: seq<nat>, msgId: nat, nack: bool): (r: seq<nat>)
    ensures forall s :: s in r ==> s in l
  {
    if l == [] then []
    else (if Matched(h, l[0], msgId, nack) then [] else [l[0]]) + Kept(h, l[1..], msgId, nack)
  }

  ghost predicate AllHold(h: Heap, l: seq<nat>) {
    forall s :: s in l ==> s < |h.subs| && h.subs[s].frame.Some?
  }

  /** The requests of one ACK callback, or of one NACK callback. */
  function ReleaseOf(h: Heap, s: nat, nack: bool): seq<Request>
    requires s < |h.subs| && h.subs[s].frame.Some?
  {
    if nack then [RequeueOp(h.subs[s].frame.value)] + [SubscribeOp(s)] else [SubscribeOp(s)]
  }

  function Released(h: Heap, l: seq<nat>, nack: bool): seq<Request>
    requires AllHold(h, l)
  {
    if l == [] then []
    else assert l[0] in l && forall s :: s in l[1..] ==> s in l;
         ReleaseOf(h, l[0], nack) + Released(h, l[1..], nack)
  }

  function FramesHeld(h: Heap, l: seq<nat>): seq<nat>
    requires AllHold(h, l)
  {
    if l == [] then []
    else assert l[0] in l && forall s :: s in l[1..] ==> s in l;
         [h.subs[l[0]].frame.value] + FramesHeld(h, l[1..])
  }

  function ClearFrames(subs: seq<Sub>, l: seq<nat>): (r: seq<Sub>)
    ensures |r| == |subs|
    ensures forall s :: 0 <= s < |subs| ==> r[s] == if s in l then subs[s].(frame := None) else subs[s]
  {
    seq(|subs|, s requires 0 <= s < |subs| => if s in l then subs[s].(frame := None) else subs[s])
  }

  function Unlist(subs: seq<Sub>, l: seq<nat>): (r: seq<Sub>)
    ensures |r| == |subs|
    ensures forall s :: 0 <= s < |subs| ==> r[s] == if s in l then subs[s].(listed := false) else subs[s]
  {
    seq(|subs|, s requires 0 <= s < |subs| => if s in l then subs[s].(listed := false) else subs[s])
  }

  /** SubscriptionList.Ack or Nack with the callbacks of handleAck or handleNack. The stale subList
      pointer of a released subscription stays set. */
  function DoRelease(b: Broker, c: nat, msgId: nat, nack: bool): Broker
    requires Local(b) && c < |b.conns|
  {
    var k := b.conns[c];
    if !nack && exists s :: s in k.unacked && s < |b.heap.subs| && b.heap.subs[s].ack.Invalid?
    then b.(panic := Some(InvalidAckMode))
    else
      var taken := Taken(b.heap, k.unacked, msgId, nack);
      assert forall s :: s in taken ==> UnackedOk(b.heap, c, s);
      var b1 := SetConn(b, c, k.(unacked := Kept(b.heap, k.unacked, msgId, nack)));
      var b2 := b1.(heap := b.heap.(subs := ClearFrames(b.heap.subs, taken),
                                    released := b.heap.released + (set s | s in taken)),
                    retired := if nack then b.retired else b.retired + FramesHeld(b.heap, taken));
      Emit(b2, c, Released(b.heap, taken, nack))
  }

  function SetFrame(b: Broker, s: nat, f: Option<nat>): Broker
    requires s < |b.heap.subs|
  {
    b.(heap := b.heap.(subs := b.heap.subs[s := b.heap.subs[s].(frame := f)]))
  }

  /** Conn.allocateMessageId on the frame that subscription s holds. */
  function StampHeld(h: Heap, s: nat, n: nat): Heap
    requires s < |h.subs| && h.subs[s].frame.Some? && h.subs[s].frame.value < |h.frames|
  {
    var f := h.subs[s].frame.value;
    h.(frames := h.frames[f := Stamp(h.frames[f], n, h.subs[s].ack)])
  }

  /** The next subscription has left the channel and its frame has got its message id. */
  function Stamped(b: Broker, c: nat): Broker
    requires Local(b) && c < |b.conns| && b.conns[c].subChannel != []
  {
    var k := b.conns[c];
    assert ChannelOk(b.heap, c, k.subChannel[0]);
    var n := NextId(k.lastMsgId);
    SetConn(b, c, k.(subChannel := k.subChannel[1..], lastMsgId := n))
    .(heap := StampHeld(b.heap, k.subChannel[0], n))
  }

  /** The subscription-channel arm of processLoop. */
  function DoReceive(b: Broker, c: nat, writeOk: bool): Broker
    requires Local(b) && c < |b.conns| && b.conns[c].subChannel != []
  {
    var k := b.conns[c];
    var s := k.subChannel[0];
    assert ChannelOk(b.heap, c, s);
    var sub, f := b.heap.subs[s], b.heap.subs[s].frame.value;
    if sub.id !in k.subs then
      Emit(SetConn(b, c, k.(subChannel := k.subChannel[1..])), c, [RequeueOp(f)])
    else
      var b2 := Stamped(b, c);
      if !writeOk then
        SetConn(b2, c, b2.conns[c].(phase := Broken)).(inDoubt := b.inDoubt + [f])
      else if sub.ack.Auto? then
        Emit(SetFrame(b2, s, None).(retired := b.retired + [f]), c, [SubscribeOp(s)])
      else if sub.listed then b2.(panic := Some(AlreadyListed))
      else SetListed(SetConn(b2, c, b2.conns[c].(unacked := k.unacked + [s])), s, true)
  }

  /** The write-channel and timer arms of processLoop: a topic message uses up a message id, other frames and
      heart-beats do not, and a failed write ends the loop. */
  function DoPush(b: Broker, c: nat, counts: bool, writeOk: bool): Broker
    requires c < |b.conns|
  {
    var k := b.conns[c];
    SetConn(b, c, k.(lastMsgId := if counts then NextId(k.lastMsgId) else k.lastMsgId,
                     phase := if writeOk then k.phase else Broken))
  }

  function Unsubscriptions(k: Conn, order: seq<string>): seq<Request>
    requires forall id :: id in order ==> id in k.subs
  {
    if order == [] then [] else [UnsubscribeOp(k.subs[order[0]])] + Unsubscriptions(k, order[1..])
  }

  function Requeues(fs: seq<nat>): seq<Request> {
    if fs == [] then [] else [RequeueOp(fs[0])] + Requeues(fs[1..])
  }

  /** The order in which a range over the subscription map visits its keys. */
  ghost predicate Visits(k: Conn, order: seq<string>) {
    && (forall id :: id in order <==> id in k.subs)
    && (forall i, j :: 0 <= i < j < |order| ==> order[i] != order[j])
  }

  /** cleanupConn up to the first drain of the subscription channel. */
  function DoClose(b: Broker, c: nat, order: seq<string>): Broker
    requires Local(b) && c < |b.conns| && Visits(b.conns[c], order)
  {
    var k := b.conns[c];
    assert forall s :: s in k.unacked ==> UnackedOk(b.heap, c, s);
    var rs := Unsubscriptions(k, order) + Requeues(FramesHeld(b.heap, k.unacked));
    var b1 := SetConn(b, c, k.(phase := Draining(false), subs := map[], unacked := []));
    Emit(b1.(heap := b.heap.(subs := Unlist(b.heap.subs, k.unacked))), c, rs)
  }

  /** cleanupSubChannel, and what follows when it finds the channel empty. */
  function DoDrain(b: Broker, c: nat): Broker
    requires Local(b) && c < |b.conns| && b.conns[c].phase.Draining?
  {
    var k := b.conns[c];
    if k.subChannel != [] then
      assert ChannelOk(b.heap, c, k.subChannel[0]);
      Emit(SetConn(b, c, k.(subChannel := k.subChannel[1..])), c,
           [RequeueOp(b.heap.subs[k.subChannel[0]].frame.value)])
    else if !k.phase.last then
      Emit(SetConn(b, c, k.(phase := Draining(true))), c, [DisconnectedOp(c)])
    else SetConn(b, c, k.(phase := Closed))
  }

  function DoFlush(b: Broker, c: nat): Broker
    requires c < |b.conns| && b.conns[c].outbox != []
  {
    var k := b.conns[c];
    SetConn(b, c, k.(outbox := k.outbox[1..])).(requests := b.requests + [k.outbox[0]])
  }

  /** handleSend outside a transaction: SEND becomes MESSAGE. */
  function DoSend(b: Broker, c: nat, f: Frame): Broker
    requires c < |b.conns|
  {
    var g := f.(command := Message);
    Emit(b.(heap := b.heap.(frames := b.heap.frames + [g]), sent := b.sent + [g]), c, [EnqueueOp(|b.heap.frames|)])
  }

  function DoNewSub(b: Broker, c: nat, id: string, dest: string, ack: AckMode): Broker
    requires c < |b.conns|
  {
    var s, k := |b.heap.subs|, b.conns[c];
    var b1 := b.(heap := b.heap.(subs := b.heap.subs + [Sub.Sub(c, dest, id, ack, 0, false, None)]));
    Emit(SetConn(b1, c, k.(subs := k.subs[id := s])), c, [SubscribeOp(s)])
  }

  function DoEndSub(b: Broker, c: nat, id: string): Broker
    requires c < |b.conns| && id in b.conns[c].subs
  {
    var k := b.conns[c];
    Emit(SetConn(b, c, k.(subs := k.subs - {id})), c, [UnsubscribeOp(k.subs[id])])
  }

  // ---------- steps ----------

  datatype Action =
    | Accept
    | Handshake(c: nat)
    | ClientSend(c: nat, frame: Frame)
    | ClientSubscribe(c: nat, id: string, dest: string, ack: AckMode)
    | ClientUnsubscribe(c: nat, id: string)
    | ClientRelease(c: nat, msgId: nat, nack: bool)
    | Receive(c: nat, writeOk: bool)
    | Push(c: nat, counts: bool, writeOk: bool)
    | Close(c: nat, order: seq<string>)
    | Drain(c: nat)
    | Flush(c: nat)
    | Handle

  /** A connection takes its next action only after its last handler has sent all its requests. */
  ghost predicate Ready(b: Broker, c: nat, phase: Phase) {
    c < |b.conns| && b.conns[c].outbox == [] && b.conns[c].phase == phase
  }

  ghost predicate Enabled(b: Broker, a: Action) {
    b.panic.None? &&
    match a
    case Accept => true
    case Handshake(c) => Ready(b, c, Connecting)
    case ClientSend(c, f) => Ready(b, c, Running)
    case ClientSubscribe(c, id, _, _) => Ready(b, c, Running) && id !in b.conns[c].subs
    case ClientUnsubscribe(c, id) => Ready(b, c, Running) && id in b.conns[c].subs
    case ClientRelease(c, _, _) => Ready(b, c, Running)
    case Receive(c, _) => Ready(b, c, Running) && b.conns[c].subChannel != []
    case Push(c, _, _) => Ready(b, c, Running)
    case Close(c, order) =>
      (Ready(b, c, Connecting) || Ready(b, c, Running) || Ready(b, c, Broken)) && Visits(b.conns[c], order)
    case Drain(c) => Ready(b, c, Draining(false)) || Ready(b, c, Draining(true))
    case Flush(c) => c < |b.conns| && b.conns[c].outbox != []
    case Handle => b.requests != []
  }

  ghost function Next(b: Broker, a: Action): Broker
    requires Local(b) && Enabled(b, a)
  {
    match a
    case Accept => b.(conns := b.conns + [Conn(Connecting, map[], [], [], [], 0, [])])
    case Handshake(c) => Emit(SetConn(b, c, b.conns[c].(phase := Running)), c, [ConnectedOp(c)])
    case ClientSend(c, f) => DoSend(b, c, f)
    case ClientSubscribe(c, id, dest, ack) => DoNewSub(b, c, id, dest, ack)
    case ClientUnsubscribe(c, id) => DoEndSub(b, c, id)
    case ClientRelease(c, msgId, nack) => DoRelease(b, c, msgId, nack)
    case Receive(c, writeOk) => DoReceive(b, c, writeOk)
    case Push(c, counts, writeOk) => DoPush(b, c, counts, writeOk)
    case Close(c, order) => DoClose(b, c, order)
    case Drain(c) => DoDrain(b, c)
    case Flush(c) => DoFlush(b, c)
    case Handle => Process(b)
  }
}
