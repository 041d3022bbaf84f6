/** What the processor can change, and what the broker does to the contents of a frame. */
module Effects {
  import opened Text
  import opened Frames
  import opened Acks
  import opened Broker

  // ---------- contents of frames ----------

  /** The header without the entries the broker sets on delivery. */
  function Payload(h: seq<Entry>): seq<Entry> {
    Without(Without(Without(Without(h, SUBSCRIPTION), MESSAGE_ID), ID), ACK)
  }

  /** The frames differ at most in entries the broker sets. */
  predicate SameMessage(f: Frame, g: Frame) {
    f.command == g.command && f.body == g.body && Payload(f.header) == Payload(g.header)
  }

  lemma PayloadAfterSet(h: seq<Entry>, key: string, value: string)
    requires key in {SUBSCRIPTION, MESSAGE_ID, ID, ACK}
    ensures Payload(SetEntry(h, key, value)) == Payload(h)
  {
    var a := Without(h, SUBSCRIPTION);
    var b := Without(a, MESSAGE_ID);
    var c := Without(b, ID);
    if key == SUBSCRIPTION {
      WithoutAfterSet(h, key, value);
    } else {
      SetWithoutCommute(h, key, value, SUBSCRIPTION);
      if key == MESSAGE_ID {
        WithoutAfterSet(a, key, value);
      } else {
        SetWithoutCommute(a, key, value, MESSAGE_ID);
        if key == ID {
          WithoutAfterSet(b, key, value);
        } else {
          SetWithoutCommute(b, key, value, ID);
          WithoutAfterSet(c, key, value);
        }
      }
    }
  }

  lemma {:induction false} WithoutTwice(h: seq<Entry>, key: string)
    ensures Without(Without(h, key), key) == Without(h, key)
  {
    LookupAfterWithout(h, key, key);
    WithoutIdempotent(Without(h, key), key);
  }

  lemma PayloadAfterAckRemoved(h: seq<Entry>)
    ensures Payload(Without(h, ACK)) == Payload(h)
  {
    var a := Without(h, SUBSCRIPTION);
    var b := Without(a, MESSAGE_ID);
    var c := Without(b, ID);
    WithoutCommutes(h, ACK, SUBSCRIPTION);
    WithoutCommutes(a, ACK, MESSAGE_ID);
    WithoutCommutes(b, ACK, ID);
    WithoutTwice(c, ACK);
  }

  lemma StampSameMessage(f: Frame, n: nat, mode: AckMode)
    ensures SameMessage(Stamp(f, n, mode), f)
  {
    var t := Decimal(n);
    var h := SetEntry(f.header, MESSAGE_ID, t);
    PayloadAfterSet(f.header, MESSAGE_ID, t);
    PayloadAfterSet(h, ID, t);
    PayloadAfterSet(SetEntry(h, ID, t), ACK, t);
    PayloadAfterAckRemoved(SetEntry(h, ID, t));
  }

  lemma LookupInPayload(h: seq<Entry>, key: string)
    requires key !in {SUBSCRIPTION, MESSAGE_ID, ID, ACK}
    ensures Lookup(Payload(h), key) == Lookup(h, key)
  {
    var a := Without(h, SUBSCRIPTION);
    var b := Without(a, MESSAGE_ID);
    LookupAfterWithout(h, SUBSCRIPTION, key);
    LookupAfterWithout(a, MESSAGE_ID, key);
    LookupAfterWithout(b, ID, key);
    LookupAfterWithout(Without(b, ID), ACK, key);
  }

  // ---------- what one request can change ----------

  ghost predicate MildFrames(h: Heap, h': Heap) {
    |h'.frames| == |h.frames| && forall f :: 0 <= f < |h.frames| ==> SameMessage(h'.frames[f], h.frames[f])
  }

  ghost predicate MildSubs(h: Heap, h': Heap) {
    && h'.released == h.released && |h'.subs| == |h.subs|
    && forall s :: 0 <= s < |h.subs| ==>
         h'.subs[s] == h.subs[s].(listed := h'.subs[s].listed, frame := h'.subs[s].frame)
  }

  ghost predicate MildConns(b: Broker, b': Broker) {
    && |b'.conns| == |b.conns|
    && forall c :: 0 <= c < |b.conns| ==> b'.conns[c] == b.conns[c].(subChannel := b'.conns[c].subChannel)
  }

  /** Only queues, subscription channels, and the listed and frame pointers of subscriptions change, and
      frames keep their message. */
  ghost predicate Mild(b: Broker, b': Broker) {
    && MildFrames(b.heap, b'.heap) && MildSubs(b.heap, b'.heap) && MildConns(b, b')
    && b'.sent == b.sent && b'.dropped == b.dropped
  }

  lemma SendQueueFrameMild(b: Broker, s: nat, f: nat)
    requires s < |b.heap.subs| && f < |b.heap.frames| && b.heap.subs[s].conn < |b.conns|
    ensures Mild(b, SendQueueFrame(b, s, f))
  {
    PayloadAfterSet(b.heap.frames[f].header, SUBSCRIPTION, b.heap.subs[s].id);
  }

  lemma MildTransitive(a: Broker, b: Broker, c: Broker)
    requires Mild(a, b) && Mild(b, c)
    ensures Mild(a, c)
  {
    forall f | 0 <= f < |a.heap.frames| ensures SameMessage(c.heap.frames[f], a.heap.frames[f]) {
      assert SameMessage(b.heap.frames[f], a.heap.frames[f]) && SameMessage(c.heap.frames[f], b.heap.frames[f]);
    }
    forall s | 0 <= s < |a.heap.subs|
      ensures c.heap.subs[s] == a.heap.subs[s].(listed := c.heap.subs[s].listed, frame := c.heap.subs[s].frame)
    {
      assert b.heap.subs[s] == a.heap.subs[s].(listed := b.heap.subs[s].listed, frame := b.heap.subs[s].frame);
      assert c.heap.subs[s] == b.heap.subs[s].(listed := c.heap.subs[s].listed, frame := c.heap.subs[s].frame);
    }
  }

  lemma SubscribeMild(b: Broker, i: nat, s: nat)
    requires Local(b) && i < |b.queues| && s < |b.heap.subs|
    ensures Mild(b, DoSubscribe(b, i, s))
  {
    var q := b.queues[i].queue;
    if q.stored != [] {
      assert QueueOk(b.heap, b.queues[i]) && q.stored[0] in q.stored;
      assert StoredOk(b.heap, b.queues[i].dest, q.stored[0]);
      SendQueueFrameMild(SetQueue(b, i, q.(stored := q.stored[1..])), s, q.stored[0]);
    }
  }

  lemma EnqueueMild(b: Broker, i: nat, f: nat, front: bool)
    requires Local(b) && i < |b.queues| && f < |b.heap.frames|
    ensures Mild(b, DoEnqueue(b, i, f, front))
  {
    var q := b.queues[i].queue;
    if q.idle != [] {
      var s := q.idle[0];
      assert QueueOk(b.heap, b.queues[i]) && s in q.idle;
      assert IdleOk(b.heap, b.queues[i].dest, s);
      var b1 := SetListed(SetQueue(b, i, q.(idle := q.idle[1..])), s, false);
      SendQueueFrameMild(b1, s, f);
      MildTransitive(b, b1, SendQueueFrame(b1, s, f));
    }
  }

  /** Handling a request is mild; in particular no frame is ever dropped. */
  lemma ProcessMild(b: Broker)
    requires Local(b) && b.requests != []
    ensures Mild(b, Process(b))
  {
    var r, b1 := b.requests[0], TakeRequest(b);
    assert r in b.requests && RequestOk(b.heap, r);
    match r
    case SubscribeOp(s) => AnnounceMild(b, b1, s);
    case UnsubscribeOp(s) => WithdrawMild(b, b1, s);
    case EnqueueOp(f) => FrameMild(b, b1, f, false);
    case RequeueOp(f) => FrameMild(b, b1, f, true);
    case _ =>
  }

  lemma AnnounceMild(b: Broker, b1: Broker, s: nat)
    requires Local(b) && b.requests != [] && b1 == TakeRequest(b) && s < |b.heap.subs|
    ensures IsQueue(b.heap.subs[s].dest) ==>
              var b2 := FindKeepsLocal(b1, b.heap.subs[s].dest);
              Mild(b, DoSubscribe(b2, QueueIndex(b2.queues, b.heap.subs[s].dest), s))
  {
    var dest := b.heap.subs[s].dest;
    if IsQueue(dest) {
      var b2 := FindKeepsLocal(b1, dest);
      SubscribeMild(b2, QueueIndex(b2.queues, dest), s);
    }
  }

  lemma WithdrawMild(b: Broker, b1: Broker, s: nat)
    requires Local(b) && b.requests != [] && b1 == TakeRequest(b) && s < |b.heap.subs|
    ensures IsQueue(b.heap.subs[s].dest) ==>
              var b2 := FindKeepsLocal(b1, b.heap.subs[s].dest);
              Mild(b, DoUnsubscribe(b2, QueueIndex(b2.queues, b.heap.subs[s].dest), s))
  {
  }

  lemma FrameMild(b: Broker, b1: Broker, f: nat, front: bool)
    requires Local(b) && b.requests != [] && b1 == TakeRequest(b) && f < |b.heap.frames|
    ensures DestOf(b.heap, f).Some? && IsQueue(DestOf(b.heap, f).value) ==>
              var dest := DestOf(b.heap, f).value;
              var b2 := FindKeepsLocal(b1, dest);
              Mild(b, DoEnqueue(b2, QueueIndex(b2.queues, dest), f, front))
  {
    var d := DestOf(b.heap, f);
    if d.Some? && IsQueue(d.value) {
      var b2 := FindKeepsLocal(b1, d.value);
      EnqueueMild(b2, QueueIndex(b2.queues, d.value), f, front);
    }
  }
}
