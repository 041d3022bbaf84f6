/** Where the processor takes a frame or a subscription, by the text of its destination. */
module Destinations {
  import opened Text
  import opened Frames
  import opened Queues
  import opened Broker
  import opened BrokerRuns

  /** The frame is stored for the destination, at the back or at the front. */
  ghost predicate StoredFor(b: Broker, dest: string, f: nat, front: bool) {
    exists n :: n in b.queues && n.dest == dest && n.queue.stored != [] &&
                n.queue.stored[if front then 0 else |n.queue.stored| - 1] == f
  }

  /** Some subscription to the destination holds the frame and has just joined its connection's channel. */
  ghost predicate HandedOver(b: Broker, b': Broker, dest: string, f: nat) {
    exists s :: 0 <= s < |b'.heap.subs| && b'.heap.subs[s].dest == dest && b'.heap.subs[s].frame == Some(f) &&
                b'.heap.subs[s].conn < |b.conns| && b'.heap.subs[s].conn < |b'.conns| &&
                b'.conns[b'.heap.subs[s].conn].subChannel == b.conns[b'.heap.subs[s].conn].subChannel + [s]
  }

  ghost predicate Waits(b: Broker, dest: string, s: nat) {
    exists n :: n in b.queues && n.dest == dest && s in n.queue.idle
  }

  /** Queues are the destinations that begin with /queue. */
  predicate BeginsWithQueue(dest: string) { |dest| >= 6 && dest[..6] == "/queue" }

  lemma QueuesBeginWithQueue(dest: string)
    ensures IsQueue(dest) <==> BeginsWithQueue(dest)
    ensures forall rest :: dest == "/queue" + rest ==> BeginsWithQueue(dest)
    ensures BeginsWithQueue(dest) ==> dest == "/queue" + dest[6..]
  {
    assert BeginsWithQueue(dest) ==> forall i :: 0 <= i < 6 ==> dest[i] == dest[..6][i];
  }

  lemma EnqueueReaches(b: Broker, i: nat, f: nat, front: bool)
    requires Local(b) && i < |b.queues| && f < |b.heap.frames|
    ensures var b' := DoEnqueue(b, i, f, front);
            && b'.broadcast == b.broadcast && b'.dropped == b.dropped && b'.panic == b.panic && b'.requests == b.requests
            && (StoredFor(b', b.queues[i].dest, f, front) || HandedOver(b, b', b.queues[i].dest, f))
  {
    var q, b' := b.queues[i].queue, DoEnqueue(b, i, f, front);
    assert QueueOk(b.heap, b.queues[i]);
    if q.idle != [] {
      var s := q.idle[0];
      assert s in q.idle && IdleOk(b.heap, b.queues[i].dest, s);
      assert b'.heap.subs[s].frame == Some(f) && b'.heap.subs[s].dest == b.queues[i].dest;
    } else {
      assert b'.queues[i] in b'.queues && b'.queues[i].dest == b.queues[i].dest;
    }
  }

  /** A frame that is sent, or that comes back. */
  predicate Moves(r: Request, f: nat, front: bool) { if front then r == RequeueOp(f) else r == EnqueueOp(f) }

  /** A frame for "/queue" and any text is put at the back, or if it comes back at the front, of the queue of just
      that name, or handed to a subscription to it. Sent to any other destination it is broadcast, and coming
      back from one it is dropped, and nothing else changes. */
  lemma FramesGoByTheirDestination(b: Broker, f: nat, front: bool, dest: string)
    requires Local(b) && b.panic.None? && b.requests != [] && Moves(b.requests[0], f, front)
    requires f < |b.heap.frames| && Lookup(b.heap.frames[f].header, "destination") == Some(dest)
    ensures var b', taken := Next(b, Handle), b.(requests := b.requests[1..]);
            if BeginsWithQueue(dest)
            then && b'.panic.None? && b'.requests == taken.requests && b'.broadcast == b.broadcast && b'.dropped == b.dropped
                 && (StoredFor(b', dest, f, front) || HandedOver(b, b', dest, f))
            else b' == if front then taken.(dropped := b.dropped + [f]) else taken.(broadcast := b.broadcast + [f])
  {
    QueuesBeginWithQueue(dest);
    if IsQueue(dest) {
      var b2 := FindKeepsLocal(TakeRequest(b), dest);
      EnqueueReaches(b2, QueueIndex(b2.queues, dest), f, front);
    }
  }

  /** A subscription to "/queue" and any text waits at the queue of just that name or is handed a frame of it; a
      subscription to any other destination is no business of the queues. */
  lemma SubscriptionsGoByTheirDestination(b: Broker, s: nat)
    requires Local(b) && b.panic.None? && b.requests != [] && b.requests[0] == SubscribeOp(s)
    requires Next(b, Handle).panic.None?
    ensures s < |b.heap.subs|
    ensures var b', dest := Next(b, Handle), b.heap.subs[s].dest;
            if BeginsWithQueue(dest)
            then Waits(b', dest, s) || exists f: nat :: HandedOver(b, b', dest, f) && b'.heap.subs[s].frame == Some(f)
            else b' == b.(requests := b.requests[1..])
  {
    assert RequestOk(b.heap, b.requests[0]);
    var dest := b.heap.subs[s].dest;
    QueuesBeginWithQueue(dest);
    if IsQueue(dest) {
      var b2 := FindKeepsLocal(TakeRequest(b), dest);
      SubscribeReaches(b2, QueueIndex(b2.queues, dest), s);
    }
  }

  lemma SubscribeReaches(b: Broker, i: nat, s: nat)
    requires Local(b) && i < |b.queues| && s < |b.heap.subs| && b.queues[i].dest == b.heap.subs[s].dest
    requires b.heap.subs[s].frame.None? && DoSubscribe(b, i, s).panic.None?
    ensures var b', dest := DoSubscribe(b, i, s), b.heap.subs[s].dest;
            Waits(b', dest, s) || exists f: nat :: HandedOver(b, b', dest, f) && b'.heap.subs[s].frame == Some(f)
  {
    var q, b' := b.queues[i].queue, DoSubscribe(b, i, s);
    assert QueueOk(b.heap, b.queues[i]);
    if q.stored == [] {
      assert b'.queues[i] in b'.queues && s in b'.queues[i].queue.idle;
    } else {
      assert q.stored[0] in q.stored && StoredOk(b.heap, b.queues[i].dest, q.stored[0]);
      assert b'.heap.subs[s].frame == Some(q.stored[0]) && b'.heap.subs[s].dest == b.queues[i].dest;
      assert HandedOver(b, b', b.queues[i].dest, q.stored[0]);
    }
  }
}
