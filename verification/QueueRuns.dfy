/** The queues of the broker over whole runs: whatever the connections do meanwhile, a queue is what the
    requests handled for it make of an empty one. */
module QueueRuns {
  import opened Text
  import opened Queues
  import opened Broker
  import opened Steps
  import opened BrokerRuns
  import opened Frames
  import opened Stranding
  import opened Tags

  /** The queue of a destination; one that is not there yet is empty. */
  function At(qs: seq<Named>, dest: string): Queue<nat, nat> {
    var i := QueueIndex(qs, dest);
    if i < |qs| then qs[i].queue else Queue([], [])
  }

  /** The operation that handling the next request performs on the queue of the destination. */
  function OpFor(b: Broker, dest: string): seq<Op<nat, nat>>
    requires Local(b)
  {
    if b.requests == [] || !IsQueue(dest) then []
    else
      assert RequestOk(b.heap, b.requests[0]);
      match b.requests[0]
      case SubscribeOp(s) => if b.heap.subs[s].dest == dest then [Op.Sub(s)] else []
      case UnsubscribeOp(s) => if b.heap.subs[s].dest == dest then [Unsub(s)] else []
      case EnqueueOp(f) => if DestOf(b.heap, f) == Some(dest) then [Enq(f)] else []
      case RequeueOp(f) => if DestOf(b.heap, f) == Some(dest) then [Req(f)] else []
      case _ => []
  }

  /** The pair that handling the next request brings together at the destination. */
  function HandedFor(b: Broker, dest: string): seq<(nat, nat)>
    requires Local(b)
  {
    if OpFor(b, dest) == [] then [] else Apply(At(b.queues, dest), OpFor(b, dest)[0]).1
  }

  // ---------- one request ----------

  lemma {:induction false} IndexElsewhere(qs: seq<Named>, i: nat, q: Queue<nat, nat>, d: string)
    requires i < |qs|
    ensures QueueIndex(qs[i := qs[i].(queue := q)], d) == QueueIndex(qs, d)
  {
    var qs' := qs[i := qs[i].(queue := q)];
    if qs[0].dest != d {
      if i == 0 {
        assert qs'[1..] == qs[1..];
      } else {
        assert qs'[1..] == qs[1..][i - 1 := qs[i].(queue := q)];
        IndexElsewhere(qs[1..], i - 1, q, d);
      }
    }
  }

  lemma {:induction false} IndexAppended(qs: seq<Named>, n: Named, d: string)
    ensures QueueIndex(qs, d) < |qs| ==> QueueIndex(qs + [n], d) == QueueIndex(qs, d)
    ensures QueueIndex(qs, d) == |qs| ==> QueueIndex(qs + [n], d) == if n.dest == d then |qs| else |qs| + 1
  {
    if qs == [] {
      assert (qs + [n])[1..] == [];
    } else {
      assert (qs + [n])[1..] == qs[1..] + [n];
      IndexAppended(qs[1..], n, d);
    }
  }

  /** Finding a queue changes no queue. */
  lemma FindChangesNothing(b: Broker, dest: string, d: string)
    ensures At(FindQueue(b, dest).queues, d) == At(b.queues, d)
  {
    if QueueIndex(b.queues, dest) == |b.queues| { IndexAppended(b.queues, Named(dest, Queue([], [])), d); }
  }

  /** Setting the queue of one destination changes that one only. */
  lemma SetChangesOne(qs: seq<Named>, dest: string, q: Queue<nat, nat>, d: string)
    requires QueueIndex(qs, dest) < |qs|
    ensures var i := QueueIndex(qs, dest);
            At(qs[i := qs[i].(queue := q)], d) == if d == dest then q else At(qs, d)
  {
    IndexElsewhere(qs, QueueIndex(qs, dest), q, d);
  }

  lemma SubscribeAt(b: Broker, dest: string, s: nat, d: string)
    requires Local(b) && QueueIndex(b.queues, dest) < |b.queues| && s < |b.heap.subs| && b.panic.None?
    ensures var b' := DoSubscribe(b, QueueIndex(b.queues, dest), s);
            b'.panic.None? ==> At(b'.queues, d) == if d == dest then Apply(At(b.queues, d), Op.Sub(s)).0 else At(b.queues, d)
  {
    var i := QueueIndex(b.queues, dest);
    SetChangesOne(b.queues, dest, Queues.Subscribe(b.queues[i].queue, s).queue, d);
  }

  lemma EnqueueAt(b: Broker, dest: string, f: nat, front: bool, d: string)
    requires Local(b) && QueueIndex(b.queues, dest) < |b.queues| && f < |b.heap.frames| && b.panic.None?
    ensures var b' := DoEnqueue(b, QueueIndex(b.queues, dest), f, front);
            var op: Op<nat, nat> := if front then Req(f) else Enq(f);
            b'.panic.None? ==> At(b'.queues, d) == if d == dest then Apply(At(b.queues, d), op).0 else At(b.queues, d)
  {
    var q := b.queues[QueueIndex(b.queues, dest)].queue;
    SetChangesOne(b.queues, dest, (if front then Queues.Requeue(q, f) else Queues.Enqueue(q, f)).queue, d);
  }

  lemma UnsubscribeAt(b: Broker, dest: string, s: nat, d: string)
    requires QueueIndex(b.queues, dest) < |b.queues| && s < |b.heap.subs|
    ensures var b' := DoUnsubscribe(b, QueueIndex(b.queues, dest), s);
            At(b'.queues, d) == if d == dest then Apply(At(b.queues, d), Unsub(s)).0 else At(b.queues, d)
  {
    var q := b.queues[QueueIndex(b.queues, dest)].queue;
    RemoveFirstMembers(q.idle, s);
    SetChangesOne(b.queues, dest, Queues.Unsubscribe(q, s), d);
  }

  function After(b: Broker, d: string): Queue<nat, nat>
    requires Local(b)
  {
    if OpFor(b, d) == [] then At(b.queues, d) else Apply(At(b.queues, d), OpFor(b, d)[0]).0
  }

  lemma AnnounceAfter(b: Broker, d: string)
    requires Local(b) && b.panic.None? && b.requests != [] && b.requests[0].SubscribeOp? && Process(b).panic.None?
    ensures At(Process(b).queues, d) == After(b, d)
  {
    var s, b1 := b.requests[0].sub, TakeRequest(b);
    assert RequestOk(b.heap, b.requests[0]);
    ProcessSubscribe(b);
    var dest := b.heap.subs[s].dest;
    if IsQueue(dest) {
      FindChangesNothing(b1, dest, d);
      SubscribeAt(FindQueue(b1, dest), dest, s, d);
    }
  }

  lemma WithdrawAfter(b: Broker, d: string)
    requires Local(b) && b.requests != [] && b.requests[0].UnsubscribeOp?
    ensures At(Process(b).queues, d) == After(b, d)
  {
    var s, b1 := b.requests[0].sub, TakeRequest(b);
    assert RequestOk(b.heap, b.requests[0]);
    var dest := b.heap.subs[s].dest;
    if IsQueue(dest) {
      FindChangesNothing(b1, dest, d);
      UnsubscribeAt(FindKeepsLocal(b1, dest), dest, s, d);
    }
  }

  lemma CarryAfter(b: Broker, d: string)
    requires Local(b) && b.panic.None? && b.requests != [] && Process(b).panic.None?
    requires b.requests[0].EnqueueOp? || b.requests[0].RequeueOp?
    ensures At(Process(b).queues, d) == After(b, d)
  {
    var f, b1 := b.requests[0].frame, TakeRequest(b);
    assert RequestOk(b.heap, b.requests[0]);
    var dest := DestOf(b.heap, f);
    if dest.Some? && IsQueue(dest.value) {
      FindChangesNothing(b1, dest.value, d);
      EnqueueAt(FindKeepsLocal(b1, dest.value), dest.value, f, b.requests[0].RequeueOp?, d);
    }
  }

  lemma HandleAfter(b: Broker, d: string)
    requires Local(b) && b.panic.None? && b.requests != [] && Process(b).panic.None?
    ensures At(Process(b).queues, d) == After(b, d)
  {
    match b.requests[0]
    case SubscribeOp(_) => AnnounceAfter(b, d);
    case UnsubscribeOp(_) => WithdrawAfter(b, d);
    case EnqueueOp(_) => CarryAfter(b, d);
    case RequeueOp(_) => CarryAfter(b, d);
    case _ =>
  }

  lemma OthersLeaveQueues(b: Broker, a: Action)
    requires Local(b) && Enabled(b, a) && !a.Handle?
    ensures Next(b, a).queues == b.queues
  {
    if a.Receive? { assert ConnOk(b.heap, a.c, b.conns[a.c]) && b.conns[a.c].subChannel[0] in b.conns[a.c].subChannel; }
  }

  // ---------- whole runs ----------

  /** The operations that the run performs on the queue of the destination, in order. */
  ghost function Ops(b: Broker, actions: seq<Action>, b': Broker, d: string): seq<Op<nat, nat>>
    requires Leads(b, actions, b')
    decreases |actions|
  {
    if actions == [] then []
    else (if actions[0].Handle? then OpFor(b, d) else []) + Ops(Next(b, actions[0]), actions[1..], b', d)
  }

  /** The pairs of subscription and frame that the run brings together at the destination, in order. */
  ghost function HandedOver(b: Broker, actions: seq<Action>, b': Broker, d: string): seq<(nat, nat)>
    requires Leads(b, actions, b')
    decreases |actions|
  {
    if actions == [] then []
    else (if actions[0].Handle? then HandedFor(b, d) else []) + HandedOver(Next(b, actions[0]), actions[1..], b', d)
  }

  lemma RunOne(q: Queue<nat, nat>, op: Op<nat, nat>, rest: seq<Op<nat, nat>>)
    ensures var first := Apply(q, op); var more := Run(first.0, rest);
            Run(q, [op] + rest) == (more.0, first.1 + more.1)
  {
    assert ([op] + rest)[1..] == rest;
  }

  /** In every interleaving a queue of the broker is what the requests handled for it make of the queue it
      was, and the frames handed over are those the queue hands over, in order. */
  lemma {:induction false} QueueFollowsItsRequests(b: Broker, actions: seq<Action>, b': Broker, d: string)
    requires Leads(b, actions, b') && b.panic.None? && b'.panic.None?
    ensures Run(At(b.queues, d), Ops(b, actions, b', d)) == (At(b'.queues, d), HandedOver(b, actions, b', d))
    decreases |actions|
  {
    if actions != [] {
      var a, n := actions[0], Next(b, actions[0]);
      NoPanicOnTheWay(b, actions, b');
      QueueFollowsItsRequests(n, actions[1..], b', d);
      var ops, handed := Ops(n, actions[1..], b', d), HandedOver(n, actions[1..], b', d);
      if a.Handle? {
        HandleAfter(b, d);
        if OpFor(b, d) != [] {
          RunOne(At(b.queues, d), OpFor(b, d)[0], ops);
          assert OpFor(b, d) == [OpFor(b, d)[0]];
        } else {
          assert [] + ops == ops && [] + handed == handed;
        }
      } else {
        OthersLeaveQueues(b, a);
        assert [] + ops == ops && [] + handed == handed;
      }
    }
  }

  lemma NoPanicOnTheWay(b: Broker, actions: seq<Action>, b': Broker)
    requires Leads(b, actions, b') && b'.panic.None? && actions != []
    ensures Next(b, actions[0]).panic.None?
  {
    if actions[1..] == [] { assert Next(b, actions[0]) == b'; } else { assert Enabled(Next(b, actions[0]), actions[1..][0]); }
  }

  lemma AnnouncedGets(b: Broker, i: nat, s: nat)
    requires Local(b) && i < |b.queues| && s < |b.heap.subs| && b.heap.subs[s].frame.None? && b.queues[i].queue.stored != []
    ensures var b' := DoSubscribe(b, i, s);
            s < |b'.heap.subs| && b'.heap.subs[s].frame == Some(b.queues[i].queue.stored[0]) && SaysItsId(b'.heap, s)
  {
    var q := b.queues[i].queue;
    assert QueueOk(b.heap, b.queues[i]) && q.stored[0] in q.stored;
    assert StoredOk(b.heap, b.queues[i].dest, q.stored[0]);
    LookupAfterSet(b.heap.frames[q.stored[0]].header, SUBSCRIPTION, b.heap.subs[s].id, "subscription");
  }

  lemma WaitingGets(b: Broker, i: nat, f: nat, front: bool)
    requires Local(b) && i < |b.queues| && f < |b.heap.frames| && b.queues[i].queue.idle != []
    ensures var b', s := DoEnqueue(b, i, f, front), b.queues[i].queue.idle[0];
            s < |b'.heap.subs| && b'.heap.subs[s].frame == Some(f) && SaysItsId(b'.heap, s)
  {
    var q := b.queues[i].queue;
    assert QueueOk(b.heap, b.queues[i]) && IdleOk(b.heap, b.queues[i].dest, q.idle[0]);
    LookupAfterSet(b.heap.frames[f].header, SUBSCRIPTION, b.heap.subs[q.idle[0]].id, "subscription");
  }

  /** The request hands to this subscription, and it has got this frame, which says its id. */
  ghost predicate Real(b: Broker, pair: (nat, nat), b': Broker)
    requires Local(b)
  {
    HandsTo(b) == Some(pair.0) && SaysItsId(b'.heap, pair.0) && b'.heap.subs[pair.0].frame == Some(pair.1)
  }

  lemma AnnouncedForReal(b: Broker, d: string)
    requires Local(b) && b.requests != [] && b.requests[0].SubscribeOp? && HandedFor(b, d) != []
    ensures Real(b, HandedFor(b, d)[0], Process(b))
  {
    var s, b1 := b.requests[0].sub, TakeRequest(b);
    assert RequestOk(b.heap, b.requests[0]);
    ProcessSubscribe(b);
    FoundQueue(b1, d);
    var b2 := FindQueue(b1, d);
    AnnouncedGets(b2, QueueIndex(b2.queues, d), s);
  }

  lemma CarriedForReal(b: Broker, d: string)
    requires Local(b) && b.requests != [] && (b.requests[0].EnqueueOp? || b.requests[0].RequeueOp?) && HandedFor(b, d) != []
    ensures Real(b, HandedFor(b, d)[0], Process(b))
  {
    var f, b1 := b.requests[0].frame, TakeRequest(b);
    assert RequestOk(b.heap, b.requests[0]) && DestOf(b.heap, f) == Some(d);
    FoundQueue(b1, d);
    var b2 := FindKeepsLocal(b1, d);
    WaitingGets(b2, QueueIndex(b2.queues, d), f, b.requests[0].RequeueOp?);
  }

  /** The pairs are real: the subscription is the one that handling the request hands to, and has got the
      frame. */
  lemma HandedForReal(b: Broker, d: string)
    requires Local(b) && b.requests != [] && HandedFor(b, d) != []
    ensures Real(b, HandedFor(b, d)[0], Process(b))
  {
    match b.requests[0]
    case SubscribeOp(_) => AnnouncedForReal(b, d);
    case EnqueueOp(_) => CarriedForReal(b, d);
    case RequeueOp(_) => CarriedForReal(b, d);
    case _ =>
  }

  /** First in, first out, in every interleaving of the whole broker: from the start, as long as no frame has
      been returned to the queue, the frames handed over followed by the frames stored are the frames enqueued,
      in the order in which the processor handled them. */
  lemma BrokerIsFifo(actions: seq<Action>, b: Broker, d: string)
    requires Leads(INITIAL, actions, b) && b.panic.None?
    requires forall i :: 0 <= i < |Ops(INITIAL, actions, b, d)| ==> !Ops(INITIAL, actions, b, d)[i].Req?
    ensures FramesOf(HandedOver(INITIAL, actions, b, d)) + At(b.queues, d).stored == Enqueued(Ops(INITIAL, actions, b, d))
  {
    QueueFollowsItsRequests(INITIAL, actions, b, d);
    FramesAreFifo(Queue([], []), Ops(INITIAL, actions, b, d));
    assert [] + Enqueued(Ops(INITIAL, actions, b, d)) == Enqueued(Ops(INITIAL, actions, b, d));
  }

  /** Waiting subscriptions are served in the order in which they became ready, as long as none is withdrawn. */
  lemma BrokerServesInOrder(actions: seq<Action>, b: Broker, d: string)
    requires Leads(INITIAL, actions, b) && b.panic.None?
    requires forall i :: 0 <= i < |Ops(INITIAL, actions, b, d)| ==> !Ops(INITIAL, actions, b, d)[i].Unsub?
    ensures SubsOf(HandedOver(INITIAL, actions, b, d)) + At(b.queues, d).idle == Subscribed(Ops(INITIAL, actions, b, d))
  {
    QueueFollowsItsRequests(INITIAL, actions, b, d);
    SubscribersAreFifo(Queue([], []), Ops(INITIAL, actions, b, d));
    assert [] + Subscribed(Ops(INITIAL, actions, b, d)) == Subscribed(Ops(INITIAL, actions, b, d));
  }
}
