/** A subscription never learns the id of the message it holds: what that does to ACK and NACK. */
module MessageIds {
  import opened Acks
  import opened Broker
  import opened Effects
  import opened BrokerRuns

  ghost predicate Unassigned(h: Heap) { forall s :: 0 <= s < |h.subs| ==> h.subs[s].msgId == 0 }

  lemma ReceiveUnassigned(b: Broker, c: nat, writeOk: bool)
    requires Local(b) && c < |b.conns| && b.conns[c].subChannel != [] && Unassigned(b.heap)
    requires ChannelOk(b.heap, c, b.conns[c].subChannel[0])
    ensures Unassigned(DoReceive(b, c, writeOk).heap)
  {
  }

  lemma NextUnassigned(b: Broker, a: Action)
    requires Local(b) && Enabled(b, a) && Unassigned(b.heap)
    ensures Unassigned(Next(b, a).heap)
  {
    match a
    case Handle => ProcessMild(b);
    case Receive(c, writeOk) =>
      assert ConnOk(b.heap, c, b.conns[c]) && b.conns[c].subChannel[0] in b.conns[c].subChannel;
      ReceiveUnassigned(b, c, writeOk);
    case _ =>
  }

  lemma {:induction false} RunUnassigned(b: Broker, actions: seq<Action>, b': Broker)
    requires Leads(b, actions, b') && Unassigned(b.heap)
    ensures Unassigned(b'.heap)
    decreases |actions|
  {
    if actions != [] {
      NextUnassigned(b, actions[0]);
      RunUnassigned(Next(b, actions[0]), actions[1..], b');
    }
  }

  /** The entries a release takes in a state where no subscription knows its message. */
  predicate Takes(h: Heap, s: nat, msgId: nat, nack: bool) {
    s < |h.subs| && if nack then msgId == 0 else h.subs[s].ack == Client || (h.subs[s].ack == ClientIndividual && msgId == 0)
  }

  lemma {:induction false} TakenExactly(h: Heap, l: seq<nat>, msgId: nat, nack: bool)
    requires Unassigned(h) && forall s :: s in l ==> s < |h.subs| && !h.subs[s].ack.Auto?
    ensures forall s :: s in Taken(h, l, msgId, nack) <==> s in l && Takes(h, s, msgId, nack)
    ensures forall s :: s in Kept(h, l, msgId, nack) <==> s in l && !Takes(h, s, msgId, nack)
  {
    if l != [] {
      assert l[0] in l && forall s :: s in l[1..] ==> s in l;
      TakenExactly(h, l[1..], msgId, nack);
      assert l == [l[0]] + l[1..];
    }
  }

  /** In every reachable state the id of an acknowledgement plays no part: an ACK that does not panic takes
      every client-mode entry of the un-acknowledged list whatever its id, and a client-individual entry only
      if the id is 0; a NACK takes everything if the id is 0 and nothing otherwise. */
  lemma ReleaseIgnoresId(actions: seq<Action>, b: Broker, c: nat, msgId: nat, nack: bool, s: nat)
    requires Leads(INITIAL, actions, b) && Local(b) && Enabled(b, ClientRelease(c, msgId, nack))
    requires Next(b, ClientRelease(c, msgId, nack)).panic.None?
    ensures var k, k' := b.conns[c], Next(b, ClientRelease(c, msgId, nack)).conns[c];
            && (s in k'.unacked <==> s in k.unacked && !Takes(b.heap, s, msgId, nack))
            && (SubscribeOp(s) in k'.outbox <==> s in k.unacked && Takes(b.heap, s, msgId, nack))
  {
    RunUnassigned(INITIAL, actions, b);
    ReleasedByMode(b, c, msgId, nack, s);
  }

  lemma ReleasedByMode(b: Broker, c: nat, msgId: nat, nack: bool, s: nat)
    requires Local(b) && c < |b.conns| && Unassigned(b.heap) && b.panic.None?
    requires DoRelease(b, c, msgId, nack).panic.None?
    ensures var k, k' := b.conns[c], DoRelease(b, c, msgId, nack).conns[c];
            && (s in k'.unacked <==> s in k.unacked && !Takes(b.heap, s, msgId, nack))
            && (SubscribeOp(s) in k'.outbox <==> s in k.unacked && Takes(b.heap, s, msgId, nack))
  {
    var k := b.conns[c];
    assert ConnOk(b.heap, c, k) && forall x :: x in k.unacked ==> UnackedOk(b.heap, c, x);
    TakenExactly(b.heap, k.unacked, msgId, nack);
    AnnouncedExactly(b.heap, Taken(b.heap, k.unacked, msgId, nack), nack, s);
  }

  lemma {:induction false} AnnouncedExactly(h: Heap, l: seq<nat>, nack: bool, s: nat)
    requires AllHold(h, l)
    ensures SubscribeOp(s) in Released(h, l, nack) <==> s in l
  {
    if l != [] {
      assert l[0] in l && forall x :: x in l[1..] ==> x in l;
      AnnouncedExactly(h, l[1..], nack, s);
      assert l == [l[0]] + l[1..];
    }
  }

  /** Rejecting any message by an id other than 0 has no effect at all. */
  lemma NackDoesNothing(actions: seq<Action>, b: Broker, c: nat, msgId: nat)
    requires Leads(INITIAL, actions, b) && Local(b) && Enabled(b, ClientRelease(c, msgId, true)) && msgId != 0
    ensures Next(b, ClientRelease(c, msgId, true)) == b
  {
    RunUnassigned(INITIAL, actions, b);
    NothingNacked(b.heap, b.conns[c].unacked, msgId);
    EmptyRelease(b, c, msgId);
  }

  lemma EmptyRelease(b: Broker, c: nat, msgId: nat)
    requires Local(b) && c < |b.conns| && b.conns[c].outbox == []
    requires Taken(b.heap, b.conns[c].unacked, msgId, true) == []
    requires Kept(b.heap, b.conns[c].unacked, msgId, true) == b.conns[c].unacked
    ensures DoRelease(b, c, msgId, true) == b
  {
    var k := b.conns[c];
    assert ClearFrames(b.heap.subs, []) == b.heap.subs && k.log + [] == k.log;
    var none: seq<nat> := [];
    assert b.heap.released + (set s | s in none) == b.heap.released;
    assert b.conns[c := k][c := k] == b.conns;
  }

  lemma {:induction false} NothingNacked(h: Heap, l: seq<nat>, msgId: nat)
    requires Unassigned(h) && msgId != 0
    ensures Taken(h, l, msgId, true) == [] && Kept(h, l, msgId, true) == l
  {
    if l != [] { NothingNacked(h, l[1..], msgId); }
  }
}
