/** The connection of the step system, with frames and subscriptions as heap objects, does exactly what the
    session does with values: one step of a connection, looked at through the heap, is one reaction of the
    session. */
module Agreement {
  import opened Text
  import opened Frames
  import opened Acks
  import opened Broker
  import opened Ledger
  import opened ConnSteps
  import opened Cleanup
  import Session

  // ---------- values behind names ----------

  function SubVal(h: Heap, s: nat): Session.Sub
    requires s < |h.subs|
  {
    Session.Sub(h.subs[s].id, h.subs[s].dest, h.subs[s].ack, h.subs[s].msgId)
  }

  predicate HasFrame(h: Heap, s: nat) {
    s < |h.subs| && h.subs[s].frame.Some? && h.subs[s].frame.value < |h.frames|
  }

  function HoldVal(h: Heap, s: nat): Session.Holding
    requires HasFrame(h, s)
  {
    Session.Holding(SubVal(h, s), h.frames[h.subs[s].frame.value])
  }

  ghost predicate AllHaveFrame(h: Heap, l: seq<nat>) { forall i :: 0 <= i < |l| ==> HasFrame(h, l[i]) }

  ghost function HoldVals(h: Heap, l: seq<nat>): seq<Session.Holding>
    requires AllHaveFrame(h, l)
  {
    if l == [] then [] else [HoldVal(h, l[0])] + HoldVals(h, l[1..])
  }

  predicate InHeap(h: Heap, r: Request) {
    match r
    case SubscribeOp(s) => s < |h.subs|
    case UnsubscribeOp(s) => s < |h.subs|
    case EnqueueOp(f) => f < |h.frames|
    case RequeueOp(f) => f < |h.frames|
    case _ => false
  }

  function ReqVal(h: Heap, r: Request): Session.Request
    requires InHeap(h, r)
  {
    match r
    case SubscribeOp(s) => Session.SubscribeOp(SubVal(h, s))
    case UnsubscribeOp(s) => Session.UnsubscribeOp(SubVal(h, s))
    case EnqueueOp(f) => Session.EnqueueOp(h.frames[f])
    case RequeueOp(f) => Session.RequeueOp(h.frames[f])
  }

  ghost predicate AllInHeap(h: Heap, rs: seq<Request>) { forall i :: 0 <= i < |rs| ==> InHeap(h, rs[i]) }

  ghost function ReqVals(h: Heap, rs: seq<Request>): seq<Session.Request>
    requires AllInHeap(h, rs)
  {
    if rs == [] then [] else [ReqVal(h, rs[0])] + ReqVals(h, rs[1..])
  }

  ghost function SubVals(h: Heap, m: map<string, nat>): map<string, Session.Sub>
    requires forall id :: id in m ==> m[id] < |h.subs|
  {
    map id | id in m :: SubVal(h, m[id])
  }

  /** The session state shows what the connection holds, and its requests are those of the last handler. */
  ghost predicate Shows(h: Heap, k: Conn, s: Session.State) {
    && (forall id :: id in k.subs ==> k.subs[id] < |h.subs|) && s.subs == SubVals(h, k.subs)
    && AllHaveFrame(h, k.unacked) && s.unacked == HoldVals(h, k.unacked)
    && AllInHeap(h, k.outbox) && s.requests == ReqVals(h, k.outbox)
    && s.lastMsgId == k.lastMsgId
  }

  // ---------- ACK and NACK ----------

  lemma {:induction false} TakenVals(h: Heap, l: seq<nat>, msgId: nat, nack: bool, p: Session.Holding -> bool)
    requires AllHaveFrame(h, l)
    requires forall s :: HasFrame(h, s) ==> p(HoldVal(h, s)) == Matched(h, s, msgId, nack)
    ensures AllHaveFrame(h, Taken(h, l, msgId, nack))
    ensures Filter(HoldVals(h, l), p) == HoldVals(h, Taken(h, l, msgId, nack))
  {
    if l != [] {
      TakenVals(h, l[1..], msgId, nack, p);
      var rest := Taken(h, l[1..], msgId, nack);
      assert HasFrame(h, l[0]) && ([l[0]] + rest)[1..] == rest && [] + rest == rest;
      assert ([HoldVal(h, l[0])] + HoldVals(h, l[1..]))[1..] == HoldVals(h, l[1..]);
    }
  }

  lemma {:induction false} KeptVals(h: Heap, l: seq<nat>, msgId: nat, nack: bool, p: Session.Holding -> bool)
    requires AllHaveFrame(h, l)
    requires forall s :: HasFrame(h, s) ==> p(HoldVal(h, s)) == !Matched(h, s, msgId, nack)
    ensures AllHaveFrame(h, Kept(h, l, msgId, nack))
    ensures Filter(HoldVals(h, l), p) == HoldVals(h, Kept(h, l, msgId, nack))
  {
    if l != [] {
      KeptVals(h, l[1..], msgId, nack, p);
      var rest := Kept(h, l[1..], msgId, nack);
      assert HasFrame(h, l[0]) && ([l[0]] + rest)[1..] == rest && [] + rest == rest;
      assert ([HoldVal(h, l[0])] + HoldVals(h, l[1..]))[1..] == HoldVals(h, l[1..]);
    }
  }

  lemma {:induction false} AckRequests(h: Heap, l: seq<nat>)
    requires AllHaveFrame(h, l) && AllHold(h, l)
    ensures AllInHeap(h, Released(h, l, false))
    ensures ReqVals(h, Released(h, l, false)) == Session.Released(HoldVals(h, l))
  {
    if l != [] {
      assert HasFrame(h, l[0]) && AllHold(h, l[1..]);
      AckRequests(h, l[1..]);
      var rest := Released(h, l[1..], false);
      assert Released(h, l, false) == [SubscribeOp(l[0])] + rest;
      assert ([SubscribeOp(l[0])] + rest)[1..] == rest;
      assert HoldVals(h, l)[1..] == HoldVals(h, l[1..]);
    }
  }

  lemma {:induction false} NackRequests(h: Heap, l: seq<nat>)
    requires AllHaveFrame(h, l) && AllHold(h, l)
    ensures AllInHeap(h, Released(h, l, true))
    ensures ReqVals(h, Released(h, l, true)) == Session.Returned(HoldVals(h, l))
  {
    if l != [] {
      assert HasFrame(h, l[0]) && AllHold(h, l[1..]);
      NackRequests(h, l[1..]);
      var rest, a, b := Released(h, l[1..], true), RequeueOp(h.subs[l[0]].frame.value), SubscribeOp(l[0]);
      assert Released(h, l, true) == [a] + ([b] + rest);
      assert ([a] + ([b] + rest))[1..] == [b] + rest && ([b] + rest)[1..] == rest;
      assert HoldVals(h, l)[1..] == HoldVals(h, l[1..]);
    }
  }

  // ---------- changes of the heap that do not show ----------

  lemma {:induction false} HoldValsStable(h: Heap, h': Heap, l: seq<nat>)
    requires AllHaveFrame(h, l)
    requires forall i :: 0 <= i < |l| ==> HasFrame(h', l[i]) && HoldVal(h', l[i]) == HoldVal(h, l[i])
    ensures HoldVals(h', l) == HoldVals(h, l)
  {
    if l != [] { HoldValsStable(h, h', l[1..]); }
  }

  lemma {:induction false} ReqValsStable(h: Heap, h': Heap, rs: seq<Request>)
    requires AllInHeap(h, rs) && h.frames <= h'.frames && SubsStable(h, h')
    ensures AllInHeap(h', rs) && ReqVals(h', rs) == ReqVals(h, rs)
  {
    if rs != [] {
      assert InHeap(h, rs[0]);
      ReqValsStable(h, h', rs[1..]);
      assert InHeap(h', rs[0]) && ReqVal(h', rs[0]) == ReqVal(h, rs[0]);
      assert AllInHeap(h', [rs[0]] + rs[1..]) && rs == [rs[0]] + rs[1..];
    }
  }

  lemma {:induction false} ReqValsConcat(h: Heap, a: seq<Request>, b: seq<Request>)
    requires AllInHeap(h, a) && AllInHeap(h, b)
    ensures AllInHeap(h, a + b) && ReqVals(h, a + b) == ReqVals(h, a) + ReqVals(h, b)
  {
    if a == [] {
      assert a + b == b;
    } else {
      assert (a + b)[1..] == a[1..] + b;
      ReqValsConcat(h, a[1..], b);
    }
  }

  /** Subscriptions keep everything but their two pointers. */
  ghost predicate SubsStable(h: Heap, h': Heap) {
    |h.subs| <= |h'.subs| && forall s :: 0 <= s < |h.subs| ==> SubVal(h', s) == SubVal(h, s)
  }

  lemma SubValsStable(h: Heap, h': Heap, m: map<string, nat>)
    requires SubsStable(h, h') && forall id :: id in m ==> m[id] < |h.subs|
    ensures SubVals(h', m) == SubVals(h, m)
  {
  }

  // ---------- one step, one reaction ----------

  lemma {:induction false} HoldValsAt(h: Heap, l: seq<nat>)
    requires AllHaveFrame(h, l)
    ensures |HoldVals(h, l)| == |l| && forall i :: 0 <= i < |l| ==> HoldVals(h, l)[i] == HoldVal(h, l[i])
  {
    if l != [] { HoldValsAt(h, l[1..]); }
  }

  lemma ReleaseVals(h: Heap, l: seq<nat>, msgId: nat, nack: bool, st: Session.State)
    requires AllHaveFrame(h, l) && st.unacked == HoldVals(h, l) && st.requests == []
    requires nack || Session.AckError(st).None?
    ensures var taken, kept := Taken(h, l, msgId, nack), Kept(h, l, msgId, nack);
            var st' := if nack then Session.DoNack(st, msgId) else Session.DoAck(st, msgId);
            && AllHaveFrame(h, taken) && AllHaveFrame(h, kept) && AllHold(h, taken)
            && AllInHeap(h, Released(h, taken, nack))
            && st'.unacked == HoldVals(h, kept) && st'.requests == ReqVals(h, Released(h, taken, nack))
  {
    var taken := Taken(h, l, msgId, nack);
    if nack {
      TakenVals(h, l, msgId, true, x => Session.NackedBy(x, msgId));
      KeptVals(h, l, msgId, true, x => !Session.NackedBy(x, msgId));
      AllTaken(h, taken);
      NackRequests(h, taken);
      assert Session.DoNack(st, msgId).requests == [] + Session.Returned(HoldVals(h, taken));
    } else {
      TakenVals(h, l, msgId, false, x => Session.AckedBy(x, msgId));
      KeptVals(h, l, msgId, false, x => !Session.AckedBy(x, msgId));
      AllTaken(h, taken);
      AckRequests(h, taken);
      assert st.unacked[..|st.unacked|] == st.unacked && st.unacked[|st.unacked|..] == [];
      assert Session.DoAck(st, msgId).requests == [] + Session.Released(HoldVals(h, taken));
    }
  }

  lemma AllTaken(h: Heap, l: seq<nat>)
    requires AllHaveFrame(h, l)
    ensures AllHold(h, l)
  {
  }

  lemma {:induction false} KeptNotMatched(h: Heap, l: seq<nat>, msgId: nat, nack: bool)
    ensures forall s :: s in Kept(h, l, msgId, nack) ==> !Matched(h, s, msgId, nack)
  {
    if l != [] { KeptNotMatched(h, l[1..], msgId, nack); }
  }

  /** Clearing the taken frames does not show in what is kept. */
  lemma KeptStable(h: Heap, h': Heap, l: seq<nat>, msgId: nat, nack: bool)
    requires AllHaveFrame(h, l) && h'.frames == h.frames
    requires h'.subs == ClearFrames(h.subs, Taken(h, l, msgId, nack)) && AllHaveFrame(h, Kept(h, l, msgId, nack))
    ensures SubsStable(h, h') && AllHaveFrame(h', Kept(h, l, msgId, nack))
    ensures HoldVals(h', Kept(h, l, msgId, nack)) == HoldVals(h, Kept(h, l, msgId, nack))
  {
    KeptNotMatched(h, l, msgId, nack);
    HoldValsStable(h, h', Kept(h, l, msgId, nack));
  }

  /** What DoRelease makes of the heap and of its connection. */
  lemma ReleaseShape(b: Broker, c: nat, msgId: nat, nack: bool)
    requires Local(b) && c < |b.conns| && AllHold(b.heap, Taken(b.heap, b.conns[c].unacked, msgId, nack))
    requires nack || !InvalidModeWaiting(b, c)
    ensures var b', h, k := DoRelease(b, c, msgId, nack), b.heap, b.conns[c];
            var taken := Taken(h, k.unacked, msgId, nack);
            && |b'.conns| == |b.conns| && b'.panic == b.panic
            && b'.heap.frames == h.frames && b'.heap.subs == ClearFrames(h.subs, taken)
            && b'.conns[c].outbox == Released(h, taken, nack) && b'.conns[c].subs == k.subs
            && b'.conns[c].unacked == Kept(h, k.unacked, msgId, nack) && b'.conns[c].lastMsgId == k.lastMsgId
  {
  }

  /** Both models panic for the same reason. */
  lemma SameUnknown(b: Broker, c: nat, st: Session.State)
    requires c < |b.conns| && Shows(b.heap, b.conns[c], st)
    ensures Session.AckError(st).Some? <==> InvalidModeWaiting(b, c)
  {
    var l := b.conns[c].unacked;
    HoldValsAt(b.heap, l);
    assert forall i :: 0 <= i < |l| ==> l[i] in l && st.unacked[i].sub.ack == b.heap.subs[l[i]].ack;
  }

  lemma ReleaseAgrees(b: Broker, c: nat, msgId: nat, nack: bool, st: Session.State)
    requires Local(b) && c < |b.conns| && b.conns[c].outbox == [] && Shows(b.heap, b.conns[c], st)
    requires nack || Session.AckError(st).None?
    ensures var b' := DoRelease(b, c, msgId, nack);
            && |b'.conns| == |b.conns| && b'.panic == b.panic
            && Shows(b'.heap, b'.conns[c], if nack then Session.DoNack(st, msgId) else Session.DoAck(st, msgId))
  {
    var h, k := b.heap, b.conns[c];
    SameUnknown(b, c, st);
    ReleaseVals(h, k.unacked, msgId, nack, st);
    ReleaseShape(b, c, msgId, nack);
    var b' := DoRelease(b, c, msgId, nack);
    ReleaseShows(h, b'.heap, k, b'.conns[c], msgId, nack, st);
  }

  lemma ReleaseShows(h: Heap, h': Heap, k: Conn, k': Conn, msgId: nat, nack: bool, st: Session.State)
    requires k.outbox == [] && Shows(h, k, st) && h'.frames == h.frames && (nack || Session.AckError(st).None?)
    requires AllHold(h, Taken(h, k.unacked, msgId, nack))
    requires var taken := Taken(h, k.unacked, msgId, nack);
             && h'.subs == ClearFrames(h.subs, taken) && k'.outbox == Released(h, taken, nack)
             && k'.unacked == Kept(h, k.unacked, msgId, nack) && k'.subs == k.subs && k'.lastMsgId == k.lastMsgId
    ensures Shows(h', k', if nack then Session.DoNack(st, msgId) else Session.DoAck(st, msgId))
  {
    ReleaseVals(h, k.unacked, msgId, nack, st);
    KeptStable(h, h', k.unacked, msgId, nack);
    SubValsStable(h, h', k.subs);
    ReqValsStable(h, h', k'.outbox);
  }

  lemma SendAgrees(b: Broker, c: nat, f: Frame, st: Session.State)
    requires Local(b) && c < |b.conns| && b.conns[c].outbox == [] && Shows(b.heap, b.conns[c], st)
    requires f.command == Send
    ensures var b' := DoSend(b, c, f); Shows(b'.heap, b'.conns[c], Session.Perform(st, f))
  {
    var h, k, b' := b.heap, b.conns[c], DoSend(b, c, f);
    assert SubsStable(h, b'.heap);
    SubValsStable(h, b'.heap, k.subs);
    HoldValsStable(h, b'.heap, k.unacked);
    var rs := [EnqueueOp(|h.frames|)];
    assert rs[1..] == [] && ReqVals(b'.heap, rs) == [Session.EnqueueOp(f.(command := Message))];
  }

  lemma RegisteredVals(h: Heap, h': Heap, m: map<string, nat>, id: string, s: nat)
    requires SubsStable(h, h') && (forall x :: x in m ==> m[x] < |h.subs|) && s < |h'.subs|
    ensures SubVals(h', m[id := s]) == SubVals(h, m)[id := SubVal(h', s)]
  {
  }

  lemma SubscribeAgrees(b: Broker, c: nat, id: string, dest: string, ack: AckMode, st: Session.State)
    requires c < |b.conns| && b.conns[c].outbox == [] && Shows(b.heap, b.conns[c], st)
    ensures var b', sub := DoNewSub(b, c, id, dest, ack), Session.Sub(id, dest, ack, 0);
            Shows(b'.heap, b'.conns[c],
                  st.(subs := st.subs[id := sub], requests := st.requests + [Session.SubscribeOp(sub)]))
  {
    var h, k, b' := b.heap, b.conns[c], DoNewSub(b, c, id, dest, ack);
    assert SubsStable(h, b'.heap);
    RegisteredVals(h, b'.heap, k.subs, id, |h.subs|);
    HoldValsStable(h, b'.heap, k.unacked);
    var rs := [SubscribeOp(|h.subs|)];
    assert rs[1..] == [] && ReqVals(b'.heap, rs) == [Session.SubscribeOp(Session.Sub(id, dest, ack, 0))];
  }

  lemma UnsubscribeAgrees(b: Broker, c: nat, id: string, st: Session.State)
    requires Local(b) && c < |b.conns| && b.conns[c].outbox == [] && Shows(b.heap, b.conns[c], st)
    requires id in b.conns[c].subs
    ensures id in st.subs
    ensures var b' := DoEndSub(b, c, id);
            Shows(b'.heap, b'.conns[c],
                  st.(subs := st.subs - {id}, requests := st.requests + [Session.UnsubscribeOp(st.subs[id])]))
  {
    var h, k := b.heap, b.conns[c];
    var rs := [UnsubscribeOp(k.subs[id])];
    assert rs[1..] == [] && ReqVals(h, rs) == [Session.UnsubscribeOp(st.subs[id])];
    assert SubVals(h, k.subs - {id}) == st.subs - {id};
  }

  // ---------- deliveries ----------

  /** Stamping a frame that nothing on the list holds does not show in the list. */
  lemma {:induction false} StampStable(h: Heap, h': Heap, l: seq<nat>, f: nat)
    requires AllHaveFrame(h, l) && Held(h.subs, l, f) == 0 && SubsStable(h, h') && |h'.frames| == |h.frames|
    requires forall g :: 0 <= g < |h.frames| && g != f ==> h'.frames[g] == h.frames[g]
    requires forall i :: 0 <= i < |l| ==> h'.subs[l[i]].frame == h.subs[l[i]].frame
    ensures AllHaveFrame(h', l) && HoldVals(h', l) == HoldVals(h, l)
  {
    if l != [] {
      assert HasFrame(h, l[0]) && Points(h.subs, l[0], f) == 0;
      StampStable(h, h', l[1..], f);
      assert HasFrame(h', l[0]) && HoldVal(h', l[0]) == HoldVal(h, l[0]);
    }
  }

  lemma {:induction false} HoldValsAppend(h: Heap, l: seq<nat>, s: nat)
    requires AllHaveFrame(h, l) && HasFrame(h, s)
    ensures AllHaveFrame(h, l + [s]) && HoldVals(h, l + [s]) == HoldVals(h, l) + [HoldVal(h, s)]
  {
    if l == [] {
      assert (l + [s])[1..] == [];
    } else {
      assert (l + [s])[1..] == l[1..] + [s];
      HoldValsAppend(h, l[1..], s);
    }
  }

  lemma {:induction false} NobodyHolds(subs: seq<Sub>, l: seq<nat>, s: nat, f: nat)
    requires Held(subs, l, f) == 0 && s < |subs| && subs[s].frame == Some(f)
    ensures s !in l
  {
    if l != [] { NobodyHolds(subs, l[1..], s, f); }
  }

  /** The frame that is about to be delivered is held by no entry of the un-acknowledged list. */
  lemma DeliveredIsElsewhere(b: Broker, c: nat)
    requires Inv(b, multiset{}, multiset{}) && c < |b.conns| && b.conns[c].subChannel != []
    requires ChannelOk(b.heap, c, b.conns[c].subChannel[0])
    ensures var s := b.conns[c].subChannel[0];
            Held(b.heap.subs, b.conns[c].unacked, b.heap.subs[s].frame.value) == 0 && s !in b.conns[c].unacked
  {
    var k := b.conns[c];
    var s := k.subChannel[0];
    var f := b.heap.subs[s].frame.value;
    HeldOnce(b, c, f);
    HeldHead(b.heap.subs, k.subChannel, f);
    NobodyHolds(b.heap.subs, k.unacked, s, f);
  }

  /** A delivery seen through the heaps: h' stamps the frame of s and may change the two pointers of s. */
  lemma DeliveryShows(h: Heap, h': Heap, k: Conn, k': Conn, s: nat, n: nat, st: Session.State, st': Session.State)
    requires Shows(h, k, st) && k.outbox == [] && HasFrame(h, s) && s !in k.unacked
    requires Held(h.subs, k.unacked, h.subs[s].frame.value) == 0
    requires h'.frames == StampHeld(h, s, n).frames && |h'.subs| == |h.subs|
    requires forall x :: 0 <= x < |h.subs| && x != s ==> h'.subs[x] == h.subs[x]
    requires SubVal(h', s) == SubVal(h, s)
    requires k'.subs == k.subs && k'.lastMsgId == n == st'.lastMsgId && st'.subs == st.subs
    requires var f := Stamp(h.frames[h.subs[s].frame.value], n, h.subs[s].ack);
             || (k'.unacked == k.unacked && st'.unacked == st.unacked
                 && k'.outbox == [SubscribeOp(s)] && st'.requests == [Session.SubscribeOp(SubVal(h, s))])
             || (k'.unacked == k.unacked + [s] && st'.unacked == st.unacked + [Session.Holding(SubVal(h, s), f)]
                 && k'.outbox == [] && st'.requests == [] && h'.subs[s].frame == h.subs[s].frame)
    ensures Shows(h', k', st')
  {
    assert SubsStable(h, h');
    SubValsStable(h, h', k.subs);
    StampStable(h, h', k.unacked, h.subs[s].frame.value);
    if k'.outbox == [] {
      HoldValsAppend(h', k.unacked, s);
    } else {
      assert [SubscribeOp(s)][1..] == [];
    }
  }

  /** The session's reaction to the next subscription in the channel. */
  function ArriveHead(b: Broker, c: nat, st: Session.State, link: Session.Link): Session.Result
    requires c < |b.conns| && b.conns[c].subChannel != [] && HasFrame(b.heap, b.conns[c].subChannel[0])
  {
    var s := b.conns[c].subChannel[0];
    Session.Arrive(st, HoldVal(b.heap, s), b.heap.subs[s].listed, link)
  }

  lemma GoneAgrees(b: Broker, c: nat, st: Session.State, link: Session.Link)
    requires Local(b) && c < |b.conns| && b.conns[c].outbox == [] && Shows(b.heap, b.conns[c], st)
    requires b.conns[c].subChannel != [] && ChannelOk(b.heap, c, b.conns[c].subChannel[0])
    requires b.heap.subs[b.conns[c].subChannel[0]].id !in b.conns[c].subs
    ensures var b' := DoReceive(b, c, true);
            Shows(b'.heap, b'.conns[c], ArriveHead(b, c, st, link).state)
  {
    var s := b.conns[c].subChannel[0];
    var rs := [RequeueOp(b.heap.subs[s].frame.value)];
    assert rs[1..] == [] && InHeap(b.heap, rs[0]);
    assert ReqVals(b.heap, rs) == [Session.RequeueOp(HoldVal(b.heap, s).frame)];
  }

  /** What a successful delivery makes of the heap and of its connection. */
  lemma DeliveryShape(b: Broker, c: nat)
    requires Local(b) && c < |b.conns| && b.conns[c].subChannel != [] && b.conns[c].outbox == []
    requires ChannelOk(b.heap, c, b.conns[c].subChannel[0]) && b.panic.None?
    requires b.heap.subs[b.conns[c].subChannel[0]].id in b.conns[c].subs && DoReceive(b, c, true).panic.None?
    ensures var b', h, k, s := DoReceive(b, c, true), b.heap, b.conns[c], b.conns[c].subChannel[0];
            var h', k', n := b'.heap, b'.conns[c], NextId(k.lastMsgId);
            && h'.frames == StampHeld(h, s, n).frames && |h'.subs| == |h.subs| && SubVal(h', s) == SubVal(h, s)
            && (forall x :: 0 <= x < |h.subs| && x != s ==> h'.subs[x] == h.subs[x])
            && k'.subs == k.subs && k'.lastMsgId == n
            && (if h.subs[s].ack.Auto? then k'.unacked == k.unacked && k'.outbox == [SubscribeOp(s)]
                else k'.unacked == k.unacked + [s] && k'.outbox == [] && h'.subs[s].frame == h.subs[s].frame)
  {
  }

  lemma ReceiveAgrees(b: Broker, c: nat, st: Session.State, link: Session.Link)
    requires Inv(b, multiset{}, multiset{}) && b.panic.None? && c < |b.conns| && b.conns[c].outbox == []
    requires Shows(b.heap, b.conns[c], st) && b.conns[c].subChannel != []
    requires ChannelOk(b.heap, c, b.conns[c].subChannel[0])
    requires ArriveHead(b, c, st, link).error.None?
    ensures var b' := DoReceive(b, c, true);
            && |b'.conns| == |b.conns| && b'.panic.None?
            && Shows(b'.heap, b'.conns[c], ArriveHead(b, c, st, link).state)
  {
    var k := b.conns[c];
    var s := k.subChannel[0];
    if b.heap.subs[s].id !in k.subs {
      GoneAgrees(b, c, st, link);
    } else {
      var b' := DoReceive(b, c, true);
      DeliveryShape(b, c);
      DeliveredIsElsewhere(b, c);
      DeliveryShows(b.heap, b'.heap, k, b'.conns[c], s, NextId(k.lastMsgId), st,
                    ArriveHead(b, c, st, link).state);
    }
  }

  // ---------- the theorem ----------

  /** The step of connection c that answers to an event of its session, if the event has any effect outside
      the transaction store and the client's link. */
  function ActionOf(c: nat, e: Session.Event): Option<Action> {
    match e
    case Arrived(_, _) => Some(Receive(c, true))
    case Pushed(f) => Some(Push(c, Session.Counts(f), true))
    case Timer => Some(Push(c, false, true))
    case FromClient(f) =>
      var id, dest, ack := Lookup(f.header, ID), Lookup(f.header, DESTINATION), Lookup(f.header, ACK);
      if f.command == Subscribe && id.Some? && dest.Some? then
        Some(ClientSubscribe(c, id.value, dest.value, if ack.None? then Auto else ModeOf(ack.value)))
      else if f.command == Unsubscribe && id.Some? then Some(ClientUnsubscribe(c, id.value))
      else if Session.Transactional(f) && Lookup(f.header, TRANSACTION).None?
              && (f.command != Send ==> Session.AckIdOf(f.header).AckId?) then
        Session.LookupsAfterDrop(f, RECEIPT);
        Some(PerformAction(c, Session.Drop(f, RECEIPT)))
      else None
  }

  /** The step that performs a SEND, ACK or NACK. */
  function PerformAction(c: nat, f: Frame): Action
    requires f.command != Send ==> Session.AckIdOf(f.header).AckId?
  {
    if f.command == Send then ClientSend(c, f)
    else ClientRelease(c, Session.AckIdOf(f.header).n, f.command == Nack)
  }

  /** The connection's answer to an event does not panic and shows the new session state. */
  ghost predicate Answers(b: Broker, c: nat, a: Option<Action>, st': Session.State)
    requires Local(b) && c < |b.conns|
  {
    if a.None? then Shows(b.heap, b.conns[c], st')
    else
      && Enabled(b, a.value)
      && var b' := Next(b, a.value); b'.panic.None? && c < |b'.conns| && Shows(b'.heap, b'.conns[c], st')
  }

  lemma ReceiptShows(h: Heap, k: Conn, st: Session.State, f: Frame, link: Session.Link)
    requires Shows(h, k, st)
    ensures Shows(h, k, Session.SendReceipt(st, f, link).state)
  {
  }

  lemma Answered(b: Broker, c: nat, a: Action, b': Broker, st': Session.State)
    requires Local(b) && c < |b.conns| && Enabled(b, a) && b' == Next(b, a) && c < |b'.conns|
    requires b'.panic.None? && Shows(b'.heap, b'.conns[c], st')
    ensures Answers(b, c, Some(a), st')
  {
  }

  lemma PerformReaction(b: Broker, c: nat, f: Frame, st: Session.State)
    requires Local(b) && b.panic.None? && Ready(b, c, Running) && Shows(b.heap, b.conns[c], st)
    requires Session.Transactional(f) && (f.command != Send ==> Session.AckIdOf(f.header).AckId?)
    requires Session.PerformError(st, f).None?
    ensures Answers(b, c, Some(PerformAction(c, f)), Session.Perform(st, f))
  {
    if f.command == Send {
      SendAgrees(b, c, f, st);
      Answered(b, c, ClientSend(c, f), DoSend(b, c, f), Session.Perform(st, f));
    } else {
      var msgId, nack := Session.AckIdOf(f.header).n, f.command == Nack;
      ReleaseAgrees(b, c, msgId, nack, st);
      Answered(b, c, ClientRelease(c, msgId, nack), DoRelease(b, c, msgId, nack), Session.Perform(st, f));
    }
  }

  lemma MessageReaction(b: Broker, c: nat, f: Frame, st: Session.State, link: Session.Link)
    requires Local(b) && b.panic.None? && Ready(b, c, Running) && Shows(b.heap, b.conns[c], st)
    requires Session.Transactional(f) && Session.HandleMessage(st, f, link).error.None?
    ensures Answers(b, c, ActionOf(c, Session.FromClient(f)), Session.HandleMessage(st, f, link).state)
  {
    ReceiptShows(b.heap, b.conns[c], st, f, link);
    Session.LookupsAfterDrop(f, RECEIPT);
    if Lookup(f.header, TRANSACTION).None? {
      PerformReaction(b, c, Session.Drop(f, RECEIPT), Session.SendReceipt(st, f, link).state);
    }
  }

  lemma SubscriptionReaction(b: Broker, c: nat, f: Frame, st: Session.State, link: Session.Link)
    requires Local(b) && b.panic.None? && Ready(b, c, Running) && Shows(b.heap, b.conns[c], st)
    requires f.command == Subscribe || f.command == Unsubscribe
    requires Session.Plain(st, f, link).error.None?
    ensures Answers(b, c, ActionOf(c, Session.FromClient(f)), Session.Plain(st, f, link).state)
  {
    var id := Lookup(f.header, ID).value;
    if f.command == Subscribe {
      var ack := Lookup(f.header, ACK);
      SubscribeAgrees(b, c, id, Lookup(f.header, DESTINATION).value,
                      if ack.None? then Auto else ModeOf(ack.value), st);
      Answered(b, c, ActionOf(c, Session.FromClient(f)).value,
               Next(b, ActionOf(c, Session.FromClient(f)).value), Session.Plain(st, f, link).state);
    } else {
      UnsubscribeAgrees(b, c, id, st);
      Answered(b, c, ClientUnsubscribe(c, id), DoEndSub(b, c, id), Session.Plain(st, f, link).state);
    }
  }

  lemma ArriveReaction(b: Broker, c: nat, st: Session.State, link: Session.Link)
    requires Inv(b, multiset{}, multiset{}) && b.panic.None? && Ready(b, c, Running) && Shows(b.heap, b.conns[c], st)
    requires b.conns[c].subChannel != [] && HasFrame(b.heap, b.conns[c].subChannel[0])
    requires ArriveHead(b, c, st, link).error.None?
    ensures Answers(b, c, Some(Receive(c, true)), ArriveHead(b, c, st, link).state)
  {
    assert ConnOk(b.heap, c, b.conns[c]) && b.conns[c].subChannel[0] in b.conns[c].subChannel;
    ReceiveAgrees(b, c, st, link);
    Answered(b, c, Receive(c, true), DoReceive(b, c, true), ArriveHead(b, c, st, link).state);
  }

  lemma PushReaction(b: Broker, c: nat, counts: bool, st: Session.State, st': Session.State)
    requires Local(b) && b.panic.None? && Ready(b, c, Running) && Shows(b.heap, b.conns[c], st)
    requires st'.subs == st.subs && st'.unacked == st.unacked && st'.requests == st.requests
    requires st'.lastMsgId == if counts then NextId(st.lastMsgId) else st.lastMsgId
    ensures Answers(b, c, Some(Push(c, counts, true)), st')
  {
    Answered(b, c, Push(c, counts, true), DoPush(b, c, counts, true), st');
  }

  /** The event can happen now: an arrival is the next subscription in the channel. */
  ghost predicate Occurs(b: Broker, c: nat, e: Session.Event)
    requires c < |b.conns|
  {
    e.Arrived? ==>
      && b.conns[c].subChannel != [] && HasFrame(b.heap, b.conns[c].subChannel[0])
      && var s := b.conns[c].subChannel[0]; e == Session.Arrived(HoldVal(b.heap, s), b.heap.subs[s].listed)
  }

  /** Every error-free reaction of the session to anything but COMMIT is one enabled step of the connection in the broker that does not panic,
      with the same new subscriptions, un-acknowledged list, message counter and requests; or it is no
      step, and then nothing of that changes. */
  lemma ReactionIsStep(b: Broker, c: nat, e: Session.Event, st: Session.State, link: Session.Link)
    requires Inv(b, multiset{}, multiset{}) && b.panic.None? && Ready(b, c, Running) && Occurs(b, c, e)
    requires Shows(b.heap, b.conns[c], st) && Session.Valid(st)
    requires e.FromClient? ==> e.frame.command != Commit
    requires Session.React(st, e, link).error.None?
    ensures Answers(b, c, ActionOf(c, e), Session.React(st, e, link).state)
  {
    match e
    case Arrived(held, listed) => ArriveReaction(b, c, st, link);
    case Pushed(f) => PushReaction(b, c, Session.Counts(f), st, Session.Push(st, f, link).state);
    case Timer => PushReaction(b, c, false, st, Session.Write(st, Session.HeartBeat, link).state);
    case FromClient(f) =>
      if Session.Transactional(f) {
        MessageReaction(b, c, f, st, link);
      } else if f.command == Subscribe || f.command == Unsubscribe {
        SubscriptionReaction(b, c, f, st, link);
      } else {
        ReceiptShows(b.heap, b.conns[c], st, f, link);
      }
  }

  /** And where the session panics, so does that step of the broker. */
  lemma PanicIsPanic(b: Broker, c: nat, e: Session.Event, st: Session.State, link: Session.Link)
    requires Inv(b, multiset{}, multiset{}) && b.panic.None? && Ready(b, c, Running) && Occurs(b, c, e)
    requires Shows(b.heap, b.conns[c], st) && Session.Valid(st)
    requires e.FromClient? ==> e.frame.command != Commit
    requires Session.React(st, e, link).error in {Some(Session.PanicUnknownMode), Some(Session.PanicListed)}
    ensures ActionOf(c, e).Some? && Enabled(b, ActionOf(c, e).value) && Next(b, ActionOf(c, e).value).panic.Some?
  {
    match e
    case Arrived(held, listed) => ArrivePanic(b, c, st, link);
    case Pushed(f) =>
    case Timer =>
    case FromClient(f) => ClientPanic(b, c, f, st, link);
  }

  /** Outside COMMIT only an ACK makes the state function panic. */
  lemma PanicCause(st: Session.State, f: Frame, link: Session.Link)
    requires Session.Plain(st, f, link).error in {Some(Session.PanicUnknownMode), Some(Session.PanicListed)}
    ensures f.command == Ack && Lookup(f.header, TRANSACTION).None? && Session.AckIdOf(f.header).AckId?
    ensures Session.AckError(Session.SendReceipt(st, f, link).state).Some?
  {
    Session.LookupsAfterDrop(f, RECEIPT);
  }

  lemma ClientPanic(b: Broker, c: nat, f: Frame, st: Session.State, link: Session.Link)
    requires Local(b) && b.panic.None? && Ready(b, c, Running) && Shows(b.heap, b.conns[c], st)
    requires Session.Plain(st, f, link).error in {Some(Session.PanicUnknownMode), Some(Session.PanicListed)}
    ensures var a := ActionOf(c, Session.FromClient(f));
            a.Some? && Enabled(b, a.value) && Next(b, a.value).panic.Some?
  {
    PanicCause(st, f, link);
    Session.LookupsAfterDrop(f, RECEIPT);
    ReceiptShows(b.heap, b.conns[c], st, f, link);
    AckPanic(b, c, Session.AckIdOf(f.header).n, Session.SendReceipt(st, f, link).state);
  }

  lemma AckPanic(b: Broker, c: nat, msgId: nat, st: Session.State)
    requires Local(b) && c < |b.conns| && Shows(b.heap, b.conns[c], st) && Session.AckError(st).Some?
    ensures DoRelease(b, c, msgId, false).panic.Some?
  {
    SameUnknown(b, c, st);
  }

  lemma ArrivePanic(b: Broker, c: nat, st: Session.State, link: Session.Link)
    requires Local(b) && c < |b.conns| && b.conns[c].subChannel != [] && HasFrame(b.heap, b.conns[c].subChannel[0])
    requires Shows(b.heap, b.conns[c], st) && ArriveHead(b, c, st, link).error == Some(Session.PanicListed)
    ensures DoReceive(b, c, true).panic.Some?
  {
    assert ConnOk(b.heap, c, b.conns[c]) && b.conns[c].subChannel[0] in b.conns[c].subChannel;
  }
}
