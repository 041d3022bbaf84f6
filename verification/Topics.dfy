/** Topics: every subscription gets a frame of its own (server/topic/topic.go). */
module Topics {
  import opened Text
  import opened Frames
  import opened Acks
  import opened Queues
  import opened Delivery

  /** Of the frames sent to the subscriptions, those for connection e, in order. */
  function Share(subs: seq<Subscription>, sent: seq<FrameObject>, e: Endpoint): seq<FrameObject>
    requires |subs| == |sent|
  {
    if subs == [] then []
    else
      var n := |subs| - 1;
      Share(subs[..n], sent[..n], e) + if subs[n].conn == e then [sent[n]] else []
  }

  lemma ShareStep(subs: seq<Subscription>, i: nat, sent: seq<FrameObject>, g: FrameObject, e: Endpoint)
    requires i < |subs| && |sent| == i
    ensures Share(subs[..i + 1], sent + [g], e) ==
            Share(subs[..i], sent, e) + if subs[i].conn == e then [g] else []
  {
    assert subs[..i + 1][..i] == subs[..i] && (sent + [g])[..i] == sent;
  }

  /** No two of the frames share a frame object, a header or a body. */
  ghost predicate Isolated(sent: seq<FrameObject>) {
    forall i, j :: 0 <= i < j < |sent| ==>
      && sent[i] != sent[j] && sent[i].header != sent[j].header
      && (sent[i].body == null || sent[i].body != sent[j].body)
  }

  /** Frame i says what the original said, tagged with the id of subscription i. */
  ghost predicate Copies(subs: seq<Subscription>, sent: seq<FrameObject>, original: Frame)
    requires |subs| == |sent|
    reads sent, set f | f in sent :: f.header, set f | f in sent && f.body != null :: f.body
  {
    forall i :: 0 <= i < |sent| ==> sent[i].Valid() && sent[i].Value() == Tagged(original, subs[i].id)
  }

  /** Sending g leaves the frames that share nothing with it as they are. */
  method SendApart(sub: Subscription, g: FrameObject, ghost subs: seq<Subscription>,
                   ghost sent: seq<FrameObject>, ghost original: Frame)
    requires g.Valid() && sub.frame == null && |subs| == |sent| && Owned(sent, g)
    requires g.Value() == original && Copies(subs, sent, original)
    modifies g.header, sub.conn`writeChannel
    ensures sub.conn.writeChannel == old(sub.conn.writeChannel) + [g]
    ensures Copies(subs + [sub], sent + [g], original)
  {
    var ok := sub.SendTopicFrame(g);
    forall k | 0 <= k < |sent| ensures sent[k].header.Valid() && sent[k].Value() == Tagged(original, subs[k].id) {
      assert sent[k] in sent;
      assert sent[k].header.Entries() == old(sent[k].header.Entries());
    }
  }

  class Topic {
    var subs: seq<Subscription>

    constructor ()
      ensures subs == []
    {
      subs := [];
    }

    method Subscribe(sub: Subscription)
      modifies this
      ensures subs == old(subs) + [sub]
    {
      subs := subs + [sub];
    }

    method Unsubscribe(sub: Subscription)
      modifies this
      ensures subs == RemoveFirst(old(subs), sub)
    {
      var i := 0;
      while i < |subs|
        invariant 0 <= i <= |subs| && subs == old(subs) && sub !in subs[..i]
      {
        if sub == subs[i] {
          RemoveAt(subs, sub, i);
          subs := subs[..i] + subs[i + 1..];
          return;
        }
        i := i + 1;
      }
      RemoveAbsent(subs, sub);
    }

    ghost function Ends(): set<Endpoint>
      reads this
    {
      set s | s in subs :: s.conn
    }

    /** The first i subscriptions have got their frames. */
    ghost predicate Progress(i: nat, sent: seq<FrameObject>, start: map<Endpoint, seq<FrameObject>>, original: Frame)
      reads this, Ends(), sent, set f | f in sent :: f.header, set f | f in sent && f.body != null :: f.body
    {
      && i <= |subs| && |sent| == i && Ends() <= start.Keys
      && (forall e :: e in Ends() ==> e.writeChannel == start[e] + Share(subs[..i], sent, e))
      && Isolated(sent) && Copies(subs[..i], sent, original)
    }

    /** The turn of the loop for subscription i. */
    method SendTo(i: nat, g: FrameObject, ghost sent: seq<FrameObject>, ghost start: map<Endpoint, seq<FrameObject>>)
      requires i < |subs| && g.Valid() && subs[i].frame == null && Progress(i, sent, start, g.Value())
      requires Owned(sent, g)
      modifies g.header, subs[i].conn`writeChannel
      ensures Progress(i + 1, sent + [g], start, old(g.Value()))
    {
      SendApart(subs[i], g, subs[..i], sent, g.Value());
      assert subs[..i + 1] == subs[..i] + [subs[i]];
      forall e | e in Ends() ensures e.writeChannel == start[e] + Share(subs[..i + 1], sent + [g], e) {
        ShareStep(subs, i, sent, g, e);
      }
    }

    /** The turn for a subscription that is not the last. */
    method SendClone(i: nat, f: FrameObject, ghost sent: seq<FrameObject>, ghost start: map<Endpoint, seq<FrameObject>>)
      returns (g: FrameObject)
      requires i < |subs| && f.Valid() && subs[i].frame == null && Progress(i, sent, start, f.Value())
      modifies subs[i].conn`writeChannel
      ensures fresh(g) && fresh(g.header) && (g.body != null ==> fresh(g.body))
      ensures Progress(i + 1, sent + [g], start, old(f.Value()))
    {
      g := f.Clone();
      assert Owned(sent, g);
      SendTo(i, g, sent, start);
    }

    /** Sends a clone to every subscription but the last, which gets the frame itself. */
    method Enqueue(f: FrameObject) returns (ghost sent: seq<FrameObject>)
      requires f.Valid() && forall s :: s in subs ==> s.frame == null
      modifies f.header, (set s | s in subs :: s.conn)`writeChannel
      ensures |sent| == |subs| && Isolated(sent) && Copies(subs, sent, old(f.Value()))
      ensures forall e :: e in Ends() ==> e.writeChannel == old(e.writeChannel) + Share(subs, sent, e)
    {
      sent := [];
      if |subs| == 0 { return; }
      ghost var start := map e | e in Ends() :: e.writeChannel;
      sent := SendClones(f, start);
      SendTo(|subs| - 1, f, sent, start);
      sent := sent + [f];
      assert subs[..|subs|] == subs;
    }

    /** The turns of the loop before the last. */
    method SendClones(f: FrameObject, ghost start: map<Endpoint, seq<FrameObject>>)
      returns (ghost sent: seq<FrameObject>)
      requires |subs| > 0 && f.Valid() && forall s :: s in subs ==> s.frame == null
      requires start == map e | e in Ends() :: e.writeChannel
      modifies (set s | s in subs :: s.conn)`writeChannel
      ensures Progress(|subs| - 1, sent, start, f.Value()) && Owned(sent, f)
    {
      sent := [];
      var i := 0;
      while i + 1 < |subs|
        invariant 0 <= i < |subs| && Progress(i, sent, start, f.Value())
        invariant Owned(sent, f)
      {
        var g := SendClone(i, f, sent, start);
        sent := sent + [g];
        i := i + 1;
      }
    }
  }

  /** The frames share no object with f. */
  ghost predicate Owned(sent: seq<FrameObject>, f: FrameObject) {
    forall g :: g in sent ==> g != f && g.header != f.header && (g.body == null || g.body != f.body)
  }

  /** Conn.allocateMessageId, on the frame object. */
  method AllocateMessageId(f: FrameObject, last: nat, mode: AckMode) returns (next: nat)
    requires f.Valid()
    modifies f.header
    ensures f.Valid()
    ensures next == if f.command in {Message, Ack} then NextId(last) else last
    ensures f.Value() == Stamp(old(f.Value()), NextId(last), mode)
  {
    next := last;
    if f.command == Message || f.command == Ack {
      next := NextId(last);
      var text := Decimal(next);
      f.header.Set(MESSAGE_ID, text);
      f.header.Set(ID, text);
      if mode.Auto? {
        f.header.Del(ACK);
      } else {
        f.header.Set(ACK, text);
      }
    }
  }

  /** One receiver stamping its copy of a broadcast leaves all other copies as they were. */
  method StampOwnCopy(sent: seq<FrameObject>, i: nat, last: nat) returns (next: nat)
    requires Isolated(sent) && i < |sent| && forall k :: 0 <= k < |sent| ==> sent[k].header.Valid()
    modifies sent[i].header
    ensures forall k :: 0 <= k < |sent| ==> sent[k].header.Valid()
    ensures sent[i].Value() == Stamp(old(sent[i].Value()), NextId(last), Auto)
    ensures forall j :: 0 <= j < |sent| && j != i ==> sent[j].Value() == old(sent[j].Value())
  {
    assert forall j :: 0 <= j < |sent| && j != i ==> sent[j].header != sent[i].header;
    next := AllocateMessageId(sent[i], last, Auto);
    forall j | 0 <= j < |sent| && j != i ensures sent[j].Valid() && sent[j].Value() == old(sent[j].Value()) {
      assert sent[j].header != sent[i].header;
    }
  }
}
