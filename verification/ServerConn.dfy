/** The session as the source runs it: objects updated in place, proved against Session.dfy. */
module ServerConn {
  import opened Text
  import opened Frames
  import opened Acks
  import opened Session

  lemma {:induction false} ReleasedAppend(hs: seq<Holding>, h: Holding)
    ensures Released(hs + [h]) == Released(hs) + [SubscribeOp(h.sub)]
  {
    if hs == [] {
      assert (hs + [h])[1..] == [];
    } else {
      assert (hs + [h])[1..] == hs[1..] + [h];
      ReleasedAppend(hs[1..], h);
    }
  }

  lemma {:induction false} ReturnedAppend(hs: seq<Holding>, h: Holding)
    ensures Returned(hs + [h]) == Returned(hs) + [RequeueOp(h.frame), SubscribeOp(h.sub)]
  {
    if hs == [] {
      assert (hs + [h])[1..] == [];
    } else {
      assert (hs + [h])[1..] == hs[1..] + [h];
      ReturnedAppend(hs[1..], h);
    }
  }

  class TxStore {
    var transactions: map<string, seq<Frame>>

    constructor ()
      ensures transactions == map[]
    {
      transactions := map[];
    }

    method Begin(tx: string) returns (err: Option<Fault>)
      modifies this
      ensures err == if tx in old(transactions) then Some(TxInProgress) else None
      ensures transactions == if tx in old(transactions) then old(transactions) else old(transactions)[tx := []]
    {
      if tx in transactions { return Some(TxInProgress); }
      transactions := transactions[tx := []];
      err := None;
    }

    method Abort(tx: string) returns (err: Option<Fault>)
      modifies this
      ensures err == if tx in old(transactions) then None else Some(TxUnknown)
      ensures transactions == old(transactions) - {tx}
    {
      if tx in transactions {
        transactions := transactions - {tx};
        return None;
      }
      assert transactions - {tx} == transactions;
      err := Some(TxUnknown);
    }

    method Add(tx: string, f: Frame) returns (err: Option<Fault>)
      modifies this
      ensures err == if tx in old(transactions) then None else Some(TxUnknown)
      ensures tx !in old(transactions) ==> transactions == old(transactions)
      ensures tx in old(transactions) ==>
                transactions == old(transactions)[tx := old(transactions)[tx] + [Drop(f, TRANSACTION)]]
    {
      if tx in transactions {
        transactions := transactions[tx := transactions[tx] + [Drop(f, TRANSACTION)]];
        return None;
      }
      err := Some(TxUnknown);
    }
  }

  class Conn {
    const txStore: TxStore
    const link: Link
    var subs: map<string, Sub>
    var unacked: seq<Holding>
    var lastMsgId: nat
    var requests: seq<Request>
    var written: seq<Output>
    var writes: nat

    ghost function View(): State
      reads this, txStore
    {
      State(txStore.transactions, subs, unacked, lastMsgId, requests, written, writes)
    }

    ghost predicate Ok()
      reads this, txStore
    {
      Valid(View())
    }

    constructor (link: Link)
      ensures fresh(txStore) && this.link == link && View() == EMPTY && Ok()
    {
      txStore := new TxStore();
      this.link := link;
      subs, unacked, lastMsgId, requests, written, writes := map[], [], 0, [], [], 0;
    }

    /** One call of the connection's writer. */
    method Put(o: Output) returns (err: Option<Fault>)
      modifies this
      ensures Result(View(), err) == Write(old(View()), o, link)
    {
      err := if link(writes) then None else Some(WriteFailed);
      if link(writes) { written := written + [o]; }
      writes := writes + 1;
    }

    method SendReceiptImmediately(f: Frame) returns (g: Frame, err: Option<Fault>)
      modifies this
      ensures Result(View(), err) == SendReceipt(old(View()), f, link)
      ensures g == Drop(f, RECEIPT)
    {
      g, err := Drop(f, RECEIPT), None;
      var id := Lookup(f.header, RECEIPT);
      if id.Some? {
        err := Put(Answer(ReceiptFrame(id.value)));
      }
    }

    /** SubscriptionList.Ack with the callback of handleAck. An unknown mode makes it panic there, with the
        entries before it already released. */
    method Ack(msgId: nat) returns (err: Option<Fault>)
      modifies this
      ensures View() == DoAck(old(View()), msgId) && err == AckError(old(View()))
    {
      var all, kept, i := unacked, [], 0;
      ghost var n := Known(unacked);
      while i < |all| && !all[i].sub.ack.Invalid?
        invariant 0 <= i <= n <= |all|
        invariant kept == Filter(all[..i], h => !AckedBy(h, msgId))
        invariant View() == old(View()).(requests :=
                    old(requests) + Released(Filter(all[..i], h => AckedBy(h, msgId))))
      {
        assert all[..i + 1] == all[..i] + [all[i]];
        FilterAppend(all[..i], all[i], h => AckedBy(h, msgId));
        FilterAppend(all[..i], all[i], h => !AckedBy(h, msgId));
        ghost var taken := Filter(all[..i], h => AckedBy(h, msgId));
        ReleasedAppend(taken, all[i]);
        if AckedBy(all[i], msgId) {
          requests := requests + [SubscribeOp(all[i].sub)];
          assert requests == old(requests) + Released(taken + [all[i]]);
        } else {
          assert taken + [] == taken;
          kept := kept + [all[i]];
        }
        i := i + 1;
      }
      assert i == n;
      unacked := kept + all[i..];
      err := if i < |all| then Some(PanicUnknownMode) else None;
    }

    /** SubscriptionList.Nack with the callback of handleNack. */
    method Nack(msgId: nat)
      modifies this
      ensures View() == DoNack(old(View()), msgId)
    {
      var all, kept, i := unacked, [], 0;
      while i < |all|
        invariant 0 <= i <= |all|
        invariant kept == Filter(all[..i], h => !NackedBy(h, msgId))
        invariant View() == old(View()).(requests :=
                    old(requests) + Returned(Filter(all[..i], h => NackedBy(h, msgId))))
      {
        assert all[..i + 1] == all[..i] + [all[i]];
        FilterAppend(all[..i], all[i], h => NackedBy(h, msgId));
        FilterAppend(all[..i], all[i], h => !NackedBy(h, msgId));
        ghost var taken := Filter(all[..i], h => NackedBy(h, msgId));
        ReturnedAppend(taken, all[i]);
        if NackedBy(all[i], msgId) {
          requests := requests + [RequeueOp(all[i].frame), SubscribeOp(all[i].sub)];
          assert requests == old(requests) + Returned(taken + [all[i]]);
        } else {
          assert taken + [] == taken;
          kept := kept + [all[i]];
        }
        i := i + 1;
      }
      assert all[..i] == all;
      unacked := kept;
    }

    /** handleSend, handleAck and handleNack. */
    method HandleMessageFrame(f: Frame) returns (err: Option<Fault>)
      requires Ok() && Transactional(f)
      modifies this, txStore
      ensures Result(View(), err) == HandleMessage(old(View()), f, link)
    {
      var id := AckIdOf(f.header);
      if f.command != Send && id.NoId? { return Some(MissingHeader(MESSAGE_ID)); }
      if f.command != Send && id.BadId? { return Some(BadMessageId); }
      var g;
      g, err := SendReceiptImmediately(f);
      LookupsAfterDrop(f, RECEIPT);
      if err.Some? { return; }
      var tx := Lookup(g.header, TRANSACTION);
      if tx.Some? {
        err := txStore.Add(tx.value, g);
      } else if f.command == Send {
        requests := requests + [EnqueueOp(g.(command := Message))];
      } else if f.command == Frames.Ack {
        err := Ack(id.n);
      } else {
        Nack(id.n);
      }
    }

    method HandleBeginFrame(f: Frame) returns (err: Option<Fault>)
      modifies this, txStore
      ensures Result(View(), err) == HandleBegin(old(View()), f, link)
    {
      var tx := Lookup(f.header, TRANSACTION);
      if tx.None? { return Some(MissingHeader(TRANSACTION)); }
      var g;
      g, err := SendReceiptImmediately(f);
      if err.None? { err := txStore.Begin(tx.value); }
    }

    method HandleAbortFrame(f: Frame) returns (err: Option<Fault>)
      modifies this, txStore
      ensures Result(View(), err) == HandleAbort(old(View()), f, link)
    {
      var tx := Lookup(f.header, TRANSACTION);
      if tx.None? { return Some(MissingHeader(TRANSACTION)); }
      var g;
      g, err := SendReceiptImmediately(f);
      if err.None? {
        ghost var before := txStore.transactions;
        err := txStore.Abort(tx.value);
        assert tx.value !in before ==> before - {tx.value} == before;
      }
    }

    method HandleSubscribeFrame(f: Frame) returns (err: Option<Fault>)
      modifies this
      ensures Result(View(), err) == HandleSubscribe(old(View()), f)
    {
      var id, dest := Lookup(f.header, ID), Lookup(f.header, DESTINATION);
      if id.None? { return Some(MissingHeader(ID)); }
      if dest.None? { return Some(MissingHeader(DESTINATION)); }
      var ack := Lookup(f.header, ACK);
      if id.value in subs { return Some(SubExists); }
      var sub := Sub(id.value, dest.value, if ack.None? then Auto else ModeOf(ack.value), 0);
      subs := subs[id.value := sub];
      requests := requests + [SubscribeOp(sub)];
      err := None;
    }

    method HandleUnsubscribeFrame(f: Frame) returns (err: Option<Fault>)
      modifies this
      ensures Result(View(), err) == HandleUnsubscribe(old(View()), f)
    {
      var id := Lookup(f.header, ID);
      if id.None? { return Some(MissingHeader(ID)); }
      if id.value !in subs { return Some(SubNotFound); }
      requests := requests + [UnsubscribeOp(subs[id.value])];
      subs := subs - {id.value};
      err := None;
    }

    /** txStore.Commit: takes the first frame off the list until none is left, calling the state
        function on each. That the callback cannot add to the list makes it terminate. */
    method CommitTransaction(tx: string) returns (err: Option<Fault>)
      requires Ok() && tx in txStore.transactions
      modifies this, txStore
      ensures Result(View(), err) == CommitLoop(old(View()), tx, link)
      decreases 1
    {
      while txStore.transactions[tx] != []
        invariant Ok() && tx in txStore.transactions
        invariant CommitLoop(View(), tx, link) == CommitLoop(old(View()), tx, link)
        decreases |txStore.transactions[tx]|
      {
        var l := txStore.transactions[tx];
        txStore.transactions := txStore.transactions[tx := l[1..]];
        PlainOnStored(View(), l[0], link);
        PlainKeepsValid(View(), l[0], link);
        err := StateFunc(l[0]);
        if err.Some? { return; }
      }
      txStore.transactions := txStore.transactions - {tx};
      err := None;
    }

    method HandleCommitFrame(f: Frame) returns (err: Option<Fault>)
      requires Ok()
      modifies this, txStore
      ensures Result(View(), err) == HandleCommit(old(View()), f, link)
      decreases 2
    {
      var tx := Lookup(f.header, TRANSACTION);
      if tx.None? { return Some(MissingHeader(TRANSACTION)); }
      var g;
      g, err := SendReceiptImmediately(f);
      if err.Some? { return; }
      if tx.value !in txStore.transactions { return Some(TxUnknown); }
      err := CommitTransaction(tx.value);
    }

    /** The connected state function. */
    method StateFunc(f: Frame) returns (err: Option<Fault>)
      requires Ok()
      modifies this, txStore
      ensures Result(View(), err) == Dispatch(old(View()), f, link)
      ensures Ok()
      decreases if f.command == Commit then 3 else 0
    {
      DispatchKeepsValid(View(), f, link);
      match f.command
      case Send => err := HandleMessageFrame(f);
      case Ack => err := HandleMessageFrame(f);
      case Nack => err := HandleMessageFrame(f);
      case Subscribe => err := HandleSubscribeFrame(f);
      case Unsubscribe => err := HandleUnsubscribeFrame(f);
      case Begin => err := HandleBeginFrame(f);
      case Abort => err := HandleAbortFrame(f);
      case Commit => err := HandleCommitFrame(f);
      case Disconnect =>
        var g, ignored := SendReceiptImmediately(f);
        err := None;
      case Connect => err := Some(UnexpectedCommand);
      case Stomp => err := Some(UnexpectedCommand);
      case Message => err := Some(UnexpectedCommand);
      case Receipt => err := Some(UnexpectedCommand);
      case Error => err := Some(UnexpectedCommand);
      case _ => err := Some(UnknownCommand);
    }

    /** The subscription-channel arm of processLoop; listed says whether the subscription points to a list. */
    method ReceiveSubscription(h: Holding, listed: bool) returns (err: Option<Fault>)
      modifies this
      ensures Result(View(), err) == Arrive(old(View()), h, listed, link)
    {
      if h.sub.id !in subs {
        requests := requests + [RequeueOp(h.frame)];
        return None;
      }
      lastMsgId := NextId(lastMsgId);
      var f := Stamp(h.frame, lastMsgId, h.sub.ack);
      err := Put(Delivery(f));
      if err.Some? { return; }
      if h.sub.ack.Auto? {
        requests := requests + [SubscribeOp(h.sub)];
      } else if listed {
        err := Some(PanicListed);
      } else {
        unacked := unacked + [Holding(h.sub, f)];
      }
    }

    /** The write-channel arm of processLoop. */
    method ReceivePushed(f: Frame) returns (err: Option<Fault>)
      modifies this
      ensures Result(View(), err) == Push(old(View()), f, link)
    {
      var g := f;
      if f.command == Message || f.command == Frames.Ack {
        lastMsgId := NextId(lastMsgId);
        g := Stamp(f, lastMsgId, Auto);
      }
      err := Put(Delivery(g));
      if err.None? && f.command == Error { err := Some(ErrorSent); }
    }

    /** The heart-beat timer's arm of processLoop. */
    method ReceiveTimer() returns (err: Option<Fault>)
      modifies this
      ensures Result(View(), err) == Write(old(View()), HeartBeat, link)
    {
      err := Put(HeartBeat);
    }
  }
}
