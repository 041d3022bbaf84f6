/** What a session accepts and what it does, told by looking back over its events: nothing here refers to the
    session's own tables or to its handlers. */
module History {
  import opened Text
  import opened Frames
  import opened Acks
  import opened Session
  import opened Transactions

  // ---------- looking back ----------

  /** The SUBSCRIBE frame under which the id is registered: the last SUBSCRIBE or UNSUBSCRIBE with that id, if
      it was a SUBSCRIBE. */
  function SubscribedBy(es: seq<Event>, id: string): Option<Frame> {
    if es == [] then None
    else
      var e, before := es[|es| - 1], es[..|es| - 1];
      if e.FromClient? && e.frame.command in {Subscribe, Unsubscribe} && Lookup(e.frame.header, "id") == Some(id)
      then if e.frame.command == Subscribe then Some(e.frame) else None
      else SubscribedBy(before, id)
  }

  /** The subscription that a SUBSCRIBE frame asks for. */
  predicate AskedFor(sub: Session.Sub, id: string, f: Frame) {
    && sub.id == id && Some(sub.dest) == Lookup(f.header, "destination") && sub.msgId == 0
    && match Lookup(f.header, "ack")
       case None => sub.ack == Auto
       case Some(text) =>
         sub.ack == if text == "auto" then Auto else if text == "client" then Client
                    else if text == "client-individual" then ClientIndividual else Invalid(text)
  }

  ghost predicate SubsAre(s: State, es: seq<Event>) {
    forall id :: (id in s.subs <==> SubscribedBy(es, id).Some?) &&
                 (id in s.subs ==> AskedFor(s.subs[id], id, SubscribedBy(es, id).value))
  }

  lemma CommitKeepsSubs(s: State, fs: seq<Frame>)
    requires AllStored(fs)
    ensures PerformAll(s, fs).state.subs == s.subs
    decreases |fs|
  {
    if fs != [] && PerformError(s, fs[0]).None? { CommitKeepsSubs(Perform(s, fs[0]), fs[1..]); }
  }

  lemma OtherFramesKeepSubs(s: State, f: Frame, link: Link)
    requires Valid(s) && f.command !in {Subscribe, Unsubscribe}
    ensures Dispatch(s, f, link).state.subs == s.subs
  {
    if f.command == Commit {
      var tx, r := Lookup(f.header, TRANSACTION), SendReceipt(s, f, link);
      if tx.Some? && r.error.None? && tx.value in r.state.transactions {
        CommitIsAtomic(r.state, tx.value, link);
        CommitKeepsSubs(r.state, r.state.transactions[tx.value]);
      }
    } else if Transactional(f) {
      LookupsAfterDrop(f, RECEIPT);
    }
  }

  lemma SubscriptionStep(s: State, f: Frame, es: seq<Event>, link: Link)
    requires Valid(s) && SubsAre(s, es) && f.command in {Subscribe, Unsubscribe}
    requires Dispatch(s, f, link).error.None?
    ensures SubsAre(Dispatch(s, f, link).state, es + [FromClient(f)])
  {
    var e, s' := FromClient(f), Dispatch(s, f, link).state;
    assert (es + [e])[..|es|] == es;
    forall id ensures id in s'.subs <==> SubscribedBy(es + [e], id).Some?
              ensures id in s'.subs ==> AskedFor(s'.subs[id], id, SubscribedBy(es + [e], id).value)
    {
      assert id in s.subs <==> SubscribedBy(es, id).Some?;
    }
  }

  lemma SubsStep(s: State, e: Event, es: seq<Event>, link: Link)
    requires Valid(s) && SubsAre(s, es) && React(s, e, link).error.None?
    ensures SubsAre(React(s, e, link).state, es + [e])
  {
    assert (es + [e])[..|es|] == es;
    if e.FromClient? && e.frame.command in {Subscribe, Unsubscribe} {
      SubscriptionStep(s, e.frame, es, link);
    } else {
      if e.FromClient? { OtherFramesKeepSubs(s, e.frame, link); }
      assert React(s, e, link).state.subs == s.subs;
      forall id ensures SubscribedBy(es + [e], id) == SubscribedBy(es, id) {}
    }
  }

  /** After every error-free session the registered subscriptions are those of the last SUBSCRIBE frames, as
      they asked. */
  lemma {:induction false} RegisteredByTheLast(es: seq<Event>, link: Link)
    requires Run(EMPTY, es, link).error.None?
    ensures SubsAre(Run(EMPTY, es, link).state, es)
    decreases |es|
  {
    if es != [] {
      var n := |es| - 1;
      assert es == es[..n] + [es[n]];
      RunSplit(EMPTY, es[..n], es[n], link);
      RegisteredByTheLast(es[..n], link);
      SubsStep(Run(EMPTY, es[..n], link).state, es[n], es[..n], link);
    }
  }

  // ---------- what is accepted ----------

  predicate Transacts(f: Frame) { f.command == Send || f.command == Ack || f.command == Nack }

  /** The answer to a SEND, ACK or NACK once its own headers are in order. */
  ghost function MessageVerdict(es: seq<Event>, unacked: seq<Holding>, f: Frame, lost: bool): Option<Fault> {
    if lost then Some(WriteFailed)
    else
      match Lookup(f.header, "transaction")
      case Some(tx) => if Since(es, tx).None? then Some(TxUnknown) else None
      case None =>
        if f.command == Ack && exists h :: h in unacked && h.sub.ack.Invalid? then Some(PanicUnknownMode) else None
  }

  /** The answer to a BEGIN, ABORT or COMMIT. */
  ghost function BracketVerdict(es: seq<Event>, unacked: seq<Holding>, f: Frame, lost: bool): Option<Fault> {
    match Lookup(f.header, "transaction")
    case None => Some(MissingHeader("transaction"))
    case Some(tx) =>
      if lost then Some(WriteFailed)
      else if f.command == Begin then (if Since(es, tx).Some? then Some(TxInProgress) else None)
      else if Since(es, tx).None? then Some(TxUnknown)
      else if f.command == Commit && MeetsUnknown(unacked, Since(es, tx).value) then Some(PanicUnknownMode)
      else None
  }

  /** The answer of a session with this history to a client frame: None if it is accepted. writeOk says whether
      the next write to the client succeeds. */
  ghost function Verdict(es: seq<Event>, unacked: seq<Holding>, f: Frame, writeOk: bool): Option<Fault> {
    var id, lost := Lookup(f.header, "id"), Lookup(f.header, "receipt").Some? && !writeOk;
    match f.command
    case Send => MessageVerdict(es, unacked, f, lost)
    case Ack => AckVerdict(es, unacked, f, lost)
    case Nack => AckVerdict(es, unacked, f, lost)
    case Subscribe =>
      if id.None? then Some(MissingHeader("id"))
      else if Lookup(f.header, "destination").None? then Some(MissingHeader("destination"))
      else if SubscribedBy(es, id.value).Some? then Some(SubExists) else None
    case Unsubscribe =>
      if id.None? then Some(MissingHeader("id"))
      else if SubscribedBy(es, id.value).None? then Some(SubNotFound) else None
    case Begin => BracketVerdict(es, unacked, f, lost)
    case Abort => BracketVerdict(es, unacked, f, lost)
    case Commit => BracketVerdict(es, unacked, f, lost)
    case Disconnect => None
    case Raw(_) => Some(UnknownCommand)
    case Connected => Some(UnknownCommand)
    case _ => Some(UnexpectedCommand)
  }

  /** An ACK or NACK names a message by ack or else by message-id, as a number below 2^64. */
  ghost function AckVerdict(es: seq<Event>, unacked: seq<Holding>, f: Frame, lost: bool): Option<Fault> {
    var ack, messageId := Lookup(f.header, "ack"), Lookup(f.header, "message-id");
    if ack.None? && messageId.None? then Some(MissingHeader("message-id"))
    else if ParseUint(if ack.Some? then ack.value else messageId.value, 0x1_0000_0000_0000_0000).None? then Some(BadMessageId)
    else MessageVerdict(es, unacked, f, lost)
  }

  lemma OpenSince(es: seq<Event>, tx: string, link: Link)
    requires Run(EMPTY, es, link).error.None?
    ensures var s := Run(EMPTY, es, link).state;
            (tx in s.transactions <==> Since(es, tx).Some?) &&
            (tx in s.transactions ==> s.transactions[tx] == Since(es, tx).value)
  {
    StoreHoldsSinceBegin(es, tx, link);
  }

  lemma MessageVerdictHolds(s: State, es: seq<Event>, f: Frame, link: Link)
    requires Transacts(f) && (f.command != Send ==> AckIdOf(f.header).AckId?)
    requires Lookup(f.header, "transaction").Some? ==>
               (Lookup(f.header, "transaction").value in s.transactions <==> Since(es, Lookup(f.header, "transaction").value).Some?)
    ensures HandleMessage(s, f, link).error ==
            MessageVerdict(es, s.unacked, f, Lookup(f.header, "receipt").Some? && !link(s.writes))
  {
    LookupsAfterDrop(f, RECEIPT);
    AckErrorExactly(s);
    AckErrorExactly(SendReceipt(s, f, link).state);
  }

  lemma AckVerdictHolds(s: State, es: seq<Event>, f: Frame, link: Link)
    requires f.command == Ack || f.command == Nack
    requires Lookup(f.header, "transaction").Some? ==>
               (Lookup(f.header, "transaction").value in s.transactions <==> Since(es, Lookup(f.header, "transaction").value).Some?)
    ensures HandleMessage(s, f, link).error ==
            AckVerdict(es, s.unacked, f, Lookup(f.header, "receipt").Some? && !link(s.writes))
  {
    if AckIdOf(f.header).AckId? { MessageVerdictHolds(s, es, f, link); }
  }

  lemma BracketVerdictHolds(s: State, es: seq<Event>, f: Frame, link: Link)
    requires Valid(s) && (f.command == Begin || f.command == Abort || f.command == Commit)
    requires Lookup(f.header, "transaction").Some? ==>
               var tx := Lookup(f.header, "transaction").value;
               (tx in s.transactions <==> Since(es, tx).Some?) &&
               (tx in s.transactions ==> s.transactions[tx] == Since(es, tx).value)
    ensures Dispatch(s, f, link).error ==
            BracketVerdict(es, s.unacked, f, Lookup(f.header, "receipt").Some? && !link(s.writes))
  {
    var tx, r := Lookup(f.header, "transaction"), SendReceipt(s, f, link);
    if f.command == Commit && tx.Some? && r.error.None? && tx.value in s.transactions {
      CommitIsAtomic(r.state, tx.value, link);
      CommitPanicsExactly(r.state, r.state.transactions[tx.value]);
      OnlyUnknownModes(r.state, r.state.transactions[tx.value]);
    }
  }

  lemma {:induction false} OnlyUnknownModes(s: State, fs: seq<Frame>)
    requires AllStored(fs)
    ensures PerformAll(s, fs).error in {None, Some(PanicUnknownMode)}
    decreases |fs|
  {
    if fs != [] && PerformError(s, fs[0]).None? { OnlyUnknownModes(Perform(s, fs[0]), fs[1..]); }
  }

  /** After every error-free session, on any link, every client frame is accepted or refused exactly as its
      history says, and for that reason. */
  lemma AcceptedByHistory(es: seq<Event>, f: Frame, link: Link)
    requires Run(EMPTY, es, link).error.None?
    ensures Valid(Run(EMPTY, es, link).state)
    ensures var s := Run(EMPTY, es, link).state;
            Dispatch(s, f, link).error == Verdict(es, s.unacked, f, link(s.writes))
  {
    RunIsValid(EMPTY, es, link);
    var s := Run(EMPTY, es, link).state;
    if Lookup(f.header, "transaction").Some? { OpenSince(es, Lookup(f.header, "transaction").value, link); }
    RegisteredByTheLast(es, link);
    match f.command
    case Send => MessageVerdictHolds(s, es, f, link);
    case Ack => AckVerdictHolds(s, es, f, link);
    case Nack => AckVerdictHolds(s, es, f, link);
    case Begin => BracketVerdictHolds(s, es, f, link);
    case Abort => BracketVerdictHolds(s, es, f, link);
    case Commit => BracketVerdictHolds(s, es, f, link);
    case Subscribe => SubscriptionVerdictHolds(s, es, f, link);
    case Unsubscribe => SubscriptionVerdictHolds(s, es, f, link);
    case _ =>
  }

  lemma SubscriptionVerdictHolds(s: State, es: seq<Event>, f: Frame, link: Link)
    requires SubsAre(s, es) && f.command in {Subscribe, Unsubscribe} && Valid(s)
    ensures Dispatch(s, f, link).error == Verdict(es, s.unacked, f, link(s.writes))
  {
    var id := Lookup(f.header, "id");
    if id.Some? { assert id.value in s.subs <==> SubscribedBy(es, id.value).Some?; }
  }

  lemma {:induction false} RunIsValid(s: State, es: seq<Event>, link: Link)
    requires Valid(s)
    ensures Valid(Run(s, es, link).state)
    decreases |es|
  {
    if es != [] {
      ReactKeepsValid(s, es[0], link);
      if React(s, es[0], link).error.None? { RunIsValid(React(s, es[0], link).state, es[1..], link); }
    }
  }

  // ---------- what an accepted frame does ----------

  /** g is f without the named header entries, under the given command. */
  ghost predicate Carries(g: Frame, f: Frame, command: Command, gone: set<string>) {
    && g.command == command && g.body == f.body
    && forall key :: Lookup(g.header, key) == if key in gone then None else Lookup(f.header, key)
  }

  lemma DropCarries(f: Frame, key: string)
    ensures Carries(Drop(f, key), f, f.command, {key})
  {
    forall k ensures Lookup(Drop(f, key).header, k) == if k in {key} then None else Lookup(f.header, k) {
      LookupAfterWithout(f.header, key, k);
    }
  }

  lemma StripCarries(f: Frame)
    ensures Carries(Strip(f), f, f.command, {"receipt", "transaction"})
  {
    DropCarries(f, RECEIPT);
    DropCarries(Drop(f, RECEIPT), TRANSACTION);
  }

  /** What the client is written for the frame: a RECEIPT with its receipt header as receipt-id, if it has one
      and is neither SUBSCRIBE nor UNSUBSCRIBE, and the link takes it. */
  ghost predicate Answered(s: State, r: State, f: Frame, link: Link) {
    var asks := f.command !in {Subscribe, Unsubscribe} && Lookup(f.header, "receipt").Some?;
    && r.writes == s.writes + (if asks then 1 else 0)
    && (!asks || !link(s.writes) ==> r.written == s.written)
    && (asks && link(s.writes) ==>
          r.written == s.written + [Answer(Frame(Receipt, [Entry("receipt-id", Lookup(f.header, "receipt").value)], ""))])
  }

  /** Nothing but what is written changes. */
  predicate ElseSame(s: State, r: State) { r == s.(written := r.written, writes := r.writes) }

  lemma ReceiptAnswers(s: State, f: Frame, link: Link)
    requires f.command !in {Subscribe, Unsubscribe}
    ensures Answered(s, SendReceipt(s, f, link).state, f, link) && ElseSame(s, SendReceipt(s, f, link).state)
  {
  }

  /** Which entries an acknowledgement of message n releases: everything automatic, in client mode everything
      up to n, individually n alone. */
  predicate Releases(h: Holding, n: nat) {
    match h.sub.ack
    case Auto => true
    case Client => h.sub.msgId <= n
    case ClientIndividual => h.sub.msgId == n
    case Invalid(_) => false
  }

  function Announced(hs: seq<Holding>): seq<Request> { seq(|hs|, i requires 0 <= i < |hs| => SubscribeOp(hs[i].sub)) }

  /** For each entry its frame goes back, and then it is announced. */
  ghost predicate SentBack(rs: seq<Request>, hs: seq<Holding>) {
    |rs| == 2 * |hs| && forall i :: 0 <= i < |hs| ==> rs[2 * i] == RequeueOp(hs[i].frame) && rs[2 * i + 1] == SubscribeOp(hs[i].sub)
  }

  lemma {:induction false} ReleasedAnnounced(hs: seq<Holding>)
    ensures Released(hs) == Announced(hs)
  {
    if hs != [] {
      ReleasedAnnounced(hs[1..]);
      assert Announced(hs) == [SubscribeOp(hs[0].sub)] + Announced(hs[1..]);
    }
  }

  lemma {:induction false} ReturnedSentBack(hs: seq<Holding>)
    ensures SentBack(Returned(hs), hs)
  {
    if hs != [] {
      var rest := Returned(hs[1..]);
      ReturnedSentBack(hs[1..]);
      forall i | 0 <= i < |hs|
        ensures Returned(hs)[2 * i] == RequeueOp(hs[i].frame) && Returned(hs)[2 * i + 1] == SubscribeOp(hs[i].sub)
      {
        if i > 0 { assert rest[2 * (i - 1)] == Returned(hs)[2 * i] && rest[2 * (i - 1) + 1] == Returned(hs)[2 * i + 1]; }
      }
    }
  }

  /** The message id that an ACK or NACK names. */
  function NamedId(f: Frame): Option<nat> {
    var ack, messageId := Lookup(f.header, "ack"), Lookup(f.header, "message-id");
    match if ack.Some? then ack else messageId
    case None => None
    case Some(text) => ParseUint(text, 0x1_0000_0000_0000_0000)
  }

  /** What a SEND, ACK or NACK does outside a transaction. */
  ghost predicate Performed(s: State, r: State, f: Frame) {
    match f.command
    case Send =>
      && |r.requests| == |s.requests| + 1 && r.requests[..|s.requests|] == s.requests
      && r.requests[|s.requests|].EnqueueOp? && Carries(r.requests[|s.requests|].frame, f, Message, {"receipt"})
      && r == s.(requests := r.requests)
    case Ack =>
      && NamedId(f).Some? && var n := NamedId(f).value;
      && r == s.(unacked := Filter(s.unacked, h => !Releases(h, n)),
                 requests := s.requests + Announced(Filter(s.unacked, h => Releases(h, n))))
    case Nack =>
      && NamedId(f).Some? && var n := NamedId(f).value;
      && |s.requests| <= |r.requests| && r.requests[..|s.requests|] == s.requests
      && SentBack(r.requests[|s.requests|..], Filter(s.unacked, (h: Holding) => h.sub.msgId == n))
      && r == s.(unacked := Filter(s.unacked, (h: Holding) => h.sub.msgId != n), requests := r.requests)
    case _ => false
  }

  lemma {:induction false} FilterAgree<T>(l: seq<T>, p: T -> bool, q: T -> bool)
    requires forall x :: x in l ==> p(x) == q(x)
    ensures Filter(l, p) == Filter(l, q)
  {
    if l != [] { FilterAgree(l[1..], p, q); }
  }

  lemma AckPerforms(s: State, n: nat)
    requires AckError(s).None?
    ensures DoAck(s, n) == s.(unacked := Filter(s.unacked, h => !Releases(h, n)),
                              requests := s.requests + Announced(Filter(s.unacked, h => Releases(h, n))))
  {
    assert s.unacked[..Known(s.unacked)] == s.unacked && s.unacked[Known(s.unacked)..] == [];
    FilterAgree(s.unacked, h => !AckedBy(h, n), h => !Releases(h, n));
    FilterAgree(s.unacked, h => AckedBy(h, n), h => Releases(h, n));
    ReleasedAnnounced(Filter(s.unacked, h => Releases(h, n)));
    assert Filter(s.unacked, h => !Releases(h, n)) + [] == Filter(s.unacked, h => !Releases(h, n));
  }

  lemma NackPerforms(s: State, n: nat)
    ensures var r, hs := DoNack(s, n), Filter(s.unacked, (h: Holding) => h.sub.msgId == n);
            && |s.requests| <= |r.requests| && r.requests[..|s.requests|] == s.requests
            && SentBack(r.requests[|s.requests|..], hs)
            && r == s.(unacked := Filter(s.unacked, (h: Holding) => h.sub.msgId != n), requests := r.requests)
  {
    var hs := Filter(s.unacked, (h: Holding) => h.sub.msgId == n);
    FilterAgree(s.unacked, h => !NackedBy(h, n), (h: Holding) => h.sub.msgId != n);
    FilterAgree(s.unacked, h => NackedBy(h, n), (h: Holding) => h.sub.msgId == n);
    ReturnedSentBack(hs);
    assert (s.requests + Returned(hs))[|s.requests|..] == Returned(hs);
  }

  lemma NamedIdIs(f: Frame)
    ensures AckIdOf(f.header).AckId? ==> NamedId(f) == Some(AckIdOf(f.header).n)
  {
  }

  /** A frame that has no receipt header any more is performed as it says. */
  lemma PerformSays(s: State, f: Frame)
    requires Transacts(f) && (f.command != Send ==> AckIdOf(f.header).AckId?) && PerformError(s, f).None?
    requires Lookup(f.header, "receipt").None?
    ensures Performed(s, Perform(s, f), f)
  {
    NamedIdIs(f);
    match f.command
    case Send => assert Perform(s, f).requests == s.requests + [EnqueueOp(f.(command := Message))];
    case Ack => AckPerforms(s, AckIdOf(f.header).n);
    case Nack => NackPerforms(s, AckIdOf(f.header).n);
    case _ =>
  }

  // ---------- the effect of every frame ----------

  /** The state with what has been written since. */
  function Wrote(s: State, r: State): State { s.(written := r.written, writes := r.writes) }

  ghost predicate MessageEffect(s: State, r: State, f: Frame) {
    match Lookup(f.header, "transaction")
    case None => Performed(Wrote(s, r), r, f)
    case Some(tx) =>
      tx in s.transactions &&
      exists g :: Carries(g, f, f.command, {"receipt", "transaction"}) &&
                  r == Wrote(s, r).(transactions := s.transactions[tx := s.transactions[tx] + [g]])
  }

  ghost predicate SubscriptionEffect(es: seq<Event>, s: State, r: State, f: Frame) {
    && Lookup(f.header, "id").Some?
    && var id := Lookup(f.header, "id").value;
       if f.command == Subscribe
       then exists sub :: AskedFor(sub, id, f) &&
                          r == s.(subs := s.subs[id := sub], requests := s.requests + [SubscribeOp(sub)])
       else SubscribedBy(es, id).Some? &&
            exists sub :: AskedFor(sub, id, SubscribedBy(es, id).value) &&
                          r == s.(subs := s.subs - {id}, requests := s.requests + [UnsubscribeOp(sub)])
  }

  ghost predicate BracketEffect(es: seq<Event>, s: State, r: State, f: Frame) {
    && Lookup(f.header, "transaction").Some?
    && var tx := Lookup(f.header, "transaction").value;
       if f.command == Begin then r == Wrote(s, r).(transactions := s.transactions[tx := []])
       else if f.command == Abort then r == Wrote(s, r).(transactions := s.transactions - {tx})
       else
         && Since(es, tx).Some? && AllStored(Since(es, tx).value)
         && r == PerformAll(Wrote(s, r), Since(es, tx).value).state.(transactions := s.transactions - {tx})
  }

  /** What an accepted frame does, and that it does nothing else. */
  ghost predicate Effect(es: seq<Event>, s: State, r: State, f: Frame) {
    if Transacts(f) then MessageEffect(s, r, f)
    else if f.command in {Subscribe, Unsubscribe} then SubscriptionEffect(es, s, r, f)
    else if f.command in {Begin, Abort, Commit} then BracketEffect(es, s, r, f)
    else r == Wrote(s, r)
  }

  lemma MessageEffectHolds(s: State, f: Frame, link: Link)
    requires Transacts(f) && HandleMessage(s, f, link).error.None?
    ensures var r := HandleMessage(s, f, link).state; Answered(s, r, f, link) && MessageEffect(s, r, f)
  {
    var q, g, r := SendReceipt(s, f, link).state, Drop(f, RECEIPT), HandleMessage(s, f, link).state;
    ReceiptAnswers(s, f, link);
    LookupsAfterDrop(f, RECEIPT);
    if Lookup(f.header, TRANSACTION).None? {
      PerformSays(q, g);
      DropCarries(f, RECEIPT);
      PerformedForBoth(q, r, f, g);
      assert Wrote(s, r) == q;
    } else {
      StripCarries(f);
    }
  }

  /** What is done for the frame without its receipt header is done for the frame. */
  lemma PerformedForBoth(s: State, r: State, f: Frame, g: Frame)
    requires Carries(g, f, f.command, {"receipt"}) && Performed(s, r, g)
    ensures Performed(s, r, f)
  {
    assert "ack" !in {"receipt"} && "message-id" !in {"receipt"};
    if f.command == Send {
      var m := r.requests[|s.requests|].frame;
      forall key ensures Lookup(m.header, key) == if key in {"receipt"} then None else Lookup(f.header, key) {
        assert Lookup(m.header, key) == if key in {"receipt"} then None else Lookup(g.header, key);
      }
    } else {
      assert NamedId(f) == NamedId(g);
    }
  }

  lemma SubscriptionEffectHolds(s: State, es: seq<Event>, f: Frame, link: Link)
    requires Valid(s) && SubsAre(s, es) && f.command in {Subscribe, Unsubscribe} && Dispatch(s, f, link).error.None?
    ensures var r := Dispatch(s, f, link).state; Answered(s, r, f, link) && SubscriptionEffect(es, s, r, f)
  {
    var id, r := Lookup(f.header, "id").value, Dispatch(s, f, link).state;
    if f.command == Subscribe {
      assert AskedFor(r.subs[id], id, f);
    } else {
      assert AskedFor(s.subs[id], id, SubscribedBy(es, id).value);
    }
  }

  lemma BracketEffectHolds(s: State, es: seq<Event>, f: Frame, link: Link)
    requires Valid(s) && f.command in {Begin, Abort, Commit} && Dispatch(s, f, link).error.None?
    requires Lookup(f.header, "transaction").Some? ==>
               var tx := Lookup(f.header, "transaction").value;
               (tx in s.transactions <==> Since(es, tx).Some?) &&
               (tx in s.transactions ==> s.transactions[tx] == Since(es, tx).value)
    ensures var r := Dispatch(s, f, link).state; Answered(s, r, f, link) && BracketEffect(es, s, r, f)
  {
    var tx, q, r := Lookup(f.header, "transaction").value, SendReceipt(s, f, link).state, Dispatch(s, f, link).state;
    ReceiptAnswers(s, f, link);
    if f.command == Commit {
      CommitIsAtomic(q, tx, link);
      PerformAllIgnoresStore(q, q, q.transactions[tx]);
      assert Wrote(s, r) == q;
    }
  }

  /** After every error-free session, on any link, every accepted client frame is answered as it asks, does what
      its history says, and nothing else. */
  lemma EffectByHistory(es: seq<Event>, f: Frame, link: Link)
    requires Run(EMPTY, es, link).error.None?
    ensures Valid(Run(EMPTY, es, link).state)
    ensures var s := Run(EMPTY, es, link).state;
            var r := Dispatch(s, f, link);
            r.error.None? ==> Answered(s, r.state, f, link) && Effect(es, s, r.state, f)
  {
    RunIsValid(EMPTY, es, link);
    var s := Run(EMPTY, es, link).state;
    if Dispatch(s, f, link).error.None? {
      if Transacts(f) {
        MessageEffectHolds(s, f, link);
      } else if f.command in {Subscribe, Unsubscribe} {
        RegisteredByTheLast(es, link);
        SubscriptionEffectHolds(s, es, f, link);
      } else if f.command in {Begin, Abort, Commit} {
        if Lookup(f.header, "transaction").Some? { OpenSince(es, Lookup(f.header, "transaction").value, link); }
        BracketEffectHolds(s, es, f, link);
      } else {
        OnlyDisconnect(s, f, link);
      }
    }
  }

  lemma OnlyDisconnect(s: State, f: Frame, link: Link)
    requires Valid(s) && Dispatch(s, f, link).error.None?
    requires !Transacts(f) && f.command !in {Subscribe, Unsubscribe, Begin, Abort, Commit}
    ensures var r := Dispatch(s, f, link).state; Answered(s, r, f, link) && r == Wrote(s, r)
  {
    ReceiptAnswers(s, f, link);
  }

  /** What the arrival of a subscription with a frame does when it ends without an error. */
  lemma ArrivalByHistory(es: seq<Event>, h: Holding, listed: bool, link: Link)
    requires Run(EMPTY, es, link).error.None?
    ensures var s := Run(EMPTY, es, link).state;
            var r, n := Arrive(s, h, listed, link), NextId(s.lastMsgId);
            var f := Stamp(h.frame, n, h.sub.ack);
            && (SubscribedBy(es, h.sub.id).None? ==>
                  r == Result(s.(requests := s.requests + [RequeueOp(h.frame)]), None))
            && (SubscribedBy(es, h.sub.id).Some? ==>
                  && r.state.lastMsgId == n && r.state.writes == s.writes + 1
                  && r.error == (if !link(s.writes) then Some(WriteFailed)
                                 else if !h.sub.ack.Auto? && listed then Some(PanicListed) else None)
                  && r.state.written == (if link(s.writes) then s.written + [Delivery(f)] else s.written)
                  && r.state.transactions == s.transactions && r.state.subs == s.subs
                  && (r.error.None? ==>
                        if h.sub.ack.Auto?
                        then r.state.requests == s.requests + [SubscribeOp(h.sub)] && r.state.unacked == s.unacked
                        else r.state.requests == s.requests && r.state.unacked == s.unacked + [Holding(h.sub, f)]))
  {
    RegisteredByTheLast(es, link);
    assert h.sub.id in Run(EMPTY, es, link).state.subs <==> SubscribedBy(es, h.sub.id).Some?;
  }

  /** The SUBSCRIBE frame asks for messages that stay un-acknowledged under the id. */
  predicate Outlasts(g: Frame, n: nat) {
    match Lookup(g.header, "ack")
    case None => false
    case Some(text) => text != "auto" && text != "client" && (text == "client-individual" ==> n != 0)
  }

  /** The words of its SUBSCRIBE frame decide which messages an ACK outside a transaction takes: in client mode
      all of them whatever their order and whatever id it names, since no subscription learns the id of its
      message, and in client-individual mode none unless it names 0. */
  lemma OneAckTakesEverything(es: seq<Event>, f: Frame, link: Link, h: Holding, id: string, g: Frame)
    requires Run(EMPTY, es, link).error.None? && f.command == Ack && Lookup(f.header, "transaction").None?
    requires Valid(Run(EMPTY, es, link).state) && h in Run(EMPTY, es, link).state.unacked && AskedFor(h.sub, id, g)
    ensures var s := Run(EMPTY, es, link).state;
            var r := Dispatch(s, f, link);
            r.error.None? ==>
              && NamedId(f).Some?
              && (h in r.state.unacked <==> Outlasts(g, NamedId(f).value))
              && (!Outlasts(g, NamedId(f).value) ==> SubscribeOp(h.sub) in r.state.requests[|s.requests|..])
  {
    EffectByHistory(es, f, link);
    var s := Run(EMPTY, es, link).state;
    var r := Dispatch(s, f, link);
    if r.error.None? {
      var n := NamedId(f).value;
      assert Releases(h, n) <==> !Outlasts(g, n);
      FilterMembers(s.unacked, h => !Releases(h, n));
      FilterMembers(s.unacked, h => Releases(h, n));
      var out := Announced(Filter(s.unacked, h => Releases(h, n)));
      assert r.state.requests == s.requests + out;
      assert (s.requests + out)[|s.requests|..] == out;
      if !Outlasts(g, n) { AnnouncedMember(Filter(s.unacked, h => Releases(h, n)), h); }
    }
  }

  lemma AnnouncedMember(hs: seq<Holding>, h: Holding)
    requires h in hs
    ensures SubscribeOp(h.sub) in Announced(hs)
  {
    var i :| 0 <= i < |hs| && hs[i] == h;
    assert Announced(hs)[i] == SubscribeOp(h.sub);
  }
}
