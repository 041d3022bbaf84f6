/** A COMMIT that is carried out by half: a complete session, for every queue, id, message, unknown ack mode,
    transaction and acknowledged number. */
module HalfCommits {
  import opened Text
  import opened Frames
  import opened Acks
  import opened Session
  import opened Transactions

  function SubscribeFrame(id: string, dest: string, mode: string): Frame {
    Frame(Subscribe, [Entry(ID, id), Entry(DESTINATION, dest), Entry(ACK, mode)], "")
  }

  function AckFrame(n: nat, tx: string): Frame {
    Frame(Ack, [Entry(MESSAGE_ID, Decimal(n)), Entry(TRANSACTION, tx)], "")
  }

  function TxFrame(command: Command, tx: string): Frame { Frame(command, [Entry(TRANSACTION, tx)], "") }

  /** The header names that play a part are all different. */
  lemma Names()
    ensures ID != DESTINATION && ID != ACK && DESTINATION != ACK && MESSAGE_ID != ACK && MESSAGE_ID != TRANSACTION
    ensures TRANSACTION != RECEIPT && MESSAGE_ID != RECEIPT && TRANSACTION != ACK
  {
    assert |ID| == 2 && |DESTINATION| == 11 && |ACK| == 3 && |MESSAGE_ID| == 10 && |TRANSACTION| == 11 && |RECEIPT| == 7;
  }

  lemma Subscribed(id: string, dest: string, mode: string, link: Link)
    requires ModeOf(mode).Invalid?
    ensures var sub := Session.Sub(id, dest, ModeOf(mode), 0);
            React(EMPTY, FromClient(SubscribeFrame(id, dest, mode)), link) ==
            Result(EMPTY.(subs := map[id := sub], requests := [SubscribeOp(sub)]), None)
  {
    Names();
    var h := SubscribeFrame(id, dest, mode).header;
    LookupShort(h[0], h[1], h[2], ID);
    LookupShort(h[0], h[1], h[2], DESTINATION);
    LookupShort(h[0], h[1], h[2], ACK);
    assert Lookup(h, ID) == Some(id) && Lookup(h, DESTINATION) == Some(dest) && Lookup(h, ACK) == Some(mode);
    assert [] + [SubscribeOp(Session.Sub(id, dest, ModeOf(mode), 0))] == [SubscribeOp(Session.Sub(id, dest, ModeOf(mode), 0))];
  }

  /** A session in which one message under an unknown mode waits for its acknowledgement. */
  ghost predicate Waiting(s: State, sub: Session.Sub) {
    && sub.ack.Invalid? && |s.unacked| == 1 && s.unacked[0].sub == sub && s.requests == [SubscribeOp(sub)]
  }

  lemma Delivered(s: State, g: Frame, sub: Session.Sub, link: Link)
    requires s == EMPTY.(subs := map[sub.id := sub], requests := [SubscribeOp(sub)]) && sub.ack.Invalid? && link(0)
    ensures var r := React(s, Arrived(Holding(sub, g), false), link);
            r.error.None? && Waiting(r.state, sub) && r.state.transactions == map[]
  {
  }

  lemma OnlyTransaction(command: Command, tx: string)
    ensures var h := TxFrame(command, tx).header; Lookup(h, TRANSACTION) == Some(tx) && Lookup(h, RECEIPT).None?
  {
    Names();
    var e := Entry(TRANSACTION, tx);
    LookupShort(e, e, e, TRANSACTION);
    LookupShort(e, e, e, RECEIPT);
  }

  lemma Begun(s: State, tx: string, sub: Session.Sub, link: Link)
    requires Waiting(s, sub) && s.transactions == map[]
    ensures var r := React(s, FromClient(TxFrame(Begin, tx)), link);
            r.error.None? && Waiting(r.state, sub) && r.state.transactions == map[tx := []]
  {
    OnlyTransaction(Begin, tx);
  }

  lemma Buffered(s: State, f: Frame, tx: string, l: seq<Frame>, sub: Session.Sub, link: Link)
    requires Valid(s) && Waiting(s, sub) && s.transactions == map[tx := l] && Transactional(f)
    requires Lookup(f.header, TRANSACTION) == Some(tx) && Lookup(f.header, RECEIPT).None?
    requires f.command != Send ==> AckIdOf(f.header).AckId?
    ensures var r := React(s, FromClient(f), link);
            r.error.None? && Waiting(r.state, sub) && r.state.transactions == map[tx := l + [Strip(f)]]
  {
    LookupsAfterDrop(f, RECEIPT);
  }

  lemma AckIsBuffered(n: nat, tx: string)
    requires n < POW64
    ensures var f := AckFrame(n, tx);
            && Lookup(f.header, TRANSACTION) == Some(tx) && Lookup(f.header, RECEIPT).None?
            && AckIdOf(f.header) == AckId(n) && Stored(Strip(f))
  {
    Names();
    var f := AckFrame(n, tx);
    var a, b := f.header[0], f.header[1];
    LookupShort(a, b, b, TRANSACTION);
    LookupShort(a, b, b, RECEIPT);
    LookupShort(a, b, b, ACK);
    LookupShort(a, b, b, MESSAGE_ID);
    LookupsAfterDrop(f, RECEIPT);
    LookupsAfterDrop(Drop(f, RECEIPT), TRANSACTION);
  }

  lemma SendIsStored(f: Frame)
    requires f.command == Send
    ensures Stored(Strip(f)) && Strip(f).command == Send
  {
    LookupsAfterDrop(f, RECEIPT);
    LookupsAfterDrop(Drop(f, RECEIPT), TRANSACTION);
  }

  /** The transaction [SEND, ACK] sends the message and panics at the ACK. */
  lemma SendThenPanic(s: State, send: Frame, ack: Frame, sub: Session.Sub)
    requires Waiting(s, sub) && Stored(send) && send.command == Send && Stored(ack) && ack.command == Ack
    ensures AllStored([send, ack])
    ensures var r := PerformAll(s, [send, ack]);
            && r.error == Some(PanicUnknownMode)
            && r.state.requests == [SubscribeOp(sub), EnqueueOp(send.(command := Message))]
  {
    var s1 := Perform(s, send);
    assert [send, ack][1..] == [ack] && [ack][1..] == [];
    assert Known(s1.unacked) == 0 && s1.unacked[..0] == [];
    assert s1.requests == [SubscribeOp(sub), EnqueueOp(send.(command := Message))];
    assert DoAck(s1, AckIdOf(ack.header).n).requests == s1.requests + [];
  }

  lemma RunCons(s: State, e: Event, rest: seq<Event>, link: Link)
    requires Valid(s) && React(s, e, link).error.None?
    ensures Valid(React(s, e, link).state)
    ensures Run(s, [e] + rest, link) == Run(React(s, e, link).state, rest, link)
  {
    ReactKeepsValid(s, e, link);
    assert ([e] + rest)[1..] == rest;
  }

  lemma Committed(s: State, f: Frame, n: nat, tx: string, sub: Session.Sub, link: Link)
    requires Valid(s) && Waiting(s, sub) && f.command == Send && n < POW64
    requires s.transactions == map[tx := [Strip(f), Strip(AckFrame(n, tx))]]
    ensures var r := Run(s, [FromClient(TxFrame(Commit, tx))], link);
            && r.error == Some(PanicUnknownMode)
            && r.state.requests == [SubscribeOp(sub), EnqueueOp(Strip(f).(command := Message))]
  {
    var commit := TxFrame(Commit, tx);
    OnlyTransaction(Commit, tx);
    assert [FromClient(commit)][1..] == [];
    SendIsStored(f);
    AckIsBuffered(n, tx);
    SendThenPanic(s, Strip(f), Strip(AckFrame(n, tx)), sub);
    CommitIsAtomic(s, tx, link);
    assert HandleCommit(s, commit, link) == CommitLoop(s, tx, link);
  }

  /** SEND, ACK and COMMIT. */
  function Members(f: Frame, n: nat, tx: string): seq<Event> {
    [FromClient(f)] + ([FromClient(AckFrame(n, tx))] + [FromClient(TxFrame(Commit, tx))])
  }

  function InTransaction(f: Frame, n: nat, tx: string): seq<Event> {
    [FromClient(TxFrame(Begin, tx))] + Members(f, n, tx)
  }

  lemma TransactionBreaks(s: State, f: Frame, n: nat, tx: string, sub: Session.Sub, link: Link)
    requires Valid(s) && Waiting(s, sub) && s.transactions == map[] && f.command == Send && n < POW64
    requires Lookup(f.header, TRANSACTION) == Some(tx) && Lookup(f.header, RECEIPT).None?
    ensures var r := Run(s, InTransaction(f, n, tx), link);
            && r.error == Some(PanicUnknownMode)
            && r.state.requests == [SubscribeOp(sub), EnqueueOp(Strip(f).(command := Message))]
  {
    var begin, more := FromClient(TxFrame(Begin, tx)), Members(f, n, tx);
    Begun(s, tx, sub, link);
    RunCons(s, begin, more, link);
    MembersBreak(React(s, begin, link).state, f, n, tx, sub, link);
  }

  lemma MembersBreak(s: State, f: Frame, n: nat, tx: string, sub: Session.Sub, link: Link)
    requires Valid(s) && Waiting(s, sub) && s.transactions == map[tx := []] && f.command == Send && n < POW64
    requires Lookup(f.header, TRANSACTION) == Some(tx) && Lookup(f.header, RECEIPT).None?
    ensures var r := Run(s, Members(f, n, tx), link);
            && r.error == Some(PanicUnknownMode)
            && r.state.requests == [SubscribeOp(sub), EnqueueOp(Strip(f).(command := Message))]
  {
    var a, commit := AckFrame(n, tx), [FromClient(TxFrame(Commit, tx))];
    Buffered(s, f, tx, [], sub, link);
    RunCons(s, FromClient(f), [FromClient(a)] + commit, link);
    var s2 := React(s, FromClient(f), link).state;
    assert [] + [Strip(f)] == [Strip(f)];
    AckIsBuffered(n, tx);
    Buffered(s2, a, tx, [Strip(f)], sub, link);
    RunCons(s2, FromClient(a), commit, link);
    assert [Strip(f)] + [Strip(a)] == [Strip(f), Strip(a)];
    Committed(React(s2, FromClient(a), link).state, f, n, tx, sub, link);
  }

  /** Subscribe under an unknown mode, get a message, and commit a transaction that sends one and acknowledges
      one: the broker goes down with the SEND already on its way to the queue and the ACK not carried out. */
  lemma CommitByHalf(id: string, dest: string, mode: string, g: Frame, f: Frame, n: nat, tx: string, link: Link)
    returns (es: seq<Event>)
    requires ModeOf(mode).Invalid? && f.command == Send && n < POW64 && link(0)
    requires Lookup(f.header, TRANSACTION) == Some(tx) && Lookup(f.header, RECEIPT).None?
    ensures var r, sub := Run(EMPTY, es, link), Session.Sub(id, dest, ModeOf(mode), 0);
            && es == [FromClient(SubscribeFrame(id, dest, mode)), Arrived(Holding(sub, g), false)] + InTransaction(f, n, tx)
            && r.error == Some(PanicUnknownMode)
            && r.state.requests == [SubscribeOp(sub), EnqueueOp(Strip(f).(command := Message))]
  {
    var sub := Session.Sub(id, dest, ModeOf(mode), 0);
    var first, second := FromClient(SubscribeFrame(id, dest, mode)), Arrived(Holding(sub, g), false);
    es := [first, second] + InTransaction(f, n, tx);
    assert es == [first] + ([second] + InTransaction(f, n, tx));
    Subscribed(id, dest, mode, link);
    RunCons(EMPTY, first, [second] + InTransaction(f, n, tx), link);
    var s1 := React(EMPTY, first, link).state;
    Delivered(s1, g, sub, link);
    RunCons(s1, second, InTransaction(f, n, tx), link);
    TransactionBreaks(React(s1, second, link).state, f, n, tx, sub, link);
  }
}
