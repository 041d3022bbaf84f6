/** What transactions mean over whole sessions: COMMIT replays exactly what was buffered since BEGIN,
    all of it or nothing, and every receipt is sent once. */
module Transactions {
  import opened Text
  import opened Frames
  import opened Acks
  import opened Session

  // ---------- one commit ----------

  /** The frames performed one after another, up to a panic. */
  function PerformAll(s: State, fs: seq<Frame>): Result
    requires AllStored(fs)
    decreases |fs|
  {
    if fs == [] then Result(s, None)
    else
      assert Stored(fs[0]);
      if PerformError(s, fs[0]).Some? then Result(Perform(s, fs[0]), PerformError(s, fs[0]))
      else PerformAll(Perform(s, fs[0]), fs[1..])
  }

  /** How many of the frames are performed completely. */
  function Stops(s: State, fs: seq<Frame>): (n: nat)
    requires AllStored(fs)
    ensures n <= |fs| && (n < |fs| <==> PerformAll(s, fs).error.Some?)
    decreases |fs|
  {
    if fs == [] then 0
    else
      assert Stored(fs[0]);
      if PerformError(s, fs[0]).Some? then 0 else 1 + Stops(Perform(s, fs[0]), fs[1..])
  }

  /** The states differ at most in their transaction store. */
  predicate SameButStore(s: State, t: State) { s == t.(transactions := s.transactions) }

  lemma {:induction false} PerformAllIgnoresStore(s: State, t: State, fs: seq<Frame>)
    requires AllStored(fs)
    requires SameButStore(s, t)
    ensures SameButStore(PerformAll(s, fs).state, PerformAll(t, fs).state)
    ensures PerformAll(s, fs).error == PerformAll(t, fs).error && Stops(s, fs) == Stops(t, fs)
    ensures PerformAll(s, fs).state.transactions == s.transactions
    ensures PerformAll(s, fs).state.written == s.written && PerformAll(s, fs).state.writes == s.writes
    decreases |fs|
  {
    if fs != [] && PerformError(s, fs[0]).None? {
      PerformAllIgnoresStore(Perform(s, fs[0]), Perform(t, fs[0]), fs[1..]);
    }
  }

  /** The store after n frames l of tx have been performed: without tx if that is all, or with the frames after
      the one that panicked. */
  function Leftover(m: map<string, seq<Frame>>, tx: string, l: seq<Frame>, n: nat): map<string, seq<Frame>>
    requires n <= |l|
  {
    if n == |l| then m - {tx} else m[tx := l[n + 1..]]
  }

  function StoreAfter(s: State, tx: string): map<string, seq<Frame>>
    requires tx in s.transactions && AllStored(s.transactions[tx])
  {
    Leftover(s.transactions, tx, s.transactions[tx], Stops(s, s.transactions[tx]))
  }

  /** COMMIT of an open transaction performs the buffered frames in order, writes nothing to the client, and
      touches no other transaction. Either it performs all of them without an error and the transaction is
      gone, or the broker goes down at one of them, with those before it performed and those after it not. */
  lemma {:induction false} CommitIsAtomic(s: State, tx: string, link: Link)
    requires Valid(s) && tx in s.transactions
    ensures var r, all := CommitLoop(s, tx, link), PerformAll(s, s.transactions[tx]);
            && r.error == all.error && r.state == all.state.(transactions := StoreAfter(s, tx))
            && r.state.written == s.written
    decreases |s.transactions[tx]|
  {
    var l := s.transactions[tx];
    PerformAllIgnoresStore(s, s, l);
    if l != [] {
      var popped := s.(transactions := s.transactions[tx := l[1..]]);
      PlainOnStored(popped, l[0], link);
      PlainKeepsValid(popped, l[0], link);
      PerformIgnoresStore(popped, s, l[0]);
      if PerformError(s, l[0]).None? { CommitStepsOn(s, tx, popped, link); }
    }
  }

  lemma PerformIgnoresStore(s: State, t: State, f: Frame)
    requires Stored(f) && SameButStore(s, t)
    ensures SameButStore(Perform(s, f), Perform(t, f)) && PerformError(s, f) == PerformError(t, f)
    ensures Perform(s, f).transactions == s.transactions
  {
  }

  lemma {:induction false} CommitStepsOn(s: State, tx: string, popped: State, link: Link)
    requires Valid(s) && tx in s.transactions && s.transactions[tx] != []
    requires popped == s.(transactions := s.transactions[tx := s.transactions[tx][1..]])
    requires PerformError(s, s.transactions[tx][0]).None? && Valid(Perform(popped, s.transactions[tx][0]))
    ensures var l, next := s.transactions[tx], Perform(popped, s.transactions[tx][0]);
            var r, all := CommitLoop(next, tx, link), PerformAll(Perform(s, l[0]), l[1..]);
            && r.error == all.error && r.state == all.state.(transactions := StoreAfter(s, tx))
            && r.state.written == s.written
    decreases |s.transactions[tx]|, 0
  {
    var l, next := s.transactions[tx], Perform(popped, s.transactions[tx][0]);
    CommitIsAtomic(next, tx, link);
    PerformAllIgnoresStore(next, Perform(s, l[0]), l[1..]);
    StopsCons(s, l);
    LeftoverGoesOn(s.transactions, tx, l, Stops(next, l[1..]));
  }

  lemma StopsCons(s: State, fs: seq<Frame>)
    requires AllStored(fs) && fs != [] && PerformError(s, fs[0]).None?
    ensures Stops(s, fs) == 1 + Stops(Perform(s, fs[0]), fs[1..])
  {
  }

  lemma LeftoverGoesOn(m: map<string, seq<Frame>>, tx: string, l: seq<Frame>, n: nat)
    requires l != [] && n < |l|
    ensures Leftover(m[tx := l[1..]], tx, l[1..], n) == Leftover(m, tx, l, n + 1)
  {
    if n + 1 < |l| { assert l[1..][n + 1..] == l[n + 2..]; }
  }

  /** Where the broker goes down: the frames before have been performed, the frame is an ACK, and of its own
      work exactly the matching entries before the first unknown mode have been released. */
  lemma {:induction false} PanicLeavesHalf(s: State, fs: seq<Frame>)
    requires AllStored(fs) && PerformAll(s, fs).error.Some?
    ensures AllStored(fs[..Stops(s, fs)])
    ensures var n := Stops(s, fs);
            var before, f := PerformAll(s, fs[..n]), fs[n];
            && before.error.None? && f.command == Ack && PerformAll(s, fs).error == Some(PanicUnknownMode)
            && PerformAll(s, fs).state == Perform(before.state, f)
            && PerformAll(s, fs).state.requests == before.state.requests + Released(ReleasedBy(before.state, f))
    decreases |fs|
  {
    var n := Stops(s, fs);
    if n == 0 {
      assert fs[..0] == [];
    } else {
      assert AllStored(fs[1..]) && fs[1..][..n - 1] == fs[..n][1..] && fs[1..][n - 1] == fs[n];
      PanicLeavesHalf(Perform(s, fs[0]), fs[1..]);
    }
  }

  /** The entries that an ACK releases. */
  function ReleasedBy(s: State, f: Frame): seq<Holding>
    requires AckIdOf(f.header).AckId?
  {
    Filter(s.unacked[..Known(s.unacked)], h => AckedBy(h, AckIdOf(f.header).n))
  }

  // ---------- when a commit brings the broker down ----------

  predicate Unknown(h: Holding) { h.sub.ack.Invalid? }

  /** None of the frames rejects what h holds. */
  ghost predicate Spared(h: Holding, fs: seq<Frame>) {
    forall j :: 0 <= j < |fs| && fs[j].command == Nack && AckIdOf(fs[j].header).AckId? ==>
      !NackedBy(h, AckIdOf(fs[j].header).n)
  }

  /** Some ACK among the frames meets an entry with an unknown mode that no earlier NACK has taken away. */
  ghost predicate MeetsUnknown(unacked: seq<Holding>, fs: seq<Frame>) {
    exists h, i :: h in unacked && Unknown(h) && 0 <= i < |fs| && fs[i].command == Ack && Spared(h, fs[..i])
  }

  lemma AckErrorExactly(s: State)
    ensures AckError(s).Some? <==> exists h :: h in s.unacked && Unknown(h)
  {
    var n := Known(s.unacked);
    if n < |s.unacked| { assert s.unacked[n] in s.unacked; }
  }

  lemma UnackedAfter(s: State, f: Frame, h: Holding)
    requires Stored(f) && PerformError(s, f).None? && Unknown(h)
    ensures h in Perform(s, f).unacked <==> h in s.unacked && Spared(h, [f])
  {
    assert [f][0] == f;
    if f.command == Nack {
      FilterMembers(s.unacked, x => !NackedBy(x, AckIdOf(f.header).n));
    } else if f.command == Ack {
      AckErrorExactly(s);
      FilterMembers(s.unacked[..Known(s.unacked)], x => !AckedBy(x, AckIdOf(f.header).n));
      assert s.unacked[..Known(s.unacked)] == s.unacked;
    }
  }

  lemma SparedCons(h: Holding, fs: seq<Frame>, i: nat)
    requires 0 < i <= |fs|
    ensures Spared(h, fs[..i]) <==> Spared(h, [fs[0]]) && Spared(h, fs[1..][..i - 1])
  {
    var rest := fs[1..][..i - 1];
    assert forall j :: 0 <= j < |rest| ==> rest[j] == fs[..i][j + 1];
    if Spared(h, [fs[0]]) && Spared(h, rest) {
      forall j | 0 <= j < i && fs[..i][j].command == Nack && AckIdOf(fs[..i][j].header).AckId?
        ensures !NackedBy(h, AckIdOf(fs[..i][j].header).n)
      {
        if j > 0 { assert rest[j - 1] == fs[..i][j]; } else { assert [fs[0]][0] == fs[..i][0]; }
      }
    }
    if Spared(h, fs[..i]) {
      assert fs[..i][0] == [fs[0]][0];
      forall j | 0 <= j < |rest| && rest[j].command == Nack && AckIdOf(rest[j].header).AckId?
        ensures !NackedBy(h, AckIdOf(rest[j].header).n)
      {
        assert rest[j] == fs[..i][j + 1];
      }
    }
  }

  /** A COMMIT brings the broker down exactly when one of its ACKs meets an entry with an unknown mode. */
  lemma {:induction false} CommitPanicsExactly(s: State, fs: seq<Frame>)
    requires AllStored(fs)
    ensures PerformAll(s, fs).error.Some? <==> MeetsUnknown(s.unacked, fs)
    decreases |fs|
  {
    if fs != [] {
      AckErrorExactly(s);
      if PerformError(s, fs[0]).Some? {
        var h :| h in s.unacked && Unknown(h);
        assert fs[..0] == [] && Spared(h, fs[..0]);
      } else {
        CommitPanicsExactly(Perform(s, fs[0]), fs[1..]);
        MeetsLater(s, fs);
      }
    }
  }

  lemma MeetsLater(s: State, fs: seq<Frame>)
    requires AllStored(fs) && fs != [] && PerformError(s, fs[0]).None?
    ensures MeetsUnknown(s.unacked, fs) <==> MeetsUnknown(Perform(s, fs[0]).unacked, fs[1..])
  {
    AckErrorExactly(s);
    if h, i :| h in s.unacked && Unknown(h) && 0 <= i < |fs| && fs[i].command == Ack && Spared(h, fs[..i]) {
      MeetsOn(s, fs, h, i);
    }
    var u := Perform(s, fs[0]).unacked;
    if h, i :| h in u && Unknown(h) && 0 <= i < |fs[1..]| && fs[1..][i].command == Ack && Spared(h, fs[1..][..i]) {
      UnackedAfter(s, fs[0], h);
      SparedCons(h, fs, i + 1);
      assert fs[i + 1].command == Ack;
    }
  }

  lemma MeetsOn(s: State, fs: seq<Frame>, h: Holding, i: nat)
    requires AllStored(fs) && fs != [] && PerformError(s, fs[0]).None? && AckError(s).Some?
    requires h in s.unacked && Unknown(h) && i < |fs| && fs[i].command == Ack && Spared(h, fs[..i])
    ensures MeetsUnknown(Perform(s, fs[0]).unacked, fs[1..])
  {
    SparedCons(h, fs, i);
    UnackedAfter(s, fs[0], h);
    assert fs[1..][i - 1] == fs[i];
  }

  // ---------- transactions are serialisable ----------

  /** What the processor and the other client of this session state can observe. */
  predicate Same(s: State, t: State) {
    s.subs == t.subs && s.unacked == t.unacked && s.lastMsgId == t.lastMsgId && s.requests == t.requests
  }

  const ALWAYS: Link := n => true

  function Replay(fs: seq<Frame>): seq<Event> {
    if fs == [] then [] else [FromClient(fs[0])] + Replay(fs[1..])
  }

  /** A SEND, ACK or NACK as it is buffered. */
  function Strip(f: Frame): Frame { Drop(Drop(f, RECEIPT), TRANSACTION) }

  /** The same events without transactions: a member of a transaction moves, stripped, to the place of
      its COMMIT, and disappears if the transaction is aborted or left open. */
  function Flatten(es: seq<Event>, open: map<string, seq<Frame>>): seq<Event>
    decreases |es|
  {
    if es == [] then []
    else
      var e, rest := es[0], es[1..];
      var tx := if e.FromClient? then Lookup(e.frame.header, TRANSACTION) else None;
      if tx.None? then [e] + Flatten(rest, open)
      else if e.frame.command == Begin then Flatten(rest, open[tx.value := []])
      else if tx.value !in open then [e] + Flatten(rest, open)
      else if e.frame.command == Abort then Flatten(rest, open - {tx.value})
      else if e.frame.command == Commit then Replay(open[tx.value]) + Flatten(rest, open - {tx.value})
      else if Transactional(e.frame) then
        Flatten(rest, open[tx.value := open[tx.value] + [Strip(e.frame)]])
      else [e] + Flatten(rest, open)
  }

  lemma RunStored(s: State, f: Frame, rest: seq<Event>, link: Link)
    requires Valid(s) && Stored(f) && PerformError(s, f).None?
    ensures Valid(Perform(s, f))
    ensures Run(s, [FromClient(f)] + rest, link) == Run(Perform(s, f), rest, link)
  {
    PlainOnStored(s, f, link);
    PerformKeepsValid(s, f);
    assert ([FromClient(f)] + rest)[1..] == rest;
  }

  lemma ReplayCons(fs: seq<Frame>, more: seq<Event>)
    requires fs != []
    ensures Replay(fs) + more == [FromClient(fs[0])] + (Replay(fs[1..]) + more)
  {
  }

  lemma {:induction false} ReplayRuns(s: State, fs: seq<Frame>, more: seq<Event>, link: Link)
    requires Valid(s) && AllStored(fs) && PerformAll(s, fs).error.None?
    ensures Valid(PerformAll(s, fs).state)
    ensures Run(s, Replay(fs) + more, link) == Run(PerformAll(s, fs).state, more, link)
    decreases |fs|
  {
    if fs == [] {
      assert Replay(fs) + more == more;
    } else {
      PerformKeepsValid(s, fs[0]);
      ReplayRuns(Perform(s, fs[0]), fs[1..], more, link);
      RunStored(s, fs[0], Replay(fs[1..]) + more, link);
      ReplayCons(fs, more);
    }
  }

  lemma PerformSame(s: State, t: State, f: Frame)
    requires Same(s, t) && (f.command != Send ==> AckIdOf(f.header).AckId?)
    ensures Same(Perform(s, f), Perform(t, f)) && Perform(s, f).transactions == s.transactions
    ensures PerformError(s, f) == PerformError(t, f)
  {
  }

  lemma {:induction false} PerformAllSame(s: State, t: State, fs: seq<Frame>)
    requires Same(s, t)
    requires AllStored(fs)
    ensures Same(PerformAll(s, fs).state, PerformAll(t, fs).state)
    ensures PerformAll(s, fs).error == PerformAll(t, fs).error
    decreases |fs|
  {
    if fs != [] {
      PerformSame(s, t, fs[0]);
      if PerformError(s, fs[0]).None? { PerformAllSame(Perform(s, fs[0]), Perform(t, fs[0]), fs[1..]); }
    }
  }

  predicate Outside(e: Event) {
    !e.FromClient? || Lookup(e.frame.header, TRANSACTION).None?
    || !(Transactional(e.frame) || e.frame.command in {Begin, Commit, Abort})
  }

  lemma ArriveSame(s: State, t: State, h: Holding, listed: bool, link: Link)
    requires Same(s, t) && Arrive(s, h, listed, link).error.None?
    ensures Arrive(t, h, listed, ALWAYS).error.None?
    ensures Same(Arrive(s, h, listed, link).state, Arrive(t, h, listed, ALWAYS).state)
    ensures Arrive(s, h, listed, link).state.transactions == s.transactions
  {
  }

  lemma MessageSame(s: State, t: State, f: Frame, link: Link)
    requires Same(s, t) && Lookup(f.header, TRANSACTION).None?
    requires HandleMessage(s, f, link).error.None?
    ensures HandleMessage(t, f, ALWAYS).error.None?
    ensures Same(HandleMessage(s, f, link).state, HandleMessage(t, f, ALWAYS).state)
    ensures HandleMessage(s, f, link).state.transactions == s.transactions
  {
    LookupsAfterDrop(f, RECEIPT);
    var r, r' := SendReceipt(s, f, link).state, SendReceipt(t, f, ALWAYS).state;
    assert Same(r, r') && r.transactions == s.transactions;
    PerformSame(r, r', Drop(f, RECEIPT));
  }

  lemma SubscriptionSame(s: State, t: State, f: Frame)
    requires Same(s, t)
    ensures HandleSubscribe(s, f).error == HandleSubscribe(t, f).error
    ensures Same(HandleSubscribe(s, f).state, HandleSubscribe(t, f).state)
    ensures HandleUnsubscribe(s, f).error == HandleUnsubscribe(t, f).error
    ensures Same(HandleUnsubscribe(s, f).state, HandleUnsubscribe(t, f).state)
    ensures HandleSubscribe(s, f).state.transactions == s.transactions
    ensures HandleUnsubscribe(s, f).state.transactions == s.transactions
  {
  }

  lemma ReceiptSame(s: State, t: State, f: Frame, link: Link)
    requires Same(s, t)
    ensures Same(SendReceipt(s, f, link).state, SendReceipt(t, f, ALWAYS).state)
    ensures SendReceipt(s, f, link).state.transactions == s.transactions
  {
  }

  /** The commands that no transaction can hold, outside transactions. */
  lemma OtherSame(s: State, t: State, f: Frame, link: Link)
    requires Same(s, t) && !Transactional(f) && f.command != Commit
    requires Lookup(f.header, TRANSACTION).None? || f.command !in {Begin, Abort}
    requires Plain(s, f, link).error.None?
    ensures Plain(t, f, ALWAYS).error.None?
    ensures Same(Plain(s, f, link).state, Plain(t, f, ALWAYS).state)
    ensures Plain(s, f, link).state.transactions == s.transactions
  {
    SubscriptionSame(s, t, f);
    ReceiptSame(s, t, f, link);
  }

  /** A step outside transactions does the same whatever is in the store and on a working link. */
  lemma OutsideSame(s: State, t: State, e: Event, link: Link)
    requires Valid(s) && Valid(t) && Same(s, t)
    requires Outside(e)
    requires React(s, e, link).error.None?
    ensures React(t, e, ALWAYS).error.None?
    ensures Same(React(s, e, link).state, React(t, e, ALWAYS).state)
    ensures React(s, e, link).state.transactions == s.transactions
  {
    match e
    case Arrived(h, listed) => ArriveSame(s, t, h, listed, link);
    case Pushed(f) =>
    case Timer =>
    case FromClient(f) =>
      if Transactional(f) {
        MessageSame(s, t, f, link);
      } else if f.command != Commit {
        OtherSame(s, t, f, link);
      }
  }

  lemma BufferStep(s: State, f: Frame, link: Link)
    requires Valid(s) && Transactional(f) && Lookup(f.header, TRANSACTION).Some?
    requires Dispatch(s, f, link).error.None?
    ensures Lookup(f.header, TRANSACTION).value in s.transactions
    ensures Same(Dispatch(s, f, link).state, s)
    ensures var tx := Lookup(f.header, TRANSACTION).value;
            Dispatch(s, f, link).state.transactions == s.transactions[tx := s.transactions[tx] + [Strip(f)]]
  {
    LookupsAfterDrop(f, RECEIPT);
  }

  lemma CommitStep(s: State, f: Frame, link: Link)
    requires Valid(s) && f.command == Commit
    requires Dispatch(s, f, link).error.None?
    ensures Lookup(f.header, TRANSACTION).Some? && Lookup(f.header, TRANSACTION).value in s.transactions
    ensures var tx := Lookup(f.header, TRANSACTION).value;
            && PerformAll(s, s.transactions[tx]).error.None?
            && Same(Dispatch(s, f, link).state, PerformAll(s, s.transactions[tx]).state)
            && Dispatch(s, f, link).state.transactions == s.transactions - {tx}
  {
    var r, tx := SendReceipt(s, f, link).state, Lookup(f.header, TRANSACTION).value;
    CommitIsAtomic(r, tx, link);
    PerformAllSame(r, s, s.transactions[tx]);
  }

  /** For every session that ends without an error, the transaction-free session of its flattened
      events also ends without one and sends exactly the same requests in the same order. */
  lemma {:induction false} Serialisable(s: State, t: State, es: seq<Event>, link: Link)
    requires Valid(s) && Valid(t) && Same(s, t)
    requires Run(s, es, link).error.None?
    ensures Run(t, Flatten(es, s.transactions), ALWAYS).error.None?
    ensures Same(Run(s, es, link).state, Run(t, Flatten(es, s.transactions), ALWAYS).state)
    decreases |es|
  {
    if es != [] {
      var e, next := es[0], React(s, es[0], link).state;
      ReactKeepsValid(s, e, link);
      var tx := if e.FromClient? then Lookup(e.frame.header, TRANSACTION) else None;
      if tx.Some? && e.frame.command == Commit {
        CommitStep(s, e.frame, link);
        var fs := s.transactions[tx.value];
        PerformAllSame(s, t, fs);
        ReplayRuns(t, fs, [], ALWAYS);
        Serialisable(next, PerformAll(t, fs).state, es[1..], link);
        ReplayRuns(t, fs, Flatten(es[1..], next.transactions), ALWAYS);
      } else if tx.Some? && Transactional(e.frame) {
        BufferStep(s, e.frame, link);
        Serialisable(next, t, es[1..], link);
      } else if tx.Some? && e.frame.command in {Begin, Abort} {
        Serialisable(next, t, es[1..], link);
      } else {
        SerialisableOutside(s, t, es, link);
      }
    }
  }

  lemma {:induction false} SerialisableOutside(s: State, t: State, es: seq<Event>, link: Link)
    requires Valid(s) && Valid(t) && Same(s, t)
    requires es != [] && Run(s, es, link).error.None?
    requires Outside(es[0])
    ensures Run(t, Flatten(es, s.transactions), ALWAYS).error.None?
    ensures Same(Run(s, es, link).state, Run(t, Flatten(es, s.transactions), ALWAYS).state)
    decreases |es|, 0
  {
    var e := es[0];
    var next, next' := React(s, e, link).state, React(t, e, ALWAYS).state;
    ReactKeepsValid(s, e, link);
    ReactKeepsValid(t, e, ALWAYS);
    OutsideSame(s, t, e, link);
    Serialisable(next, next', es[1..], link);
    var rest := Flatten(es[1..], s.transactions);
    assert Flatten(es, s.transactions) == [e] + rest;
    assert ([e] + rest)[1..] == rest;
  }

  // ---------- what a transaction holds ----------

  /** The frames that belong to tx after the events, found by looking back to its last BEGIN; None when
      it is not open. It does not look at any other transaction. */
  function Since(es: seq<Event>, tx: string): Option<seq<Frame>> {
    if es == [] then None
    else
      var e, before := es[|es| - 1], es[..|es| - 1];
      if !e.FromClient? || Lookup(e.frame.header, TRANSACTION) != Some(tx) then Since(before, tx)
      else if e.frame.command == Begin then Some([])
      else if e.frame.command in {Commit, Abort} then None
      else if Transactional(e.frame) then
        match Since(before, tx) case None => None case Some(l) => Some(l + [Strip(e.frame)])
      else Since(before, tx)
  }

  function OpenTx(s: State, tx: string): Option<seq<Frame>> {
    if tx in s.transactions then Some(s.transactions[tx]) else None
  }

  lemma {:induction false} RunSplit(s: State, es: seq<Event>, e: Event, link: Link)
    requires Valid(s)
    requires Run(s, es + [e], link).error.None?
    ensures Run(s, es, link).error.None? && Valid(Run(s, es, link).state)
    ensures Run(s, es + [e], link) == React(Run(s, es, link).state, e, link)
    decreases |es|
  {
    var first := (es + [e])[0];
    ReactKeepsValid(s, first, link);
    if es == [] {
      assert (es + [e])[1..] == [];
    } else {
      assert (es + [e])[1..] == es[1..] + [e];
      RunSplit(React(s, first, link).state, es[1..], e, link);
    }
  }

  lemma StoreStep(s: State, e: Event, tx: string, link: Link)
    requires Valid(s) && React(s, e, link).error.None?
    ensures OpenTx(React(s, e, link).state, tx) ==
            if !e.FromClient? || Lookup(e.frame.header, TRANSACTION) != Some(tx) then OpenTx(s, tx)
            else if e.frame.command == Begin then Some([])
            else if e.frame.command in {Commit, Abort} then None
            else if Transactional(e.frame) then
              (match OpenTx(s, tx) case None => None case Some(l) => Some(l + [Strip(e.frame)]))
            else OpenTx(s, tx)
  {
    if e.FromClient? && e.frame.command == Commit {
      CommitStep(s, e.frame, link);
    } else if Outside(e) {
      OutsideSame(s, s, e, link);
    } else if e.FromClient? && Transactional(e.frame)
              && Lookup(e.frame.header, TRANSACTION).Some? {
      BufferStep(s, e.frame, link);
    } else if e.FromClient? {
      LookupsAfterDrop(e.frame, RECEIPT);
    }
  }

  /** In every error-free session each open transaction holds exactly its own frames since its BEGIN,
      in order and stripped, however the transactions interleave. */
  lemma {:induction false} StoreHoldsSinceBegin(es: seq<Event>, tx: string, link: Link)
    requires Run(EMPTY, es, link).error.None?
    ensures OpenTx(Run(EMPTY, es, link).state, tx) == Since(es, tx)
    decreases |es|
  {
    if es != [] {
      var n := |es| - 1;
      assert es == es[..n] + [es[n]];
      RunSplit(EMPTY, es[..n], es[n], link);
      StoreHoldsSinceBegin(es[..n], tx, link);
      StoreStep(Run(EMPTY, es[..n], link).state, es[n], tx, link);
    }
  }

  // ---------- receipts ----------

  const RECEIPTED: set<Command> := {Send, Ack, Nack, Begin, Commit, Abort, Disconnect}

  predicate Asks(f: Frame) { f.command in RECEIPTED && Lookup(f.header, RECEIPT).Some? }

  /** What one event makes the server write when it ends without an error: the receipt the frame asks for,
      the message that arrived or was pushed, or a heart-beat. Only DISCONNECT goes on without an error when
      the link refuses its receipt. */
  function DueFor(s: State, e: Event, link: Link): seq<Output> {
    match e
    case FromClient(f) =>
      if Asks(f) && (f.command == Disconnect ==> link(s.writes)) then [AskedBy(f)] else []
    case Arrived(h, _) =>
      if h.sub.id in s.subs then [Delivery(Stamp(h.frame, NextId(s.lastMsgId), h.sub.ack))] else []
    case Pushed(f) => [Delivery(if Counts(f) then Stamp(f, NextId(s.lastMsgId), Auto) else f)]
    case Timer => [HeartBeat]
  }

  /** The receipt a frame asks for: its own receipt header comes back as receipt-id. */
  function AskedBy(f: Frame): Output
    requires Asks(f)
  {
    Answer(Frame(Receipt, [Entry("receipt-id", Lookup(f.header, "receipt").value)], ""))
  }

  function Due(s: State, es: seq<Event>, link: Link): seq<Output>
    requires Valid(s)
    decreases |es|
  {
    if es == [] then []
    else
      ReactKeepsValid(s, es[0], link);
      DueFor(s, es[0], link) + Due(React(s, es[0], link).state, es[1..], link)
  }

  lemma AnswerToMessage(s: State, f: Frame, link: Link)
    requires HandleMessage(s, f, link).error.None?
    ensures HandleMessage(s, f, link).state.written == SendReceipt(s, f, link).state.written
    ensures SendReceipt(s, f, link).error.None?
  {
    LookupsAfterDrop(f, RECEIPT);
  }

  lemma AnswerToCommit(s: State, f: Frame, link: Link)
    requires Valid(s) && f.command == Commit && HandleCommit(s, f, link).error.None?
    ensures HandleCommit(s, f, link).state.written == SendReceipt(s, f, link).state.written
    ensures SendReceipt(s, f, link).error.None?
  {
    CommitIsAtomic(SendReceipt(s, f, link).state, Lookup(f.header, TRANSACTION).value, link);
  }

  lemma AnswerToClient(s: State, f: Frame, link: Link)
    requires Valid(s) && Dispatch(s, f, link).error.None?
    ensures Dispatch(s, f, link).state.written == s.written + DueFor(s, FromClient(f), link)
  {
    if f.command == Commit {
      AnswerToCommit(s, f, link);
    } else if Transactional(f) {
      AnswerToMessage(s, f, link);
    }
  }

  lemma WriteStep(s: State, e: Event, link: Link)
    requires Valid(s) && React(s, e, link).error.None?
    ensures React(s, e, link).state.written == s.written + DueFor(s, e, link)
  {
    if e.FromClient? { AnswerToClient(s, e.frame, link); }
  }

  /** In every error-free session, on any link, what is written to the client is exactly one RECEIPT for
      each frame that asks for one, when it is handled, the messages that arrive or are pushed, and the
      heart-beats, all in order. Buffering a frame and replaying it at COMMIT adds nothing. SUBSCRIBE and
      UNSUBSCRIBE get no receipt, and DISCONNECT gets one exactly if the link takes it. */
  lemma {:induction false} ReceiptsOnce(s: State, es: seq<Event>, link: Link)
    requires Valid(s) && Run(s, es, link).error.None?
    ensures Run(s, es, link).state.written == s.written + Due(s, es, link)
    decreases |es|
  {
    if es != [] {
      var next := React(s, es[0], link).state;
      ReactKeepsValid(s, es[0], link);
      WriteStep(s, es[0], link);
      ReceiptsOnce(next, es[1..], link);
      Regroup(s.written, DueFor(s, es[0], link), Due(next, es[1..], link));
    }
  }

  lemma Regroup<T>(a: seq<T>, b: seq<T>, c: seq<T>)
    ensures (a + b) + c == a + (b + c)
  {
  }

  // ---------- receipts that get lost ----------

  /** The answers among what has been written. */
  function Answers(l: seq<Output>): seq<Output> {
    if l == [] then [] else (if l[0].Answer? then [l[0]] else []) + Answers(l[1..])
  }

  lemma {:induction false} AnswersConcat(a: seq<Output>, b: seq<Output>)
    ensures Answers(a + b) == Answers(a) + Answers(b)
  {
    if a == [] {
      assert a + b == b;
    } else {
      assert (a + b)[1..] == a[1..] + b && (a + b)[0] == a[0];
      AnswersConcat(a[1..], b);
      Regroup(if a[0].Answer? then [a[0]] else [], Answers(a[1..]), Answers(b));
    }
  }

  function AskedFor(e: Event): seq<Output> { if e.FromClient? && Asks(e.frame) then [AskedBy(e.frame)] else [] }

  /** The receipts the client asks for. */
  function Asked(es: seq<Event>): seq<Output> { if es == [] then [] else AskedFor(es[0]) + Asked(es[1..]) }

  predicate RefusedAt(s: State, e: Event, link: Link) {
    e.FromClient? && e.frame.command == Disconnect && Asks(e.frame) && !link(s.writes)
  }

  /** Some DISCONNECT asks for a receipt that the link refuses. */
  predicate Refused(s: State, es: seq<Event>, link: Link)
    requires Valid(s)
    decreases |es|
  {
    es != [] &&
    (ReactKeepsValid(s, es[0], link);
     RefusedAt(s, es[0], link) || Refused(React(s, es[0], link).state, es[1..], link))
  }

  lemma DueAnswers(s: State, e: Event, link: Link)
    ensures Answers(DueFor(s, e, link)) == if RefusedAt(s, e, link) then [] else AskedFor(e)
  {
    var d := DueFor(s, e, link);
    if d != [] { assert d == [d[0]] && d[1..] == []; }
  }

  lemma {:induction false} DueOrRefused(s: State, es: seq<Event>, link: Link)
    requires Valid(s)
    ensures |Answers(Due(s, es, link))| <= |Asked(es)|
    ensures Answers(Due(s, es, link)) == Asked(es) <==> !Refused(s, es, link)
    decreases |es|
  {
    if es != [] {
      ReactKeepsValid(s, es[0], link);
      var next := React(s, es[0], link).state;
      DueOrRefused(next, es[1..], link);
      DueAnswers(s, es[0], link);
      AnswersConcat(DueFor(s, es[0], link), Due(next, es[1..], link));
      SameFront(Answers(DueFor(s, es[0], link)), AskedFor(es[0]), Answers(Due(next, es[1..], link)), Asked(es[1..]));
    }
  }

  lemma SameFront<T>(a: seq<T>, a': seq<T>, b: seq<T>, b': seq<T>)
    requires (a == a' || a == []) && |b| <= |b'|
    ensures |a + b| <= |a' + b'|
    ensures a + b == a' + b' <==> a == a' && b == b'
  {
    if a == a' {
      assert (a + b)[|a|..] == b && (a' + b')[|a|..] == b';
    }
  }

  /** In every error-free session the answers written are the receipts asked for, in order, exactly if no
      DISCONNECT that asks for one finds the link refusing it. */
  lemma ReceiptsLostExactly(s: State, es: seq<Event>, link: Link)
    requires Valid(s) && Run(s, es, link).error.None?
    ensures Answers(Run(s, es, link).state.written) == Answers(s.written) + Asked(es) <==> !Refused(s, es, link)
  {
    ReceiptsOnce(s, es, link);
    DueOrRefused(s, es, link);
    AnswersConcat(s.written, Due(s, es, link));
    SameFront(Answers(s.written), Answers(s.written), Answers(Due(s, es, link)), Asked(es));
  }

  /** The shortest session that loses a receipt. */
  lemma LostGoodbye(id: string, link: Link)
    requires !link(0)
    ensures var es := [FromClient(Frame(Disconnect, [Entry(RECEIPT, id)], ""))];
            Run(EMPTY, es, link).error.None? && Run(EMPTY, es, link).state.written == [] != Asked(es)
  {
    var f := Frame(Disconnect, [Entry(RECEIPT, id)], "");
    assert [FromClient(f)][1..] == [] && Lookup(f.header, RECEIPT) == Some(id);
  }
}
