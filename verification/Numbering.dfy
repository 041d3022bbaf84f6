/** The message ids that one session writes. */
module Numbering {
  import opened Text
  import opened Frames
  import opened Acks
  import opened Session
  import opened Transactions
  import opened Tags

  const WRAP: nat := 0x1_0000_0000_0000_0000

  /** The messages among what was written. */
  function Messages(out: seq<Output>): seq<Frame> {
    if out == [] then []
    else (if out[0].Delivery? && out[0].frame.command == Message then [out[0].frame] else []) + Messages(out[1..])
  }

  lemma {:induction false} MessagesConcat(a: seq<Output>, b: seq<Output>)
    ensures Messages(a + b) == Messages(a) + Messages(b)
  {
    if a == [] {
      assert a + b == b;
    } else {
      assert (a + b)[1..] == a[1..] + b;
      MessagesConcat(a[1..], b);
    }
  }

  /** The frame says that it is number n, modulo 2^64, in both headers. */
  predicate IsNumber(f: Frame, n: nat) {
    Lookup(f.header, "message-id") == Some(Decimal(n % WRAP)) && Lookup(f.header, "id") == Some(Decimal(n % WRAP))
  }

  ghost predicate Numbered(s: State) {
    && s.lastMsgId == |Messages(s.written)| % WRAP
    && forall i :: 0 <= i < |Messages(s.written)| ==> IsNumber(Messages(s.written)[i], i + 1)
  }

  /** Queues hold messages only, and the frames on a write channel are messages or ERROR frames. */
  ghost predicate MessagesOnly(es: seq<Event>) {
    && (forall h, listed :: Arrived(h, listed) in es ==> h.frame.command == Message)
    && (forall f :: Pushed(f) in es ==> f.command in {Message, Error})
  }

  lemma {:induction false} CommitKeepsCounter(s: State, fs: seq<Frame>)
    requires AllStored(fs)
    ensures PerformAll(s, fs).state.lastMsgId == s.lastMsgId
    decreases |fs|
  {
    if fs != [] && PerformError(s, fs[0]).None? { CommitKeepsCounter(Perform(s, fs[0]), fs[1..]); }
  }

  lemma ClientKeepsCounter(s: State, f: Frame, link: Link)
    requires Valid(s)
    ensures Dispatch(s, f, link).state.lastMsgId == s.lastMsgId
  {
    if f.command == Commit {
      var tx, r := Lookup(f.header, TRANSACTION), SendReceipt(s, f, link);
      if tx.Some? && r.error.None? && tx.value in r.state.transactions {
        CommitIsAtomic(r.state, tx.value, link);
        CommitKeepsCounter(r.state, r.state.transactions[tx.value]);
      }
    } else if Transactional(f) {
      LookupsAfterDrop(f, RECEIPT);
    }
  }

  lemma NextNumber(n: nat)
    ensures NextId(n % WRAP) == (n + 1) % WRAP
  {
  }

  lemma NothingNew(s: State, out: Output, s': State)
    requires Numbered(s) && s'.written == s.written + [out] && s'.lastMsgId == s.lastMsgId
    requires !(out.Delivery? && out.frame.command == Message)
    ensures Numbered(s')
  {
    MessagesConcat(s.written, [out]);
    assert [out][1..] == [];
  }

  lemma OneMore(s: State, f: Frame, mode: AckMode, s': State)
    requires Numbered(s) && f.command == Message && s'.lastMsgId == NextId(s.lastMsgId)
    requires s'.written == s.written + [Delivery(Stamp(f, NextId(s.lastMsgId), mode))]
    ensures Numbered(s')
  {
    var g := Stamp(f, NextId(s.lastMsgId), mode);
    StampSays(f, NextId(s.lastMsgId), mode);
    NextNumber(|Messages(s.written)|);
    MessagesConcat(s.written, [Delivery(g)]);
    assert [Delivery(g)][1..] == [];
    assert Messages(s'.written) == Messages(s.written) + [g];
  }

  lemma StepNumbered(s: State, e: Event, link: Link)
    requires Valid(s) && Numbered(s) && React(s, e, link).error.None? && MessagesOnly([e])
    ensures Numbered(React(s, e, link).state)
  {
    WriteStep(s, e, link);
    var s' := React(s, e, link).state;
    assert e in [e] && s.written + [] == s.written;
    match e
    case FromClient(f) =>
      ClientKeepsCounter(s, f, link);
      if DueFor(s, e, link) != [] { NothingNew(s, DueFor(s, e, link)[0], s'); }
    case Arrived(h, listed) =>
      if h.sub.id in s.subs { OneMore(s, h.frame, h.sub.ack, s'); }
    case Pushed(f) => OneMore(s, f, Auto, s');
    case Timer => NothingNew(s, HeartBeat, s');
  }

  lemma {:induction false} RunNumbered(s: State, es: seq<Event>, link: Link)
    requires Valid(s) && Numbered(s) && Run(s, es, link).error.None? && MessagesOnly(es)
    ensures Numbered(Run(s, es, link).state)
    decreases |es|
  {
    if es != [] {
      assert es[0] in es && forall e :: e in es[1..] ==> e in es;
      StepNumbered(s, es[0], link);
      ReactKeepsValid(s, es[0], link);
      RunNumbered(React(s, es[0], link).state, es[1..], link);
    }
  }

  /** The messages that a session writes are numbered 1, 2, 3 and so on modulo 2^64, whatever the acknowledgement
      modes. */
  lemma MessageIdsAreConsecutive(es: seq<Event>, link: Link)
    requires Run(EMPTY, es, link).error.None? && MessagesOnly(es)
    ensures var written := Messages(Run(EMPTY, es, link).state.written);
            forall i :: 0 <= i < |written| ==>
                          && Lookup(written[i].header, "message-id") == Some(Decimal((i + 1) % WRAP))
                          && Lookup(written[i].header, "id") == Some(Decimal((i + 1) % WRAP))
  {
    RunNumbered(EMPTY, es, link);
    var written := Messages(Run(EMPTY, es, link).state.written);
    forall i | 0 <= i < |written|
      ensures Lookup(written[i].header, "message-id") == Some(Decimal((i + 1) % WRAP))
      ensures Lookup(written[i].header, "id") == Some(Decimal((i + 1) % WRAP))
    {
      assert IsNumber(written[i], i + 1);
    }
  }

  /** Two messages of a session have the same id exactly if their places differ by a multiple of 2^64: fewer
      messages than that have different ids. */
  lemma MessageIdsAreDistinct(es: seq<Event>, link: Link, i: nat, j: nat)
    requires Run(EMPTY, es, link).error.None? && MessagesOnly(es)
    requires i < j < |Messages(Run(EMPTY, es, link).state.written)|
    ensures var written := Messages(Run(EMPTY, es, link).state.written);
            && (Lookup(written[i].header, "message-id") == Lookup(written[j].header, "message-id") <==> (j - i) % WRAP == 0)
            && (|written| <= WRAP ==> Lookup(written[i].header, "message-id") != Lookup(written[j].header, "message-id"))
  {
    MessageIdsAreConsecutive(es, link);
    var written := Messages(Run(EMPTY, es, link).state.written);
    assert Lookup(written[i].header, "message-id") == Some(Decimal((i + 1) % WRAP));
    assert Lookup(written[j].header, "message-id") == Some(Decimal((j + 1) % WRAP));
    SamePlace(i, j);
  }

  lemma SamePlace(i: nat, j: nat)
    requires i < j
    ensures Decimal((i + 1) % WRAP) == Decimal((j + 1) % WRAP) <==> (j - i) % WRAP == 0
    ensures j < WRAP ==> (j - i) % WRAP != 0
  {
    var a, b := (i + 1) % WRAP, (j + 1) % WRAP;
    assert DigitsValue(Decimal(a)) == a && DigitsValue(Decimal(b)) == b;
    SameRemainder(i + 1, j + 1);
    assert (j + 1) - (i + 1) == j - i;
  }

  lemma SameRemainder(a: nat, b: nat)
    requires a <= b
    ensures a % WRAP == b % WRAP <==> (b - a) % WRAP == 0
  {
  }
}
