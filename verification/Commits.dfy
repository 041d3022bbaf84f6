/** A COMMIT of the session is a run of the broker: its frames are sent and released one by one, each
    followed by the flushing of its requests. */
module Commits {
  import opened Frames
  import opened Broker
  import opened Ledger
  import opened BrokerRuns
  import opened Agreement
  import opened Transactions
  import Session

  // ---------- flushing ----------

  /** All requests of connection c have gone to the shared channel. */
  function Flushed(b: Broker, c: nat): Broker
    requires c < |b.conns|
  {
    SetConn(b, c, b.conns[c].(outbox := [])).(requests := b.requests + b.conns[c].outbox)
  }

  function Flushes(c: nat, n: nat): seq<Action> { if n == 0 then [] else [Flush(c)] + Flushes(c, n - 1) }

  lemma FlushedOnce(b: Broker, c: nat)
    requires c < |b.conns| && b.conns[c].outbox != []
    ensures Flushed(DoFlush(b, c), c) == Flushed(b, c)
  {
    var k := b.conns[c];
    assert b.requests + [k.outbox[0]] + k.outbox[1..] == b.requests + k.outbox;
    assert DoFlush(b, c).conns[c := k.(outbox := [])] == b.conns[c := k.(outbox := [])];
  }

  lemma {:induction false} FlushAll(b: Broker, c: nat)
    requires Inv(b, multiset{}, multiset{}) && b.panic.None? && c < |b.conns|
    ensures Leads(b, Flushes(c, |b.conns[c].outbox|), Flushed(b, c)) && Inv(Flushed(b, c), multiset{}, multiset{})
    decreases |b.conns[c].outbox|
  {
    var k := b.conns[c];
    if k.outbox == [] {
      assert b.conns[c := k.(outbox := [])] == b.conns && b.requests + [] == b.requests;
    } else {
      NextInv(b, Flush(c));
      FlushedOnce(b, c);
      FlushAll(DoFlush(b, c), c);
      var rest := Flushes(c, |k.outbox| - 1);
      assert ([Flush(c)] + rest)[1..] == rest;
    }
  }

  // ---------- performing ----------

  /** Steps that a COMMIT consists of. */
  predicate OfCommit(c: nat, a: Action) { (a.ClientSend? || a.ClientRelease? || a.Flush?) && a.c == c }

  ghost predicate AllOfCommit(c: nat, actions: seq<Action>) { forall a :: a in actions ==> OfCommit(c, a) }

  lemma {:induction false} FlushesOfCommit(c: nat, n: nat)
    ensures AllOfCommit(c, Flushes(c, n))
  {
    if n > 0 { FlushesOfCommit(c, n - 1); }
  }

  ghost predicate Grows(h: Heap, h': Heap) { h.frames <= h'.frames && SubsStable(h, h') }

  lemma PerformGrows(b: Broker, c: nat, f: Frame)
    requires Local(b) && c < |b.conns| && Session.Stored(f) && Enabled(b, PerformAction(c, f))
    ensures Grows(b.heap, Next(b, PerformAction(c, f)).heap)
    ensures Next(b, PerformAction(c, f)).requests == b.requests
  {
  }

  lemma PerformKeepsPhase(b: Broker, c: nat, f: Frame)
    requires Local(b) && c < |b.conns| && Session.Stored(f) && Enabled(b, PerformAction(c, f))
    ensures var b' := Next(b, PerformAction(c, f)); |b'.conns| == |b.conns| && b'.conns[c].phase == b.conns[c].phase
  {
  }

  /** Requests made before do not matter to what is performed. */
  lemma {:induction false} PerformAllAfter(st: Session.State, fs: seq<Frame>)
    requires Session.AllStored(fs)
    ensures var blank := st.(requests := []);
            && PerformAll(st, fs).error == PerformAll(blank, fs).error
            && PerformAll(st, fs).state.(requests := []) == PerformAll(blank, fs).state.(requests := [])
            && PerformAll(st, fs).state.requests == st.requests + PerformAll(blank, fs).state.requests
    decreases |fs|
  {
    if fs != [] {
      var blank := st.(requests := []);
      PerformAfter(st, fs[0]);
      if Session.PerformError(st, fs[0]).None? {
        var s1, f1 := Session.Perform(st, fs[0]), Session.Perform(blank, fs[0]);
        PerformAllAfter(s1, fs[1..]);
        PerformAllAfter(f1, fs[1..]);
        assert s1.(requests := []) == f1.(requests := []);
        var more := PerformAll(s1.(requests := []), fs[1..]).state.requests;
        Transactions.Regroup(st.requests, f1.requests, more);
      }
    }
  }

  lemma PerformAfter(st: Session.State, f: Frame)
    requires Session.Stored(f)
    ensures var blank := st.(requests := []);
            && Session.PerformError(st, f) == Session.PerformError(blank, f)
            && Session.Perform(st, f).(requests := []) == Session.Perform(blank, f).(requests := [])
            && Session.Perform(st, f).requests == st.requests + Session.Perform(blank, f).requests
  {
  }

  // ---------- the run ----------

  /** Between two frames of a COMMIT: the connection is ready and shows the session state. */
  ghost predicate Between(b: Broker, c: nat, st: Session.State) {
    && Inv(b, multiset{}, multiset{}) && b.panic.None? && Ready(b, c, Running)
    && Shows(b.heap, b.conns[c], st.(requests := []))
  }

  /** The run from b to b' puts exactly these requests on the shared channel, and nobody else's. */
  ghost predicate Puts(b: Broker, b': Broker, rs: seq<Request>, values: seq<Session.Request>) {
    Grows(b.heap, b'.heap) && b'.requests == b.requests + rs && AllInHeap(b'.heap, rs) && ReqVals(b'.heap, rs) == values
  }

  lemma FlushedShows(b: Broker, c: nat, st: Session.State)
    requires c < |b.conns| && Shows(b.heap, b.conns[c], st)
    ensures Shows(b.heap, Flushed(b, c).conns[c], st.(requests := []))
  {
  }

  lemma PerformRound(b: Broker, c: nat, f: Frame, st: Session.State)
    returns (actions: seq<Action>, b': Broker, rs: seq<Request>)
    requires Between(b, c, st) && st.requests == [] && Session.Stored(f) && Session.PerformError(st, f).None?
    ensures Leads(b, actions, b') && AllOfCommit(c, actions) && Between(b', c, Session.Perform(st, f))
    ensures Puts(b, b', rs, Session.Perform(st, f).requests)
  {
    var a, st' := PerformAction(c, f), Session.Perform(st, f);
    assert st.(requests := []) == st;
    PerformReaction(b, c, f, st);
    PerformGrows(b, c, f);
    PerformKeepsPhase(b, c, f);
    NextInv(b, a);
    var b1 := Next(b, a);
    rs := b1.conns[c].outbox;
    FlushAll(b1, c);
    b' := Flushed(b1, c);
    FlushedShows(b1, c, st');
    var flushes := Flushes(c, |rs|);
    FlushesOfCommit(c, |rs|);
    actions := [a] + flushes;
    assert actions[1..] == flushes;
  }

  lemma GrowsOn(h: Heap, m: Heap, h': Heap)
    requires Grows(h, m) && Grows(m, h')
    ensures Grows(h, h')
  {
    assert forall s :: 0 <= s < |h.subs| ==> SubVal(m, s) == SubVal(h, s) && SubVal(h', s) == SubVal(m, s);
  }

  lemma PutsOn(b: Broker, m: Broker, b': Broker, r1: seq<Request>, v1: seq<Session.Request>,
               r2: seq<Request>, v2: seq<Session.Request>)
    requires Puts(b, m, r1, v1) && Puts(m, b', r2, v2)
    ensures Puts(b, b', r1 + r2, v1 + v2)
  {
    GrowsOn(b.heap, m.heap, b'.heap);
    ReqValsStable(m.heap, b'.heap, r1);
    ReqValsConcat(b'.heap, r1, r2);
    assert (b.requests + r1) + r2 == b.requests + (r1 + r2);
  }

  lemma {:induction false} PerformAllIsRun(b: Broker, c: nat, fs: seq<Frame>, st: Session.State)
    returns (actions: seq<Action>, b': Broker, rs: seq<Request>)
    requires Between(b, c, st) && st.requests == [] && Session.AllStored(fs) && PerformAll(st, fs).error.None?
    ensures Leads(b, actions, b') && AllOfCommit(c, actions) && Between(b', c, PerformAll(st, fs).state)
    ensures Puts(b, b', rs, PerformAll(st, fs).state.requests)
    decreases |fs|
  {
    if fs == [] {
      actions, b', rs := [], b, [];
      assert b.requests + [] == b.requests;
    } else {
      assert Session.Stored(fs[0]);
      var as1, b1, r1 := PerformRound(b, c, fs[0], st);
      var st1 := Session.Perform(st, fs[0]);
      PerformAllAfter(st1, fs[1..]);
      var as2, r2;
      as2, b', r2 := PerformAllIsRun(b1, c, fs[1..], st1.(requests := []));
      LeadsConcat(b, as1, b1, as2, b');
      PutsOn(b, b1, b', r1, st1.requests, r2, PerformAll(st1.(requests := []), fs[1..]).state.requests);
      actions, rs := as1 + as2, r1 + r2;
    }
  }

  /** Every COMMIT of the session that ends without an error is a run of ClientSend, ClientRelease and Flush
      steps of that connection in the broker, without a panic. The run puts exactly the session's requests
      on the shared channel, in order, and ends with the same subscriptions, un-acknowledged list and
      message counter. */
  lemma CommitIsRun(b: Broker, c: nat, f: Frame, st: Session.State, link: Session.Link)
    returns (actions: seq<Action>, b': Broker, rs: seq<Request>)
    requires Between(b, c, st) && st.requests == [] && Session.Valid(st) && f.command == Commit
    requires Session.Dispatch(st, f, link).error.None?
    ensures Leads(b, actions, b') && AllOfCommit(c, actions) && Between(b', c, Session.Dispatch(st, f, link).state)
    ensures Puts(b, b', rs, Session.Dispatch(st, f, link).state.requests)
  {
    var tx, r := Lookup(f.header, TRANSACTION).value, Session.SendReceipt(st, f, link).state;
    CommitIsAtomic(r, tx, link);
    var fs := r.transactions[tx];
    actions, b', rs := PerformAllIsRun(b, c, fs, r);
    BetweenStores(b', c, PerformAll(r, fs).state, Session.Dispatch(st, f, link).state);
  }

  lemma BetweenStores(b: Broker, c: nat, st: Session.State, st': Session.State)
    requires Between(b, c, st) && st' == st.(transactions := st'.transactions)
    ensures Between(b, c, st')
  {
  }
}
