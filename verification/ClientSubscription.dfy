/** The client subscription's close machine: any number of goroutines call Unsubscribe while the read loop
    runs (subscription.go). Every access to the state word, the once-guard and the channel C is one step. */
module ClientSubscription {
  import opened Text

  datatype Phase = Active | Closing | Closed

  /** sync.Once: the first caller runs the function, the others wait until it has finished. */
  datatype Once = Unused | Busy(t: nat) | Used

  datatype Outcome = Nil | Completed | BadOption | ConnectionClosed | ReceiptTimeout | Other

  /** Unsubscribe goes from Begin to Returned, the read loop from Reading to Returned. Entering to Finishing
      are the steps of closeChannel; `then` is where it returns to. */
  datatype Pc =
    | Begin | Preparing | Checking(result: Outcome) | Waiting | TimedOut | Notifying
    | Reading | Passing | Judging(notice: bool)
    | Entering(notice: bool, result: Outcome) | Posting(result: Outcome) | Storing(result: Outcome)
    | ClosingC(result: Outcome) | Finishing(result: Outcome)
    | Returned(result: Outcome)

  /** `won` says that the thread passed the compare-and-swap. */
  datatype Thread = Thread(pc: Pc, won: bool)

  datatype Fault = SendOnClosed | CloseOfClosed

  /** `open` says whether C is open, `posts` counts what was ever sent on it. */
  datatype State = State(threads: seq<Thread>, phase: Phase, once: Once, open: bool, posts: nat,
                         fault: Option<Fault>)

  /** Thread 0 is the read loop. */
  const INITIAL := State([Thread(Reading, false)], Active, Unused, true, 0, None)

  /** What options, the connection, timers and the response channel make happen. */
  datatype Choice = Proceed | OptionFails | ConnClosed | OtherError | Wake | Timeout
                  | GotMessage | GotError | GotReceipt | GotOther | ChannelEnds

  datatype Action = Spawn | Step(t: nat, choice: Choice)

  predicate Enabled(s: State, a: Action) {
    s.fault.None? &&
    match a
    case Spawn => true
    case Step(t, _) => t < |s.threads| && !s.threads[t].pc.Returned? &&
                       (s.threads[t].pc.Entering? ==> !s.once.Busy?)
  }

  function Goto(s: State, t: nat, pc: Pc): State
    requires t < |s.threads|
  {
    s.(threads := s.threads[t := s.threads[t].(pc := pc)])
  }

  function Post(s: State, t: nat, pc: Pc): State
    requires t < |s.threads|
  {
    if s.open then Goto(s, t, pc).(posts := s.posts + 1) else s.(fault := Some(SendOnClosed))
  }

  /** What the read loop does with what it got from its channel. */
  function AfterRead(choice: Choice): Pc {
    match choice
    case GotMessage => Passing
    case GotError => Judging(true)
    case ChannelEnds => Judging(true)
    case GotReceipt => Judging(false)
    case _ => Reading
  }

  function AfterSendFrame(choice: Choice): Pc {
    match choice
    case OptionFails => Returned(BadOption)
    case ConnClosed => Entering(true, ConnectionClosed)
    case OtherError => Checking(Other)
    case _ => Checking(Nil)
  }

  function Next(s: State, a: Action): State
    requires Enabled(s, a)
  {
    match a
    case Spawn => s.(threads := s.threads + [Thread(Begin, false)])
    case Step(t, choice) =>
      match s.threads[t].pc
      case Begin =>
        if s.phase == Active
        then s.(phase := Closing, threads := s.threads[t := Thread(Preparing, true)])
        else Goto(s, t, Returned(Completed))
      case Preparing => Goto(s, t, AfterSendFrame(choice))
      case Checking(result) => Goto(s, t, if s.phase == Closed then Returned(result) else Waiting)
      case Waiting => Goto(s, t, if choice == Timeout then TimedOut else Checking(Nil))
      case TimedOut => Goto(s, t, if s.phase != Closed then Notifying else Returned(ReceiptTimeout))
      case Notifying => Post(s, t, Returned(ReceiptTimeout))
      case Reading => Goto(s, t, AfterRead(choice))
      case Passing => Post(s, t, Reading)
      case Judging(notice) => Goto(s, t, if s.phase != Closed then Entering(notice, Nil) else Returned(Nil))
      case Entering(notice, result) =>
        if s.once == Used then Goto(s, t, Returned(result))
        else Goto(s, t, if notice then Posting(result) else Storing(result)).(once := Busy(t))
      case Posting(result) => Post(s, t, Storing(result))
      case Storing(result) => Goto(s, t, ClosingC(result)).(phase := Closed)
      case ClosingC(result) =>
        if s.open then Goto(s, t, Finishing(result)).(open := false) else s.(fault := Some(CloseOfClosed))
      case Finishing(result) => Goto(s, t, Returned(result)).(once := Used)
      case Returned(_) => s
  }

  function Rank(p: Phase): nat { match p case Active => 0 case Closing => 1 case Closed => 2 }

  predicate InClose(pc: Pc) { pc.Posting? || pc.Storing? || pc.ClosingC? || pc.Finishing? }

  predicate ReadLoop(pc: Pc) { pc.Reading? || pc.Passing? || pc.Judging? }

  /** What the thread's place says about the shared state. */
  predicate Fits(s: State, t: nat)
    requires t < |s.threads|
  {
    var k := s.threads[t];
    && (InClose(k.pc) <==> s.once == Busy(t))
    && (k.pc.Posting? || k.pc.Storing? ==> s.phase != Closed && s.open)
    && (k.pc.ClosingC? ==> s.phase == Closed && s.open)
    && (k.pc.Finishing? ==> s.phase == Closed && !s.open)
    && (ReadLoop(k.pc) ==> t == 0)
    && (k.won ==> s.phase != Active)
    && (t > 0 && k.pc == Returned(Nil) ==> s.phase == Closed)
    && (t > 0 && !k.won ==> k.pc == Begin || k.pc == Returned(Completed))
    && (t > 0 && (InClose(k.pc) || k.pc.Entering?) ==> k.pc.result != Nil)
    && (t == 0 ==> ReadLoop(k.pc) || k.pc.Entering? || InClose(k.pc) || (k.pc.Returned? && s.phase == Closed))
  }

  ghost predicate OneWinner(threads: seq<Thread>) {
    forall t, u :: 0 <= t < u < |threads| ==> !threads[t].won || !threads[u].won
  }

  ghost predicate Good(s: State) {
    && |s.threads| > 0 && !s.threads[0].won
    && (forall t :: 0 <= t < |s.threads| ==> Fits(s, t))
    && OneWinner(s.threads)
    && (s.once.Busy? ==> s.once.t < |s.threads|)
    && (s.once == Unused ==> s.open && s.phase != Closed)
    && (s.once == Used ==> !s.open && s.phase == Closed)
    && (!s.open ==> s.phase == Closed)
  }

  lemma OwnFitsClosing(s: State, t: nat, choice: Choice)
    requires Good(s) && Enabled(s, Step(t, choice)) && (s.threads[t].pc.Entering? || InClose(s.threads[t].pc))
    ensures var s' := Next(s, Step(t, choice)); |s'.threads| == |s.threads| && (s'.fault.None? ==> Fits(s', t))
  {
    assert Fits(s, t);
  }

  predicate InLoop(pc: Pc) { ReadLoop(pc) || pc.Begin? || pc.Notifying? || pc.TimedOut? }

  lemma OwnFitsLoop(s: State, t: nat, choice: Choice)
    requires Good(s) && Enabled(s, Step(t, choice)) && InLoop(s.threads[t].pc)
    ensures var s' := Next(s, Step(t, choice)); |s'.threads| == |s.threads| && (s'.fault.None? ==> Fits(s', t))
  {
    assert Fits(s, t);
  }

  lemma OwnFits(s: State, t: nat, choice: Choice)
    requires Good(s) && Enabled(s, Step(t, choice)) && !s.threads[t].pc.Entering? && !InClose(s.threads[t].pc)
    requires !InLoop(s.threads[t].pc)
    ensures var s' := Next(s, Step(t, choice)); |s'.threads| == |s.threads| && (s'.fault.None? ==> Fits(s', t))
  {
    assert Fits(s, t);
  }

  /** The step of another thread leaves thread u where it is, and its place consistent. */
  lemma OtherFits(s: State, t: nat, choice: Choice, u: nat)
    requires Good(s) && Enabled(s, Step(t, choice)) && u < |s.threads| && u != t
    ensures var s' := Next(s, Step(t, choice)); |s'.threads| == |s.threads| && Fits(s', u)
  {
    assert Fits(s, t) && Fits(s, u);
    assert Next(s, Step(t, choice)).threads[u] == s.threads[u];
  }

  lemma StepGood(s: State, a: Action)
    requires Good(s) && Enabled(s, a)
    ensures Next(s, a).fault.None? ==> Good(Next(s, a))
    ensures Next(s, a).fault != Some(CloseOfClosed)
    ensures Rank(s.phase) <= Rank(Next(s, a).phase)
    ensures !s.open ==> !Next(s, a).open
  {
    match a
    case Spawn =>
      var s' := Next(s, a);
      forall u | 0 <= u < |s'.threads| ensures Fits(s', u) {
        if u < |s.threads| { assert Fits(s, u); }
      }
    case Step(t, choice) =>
      assert Fits(s, t);
      forall u | 0 <= u < |s.threads| && Next(s, a).fault.None? ensures Fits(Next(s, a), u) {
        if u != t {
          OtherFits(s, t, choice, u);
        } else if s.threads[t].pc.Entering? || InClose(s.threads[t].pc) {
          OwnFitsClosing(s, t, choice);
        } else if InLoop(s.threads[t].pc) {
          OwnFitsLoop(s, t, choice);
        } else {
          OwnFits(s, t, choice);
        }
      }
      StepShared(s, t, choice);
      StepWinner(s, t, choice);
  }

  lemma StepShared(s: State, t: nat, choice: Choice)
    requires Good(s) && Enabled(s, Step(t, choice))
    ensures var s' := Next(s, Step(t, choice));
            && s'.fault != Some(CloseOfClosed) && Rank(s.phase) <= Rank(s'.phase) && (!s.open ==> !s'.open)
            && |s'.threads| == |s.threads| && (s'.once.Busy? ==> s'.once.t < |s'.threads|)
            && (s'.once == Unused ==> s'.open && s'.phase != Closed)
            && (s'.once == Used ==> !s'.open && s'.phase == Closed)
            && (!s'.open ==> s'.phase == Closed)
            && (forall u :: 0 <= u < |s.threads| ==>
                  s'.threads[u].won == (s.threads[u].won || (u == t && s.threads[t].pc == Begin && s.phase == Active)))
  {
    assert Fits(s, t);
  }

  /** The compare-and-swap succeeds only while nobody has passed it. */
  lemma StepWinner(s: State, t: nat, choice: Choice)
    requires Good(s) && Enabled(s, Step(t, choice))
    ensures OneWinner(Next(s, Step(t, choice)).threads)
  {
    StepShared(s, t, choice);
    var s' := Next(s, Step(t, choice));
    forall u, v | 0 <= u < v < |s.threads| ensures !s'.threads[u].won || !s'.threads[v].won {
      assert Fits(s, u) && Fits(s, v);
    }
  }

  // ---------- runs ----------

  predicate Leads(s: State, actions: seq<Action>, s': State)
    decreases |actions|
  {
    if actions == [] then s == s'
    else Enabled(s, actions[0]) && Leads(Next(s, actions[0]), actions[1..], s')
  }

  lemma {:induction false} RunGood(s: State, actions: seq<Action>, s': State)
    requires Good(s) && s.fault.None? && Leads(s, actions, s')
    ensures s'.fault.None? ==> Good(s')
    ensures s'.fault != Some(CloseOfClosed) && Rank(s.phase) <= Rank(s'.phase)
    decreases |actions|
  {
    if actions != [] {
      StepGood(s, actions[0]);
      var n := Next(s, actions[0]);
      if n.fault.None? { RunGood(n, actions[1..], s'); } else { assert actions[1..] == []; }
    }
  }

  /** In every run: the state only moves forward, at most one caller passes the compare-and-swap, C is
      never closed twice and only once the state is Closed, and a caller for which Unsubscribe returned
      nil finds the state Closed. */
  lemma CloseMachineIsSound(actions: seq<Action>, s: State, more: seq<Action>, s': State)
    requires Leads(INITIAL, actions, s) && s.fault.None? && Leads(s, more, s')
    ensures Rank(s.phase) <= Rank(s'.phase) && s'.fault != Some(CloseOfClosed)
    ensures OneWinner(s.threads) && (!s.open ==> s.phase == Closed)
    ensures forall t :: 0 < t < |s.threads| && s.threads[t].pc == Returned(Nil) ==> s.phase == Closed
  {
    assert Fits(INITIAL, 0) && Good(INITIAL);
    RunGood(INITIAL, actions, s);
    RunGood(s, more, s');
    forall t | 0 < t < |s.threads| && s.threads[t].pc == Returned(Nil) ensures s.phase == Closed {
      assert Fits(s, t);
    }
  }

  /** Nobody is stuck: a thread that has not returned can go on, or waits at the once-guard for the thread that is
      closing C, which can. */
  lemma NobodyIsStuck(actions: seq<Action>, s: State, t: nat, choice: Choice)
    requires Leads(INITIAL, actions, s) && s.fault.None? && t < |s.threads| && !s.threads[t].pc.Returned?
    ensures Enabled(s, Step(t, choice)) ||
            (s.threads[t].pc.Entering? && s.once.Busy? && s.once.t < |s.threads| && Enabled(s, Step(s.once.t, choice)))
  {
    assert Fits(INITIAL, 0) && Good(INITIAL);
    RunGood(INITIAL, actions, s);
    assert Fits(s, t);
    if s.once.Busy? { assert Fits(s, s.once.t); }
  }

  // ---------- sending on the closed channel ----------

  /** The step uses neither a receipt timeout nor a closed connection unless they can happen. */
  predicate Allowed(a: Action, timeouts: bool, closes: bool) {
    a.Step? ==> (a.choice == Timeout ==> timeouts) && (a.choice == ConnClosed ==> closes)
  }

  ghost predicate AllAllowed(actions: seq<Action>, timeouts: bool, closes: bool) {
    forall i :: 0 <= i < |actions| ==> Allowed(actions[i], timeouts, closes)
  }

  /** Only the read loop closes C, and nobody gives notice of a timeout. */
  ghost predicate Solo(s: State) {
    && |s.threads| > 0
    && (forall t :: 0 < t < |s.threads| ==>
          var pc := s.threads[t].pc; !pc.Entering? && !InClose(pc) && !pc.TimedOut? && !pc.Notifying?)
    && (ReadLoop(s.threads[0].pc) || s.threads[0].pc.Entering? ==> s.once == Unused)
    && !s.threads[0].pc.TimedOut? && !s.threads[0].pc.Notifying? && !s.threads[0].pc.Waiting?
    && !s.threads[0].pc.Checking? && !s.threads[0].pc.Preparing?
  }

  lemma StepSolo(s: State, a: Action)
    requires Good(s) && Solo(s) && Enabled(s, a) && Allowed(a, false, false)
    ensures Solo(Next(s, a)) && Next(s, a).fault.None?
  {
    StepGood(s, a);
    assert Fits(s, 0);
    if a.Step? { assert Fits(s, a.t); }
  }

  lemma {:induction false} RunSolo(s: State, actions: seq<Action>, s': State)
    requires Good(s) && Solo(s) && s.fault.None? && Leads(s, actions, s') && AllAllowed(actions, false, false)
    ensures s'.fault.None?
    decreases |actions|
  {
    if actions != [] {
      StepGood(s, actions[0]);
      StepSolo(s, actions[0]);
      RunSolo(Next(s, actions[0]), actions[1..], s');
    }
  }

  lemma {:induction false} Extend(s: State, actions: seq<Action>, s': State, a: Action)
    requires Leads(s, actions, s') && Enabled(s', a)
    ensures Leads(s, actions + [a], Next(s', a))
    decreases |actions|
  {
    if actions == [] {
      assert (actions + [a])[1..] == [];
    } else {
      assert (actions + [a])[1..] == actions[1..] + [a];
      Extend(Next(s, actions[0]), actions[1..], s', a);
    }
  }

  /** The read loop at p and one caller, which has passed the compare-and-swap, at q. */
  function Two(p: Pc, q: Pc, phase: Phase, once: Once, open: bool, posts: nat := 0): State {
    State([Thread(p, false), Thread(q, true)], phase, once, open, posts, None)
  }

  /** The witnessing runs, one step at a time. */
  ghost predicate Reached(actions: seq<Action>, s: State, timeouts: bool, closes: bool) {
    Leads(INITIAL, actions, s) && AllAllowed(actions, timeouts, closes)
  }

  lemma Go(actions: seq<Action>, s: State, a: Action, timeouts: bool, closes: bool) returns (actions': seq<Action>)
    requires Reached(actions, s, timeouts, closes) && Enabled(s, a) && Allowed(a, timeouts, closes)
    ensures Reached(actions', Next(s, a), timeouts, closes)
  {
    Extend(INITIAL, actions, s, a);
    actions' := actions + [a];
  }

  /** A caller has passed the compare-and-swap. */
  lemma CallerEnters(timeouts: bool, closes: bool) returns (actions: seq<Action>)
    ensures Reached(actions, Two(Reading, Preparing, Closing, Unused, true), timeouts, closes)
  {
    actions := Go([], INITIAL, Spawn, timeouts, closes);
    var s := Next(INITIAL, Spawn);
    actions := Go(actions, s, Step(1, Proceed), timeouts, closes);
    assert Next(s, Step(1, Proceed)) == Two(Reading, Preparing, Closing, Unused, true);
  }

  /** The caller has timed out and is about to say so on C. */
  lemma CallerTimesOut(closes: bool) returns (actions: seq<Action>)
    ensures Reached(actions, Two(Reading, Notifying, Closing, Unused, true), true, closes)
  {
    actions := CallerEnters(true, closes);
    var s := Two(Reading, Preparing, Closing, Unused, true);
    actions := Go(actions, s, Step(1, Proceed), true, closes);
    s := Next(s, Step(1, Proceed));
    actions := Go(actions, s, Step(1, Proceed), true, closes);
    s := Next(s, Step(1, Proceed));
    actions := Go(actions, s, Step(1, Timeout), true, closes);
    s := Next(s, Step(1, Timeout));
    actions := Go(actions, s, Step(1, Proceed), true, closes);
    assert Next(s, Step(1, Proceed)) == Two(Reading, Notifying, Closing, Unused, true);
  }

  /** The read loop meets a RECEIPT and enters closeChannel. */
  lemma LoopEnters(as0: seq<Action>, q: Pc, timeouts: bool, closes: bool) returns (actions: seq<Action>)
    requires Reached(as0, Two(Reading, q, Closing, Unused, true), timeouts, closes)
    ensures Reached(actions, Two(Storing(Nil), q, Closing, Busy(0), true), timeouts, closes)
  {
    var s := Two(Reading, q, Closing, Unused, true);
    actions := Go(as0, s, Step(0, GotReceipt), timeouts, closes);
    s := Next(s, Step(0, GotReceipt));
    actions := Go(actions, s, Step(0, Proceed), timeouts, closes);
    s := Next(s, Step(0, Proceed));
    actions := Go(actions, s, Step(0, Proceed), timeouts, closes);
    assert Next(s, Step(0, Proceed)) == Two(Storing(Nil), q, Closing, Busy(0), true);
  }

  /** A receipt that arrives between the caller's check and its notice makes the notice panic. */
  lemma TimeoutRace(closes: bool) returns (actions: seq<Action>, s: State)
    ensures Reached(actions, s, true, closes) && s.fault == Some(SendOnClosed)
  {
    actions := CallerTimesOut(closes);
    actions := LoopEnters(actions, Notifying, true, closes);
    s := Two(Storing(Nil), Notifying, Closing, Busy(0), true);
    actions := Go(actions, s, Step(0, Proceed), true, closes);
    s := Next(s, Step(0, Proceed));
    actions := Go(actions, s, Step(0, Proceed), true, closes);
    s := Next(s, Step(0, Proceed));
    actions := Go(actions, s, Step(1, Proceed), true, closes);
    s := Next(s, Step(1, Proceed));
  }

  /** The caller finds the connection closed and enters closeChannel. */
  lemma CallerCloses(timeouts: bool) returns (actions: seq<Action>)
    ensures Reached(actions, Two(Reading, Storing(ConnectionClosed), Closing, Busy(1), true, 1), timeouts, true)
  {
    actions := CallerEnters(timeouts, true);
    var s := Two(Reading, Preparing, Closing, Unused, true);
    actions := Go(actions, s, Step(1, ConnClosed), timeouts, true);
    s := Next(s, Step(1, ConnClosed));
    actions := Go(actions, s, Step(1, Proceed), timeouts, true);
    s := Next(s, Step(1, Proceed));
    actions := Go(actions, s, Step(1, Proceed), timeouts, true);
    assert Next(s, Step(1, Proceed)) == Two(Reading, Storing(ConnectionClosed), Closing, Busy(1), true, 1);
  }

  /** A message that the read loop passes on after the caller has closed C makes the read loop panic. */
  lemma ClosedConnectionRace(timeouts: bool) returns (actions: seq<Action>, s: State)
    ensures Reached(actions, s, timeouts, true) && s.fault == Some(SendOnClosed)
  {
    actions := CallerCloses(timeouts);
    s := Two(Reading, Storing(ConnectionClosed), Closing, Busy(1), true, 1);
    actions := Go(actions, s, Step(1, Proceed), timeouts, true);
    s := Next(s, Step(1, Proceed));
    actions := Go(actions, s, Step(1, Proceed), timeouts, true);
    s := Next(s, Step(1, Proceed));
    actions := Go(actions, s, Step(0, GotMessage), timeouts, true);
    s := Next(s, Step(0, GotMessage));
    actions := Go(actions, s, Step(0, Proceed), timeouts, true);
    s := Next(s, Step(0, Proceed));
  }

  /** The exact condition: all runs are free of panics if and only if Unsubscribe neither times out (no
      receipt timeout is configured) nor finds its connection closed. */
  lemma SendsAreSafeExactly(timeouts: bool, closes: bool)
    ensures (forall actions, s :: Leads(INITIAL, actions, s) && AllAllowed(actions, timeouts, closes) ==>
                                    s.fault.None?) <==> !timeouts && !closes
  {
    if timeouts {
      var actions, s := TimeoutRace(closes);
    } else if closes {
      var actions, s := ClosedConnectionRace(timeouts);
    } else {
      assert Fits(INITIAL, 0) && Good(INITIAL) && Solo(INITIAL);
      forall actions, s | Leads(INITIAL, actions, s) && AllAllowed(actions, timeouts, closes) ensures s.fault.None? {
        RunSolo(INITIAL, actions, s);
      }
    }
  }

  /** When the RECEIPT comes, the read loop closes C and Unsubscribe returns nil. */
  lemma UnsubscribeCompletes() returns (actions: seq<Action>, s: State)
    ensures Reached(actions, s, false, false)
    ensures s == Two(Returned(Nil), Returned(Nil), Closed, Used, false)
  {
    actions := CallerEnters(false, false);
    s := Two(Reading, Preparing, Closing, Unused, true);
    actions := Go(actions, s, Step(1, Proceed), false, false);
    s := Next(s, Step(1, Proceed));
    actions := Go(actions, s, Step(1, Proceed), false, false);
    s := Next(s, Step(1, Proceed));
    assert s == Two(Reading, Waiting, Closing, Unused, true);
    actions := LoopEnters(actions, Waiting, false, false);
    actions, s := LoopFinishes(actions);
    actions := Go(actions, s, Step(1, Wake), false, false);
    s := Next(s, Step(1, Wake));
    actions := Go(actions, s, Step(1, Proceed), false, false);
    s := Next(s, Step(1, Proceed));
  }

  lemma LoopFinishes(as0: seq<Action>) returns (actions: seq<Action>, s: State)
    requires Reached(as0, Two(Storing(Nil), Waiting, Closing, Busy(0), true), false, false)
    ensures Reached(actions, s, false, false) && s == Two(Returned(Nil), Waiting, Closed, Used, false)
  {
    s := Two(Storing(Nil), Waiting, Closing, Busy(0), true);
    actions := Go(as0, s, Step(0, Proceed), false, false);
    s := Next(s, Step(0, Proceed));
    actions := Go(actions, s, Step(0, Proceed), false, false);
    s := Next(s, Step(0, Proceed));
    actions := Go(actions, s, Step(0, Proceed), false, false);
    s := Next(s, Step(0, Proceed));
  }

  // ---------- what the read loop does with what it gets ----------

  /** Steps of the read loop alone, the first with this choice. */
  ghost predicate Loop(s: State, choice: Choice, n: nat, s': State)
    decreases n
  {
    if n == 0 then s == s' else Enabled(s, Step(0, choice)) && Loop(Next(s, Step(0, choice)), choice, n - 1, s')
  }

  ghost predicate Reads(s: State) {
    |s.threads| > 0 && s.threads[0].pc == Reading && s.fault.None? && s.open && s.once == Unused && s.phase != Closed
  }

  /** The state in which the read loop has returned and C is closed. */
  function Over(s: State): State
    requires |s.threads| > 0
  {
    Goto(s, 0, Returned(Nil)).(phase := Closed, once := Used, open := false)
  }

  lemma ClosesC(s: State, choice: Choice) returns (s': State)
    requires |s.threads| > 0 && s.fault.None? && s.open && s.once == Busy(0) && s.threads[0].pc == Storing(Nil)
    ensures Loop(s, choice, 3, s') && s' == Over(s)
  {
    var s1 := Next(s, Step(0, choice));
    var s2 := Next(s1, Step(0, choice));
    s' := Next(s2, Step(0, choice));
    assert Loop(s', choice, 0, s') && Loop(s2, choice, 1, s') && Loop(s1, choice, 2, s');
  }

  /** A RECEIPT closes C without a word. */
  lemma ReceiptCloses(s: State) returns (s': State)
    requires Reads(s)
    ensures Loop(s, GotReceipt, 6, s') && s' == Over(s)
  {
    var s1 := Next(s, Step(0, GotReceipt));
    var s2 := Next(s1, Step(0, GotReceipt));
    var s3 := Next(s2, Step(0, GotReceipt));
    s' := ClosesC(s3, GotReceipt);
    assert Loop(s2, GotReceipt, 4, s') && Loop(s1, GotReceipt, 5, s');
  }

  /** An ERROR, or the end of the response channel, is passed on as the last thing on C. */
  lemma ErrorCloses(s: State, choice: Choice) returns (s': State)
    requires Reads(s) && choice in {GotError, ChannelEnds}
    ensures Loop(s, choice, 7, s') && s' == Over(s).(posts := s.posts + 1)
  {
    var s1 := Next(s, Step(0, choice));
    var s2 := Next(s1, Step(0, choice));
    var s3 := Next(s2, Step(0, choice));
    var s4 := Next(s3, Step(0, choice));
    s' := ClosesC(s4, choice);
    assert Loop(s3, choice, 4, s') && Loop(s2, choice, 5, s') && Loop(s1, choice, 6, s');
  }

  lemma StepReading(s: State, choice: Choice)
    requires Reads(s)
    ensures Enabled(s, Step(0, choice)) && Next(s, Step(0, choice)) == Goto(s, 0, AfterRead(choice))
  {
  }

  lemma StepPassing(s: State, choice: Choice)
    requires |s.threads| > 0 && s.threads[0].pc == Passing && s.fault.None? && s.open
    ensures Enabled(s, Step(0, choice)) && Next(s, Step(0, choice)) == Goto(s, 0, Reading).(posts := s.posts + 1)
  {
  }

  lemma BackToReading(s: State, pc: Pc)
    requires Reads(s)
    ensures Goto(Goto(s, 0, pc), 0, Reading) == s && Goto(s, 0, Reading) == s
  {
    assert s.threads[0 := s.threads[0].(pc := pc)][0 := s.threads[0]] == s.threads;
  }

  lemma OneStep(s: State, choice: Choice)
    requires |s.threads| > 0 && Enabled(s, Step(0, choice))
    ensures Loop(s, choice, 1, Next(s, Step(0, choice)))
  {
    assert Loop(Next(s, Step(0, choice)), choice, 0, Next(s, Step(0, choice)));
  }

  lemma PassedOn(s: State)
    requires Reads(s)
    ensures Loop(s, GotMessage, 2, s.(posts := s.posts + 1))
  {
    StepReading(s, GotMessage);
    BackToReading(s, Passing);
    var s1 := Goto(s, 0, Passing);
    StepPassing(s1, GotMessage);
    OneStep(s1, GotMessage);
  }

  lemma Ignored(s: State)
    requires Reads(s)
    ensures Loop(s, GotOther, 1, s)
  {
    StepReading(s, GotOther);
    BackToReading(s, Reading);
    OneStep(s, GotOther);
  }

  /** A MESSAGE is passed on, any other frame is not, and the loop reads on. */
  lemma MessagesPass(s: State)
    requires Reads(s)
    ensures Loop(s, GotMessage, 2, s.(posts := s.posts + 1)) && Loop(s, GotOther, 1, s)
  {
    PassedOn(s);
    Ignored(s);
  }

  /** The read loop never returns before C is closed. */
  lemma LoopEndsClosed(actions: seq<Action>, s: State)
    requires Leads(INITIAL, actions, s) && s.fault.None?
    ensures |s.threads| > 0 && (s.threads[0].pc.Returned? ==> s.phase == Closed)
  {
    assert Fits(INITIAL, 0) && Good(INITIAL);
    RunGood(INITIAL, actions, s);
    assert Fits(s, 0);
  }
}
