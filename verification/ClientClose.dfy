/** The close protocol of the client connection: any number of goroutines call Send, Subscribe, sendFrame,
    Disconnect and MustDisconnect while the process loop ends in one of its ways (conn.go). Everything
    that touches `closed` or the write channel is one step, so all interleavings are covered. */
module ClientClose {
  import opened Text

  /** ServerError is the part of the process loop that handles an ERROR frame; when it is over, the
      deferred MustDisconnect of the loop follows. */
  datatype Call = Send | SendFrame | Subscribe | Disconnect | MustDisconnect | ServerError

  datatype Pc = Start | Entered | Sending | Awaiting | Closing | Marking | Leaving | Done

  datatype Thread = Thread(call: Call, pc: Pc)

  datatype Fault = SendOnClosed | CloseOfClosed | CloseUnderSender

  /** `sent` counts the requests ever put on the write channel, `taken` those the process loop has taken. */
  datatype State = State(threads: seq<Thread>, lock: Option<nat>, closed: bool, writeOpen: bool,
                         sent: nat, taken: nat, fault: Option<Fault>)

  const INITIAL := State([], None, false, true, 0, 0, None)

  /** Outcomes that depend on options, timers and the server. */
  datatype Choice = Plain | OptionFails | TimesOut | WantsReceipt | OtherError

  datatype Action = Spawn(call: Call) | Step(t: nat, choice: Choice) | Take

  predicate Holding(pc: Pc) { pc !in {Start, Done} }

  predicate Enabled(s: State, a: Action) {
    s.fault.None? &&
    match a
    case Spawn(_) => true
    case Step(t, _) => t < |s.threads| && s.threads[t].pc != Done &&
                       (s.threads[t].pc == Start ==> s.lock.None?)
    case Take => s.taken < s.sent
  }

  function Goto(s: State, t: nat, pc: Pc): State
    requires t < |s.threads|
  {
    s.(threads := s.threads[t := s.threads[t].(pc := pc)])
  }

  /** What a call does once it has the lock and has looked at `closed`. */
  function AfterCheck(call: Call, closed: bool, choice: Choice): Pc {
    if call == ServerError then Marking
    else if closed then Leaving
    else if call == MustDisconnect then Closing
    else if (call == Send || call == Subscribe) && choice == OptionFails then Leaving
    else Sending
  }

  /** The send on the write channel panics when the channel is closed. Only Send has a send timeout. */
  function DoSend(s: State, t: nat, choice: Choice): State
    requires t < |s.threads|
  {
    var call := s.threads[t].call;
    if call == Send && choice == TimesOut then Goto(s, t, Leaving)
    else if !s.writeOpen then s.(fault := Some(SendOnClosed))
    else Goto(s, t, if call == Disconnect || (call == Send && choice == WantsReceipt) then Awaiting else Leaving)
         .(sent := s.sent + 1)
  }

  /** Closing panics when the channel is closed, and makes a sender that is still blocked on it panic. */
  ghost function DoClose(s: State, t: nat): State
    requires t < |s.threads|
  {
    if !s.writeOpen then s.(fault := Some(CloseOfClosed))
    else if exists u :: 0 <= u < |s.threads| && u != t && s.threads[u].pc == Sending then
      s.(fault := Some(CloseUnderSender))
    else Goto(s, t, Marking).(writeOpen := false)
  }

  ghost function Next(s: State, a: Action): State
    requires Enabled(s, a)
  {
    match a
    case Spawn(call) => s.(threads := s.threads + [Thread(call, Start)])
    case Take => s.(taken := s.taken + 1)
    case Step(t, choice) =>
      var call := s.threads[t].call;
      match s.threads[t].pc
      case Start => Goto(s, t, Entered).(lock := Some(t))
      case Entered => Goto(s, t, AfterCheck(call, s.closed, choice))
      case Sending => DoSend(s, t, choice)
      case Awaiting =>
        // Disconnect marks the connection closed on a receipt or a timeout, not on another response
        Goto(s, t, if call == Disconnect && choice != OtherError then Marking else Leaving)
      case Closing => DoClose(s, t)
      case Marking => Goto(s, t, Leaving).(closed := true)
      case Leaving =>
        (if call == ServerError
         then s.(threads := s.threads[t := Thread(MustDisconnect, Start)])
         else Goto(s, t, Done)).(lock := None)
      case Done => s
  }

  /** The mutex is held by exactly the thread inside; who may send or close has seen the connection open
      and nobody has closed it since. */
  ghost predicate Good(s: State) {
    && (s.lock.Some? ==> s.lock.value < |s.threads|)
    && (forall t :: 0 <= t < |s.threads| ==> (Holding(s.threads[t].pc) <==> s.lock == Some(t)))
    && (forall t :: 0 <= t < |s.threads| && s.threads[t].pc in {Sending, Awaiting, Closing} ==> !s.closed)
    && (!s.writeOpen && !s.closed ==> s.lock.Some? && s.threads[s.lock.value].pc == Marking)
    && s.taken <= s.sent
  }

  lemma CloseGood(s: State, t: nat)
    requires Good(s) && s.fault.None? && t < |s.threads| && s.threads[t].pc == Closing
    ensures Good(DoClose(s, t)) && DoClose(s, t).fault.None? && !s.closed
  {
    assert forall u :: 0 <= u < |s.threads| && u != t ==> !Holding(s.threads[u].pc);
  }

  lemma StepGood(s: State, a: Action)
    requires Good(s) && Enabled(s, a)
    ensures Good(Next(s, a)) && Next(s, a).fault.None?
    ensures s.closed ==> Next(s, a).closed && Next(s, a).sent == s.sent && Next(s, a).writeOpen == s.writeOpen
  {
    if a.Step? && s.threads[a.t].pc == Closing { CloseGood(s, a.t); }
  }

  ghost predicate Leads(s: State, actions: seq<Action>, s': State)
    decreases |actions|
  {
    if actions == [] then s == s'
    else Enabled(s, actions[0]) && Leads(Next(s, actions[0]), actions[1..], s')
  }

  /** In no interleaving is a request sent on the closed write channel, the channel closed twice, or closed
      under a blocked sender; and once the connection is marked closed, nothing is ever sent again. */
  lemma {:induction false} WriteChannelIsSafe(s: State, actions: seq<Action>, s': State)
    requires Good(s) && s.fault.None? && Leads(s, actions, s')
    ensures Good(s') && s'.fault.None?
    ensures s.closed ==> s'.closed && s'.sent == s.sent && s'.writeOpen == s.writeOpen
    decreases |actions|
  {
    if actions != [] {
      StepGood(s, actions[0]);
      WriteChannelIsSafe(Next(s, actions[0]), actions[1..], s');
    }
  }

  /** So it is for every run of a connection. */
  lemma NeverFaults(actions: seq<Action>, s: State)
    requires Leads(INITIAL, actions, s)
    ensures s.fault.None? && (forall t, u :: 0 <= t < u < |s.threads| ==>
                                               !Holding(s.threads[t].pc) || !Holding(s.threads[u].pc))
  {
    WriteChannelIsSafe(INITIAL, actions, s);
  }

  /** Nobody is stuck: a thread that has not returned can go on, or waits for the one at the mutex, which can. */
  lemma NobodyIsStuck(actions: seq<Action>, s: State, t: nat, choice: Choice)
    requires Leads(INITIAL, actions, s) && t < |s.threads| && s.threads[t].pc != Done
    ensures Enabled(s, Step(t, choice)) ||
            (s.threads[t].pc == Start && s.lock.Some? && s.lock.value < |s.threads| && Enabled(s, Step(s.lock.value, choice)))
  {
    WriteChannelIsSafe(INITIAL, actions, s);
  }

  // ---------- what the calls are for ----------

  /** n steps of thread t, in which no option fails, no timer fires and the server answers as hoped. */
  ghost predicate Plainly(s: State, t: nat, n: nat, s': State)
    decreases n
  {
    if n == 0 then s == s' else Enabled(s, Step(t, Plain)) && Plainly(Next(s, Step(t, Plain)), t, n - 1, s')
  }

  /** The state in which the thread has returned and nothing else has changed. */
  function Finished(s: State, t: nat): State
    requires t < |s.threads|
  {
    Goto(s, t, Done)
  }

  /** The mutex is free and the thread is about to enter. */
  ghost predicate Enters(s: State, t: nat) {
    Good(s) && s.fault.None? && s.lock.None? && t < |s.threads| && s.threads[t].pc == Start
  }

  /** A call that is let run does its work, also with other calls at the mutex. Send, Subscribe and sendFrame send
      one request on an open connection. */
  lemma SendingSends(s: State, t: nat) returns (s': State)
    requires Enters(s, t) && !s.closed && s.threads[t].call in {Send, SendFrame, Subscribe}
    ensures Plainly(s, t, 4, s') && s' == Finished(s, t).(sent := s.sent + 1)
  {
    var step := Step(t, Plain);
    var s1 := Next(s, step);
    var s2 := Next(s1, step);
    s' := Finished(s, t).(sent := s.sent + 1);
    TwoPlain(s2, t, s');
    assert Plainly(s1, t, 3, s');
  }

  lemma TwoPlain(s: State, t: nat, s': State)
    requires t < |s.threads| && Enabled(s, Step(t, Plain)) && Enabled(Next(s, Step(t, Plain)), Step(t, Plain))
    requires Next(Next(s, Step(t, Plain)), Step(t, Plain)) == s'
    ensures Plainly(s, t, 2, s')
  {
    assert Plainly(s', t, 0, s') && Plainly(Next(s, Step(t, Plain)), t, 1, s');
  }

  /** Disconnect sends one request and marks the connection closed. */
  lemma DisconnectCloses(s: State, t: nat) returns (s': State)
    requires Enters(s, t) && !s.closed && s.threads[t].call == Disconnect
    ensures Plainly(s, t, 6, s') && s' == Finished(s, t).(sent := s.sent + 1, closed := true)
  {
    var step := Step(t, Plain);
    var s1 := Next(s, step);
    var s2 := Next(s1, step);
    var s3 := Next(s2, step);
    var s4 := Next(s3, step);
    s' := Finished(s, t).(sent := s.sent + 1, closed := true);
    TwoPlain(s4, t, s');
    assert Plainly(s3, t, 3, s') && Plainly(s2, t, 4, s') && Plainly(s1, t, 5, s');
  }

  /** MustDisconnect closes the connection and the write channel, and sends nothing. */
  lemma MustDisconnectCloses(s: State, t: nat) returns (s': State)
    requires Enters(s, t) && !s.closed && s.threads[t].call == MustDisconnect
    ensures Plainly(s, t, 5, s') && s' == Finished(s, t).(closed := true, writeOpen := false)
  {
    var step := Step(t, Plain);
    var s1 := Next(s, step);
    var s2 := Next(s1, step);
    assert forall u :: 0 <= u < |s2.threads| && u != t ==> s2.threads[u].pc != Sending;
    if !s2.writeOpen { assert false; }
    var s3 := Next(s2, step);
    s' := Finished(s, t).(closed := true, writeOpen := false);
    TwoPlain(s3, t, s');
    assert Plainly(s2, t, 3, s') && Plainly(s1, t, 4, s');
  }

  /** On a closed connection no call does anything. */
  lemma ClosedCallsDoNothing(s: State, t: nat) returns (s': State)
    requires Enters(s, t) && s.closed && s.threads[t].call != ServerError
    ensures Plainly(s, t, 3, s') && s' == Finished(s, t)
  {
    var s1 := Next(s, Step(t, Plain));
    s' := Finished(s, t);
    TwoPlain(s1, t, s');
  }

  /** An ERROR from the server closes the connection but not the write channel. */
  lemma ServerErrorCloses(s: State, t: nat) returns (s': State)
    requires Enters(s, t) && s.threads[t].call == ServerError
    ensures Plainly(s, t, 7, s')
    ensures s' == s.(threads := s.threads[t := Thread(MustDisconnect, Done)], closed := true)
  {
    var step := Step(t, Plain);
    var s1 := Next(s, step);
    var s2 := Next(s1, step);
    var s3 := Next(s2, step);
    var s4 := Next(s3, step);
    s' := s.(threads := s.threads[t := Thread(MustDisconnect, Done)], closed := true);
    var s5 := Next(s4, step);
    TwoPlain(s5, t, s');
    assert Plainly(s4, t, 3, s') && Plainly(s3, t, 4, s') && Plainly(s2, t, 5, s') && Plainly(s1, t, 6, s');
  }
}
