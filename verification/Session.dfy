/** A connected client session of the server: the connected state function, its handlers and the
    transaction store (server/client/conn.go, server/client/tx_store.go). */
module Session {
  import opened Text
  import opened Frames
  import opened Acks

  datatype Sub = Sub(id: string, dest: string, ack: AckMode, msgId: nat)

  /** A subscription together with the frame it holds. */
  datatype Holding = Holding(sub: Sub, frame: Frame)

  datatype Request = SubscribeOp(sub: Sub) | UnsubscribeOp(sub: Sub)
                   | EnqueueOp(frame: Frame) | RequeueOp(frame: Frame)

  datatype Fault = WriteFailed | MissingHeader(name: string) | BadMessageId
                 | TxInProgress | TxUnknown | SubExists | SubNotFound
                 | UnexpectedCommand | UnknownCommand
                 | PanicUnknownMode | PanicListed | ErrorSent

  /** What the server writes: a heart-beat, an answer of a handler, or a message. */
  datatype Output = HeartBeat | Answer(frame: Frame) | Delivery(frame: Frame)

  /** `requests` and `written` record everything sent to the processor and to the client;
      `writes` counts attempts to write to the client. */
  datatype State = State(
    transactions: map<string, seq<Frame>>,
    subs: map<string, Sub>,
    unacked: seq<Holding>,
    lastMsgId: nat,
    requests: seq<Request>,
    written: seq<Output>,
    writes: nat)

  const EMPTY := State(map[], map[], [], 0, [], [], 0)

  datatype Result = Result(state: State, error: Option<Fault>)

  /** Whether the n-th write to the client succeeds. */
  type Link = nat -> bool

  predicate Transactional(f: Frame) { f.command in {Send, Ack, Nack} }

  datatype AckId = NoId | BadId | AckId(n: nat)

  /** The message a client acknowledges: the ack header, or else message-id. */
  function AckIdOf(h: seq<Entry>): AckId {
    var text := if Lookup(h, ACK).Some? then Lookup(h, ACK) else Lookup(h, MESSAGE_ID);
    match text
    case None => NoId
    case Some(t) => match ParseUint(t, POW64) case None => BadId case Some(n) => AckId(n)
  }

  /** What may be in the transaction store: frames that cannot fail or be buffered again. */
  predicate Stored(f: Frame) {
    && Transactional(f)
    && Lookup(f.header, TRANSACTION).None? && Lookup(f.header, RECEIPT).None?
    && (f.command != Send ==> AckIdOf(f.header).AckId?)
  }

  ghost predicate AllStored(fs: seq<Frame>) { forall i :: 0 <= i < |fs| ==> Stored(fs[i]) }

  ghost predicate Valid(s: State) { forall tx :: tx in s.transactions ==> AllStored(s.transactions[tx]) }

  function Drop(f: Frame, key: string): Frame { f.(header := Without(f.header, key)) }

  // ---------- handlers ----------

  function Write(s: State, o: Output, link: Link): Result {
    var t := s.(writes := s.writes + 1);
    if link(s.writes) then Result(t.(written := s.written + [o]), None)
    else Result(t, Some(WriteFailed))
  }

  function ReceiptFrame(id: string): Frame { Frame(Receipt, [Entry(RECEIPT_ID, id)], "") }

  /** Conn.sendReceiptImmediately; the caller goes on with Drop(f, RECEIPT). */
  function SendReceipt(s: State, f: Frame, link: Link): Result {
    match Lookup(f.header, RECEIPT)
    case None => Result(s, None)
    case Some(id) => Write(s, Answer(ReceiptFrame(id)), link)
  }

  /** txStore.Add. */
  function Buffer(s: State, tx: string, f: Frame): Result {
    if tx in s.transactions then
      Result(s.(transactions := s.transactions[tx := s.transactions[tx] + [Drop(f, TRANSACTION)]]), None)
    else Result(s, Some(TxUnknown))
  }

  function Released(hs: seq<Holding>): seq<Request> {
    if hs == [] then [] else [SubscribeOp(hs[0].sub)] + Released(hs[1..])
  }

  function Returned(hs: seq<Holding>): seq<Request> {
    if hs == [] then [] else [RequeueOp(hs[0].frame), SubscribeOp(hs[0].sub)] + Returned(hs[1..])
  }

  predicate AckedBy(h: Holding, msgId: nat) { !h.sub.ack.Invalid? && Acked(h.sub.ack, h.sub.msgId, msgId) }

  predicate NackedBy(h: Holding, msgId: nat) { Nacked(h.sub.msgId, msgId) }

  /** How many entries precede the first one with an unknown ack mode. */
  function Known(hs: seq<Holding>): (n: nat)
    ensures n <= |hs|
    ensures n == |hs| <==> forall i :: 0 <= i < |hs| ==> !hs[i].sub.ack.Invalid?
    ensures n < |hs| ==> hs[n].sub.ack.Invalid?
    ensures forall i :: 0 <= i < n ==> !hs[i].sub.ack.Invalid?
  {
    if hs == [] || hs[0].sub.ack.Invalid? then 0 else 1 + Known(hs[1..])
  }

  /** SubscriptionList.Ack with the callback of handleAck, up to the first unknown mode, where IsAckedBy
      panics. */
  function DoAck(s: State, msgId: nat): State {
    var seen, left := s.unacked[..Known(s.unacked)], s.unacked[Known(s.unacked)..];
    s.(unacked := Filter(seen, h => !AckedBy(h, msgId)) + left,
       requests := s.requests + Released(Filter(seen, h => AckedBy(h, msgId))))
  }

  function AckError(s: State): Option<Fault> {
    if Known(s.unacked) < |s.unacked| then Some(PanicUnknownMode) else None
  }

  function DoNack(s: State, msgId: nat): State {
    s.(unacked := Filter(s.unacked, h => !NackedBy(h, msgId)),
       requests := s.requests + Returned(Filter(s.unacked, h => NackedBy(h, msgId))))
  }

  /** The effect of a SEND, ACK or NACK outside a transaction. */
  function Perform(s: State, f: Frame): State
    requires f.command != Send ==> AckIdOf(f.header).AckId?
  {
    if f.command == Send then s.(requests := s.requests + [EnqueueOp(f.(command := Message))])
    else if f.command == Ack then DoAck(s, AckIdOf(f.header).n)
    else DoNack(s, AckIdOf(f.header).n)
  }

  function PerformError(s: State, f: Frame): Option<Fault> { if f.command == Ack then AckError(s) else None }

  /** handleSend, handleAck and handleNack. */
  function HandleMessage(s: State, f: Frame, link: Link): Result {
    var id := AckIdOf(f.header);
    if f.command != Send && id.NoId? then Result(s, Some(MissingHeader(MESSAGE_ID)))
    else if f.command != Send && id.BadId? then Result(s, Some(BadMessageId))
    else
      var r := SendReceipt(s, f, link);
      var g := Drop(f, RECEIPT);
      if r.error.Some? then r
      else match Lookup(g.header, TRANSACTION)
        case Some(tx) => Buffer(r.state, tx, g)
        case None => LookupsAfterDrop(f, RECEIPT); Result(Perform(r.state, g), PerformError(r.state, g))
  }

  lemma LookupsAfterDrop(f: Frame, key: string)
    ensures Lookup(Drop(f, key).header, key).None?
    ensures key != TRANSACTION ==> Lookup(Drop(f, key).header, TRANSACTION) == Lookup(f.header, TRANSACTION)
    ensures key != RECEIPT ==> Lookup(Drop(f, key).header, RECEIPT) == Lookup(f.header, RECEIPT)
    ensures key in {RECEIPT, TRANSACTION} ==> AckIdOf(Drop(f, key).header) == AckIdOf(f.header)
  {
    LookupAfterWithout(f.header, key, key);
    LookupAfterWithout(f.header, key, TRANSACTION);
    LookupAfterWithout(f.header, key, RECEIPT);
    LookupAfterWithout(f.header, key, ACK);
    LookupAfterWithout(f.header, key, MESSAGE_ID);
  }

  function HandleSubscribe(s: State, f: Frame): Result {
    var id, dest := Lookup(f.header, ID), Lookup(f.header, DESTINATION);
    if id.None? then Result(s, Some(MissingHeader(ID)))
    else if dest.None? then Result(s, Some(MissingHeader(DESTINATION)))
    else if id.value in s.subs then Result(s, Some(SubExists))
    else
      var ack := Lookup(f.header, ACK);
      var sub := Sub(id.value, dest.value, if ack.None? then Auto else ModeOf(ack.value), 0);
      Result(s.(subs := s.subs[id.value := sub], requests := s.requests + [SubscribeOp(sub)]), None)
  }

  function HandleUnsubscribe(s: State, f: Frame): Result {
    var id := Lookup(f.header, ID);
    if id.None? then Result(s, Some(MissingHeader(ID)))
    else if id.value !in s.subs then Result(s, Some(SubNotFound))
    else
      Result(s.(subs := s.subs - {id.value},
                requests := s.requests + [UnsubscribeOp(s.subs[id.value])]), None)
  }

  function HandleBegin(s: State, f: Frame, link: Link): Result {
    match Lookup(f.header, TRANSACTION)
    case None => Result(s, Some(MissingHeader(TRANSACTION)))
    case Some(tx) =>
      var r := SendReceipt(s, f, link);
      if r.error.Some? then r
      else if tx in r.state.transactions then Result(r.state, Some(TxInProgress))
      else Result(r.state.(transactions := r.state.transactions[tx := []]), None)
  }

  function HandleAbort(s: State, f: Frame, link: Link): Result {
    match Lookup(f.header, TRANSACTION)
    case None => Result(s, Some(MissingHeader(TRANSACTION)))
    case Some(tx) =>
      var r := SendReceipt(s, f, link);
      if r.error.Some? then r
      else if tx !in r.state.transactions then Result(r.state, Some(TxUnknown))
      else Result(r.state.(transactions := r.state.transactions - {tx}), None)
  }

  /** The connected state function on everything but COMMIT. */
  function Plain(s: State, f: Frame, link: Link): Result {
    if Transactional(f) then HandleMessage(s, f, link)
    else if f.command == Subscribe then HandleSubscribe(s, f)
    else if f.command == Unsubscribe then HandleUnsubscribe(s, f)
    else if f.command == Begin then HandleBegin(s, f, link)
    else if f.command == Abort then HandleAbort(s, f, link)
    else if f.command == Disconnect then Result(SendReceipt(s, f, link).state, None)
    else if f.command in {Connect, Stomp, Message, Receipt, Error} then Result(s, Some(UnexpectedCommand))
    else Result(s, Some(UnknownCommand))
  }

  lemma PerformKeepsValid(s: State, f: Frame)
    requires Valid(s) && (f.command != Send ==> AckIdOf(f.header).AckId?)
    ensures Valid(Perform(s, f))
  {
  }

  lemma MessageKeepsValid(s: State, f: Frame, link: Link)
    requires Valid(s) && Transactional(f)
    ensures Valid(HandleMessage(s, f, link).state)
  {
    var g := Drop(f, RECEIPT);
    LookupsAfterDrop(f, RECEIPT);
    LookupsAfterDrop(g, TRANSACTION);
    if f.command == Send || AckIdOf(f.header).AckId? { PerformKeepsValid(SendReceipt(s, f, link).state, g); }
  }

  lemma PlainKeepsValid(s: State, f: Frame, link: Link)
    requires Valid(s)
    ensures Valid(Plain(s, f, link).state)
  {
    if Transactional(f) { MessageKeepsValid(s, f, link); }
  }

  /** A stored frame is performed at once: no write, no change to the store, and no error except the panic
      of an ACK that meets an unknown mode. */
  lemma PlainOnStored(s: State, f: Frame, link: Link)
    requires Stored(f)
    ensures Plain(s, f, link) == Result(Perform(s, f), PerformError(s, f))
    ensures Perform(s, f).transactions == s.transactions
    ensures Perform(s, f).written == s.written && Perform(s, f).writes == s.writes
  {
    WithoutIdempotent(f.header, RECEIPT);
    assert Drop(f, RECEIPT) == f;
  }

  /** The loop of txStore.Commit with the state function as callback. */
  function CommitLoop(s: State, tx: string, link: Link): Result
    requires Valid(s) && tx in s.transactions
    decreases |s.transactions[tx]|
  {
    var l := s.transactions[tx];
    if l == [] then Result(s.(transactions := s.transactions - {tx}), None)
    else
      var popped := s.(transactions := s.transactions[tx := l[1..]]);
      var r := Plain(popped, l[0], link);
      PlainOnStored(popped, l[0], link);
      PlainKeepsValid(popped, l[0], link);
      if r.error.Some? then r else CommitLoop(r.state, tx, link)
  }

  function HandleCommit(s: State, f: Frame, link: Link): Result
    requires Valid(s)
  {
    match Lookup(f.header, TRANSACTION)
    case None => Result(s, Some(MissingHeader(TRANSACTION)))
    case Some(tx) =>
      var r := SendReceipt(s, f, link);
      if r.error.Some? then r
      else if tx !in r.state.transactions then Result(r.state, Some(TxUnknown))
      else CommitLoop(r.state, tx, link)
  }

  /** The connected state function. */
  function Dispatch(s: State, f: Frame, link: Link): Result
    requires Valid(s)
  {
    if f.command == Commit then HandleCommit(s, f, link) else Plain(s, f, link)
  }

  lemma {:induction false} CommitKeepsValid(s: State, tx: string, link: Link)
    requires Valid(s) && tx in s.transactions
    ensures Valid(CommitLoop(s, tx, link).state)
    decreases |s.transactions[tx]|
  {
    var l := s.transactions[tx];
    if l != [] {
      var popped := s.(transactions := s.transactions[tx := l[1..]]);
      PlainOnStored(popped, l[0], link);
      PlainKeepsValid(popped, l[0], link);
      if PerformError(popped, l[0]).None? { CommitKeepsValid(Plain(popped, l[0], link).state, tx, link); }
    }
  }

  lemma DispatchKeepsValid(s: State, f: Frame, link: Link)
    requires Valid(s)
    ensures Valid(Dispatch(s, f, link).state)
  {
    if f.command == Commit {
      var tx, r := Lookup(f.header, TRANSACTION), SendReceipt(s, f, link);
      if tx.Some? && r.error.None? && tx.value in r.state.transactions {
        CommitKeepsValid(r.state, tx.value, link);
      }
    } else {
      PlainKeepsValid(s, f, link);
    }
  }

  // ---------- whole runs ----------

  /** What the processing loop reacts to: a client frame, a subscription arriving with a frame, a frame on the
      write channel, or the heart-beat timer. listed says whether the subscription's subList pointer is set
      when it arrives. */
  datatype Event = FromClient(frame: Frame) | Arrived(held: Holding, listed: bool) | Pushed(frame: Frame) | Timer

  /** The subscription-channel arm of processLoop. */
  function Arrive(s: State, h: Holding, listed: bool, link: Link): Result {
    if h.sub.id !in s.subs then Result(s.(requests := s.requests + [RequeueOp(h.frame)]), None)
    else
      var n := NextId(s.lastMsgId);
      var f := Stamp(h.frame, n, h.sub.ack);
      var r := Write(s.(lastMsgId := n), Delivery(f), link);
      if r.error.Some? then r
      else if h.sub.ack.Auto? then
        Result(r.state.(requests := r.state.requests + [SubscribeOp(h.sub)]), None)
      else if listed then Result(r.state, Some(PanicListed))
      else Result(r.state.(unacked := r.state.unacked + [Holding(h.sub, f)]), None)
  }

  predicate Counts(f: Frame) { f.command in {Message, Ack} }

  /** The write-channel arm of processLoop: a topic message gets an id; an ERROR frame ends the connection. */
  function Push(s: State, f: Frame, link: Link): Result {
    var n := if Counts(f) then NextId(s.lastMsgId) else s.lastMsgId;
    var r := Write(s.(lastMsgId := n), Delivery(Stamp(f, n, Auto)), link);
    if r.error.None? && f.command == Error then Result(r.state, Some(ErrorSent)) else r
  }

  function React(s: State, e: Event, link: Link): Result
    requires Valid(s)
  {
    match e
    case FromClient(f) => Dispatch(s, f, link)
    case Arrived(h, listed) => Arrive(s, h, listed, link)
    case Pushed(f) => Push(s, f, link)
    case Timer => Write(s, HeartBeat, link)
  }

  lemma ReactKeepsValid(s: State, e: Event, link: Link)
    requires Valid(s)
    ensures Valid(React(s, e, link).state)
  {
    if e.FromClient? { DispatchKeepsValid(s, e.frame, link); }
  }

  /** Events until the first error, after which the connection is closed, or the broker is down if it was a
      panic. */
  function Run(s: State, es: seq<Event>, link: Link): Result
    requires Valid(s)
    decreases |es|
  {
    if es == [] then Result(s, None)
    else
      var r := React(s, es[0], link);
      ReactKeepsValid(s, es[0], link);
      if r.error.Some? then r else Run(r.state, es[1..], link)
  }
}
