# go-stomp: a Dafny model

go-stomp is a STOMP 1.0/1.1/1.2 client library and a small in-memory broker. This project models the parts
of it that are hard to get right, and proves what they keep over all inputs, all runs and all
interleavings. `dafny verify dfyconfig.toml` checks everything.

**Frame codec** (`Text`, `Escape`, `Frames`, `Codec`, `Wire`, `Grammar`). `Codec` gives writing and reading as
functions of the whole byte stream; `Wire` holds the reader and the writer as objects that consume a
stream in arbitrary chunks and write to a connection that may fail after any number of bytes, and proves
that they compute those functions. The theorems: streams round-trip, the reader accepts exactly the
well-formed frames and normalises them, a stream cut anywhere yields exactly the frames written completely,
and the encoding is unambiguous. `Grammar` describes the accepted texts without the reader: the reader accepts
exactly a command line, header lines, an empty line, the body and a NUL, with LF or CR LF at each line.

**Transactions** (`Acks`, `Session`, `Transactions`, `HalfCommits`, `ServerConn`, `History`, `Numbering`). The connected state function
of the server, the other arms of its processing loop and its transaction store, first as functions, then as the objects the source updates in place,
including the recursion of COMMIT through the state function and the panics of the acknowledgement list. The
theorems: COMMIT is atomic and terminates, or brings the broker down in exactly one situation; a session with
transactions is equivalent to the flat session in which each transaction happens at its COMMIT; and what is
written to the client is exactly the receipts asked for, the messages delivered and the heart-beats. `History` says
by looking back over the events which frames a session accepts, why it refuses the others, and what an accepted
frame does; `Numbering` says which ids its messages get.

**Broker** (`Queues`, `Broker`, `Ledger`, `Steps`, `ConnSteps`, `Effects`, `BrokerRuns`, `Teardown`,
`Cleanup`, `Shutdown`, `Scenarios`, `Stranding`, `Leash`, `Reuse`, `MessageIds`, `QueueRuns`, `Tags`,
`Destinations`). A step system of one processor and any
number of connections, with channels as sequences and every `select` arm as a nondeterministic step. Frames
and subscriptions are heap objects with names, so that aliasing and stale pointers are visible. The theorems:
single token, frame conservation, content preservation, the exact conditions of every panic and of every
frame that is stranded or in doubt, first-in first-out queues, what each message says on its way to a client,
orderly teardown, and the return of every frame a closing connection holds. `Agreement` and `Commits`
show that a connection of the step system, seen through the heap, does what the session does with values,
COMMIT included. `Delivery`, `QueueObjects` and `Topics` hold the lists, queues and topics as mutable objects.

**Client** (`ClientClose`, `ClientChannels`, `ClientDeliveries`, `ClientSubscription`, `ClientAcks`). Step systems for the
mutex-protected close protocol, the map of response channels and the close machine of a subscription; what every
response channel gets, told by the events alone; and the client's acknowledgements as the server reads them.

**Negotiation** (`Negotiation`). Protocol version and heart-beats, from the client's options to what both
ends use, and the server's decision to accept a client.

## What the code does not do

Where the code departs from what it is evidently meant to do, the model follows the code. The following
are theorems, each with the exact condition where there is one:

- The first ACK or NACK of an ack-mode subscription leaves its `subList` pointer set, so putting it on a
  list again panics. `Scenarios.FirstAckPanics` gives the run for every queue, id and message;
  `BrokerRuns.PanicsExactly` says exactly which steps of which reachable states panic, and
  `BrokerRuns.AutoNeverPanics` that automatic acknowledgement and addressed messages exclude all of them. The
  other two panics happen too (`Scenarios.UnknownModePanics`, `Scenarios.UnaddressedPanics`).
- A COMMIT is not atomic when the broker goes down in the middle of it: that happens exactly when one of its
  ACKs meets an entry with an unknown ack mode that no earlier NACK has removed
  (`Transactions.CommitPanicsExactly`). `Transactions.PanicLeavesHalf` says what has been done by then, and
  `HalfCommits.CommitByHalf` is a whole session that ends so, for every queue, id and message.
- Every acknowledgement that the library's own client sends under version 1.2 is rejected by the library's
  own server (`ClientAcks.Version12IsRejected`); they understand each other exactly below that version
  (`ClientAcks.AcknowledgedExactly`).
- A subscription never learns the id of the message it holds, so a NACK with an id other than 0 does nothing
  at all (`MessageIds.NackDoesNothing`), and an ACK takes client-mode entries whatever its id
  (`MessageIds.ReleaseIgnoresId`).
- A frame handed to a connection that is gone stays in its channel for ever
  (`Stranding.LateFramesAreStranded`). A step does this if and only if it handles a request that hands a frame
  to a subscription of such a connection (`Stranding.StrandsExactly`). With automatic acknowledgement and no
  id used twice on a connection this is possible only while the UnsubscribeOp of that subscription is still
  waiting (`Leash.StrandingWindow`); it does happen then, as in every other mode
  (`Stranding.StrandingHappens`), and a client that uses an id twice leaves a subscription waiting for ever (`Reuse.ReuseBreaksTheLeash`).
- A SUBSCRIBE frame with a receipt header of its own brings the client's process loop down
  (`ClientChannels.HazardBreaks`); it is the only request that can (`ClientChannels.SafeExactlyWithoutHazard`).
- `Unsubscribe` can make the client panic by a send on the closed channel C; all runs are free of it if and
  only if no receipt timeout is configured and the connection is never found closed
  (`ClientSubscription.SendsAreSafeExactly`).
- A very large heart-beat error allowance overflows the client's read timeout
  (`Negotiation.LargestAllowanceOverflows`), and a read timeout below one millisecond is off at the server
  and on at the client (`Negotiation.ClientWaitsLongEnough`).
- A client that offers only version 1.0, or no version, is refused, although the version negotiation succeeds
  (`Negotiation.AcceptedExactly`).
- SUBSCRIBE and UNSUBSCRIBE get no RECEIPT from the server (`Transactions.ReceiptsOnce`), although the client's
  `Unsubscribe` waits for one: against this server a subscription's channel is never closed as long as no ERROR
  comes (`ClientDeliveries.UnsubscribeIsNeverAnswered`), while any server that sends that RECEIPT completes it
  (`ClientDeliveries.UnsubscribeEndsTheSubscription`). DISCONNECT ends
  without an error even if its RECEIPT could not be written (`Transactions.LostGoodbye`); nothing else is lost
  (`Transactions.ReceiptsLostExactly`).

## Model

| member | source | states |
|---|---|---|
| Text.SplitJoin | conn_options.go:92 | splitting what the client joined gives back its list, for all parts without the separator |
| Text.DecimalByDigit | server/client/conn.go:412 | a number is written digit by digit in base ten without a zero in front |
| Text.NumbersExactly | frame/header.go:165-170 | a text is read as a number if and only if it is that number in decimal behind any number of zeros and below the limit |
| Escape.EscapesAre | frame/encode.go:9-20 | exactly backslash, CR, LF and colon are escaped, each as backslash and one letter |
| Escape.UnescapesAre | frame/encode.go:15-34 | the four escape sequences stand for those characters, and every other character for itself |
| Escape.DecodeEncode | frame/encode.go:9-34 | unescaping undoes escaping for every byte string, with both replacers as left-to-right rewrites |
| Escape.EncodedIsLineSafe | frame/encode.go:9-14 | an escaped text never contains a colon, LF or CR, so it cannot end a header name or line |
| Escape.DecodeNonEmpty | frame/encode.go:15-34 | unescaping never makes a non-empty text empty, so accepted header names stay non-empty |
| Escape.DecodePlain | frame/encode.go:30-34 | a text without one of the four escape sequences, unknown escapes included, passes through unchanged |
| Frames.LookupAfterSet | frame/header.go:88-94 | after Set a key has the new first value and every other key is unaffected |
| Frames.LookupAfterWithout | frame/header.go:139-143 | after Del a key is absent however often it occurred, and every other key keeps its value |
| Frames.Header.Add | frame/header.go:71-73 | appends one entry to the header object |
| Frames.Header.AddHeader | frame/header.go:76-83 | appends all entries of another header, in order |
| Frames.Header.Index | frame/header.go:179-186 | finds the first entry with the key, or shows there is none |
| Frames.Header.Contains | frame/header.go:130-136 | returns the first value of the key, or the empty text and false |
| Frames.Header.GetAll | frame/header.go:106-114 | returns all values of the key, in order |
| Frames.Header.Set | frame/header.go:88-94 | replaces the first entry with the key in place, or appends one |
| Frames.Header.Del | frame/header.go:139-143 | the repeated search-and-remove loop ends and removes every entry with the key, keeping the others in order |
| Frames.Header.Clone | frame/header.go:151-155 | returns a fresh object with the same entries |
| Codec.RoundTrip | frame/reader.go:47-140 | reading what was written for a heart-beat or well-formed frame returns it and leaves exactly the bytes that followed |
| Codec.StreamRoundTrip | frame/writer.go:31-100 | any list of heart-beats and well-formed frames is read back from the concatenated output, which is consumed entirely |
| Codec.Normalisation | frame/reader.go:47-157 | whatever the input looked like, an accepted frame is well-formed and writing it in front of the same remaining bytes reads back the same |
| Codec.WellFormedExactly | frame/reader.go:47-140 | a frame is well-formed if and only if it survives the wire, and if and only if some input makes the reader return it |
| Codec.Extension | frame/reader.go:47-157 | once the reader has accepted or rejected, further input changes nothing but what is left over |
| Codec.Truncation | frame/reader.go:47-157 | every proper prefix of a written frame is reported as end of input, never as another frame or error |
| Codec.CompleteIsMaximal | frame/writer.go:31-100 | the items counted as complete at a cut are exactly those whose last byte lies before it |
| Codec.CutStream | frame/reader.go:47-157 | a stream cut after any number of bytes yields exactly the completely written items and then end of input |
| Codec.StreamIsUnambiguous | frame/writer.go:31-100 | different lists of well-formed items never have the same bytes |
| Codec.EntryOfExactly | frame/reader.go:86-99 | a header line holds an entry if and only if it is a non-empty name without a colon, a colon and a value, and the entry is their unescaped pair |
| Codec.EntryRoundTrip | frame/writer.go:54-71 | the line written for an entry with a name holds exactly that entry |
| Grammar.ReadLineExactly | frame/reader.go:143-157 | the reader takes a line if and only if the input is a text without LF, which the line is up to one CR at its end, an LF and the rest |
| Grammar.AcceptsExactly | frame/reader.go:47-140 | the reader returns a frame if and only if the input is a command line, its header lines, an empty line, its body as counted or up to the first NUL, a NUL and the rest |
| Grammar.HeartBeatExactly | frame/reader.go:53-56 | the reader returns a heart-beat if and only if the input begins with LF or CR LF |
| Grammar.EitherLineEnd | frame/reader.go:143-157 | every well-formed frame is read back from its text with LF or CR LF chosen separately at the end of each line, whatever follows |
| Grammar.WriterExactly | frame/writer.go:31-100 | a heart-beat is written as one LF, and a frame as its command line, header lines, empty line, body and NUL, each line ended by LF |
| Grammar.CommandWords | frame/reader.go:60-72 | the command line is one of fifteen words and nothing else |
| Grammar.ContentLengthExactly | frame/header.go:161-175 | a body is counted if and only if the first content-length is a decimal below 2^32; any other content-length refuses the frame |
| Grammar.RefusedAtCommand | frame/reader.go:60-72 | a first line that is neither empty nor a command is refused as such |
| Grammar.RefusedAtHeader | frame/reader.go:86-99 | a header line that is no entry is refused as such, after any number of good ones |
| Grammar.RefusedAtBody | frame/reader.go:106-140 | a malformed length, or a counted body without a NUL behind it, is refused as such |
| Wire.Reader.ReadBytes | frame/reader.go:130-135 | consumes up to and including the first delimiter, or everything when there is none |
| Wire.Reader.ReadLineText | frame/reader.go:143-157 | one line without its LF or CR LF |
| Wire.Reader.ReadCounted | frame/reader.go:112-119 | the chunk loop fills the body with exactly the next bytes whatever chunks arrive |
| Wire.LengthOf | frame/header.go:161-175 | the first content-length entry as a 32-bit number, absent or malformed |
| Wire.Reader.ReadHeaderBlock | frame/reader.go:75-104 | the header loop builds exactly the entries of the header block |
| Wire.Reader.ReadBodyOf | frame/reader.go:106-140 | counted or NUL-terminated body, with the same errors and the same remaining input as the function |
| Wire.Reader.Read | frame/reader.go:47-140 | the object's result and remaining input are those of the function, for every input and every chunking |
| Wire.Writer.PutHeader | frame/writer.go:52-73 | the header loop sends the header text, or a prefix of the whole frame when the connection fails |
| Wire.Writer.Write | frame/writer.go:31-100 | succeeds exactly when all bytes of the item are accepted, and otherwise sends a proper prefix |
| Wire.Writer.WriteAll | frame/writer.go:31-100 | of a list of Write calls exactly those succeed whose bytes all fit, and a prefix of the stream is sent |
| Wire.Writer.Transmit | frame/writer.go:31-100 | what arrives over a connection that fails at any byte reads back as exactly the items whose Write calls succeeded |
| Session.PlainOnStored | server/client/conn.go:587-592 | a buffered frame replayed at COMMIT writes nothing, does not touch the store and has no error but the panic of an ACK that meets an unknown mode |
| Session.DispatchKeepsValid | server/client/conn.go:436-463 | every command keeps the store free of frames that could fail, be receipted or be buffered again |
| Session.ReactKeepsValid | server/client/conn.go:193-324 | so does every event the processing loop reacts to: client frames, arriving subscriptions of any mode, frames on the write channel and the heart-beat timer |
| Transactions.CommitIsAtomic | server/client/tx_store.go:44-56 | COMMIT performs the buffered frames in order, writes nothing to the client and touches no other transaction; either all are performed and the transaction is gone, or the broker goes down at one, with those before it performed and those after it still stored |
| Transactions.CommitPanicsExactly | server/client/subscription.go:38-51 | the broker goes down in a COMMIT if and only if one of its ACKs meets an entry with an unknown mode that no earlier NACK of it has removed |
| Transactions.PanicLeavesHalf | server/client/subscription_list.go:71-81 | where a COMMIT goes down, the requests made are those of the frames before it and of the matching entries before the first unknown mode |
| HalfCommits.CommitByHalf | server/client/conn.go:578-595 | for every queue, id, message, unknown mode and acknowledged number there is a session from the start that ends in a panicking COMMIT with its SEND already sent and its ACK not carried out |
| Transactions.Serialisable | server/client/conn.go:578-609 | every error-free session sends the same requests in the same order as the session without transactions in which each member happens, stripped, at its COMMIT, and aborted ones do not happen |
| Transactions.StoreHoldsSinceBegin | server/client/tx_store.go:18-65 | each open transaction holds exactly its own frames since its BEGIN, stripped and in order, however transactions interleave |
| Transactions.ReceiptsOnce | server/client/conn.go:193-324 | in every error-free session on any link, what is written is exactly one RECEIPT for each frame that asks, the messages delivered or pushed and the heart-beats, in order, none at replay; DISCONNECT gets its RECEIPT exactly if the link takes it |
| Transactions.ReceiptsLostExactly | server/client/conn.go:553-561 | in every error-free session the answers written are exactly the receipts asked for if and only if no DISCONNECT finds the link refusing its receipt |
| Transactions.LostGoodbye | server/client/conn.go:553-561 | on a link that refuses the first write a DISCONNECT that asks for a receipt ends without an error and without one |
| History.RegisteredByTheLast | server/client/conn.go:611-657 | after every error-free session an id is registered if and only if the last SUBSCRIBE or UNSUBSCRIBE naming it was a SUBSCRIBE, with the destination and mode that frame asked for |
| History.AcceptedByHistory | server/client/conn.go:436-772 | after every error-free session, on any link, each client frame is accepted or refused, and refused for just the reason, that its own headers and the events before it give |
| History.EffectByHistory | server/client/conn.go:553-772 | an accepted frame is answered as it asks, makes exactly the requests and changes its history implies, and changes nothing else |
| History.ArrivalByHistory | server/client/conn.go:264-311 | an arriving frame is delivered under the next id if its subscription was last subscribed, and sent back otherwise; what is announced, held and written is given in full |
| History.OneAckTakesEverything | server/client/subscription.go:38-57 | the word in the SUBSCRIBE frame decides what one ACK takes: in client mode every message whatever the id, in client-individual mode none unless the id is 0 |
| Numbering.MessageIdsAreConsecutive | server/client/conn.go:408-425 | the messages written in an error-free session are numbered 1, 2, 3 and so on modulo 2^64 in message-id and id, in every ack mode |
| Numbering.MessageIdsAreDistinct | server/client/conn.go:411-412 | two messages of a session have the same id if and only if their places differ by a multiple of 2^64 |
| ServerConn.TxStore.Begin | server/client/tx_store.go:18-29 | opens an empty transaction, or fails when it is open |
| ServerConn.TxStore.Abort | server/client/tx_store.go:31-38 | drops the transaction, or fails when it is not open |
| ServerConn.TxStore.Add | server/client/tx_store.go:58-65 | appends the frame without any transaction entry, or fails when the transaction is not open |
| ServerConn.Conn.SendReceiptImmediately | server/client/conn.go:539-551 | writes the receipt and removes every receipt entry |
| ServerConn.Conn.Ack | server/client/conn.go:689-696 | for every list the object's new state and error are those of the ACK function, which releases up to the first unknown mode and panics there |
| ServerConn.Conn.Nack | server/client/conn.go:732-741 | for every list the object's new state is that of the NACK function |
| ServerConn.Conn.HandleMessageFrame | server/client/conn.go:659-772 | SEND, ACK and NACK on the object: the whole new state, the requests and every error case |
| ServerConn.Conn.HandleSubscribeFrame | server/client/conn.go:611-637 | SUBSCRIBE on the object with its three error cases |
| ServerConn.Conn.HandleUnsubscribeFrame | server/client/conn.go:640-657 | UNSUBSCRIBE on the object with its two error cases |
| ServerConn.Conn.CommitTransaction | server/client/tx_store.go:44-56 | the draining loop, calling the state function on each frame, terminates and equals the recursive commit |
| ServerConn.Conn.StateFunc | server/client/conn.go:436-463 | the connected state function on the object equals the dispatch function and keeps the store valid |
| ServerConn.Conn.ReceiveSubscription | server/client/conn.go:264-311 | the subscription arm of the processing loop on the object, with the panic on a subscription that points to a list |
| ServerConn.Conn.ReceivePushed | server/client/conn.go:202-235 | the write-channel arm of the processing loop on the object: message ids for topic messages, and the end of the connection after an ERROR frame |
| ServerConn.Conn.ReceiveTimer | server/client/conn.go:313-323 | the heart-beat arm of the processing loop on the object |
| Queues.DirectHandOff | server/queue/queue.go:31-86 | handing a frame over directly equals queueing it at the back or front and pairing off the two lines |
| Queues.QueueRefinesReference | server/queue/queue.go:31-86 | over any run the queue delivers what the reference queue delivers, and subscriptions and frames never wait at once |
| Queues.FramesAreFifo | server/queue/queue.go:57-68 | in a run without requeues the frames delivered followed by those stored are those enqueued, in order |
| Queues.SubscribersAreFifo | server/queue/queue.go:31-48 | in a run without unsubscriptions subscriptions are served in the order they became ready |
| Queues.DestinationsAreIndependent | server/queue/manager.go:16-23 | what a destination stores and delivers depends only on the operations addressed to it |
| BrokerRuns.NextInv | server/processor.go:42-93 | every step of the processor or of a connection keeps the ledger, or ends in exactly the panic that is predicted |
| BrokerRuns.SingleToken | server/client/subscription.go:59-84 | in every reachable state a queue subscription is in at most one place, without a frame in the first two kinds and with one in the last two; the pending-frame panic is unreachable |
| BrokerRuns.FrameConservation | server/client/conn.go:264-311 | in every reachable state each frame ever sent is in exactly one place, and no other frame anywhere |
| BrokerRuns.QueuesStayApart | server/queue/queue.go:31-86 | in every reachable state no queue has both idle subscriptions and stored frames, and stored frames are addressed to their queue |
| QueueRuns.QueueFollowsItsRequests | server/processor.go:42-93 | over every run a queue of the broker, and what it hands over, is what the requests handled for it make of the value-level queue |
| QueueRuns.BrokerIsFifo | server/queue/queue.go:57-68 | in every interleaving of the whole broker in which no frame has been returned to a queue, the frames handed over followed by those stored are those enqueued, in order |
| QueueRuns.BrokerServesInOrder | server/queue/queue.go:31-68 | in every interleaving in which no subscription has been withdrawn from a queue, its subscriptions are served in the order in which they became ready |
| QueueRuns.HandedForReal | server/client/subscription.go:59-66 | each pair the queue brings together is a subscription that has got that frame, with the subscription's own id in it |
| Tags.MessagesNameTheirSubscription | server/client/subscription.go:59-84 | in every reachable state the frame held by each subscription in a channel or un-acknowledged list carries that subscription's id |
| Tags.QueuesHoldMessages | server/client/conn.go:764-768 | in every reachable state every frame the broker knows is a MESSAGE |
| Tags.StampSays | server/client/conn.go:408-425 | a stamped message has the number in message-id and id, in ack exactly outside automatic mode, and is otherwise unchanged |
| Tags.DeliveredSays | server/client/conn.go:283-296 | from every reachable state a delivery makes the frame say the subscription's id and the next message id, and leaves body and all other entries as they were |
| Destinations.FramesGoByTheirDestination | server/processor.go:65-101 | a frame sent or returned to /queue and any text is stored in the queue of just that name, at the back or the front, or handed to a subscription to it; to any other destination it is broadcast or dropped |
| Destinations.SubscriptionsGoByTheirDestination | server/processor.go:44-53 | a subscription to /queue and any text waits at just that queue or gets a frame of it; any other does not touch the queues |
| BrokerRuns.PanicsExactly | server/client/subscription_list.go:22-28 | in every reachable state the next step panics if and only if it re-lists a released subscription, enqueues an unaddressed frame, or acknowledges under an unknown mode |
| BrokerRuns.AutoNeverPanics | server/client/conn.go:298-303 | no run from the start with automatic acknowledgement and addressed messages panics |
| BrokerRuns.InDoubtExactly | server/client/conn.go:288-296 | a step puts a frame in doubt if and only if it is a delivery to a registered subscription whose write fails, and it is that frame |
| BrokerRuns.MessagesStayIntact | server/client/conn.go:408-425 | however often a frame is delivered, rejected and requeued, command, body and all entries but four stay as sent, the destination in particular, and no requeue is discarded |
| BrokerRuns.TopicSubscriptionsAreFree | server/client/subscription.go:71-84 | in every reachable state a topic subscription holds no frame, so a broadcast to it cannot panic |
| Steps.ProcessInv | server/processor.go:42-93 | handling any request keeps the ledger or panics exactly as predicted |
| ConnSteps.ReleaseInv | server/client/conn.go:659-743 | ACK and NACK keep the ledger: each released subscription is announced once and its frame retired or requeued once |
| ConnSteps.ReceiveInv | server/client/conn.go:264-311 | delivering, requeueing or failing to write keeps the ledger, with the failed frame in doubt |
| ConnSteps.CloseInv | server/client/conn.go:331-353 | cleaning up keeps the ledger |
| Effects.ProcessMild | server/processor.go:42-93 | handling a request changes only queues, channels and two pointers, keeps every message, and drops none |
| Teardown.UnsubscriptionsOnce | server/client/conn.go:341-350 | in whatever order the map is visited, each registered subscription gets exactly one UnsubscribeOp |
| Teardown.ClosedConnections | server/client/conn.go:331-372 | a connection that is gone has sent exactly one UnsubscribeOp for each subscription it ever accepted, before its one DisconnectedOp, after which it only returned frames |
| Cleanup.UnackedFramesGoBack | server/client/conn.go:352-356 | when a connection closes, each frame of its un-acknowledged list becomes exactly one RequeueOp and no other frame does |
| Cleanup.DrainedFramesGoBack | server/client/conn.go:389-405 | while a connection drains, what its channel carried goes back first and in order, then what arrived in time; nothing else but its DisconnectedOp is sent |
| Cleanup.HeldFramesGoBack | server/client/conn.go:331-372 | from the decision to close until the end, in every interleaving, the RequeueOps of a connection are those of its un-acknowledged list, then those its channel carried, each in order, then one for each frame that arrived in time; the rest of the arrivals is what its channel still carries |
| Cleanup.HeldFramesAreDistinct | server/client/conn.go:352-366 | in every reachable state a connection holds no frame twice, in its un-acknowledged list and its channel together |
| Shutdown.EveryConnectionCanEnd | server/client/conn.go:331-372 | from every reachable state a connection can end by its own steps alone, and then the processor has exactly its outstanding requests, one withdrawal for each subscription in any order of visit, its un-acknowledged and its channelled frames in order, and its goodbye |
| Scenarios.FirstAckPanics | server/client/conn.go:689-696 | for every queue, id, message and acknowledged id there is a run in which the first ACK makes the broker panic |
| Scenarios.UnknownModePanics | server/client/subscription.go:38-51 | for every queue, id, message, unknown mode and acknowledged id there is a run in which the ACK makes the broker panic |
| Scenarios.UnaddressedPanics | server/processor.go:65-70 | for every message without a destination there is a run in which handling it makes the broker panic |
| MessageIds.ReleaseIgnoresId | server/client/subscription.go:38-57 | in every reachable state an ACK takes every client-mode entry whatever its id, and other entries are taken by id 0 only |
| MessageIds.NackDoesNothing | server/client/subscription.go:53-57 | in every reachable state a NACK with an id other than 0 changes nothing |
| Stranding.LateFramesAreStranded | server/client/conn.go:364-366 | a frame in the channel of a connection that is gone stays there in every continuation |
| Stranding.StrandsExactly | server/client/conn.go:364-366 | in every reachable state a step strands a frame if and only if it handles a request that hands one to a subscription of a connection that is gone |
| Stranding.StrandingHappens | server/client/conn.go:358-366 | for every queue, id, ack mode and message there is a panic-free run with a single subscription that strands the message |
| Leash.WithdrawalIsAhead | server/client/conn.go:341-350 | in such runs a subscription of a connection that is gone, waiting or announced, has its UnsubscribeOp ahead, after everything else about it |
| Leash.StrandingWindow | server/client/conn.go:341-350 | in runs with automatic acknowledgement and no id used twice a frame is stranded only while the UnsubscribeOp of the subscription that gets it still waits to be handled |
| Reuse.ReuseBreaksTheLeash | server/client/conn.go:283-303 | for every queue, id and message there is a panic-free run in automatic mode, with the id used twice, after which every request has been handled and a subscription of a connection that is gone still waits |
| Agreement.ReactionIsStep | server/client/conn.go:193-324 | every error-free reaction of the value-level session to anything but COMMIT is one enabled, panic-free step of the connection in the broker with the same subscriptions, un-acknowledged list, message counter and requests, or changes none of them |
| Agreement.PanicIsPanic | server/client/subscription_list.go:22-28 | where the session panics, so does that step of the broker |
| Commits.CommitIsRun | server/client/conn.go:578-595 | every error-free COMMIT of the session is a panic-free run of SEND, ACK, NACK and flush steps of the connection that puts exactly the session's requests on the shared channel, in order |
| Agreement.ReleaseAgrees | server/client/conn.go:659-743 | ACK and NACK release, announce and requeue the same in both models |
| Agreement.ReceiveAgrees | server/client/conn.go:264-311 | a delivery stamps, holds or re-announces the same in both models, in every state the ledger allows |
| Delivery.FrameObject.Clone | frame/frame.go:28-38 | an equal frame that shares no object with the original |
| Delivery.Subscription.SetSubscriptionHeader | server/client/subscription.go:79-84 | tags the frame with the subscription's id, or panics when a frame is pending |
| Delivery.TaggedSays | server/client/subscription.go:79-84 | a tagged frame says the id in its subscription header and is otherwise unchanged |
| Delivery.Subscription.SendQueueFrame | server/client/subscription.go:59-66 | the subscription holds the tagged frame and is on its connection's channel |
| Delivery.Subscription.SendTopicFrame | server/client/subscription.go:71-77 | the tagged frame is on the connection's write channel |
| Delivery.SubscriptionList.Add | server/client/subscription_list.go:22-28 | appends and sets the pointer, or panics when the pointer is set; all lists stay duplicate-free and disjoint |
| Delivery.SubscriptionList.Get | server/client/subscription_list.go:33-42 | takes the first and clears its pointer |
| Delivery.SubscriptionList.Remove | server/client/subscription_list.go:45-53 | takes the subscription out and clears its pointer only if it is listed here |
| Delivery.SubscriptionList.FindByIdAndRemove | server/client/subscription_list.go:57-66 | takes out the first with the id, and leaves its pointer set |
| Delivery.SubscriptionList.Ack | server/client/subscription_list.go:71-81 | calls back for exactly the matching entries in order and keeps the others in order, up to the first unknown mode, where it panics |
| Delivery.SubscriptionList.Nack | server/client/subscription_list.go:87-97 | the same for exact matches, with no mode involved |
| Delivery.ReleasePartitions | server/client/subscription_list.go:71-97 | the called back and the left together are the list, each entry once |
| Delivery.ReleaseKeepsOrder | server/client/subscription_list.go:71-97 | the called back and the left both keep the order of the list |
| Delivery.ReleaseMatches | server/client/subscription_list.go:71-97 | exactly the matching entries the sweep reaches are called back, and none of them is left |
| Delivery.ReleasesCommute | server/client/subscription_list.go:71-97 | on a list of known modes two ACKs, or an ACK and a NACK, leave the same list and call back the same subscriptions in either order; two NACKs do on any list |
| Delivery.SortOut | server/client/subscription_list.go:72-80 | one turn of the sweep, removing while iterating, keeps the part already visited sorted out and skips nothing |
| QueueObjects.MemoryQueueStorage.Enqueue | server/queue/memory_queue.go:19-28 | appends to that destination and changes no other |
| QueueObjects.MemoryQueueStorage.Requeue | server/queue/memory_queue.go:33-42 | puts in front of that destination and changes no other |
| QueueObjects.MemoryQueueStorage.Dequeue | server/queue/memory_queue.go:46-58 | takes the first frame, or nothing when there is none |
| QueueObjects.Queue.Subscribe | server/queue/queue.go:31-46 | refines the value-level queue; on a hand-over the subscription, the first stored frame and the connection change as required and nothing else does; panics exactly as stated |
| QueueObjects.Queue.Unsubscribe | server/queue/queue.go:49-51 | refines the value-level queue and clears the pointer of a subscription that was listed |
| QueueObjects.Queue.Enqueue | server/queue/queue.go:57-68 | refines the value-level queue; only the longest-waiting subscription and its connection may change, and a stored frame stays as it is |
| QueueObjects.Queue.Requeue | server/queue/queue.go:75-86 | refines the value-level queue at the front, with the same frame conditions |
| QueueObjects.Manager.Find | server/queue/manager.go:16-23 | creates at most one queue per destination, returns the same object ever after and changes no queue's contents |
| Topics.Topic.Subscribe | server/topic/topic.go:31-33 | appends the subscription |
| Topics.Topic.Unsubscribe | server/topic/topic.go:36-43 | removes its first occurrence |
| Topics.Topic.Enqueue | server/topic/topic.go:47-73 | every subscription gets one frame equal to the original but for its own subscription id; no two share a frame, header or body; every connection gets its share in order |
| Topics.AllocateMessageId | server/client/conn.go:408-425 | the frame object gets the next message id, and the ack header exactly outside automatic mode |
| Topics.StampOwnCopy | server/client/conn.go:213-219 | one receiver stamping its copy leaves all others as they were |
| ClientClose.WriteChannelIsSafe | conn.go:477-523 | in no interleaving is a request sent on the closed write channel, the channel closed twice or closed under a blocked sender, and after closing nothing is sent |
| ClientClose.NeverFaults | conn.go:477-523 | no run from the start faults, and no two threads are inside the mutex at once |
| ClientClose.StepGood | conn.go:634-760 | every step keeps the mutex discipline |
| ClientClose.NobodyIsStuck | conn.go:477-523 | in every reachable state a thread that has not returned can go on, or the one at the mutex can |
| ClientClose.SendingSends | conn.go:534-760 | on an open connection Send, Subscribe and sendFrame send one request and change nothing else |
| ClientClose.DisconnectCloses | conn.go:477-505 | Disconnect sends one request and marks the connection closed |
| ClientClose.MustDisconnectCloses | conn.go:511-523 | MustDisconnect closes the connection and the write channel and sends nothing |
| ClientClose.ClosedCallsDoNothing | conn.go:477-523 | on a closed connection no call does anything |
| ClientClose.ServerErrorCloses | conn.go:376-388 | an ERROR frame closes the connection and leaves the write channel open |
| ClientChannels.ResponseChannelsAreSafe | conn.go:343-469 | without a hazardous SUBSCRIBE no run sends on or closes a closed response channel, and the map holds distinct open channels |
| ClientChannels.HazardBreaks | conn.go:411-449 | in every good state a hazardous SUBSCRIBE and two harmless events make the loop panic: its RECEIPT and a MESSAGE, or for a temporary queue its UNSUBSCRIBE and the end of the loop |
| ClientChannels.SafeExactlyWithoutHazard | conn.go:411-432 | a request is safe under all harmless continuations if and only if it is not hazardous |
| ClientChannels.SweepGood | conn.go:464-469 | telling all channels about an error, closing them or not, never panics on distinct open channels |
| ClientDeliveries.EveryChannelGetsItsAnswers | conn.go:343-469 | over every run from the start without a hazardous SUBSCRIBE each request's channel has got, in order, exactly the MESSAGE frames naming it while it is registered, its RECEIPT, and the ERROR or notice that ends the loop; it is closed exactly by its RECEIPT, an ERROR or its temporary queue's UNSUBSCRIBE; and exactly the requests not about temporary queues were written |
| ClientDeliveries.NothingBlocks | conn.go:325-415 | while the loop runs every frame can come in, every request can be taken with either outcome of its write, and the loop can be stopped |
| ClientDeliveries.ReceiptClosesItsChannel | conn.go:363-369 | a RECEIPT closes the channel known by its id, after the messages for it |
| ClientDeliveries.AnswerFindsItsRequest | server/client/conn.go:539-551 | the RECEIPT the server makes for a request of the client reaches and closes the channel of that request |
| ClientDeliveries.UnsubscribeAsks | conn.go:434-449 | UNSUBSCRIBE is written with its own id as receipt and is otherwise unchanged |
| ClientDeliveries.UnsubscribeEndsTheSubscription | conn.go:434-449 | a RECEIPT under the id the UNSUBSCRIBE carries closes the subscription's channel, after its messages |
| ClientDeliveries.UnsubscribeIsNeverAnswered | server/client/conn.go:640-657 | in every run against a session of this server that reads only what the client wrote, a subscription's channel stays open as long as no ERROR comes, UNSUBSCRIBE or not |
| ClientChannels.ProcessLoop.SendAll | conn.go:464-469 | the loop over the map on the object, which tells every mapped channel once |
| ClientChannels.ProcessLoop.HandleRead | conn.go:343-398 | the read arm of the process loop on the object |
| ClientChannels.ProcessLoop.HandleWrite | conn.go:400-459 | the write arm of the process loop on the object |
| ClientSubscription.CloseMachineIsSound | subscription.go:65-116 | over all runs the state only moves forward, one caller at most passes the compare-and-swap, C is closed once at most and only when Closed, and a nil return implies Closed |
| ClientSubscription.StepGood | subscription.go:153-230 | every step of every thread keeps the machine's invariant |
| ClientSubscription.NobodyIsStuck | subscription.go:65-116 | in every reachable state a thread that has not returned can go on, or waits at the once-guard for one that can |
| ClientSubscription.MessagesPass | subscription.go:184-195 | the read loop passes a MESSAGE on to C once, ignores frames it does not know, and reads on |
| ClientSubscription.ReceiptCloses | subscription.go:220-225 | a RECEIPT closes C and puts nothing on it |
| ClientSubscription.ErrorCloses | subscription.go:172-219 | an ERROR, or the end of the response channel, puts one last thing on C and closes it |
| ClientSubscription.LoopEndsClosed | subscription.go:172-230 | in every reachable state in which the read loop has returned the subscription is Closed |
| ClientSubscription.UnsubscribeCompletes | subscription.go:65-116 | there is a run in which the RECEIPT arrives, C is closed and Unsubscribe returns nil |
| ClientSubscription.TimeoutRace | subscription.go:101-112 | a RECEIPT between the timed-out caller's check and its notice makes the notice panic |
| ClientSubscription.ClosedConnectionRace | subscription.go:87-92 | a message passed on after a caller closed C makes the read loop panic |
| ClientSubscription.SendsAreSafeExactly | subscription.go:172-230 | all runs are free of panics if and only if neither a receipt timeout nor a closed connection can occur |
| ClientAcks.Version12IsRejected | server/client/conn.go:659-670 | every ACK or NACK that a 1.2 client sends, for any message in any session, is rejected without effect |
| ClientAcks.AcknowledgementSays | conn.go:813-859 | whether there is an ACK or NACK, and what it says: the subscription and message-id below 1.2, the ack header as id in 1.2; none for automatic subscriptions and no NACK in 1.0 |
| ClientAcks.EarlierVersionsSayTheId | conn.go:840-847 | below 1.2 the server reads from the client's ACK or NACK exactly the id it put on the message, in a transaction or not |
| ClientAcks.AcknowledgedExactly | conn.go:813-859 | for every message the server delivers to an ack-mode subscription the client's ACK carries the id the server gave it if and only if the version is 1.0 or 1.1 |
| Negotiation.SortStrings | server/client/frame.go:53 | a sorted permutation in byte order |
| Negotiation.LastKnown | server/client/frame.go:54-66 | the last known token of a sorted list is the greatest known version in it |
| Negotiation.DetermineVersion | server/client/frame.go:37-80 | the greatest known version among the tokens, whatever their order, and every error case |
| Negotiation.OrderDoesNotMatter | server/client/frame.go:50-66 | the answer depends only on which known versions are offered, no known token exceeds it, and it fails if and only if none is offered |
| Negotiation.OfferedVersions | conn_options.go:92 | the server decides on exactly the versions the client was configured with |
| Negotiation.AcceptedExactly | server/client/conn.go:465-533 | the server accepts exactly the clients that authenticate, ask for no receipt, offer 1.1 or 1.2 and send no malformed heart-beat, and settles on the greater of the two |
| Negotiation.RefusedBecause | server/client/conn.go:465-503 | a refused client learns the first reason that applies: a receipt header, authentication, the versions offered, the heart-beat header |
| Negotiation.ClientIsAccepted | server/client/conn.go:465-533 | a client that authenticates is accepted if and only if its timeouts are in range and it offers 1.1 or 1.2 |
| Negotiation.ServerAccepts | server/client/frame.go:91-119 | the server reads back the numbers the client wrote if and only if both have at most nine digits and no sign |
| Negotiation.ClientAccepts | frame/heartbeat.go:26-44 | the client reads back the numbers the server wrote if and only if they fit a duration |
| Negotiation.ServerReadsExactly | server/client/frame.go:91-119 | the server takes a heart-beat header if and only if it is two runs of one to nine digits with a comma between them, and reads those numbers |
| Negotiation.ClientReadsExactly | frame/heartbeat.go:26-44 | the client takes one if and only if it is two runs of digits that fit a duration in milliseconds, and reads those numbers |
| Negotiation.NegotiationOutcome | server/client/conn.go:499-525 | the exchange succeeds if and only if both timeouts are in range, and then both ends hold the same two periods |
| Negotiation.PeriodIsImposed | server/client/conn.go:505-517 | a direction that is on has the greater of the client's wish and the server's minimum, which is capped at 999999999 ms |
| Negotiation.PeriodsSettled | conn.go:203-229 | the four periods both ends use, from the client's options and the server's minimum |
| Negotiation.HandshakeSaysThePeriods | server/client/conn.go:519-525 | the CONNECTED frame says the server's write period and then its read period, and the client reads that pair as its own read and write periods |
| Negotiation.NoHeaderNoBeats | server/client/frame.go:91-97 | without a heart-beat header both directions are off |
| Negotiation.ClientBeatsInTime | server/client/conn.go:122-176 | the client's write period is positive exactly when the server expects beats, and never exceeds the agreed period, half the server's deadline |
| Negotiation.ClientWaitsLongEnough | conn.go:203-229 | the client's read timeout covers the server's write period if and only if the allowance does not overflow; then both ends agree on whether the direction is on if and only if the timeout is not a fraction of a millisecond |
| Negotiation.LargestAllowanceOverflows | conn.go:219-223 | a configuration whose read timeout overflows |

## Left out

- Sockets, listeners, deadlines, buffering and flushing: the codec works on a byte stream in arbitrary chunks, and a write may fail at any byte.
- Timers and liveness: a timeout is a step that may happen; nothing is proved to happen eventually, only that it can. Channel capacities and deadlock are left out with them, channels being unbounded sequences.
- Authentication, logging, statistics, error texts, functional options, `stompd`, `testutil` and the examples: authentication is a yes or no given to the handshake, the others are not modelled.
- Steps.ProcessInv: topic requests are not handled in the broker's step system; a frame for a topic goes to a bucket of broadcast frames there, and `Topics` models what a topic does with it.
- Agreement.ReactionIsStep: single reactions without an error; `Commits.CommitIsRun` covers COMMIT and `Agreement.PanicIsPanic` panics, and any other error ends the session, which in the broker is the step that closes the connection.
- The broker's step system lets other steps of the same connection come between the frames of a COMMIT, which the code does not: it has more interleavings than the code, not fewer.
- What a step of the broker that panics had already done before it panicked: a panic ends the run. The session and the lists do model it.
- `ServerConn.Conn` keeps frames as values, so aliasing between the read channel, the store and the requests is not captured there; the broker model and `Topics` capture it.
- `Delivery.SubscriptionList` holds a sequence where the source has a linked list, and callbacks are the returned sequence; callbacks that change the list itself are not modelled, and the source has none.
- What a client subscription puts on C is counted in `ClientSubscription`, not kept; what its response channel gets is told in full by `ClientDeliveries`.
- The ERROR frame that the server tries to write when a session ends with an error.
- The grace-period multiplier of the client's read timer is taken as one.
- `Message` readers, `AckMode` and `Version` helpers, client `Transaction` wrappers except the header of their ACK and NACK, `frame.New`, `NewHeader`, `topic.Manager`, `Storage.Start` and `Stop` are not modelled.
