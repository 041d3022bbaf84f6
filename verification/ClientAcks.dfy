/** The ACK and NACK frames of this library's client, as this library's server understands them
    (conn.go, transaction.go, server/client/conn.go). */
module ClientAcks {
  import opened Text
  import opened Frames
  import opened Acks
  import opened Session
  import Negotiation

  datatype Outcome = Reply(frame: Frame) | Nothing | Refuse(error: Refusal)

  datatype Refusal = NackNotSupported | CannotNackAuto | Missing(name: string)

  predicate SupportsNack(version: string) { version == Negotiation.V11 || version == Negotiation.V12 }

  /** createAckNackFrame for a message with the header h that arrived on subscription sub. */
  function AckNackFrame(version: string, ack: bool, sub: string, mode: AckMode, h: seq<Entry>): Outcome {
    var command := if ack then Frames.Ack else Frames.Nack;
    if !ack && !SupportsNack(version) then Refuse(NackNotSupported)
    else if mode.Auto? then (if ack then Nothing else Refuse(CannotNackAuto))
    else if version == Negotiation.V12 then
      match Lookup(h, ACK)
      case None => Refuse(Missing(ACK))
      case Some(id) => Reply(Frame(command, [Entry(ID, id)], ""))
    else if version != Negotiation.V10 && version != Negotiation.V11 then Reply(Frame(command, [], ""))
    else
      match Lookup(h, MESSAGE_ID)
      case None => Refuse(Missing(MESSAGE_ID))
      case Some(id) => Reply(Frame(command, [Entry(SUBSCRIPTION, sub), Entry(MESSAGE_ID, id)], ""))
  }

  /** What an acknowledgement of a message says, and when there is none: not for an automatic subscription, and no
      NACK before version 1.1. */
  lemma AcknowledgementSays(version: string, ack: bool, sub: string, mode: AckMode, h: seq<Entry>)
    requires version in {"1.0", "1.1", "1.2"}
    ensures var o, key := AckNackFrame(version, ack, sub, mode, h), if version == "1.2" then "ack" else "message-id";
            && (o.Reply? <==> !mode.Auto? && (ack || version != "1.0") && Lookup(h, key).Some?)
            && (o.Nothing? <==> ack && mode.Auto?)
            && (o.Reply? ==>
                  && o.frame.command == (if ack then Frames.Ack else Frames.Nack) && o.frame.body == ""
                  && Lookup(o.frame.header, if version == "1.2" then "id" else "message-id") == Lookup(h, key)
                  && Lookup(o.frame.header, "subscription") == (if version == "1.2" then None else Some(sub)))
  {
    Names();
    Negotiation.VersionsDiffer();
    var o := AckNackFrame(version, ack, sub, mode, h);
    if o.Reply? {
      var e := o.frame.header;
      if version == "1.2" {
        LookupShort(e[0], e[0], e[0], ID);
        LookupShort(e[0], e[0], e[0], SUBSCRIPTION);
      } else {
        LookupShort(e[0], e[1], e[1], MESSAGE_ID);
        LookupShort(e[0], e[1], e[1], SUBSCRIPTION);
      }
    }
  }

  /** The frame as it is sent, inside a transaction or not. */
  function Sent(f: Frame, tx: Option<string>): Frame {
    if tx.None? then f else f.(header := SetEntry(f.header, TRANSACTION, tx.value))
  }

  lemma Names()
    ensures ID != ACK && ID != MESSAGE_ID && SUBSCRIPTION != ACK && SUBSCRIPTION != MESSAGE_ID && MESSAGE_ID != ACK
    ensures SUBSCRIPTION != ID && SUBSCRIPTION != MESSAGE_ID && ID != MESSAGE_ID
    ensures TRANSACTION != ACK && TRANSACTION != MESSAGE_ID && ID != TRANSACTION
  {
    assert |ID| == 2 && |ACK| == 3 && |MESSAGE_ID| == 10 && |SUBSCRIPTION| == 12 && |TRANSACTION| == 11;
  }

  /** The acknowledged id does not depend on the transaction. */
  lemma TransactionDoesNotMatter(f: Frame, tx: Option<string>)
    ensures AckIdOf(Sent(f, tx).header) == AckIdOf(f.header)
  {
    Names();
    if tx.Some? {
      LookupAfterSet(f.header, TRANSACTION, tx.value, ACK);
      LookupAfterSet(f.header, TRANSACTION, tx.value, MESSAGE_ID);
    }
  }

  /** Every acknowledgement that a 1.2 client sends, for any message, in any transaction and any session, is
      rejected for want of a message-id, and has no effect. */
  lemma Version12IsRejected(ack: bool, sub: string, mode: AckMode, h: seq<Entry>, tx: Option<string>, s: State, link: Link)
    requires AckNackFrame(Negotiation.V12, ack, sub, mode, h).Reply?
    ensures var f := Sent(AckNackFrame(Negotiation.V12, ack, sub, mode, h).frame, tx);
            AckIdOf(f.header).NoId? && HandleMessage(s, f, link) == Result(s, Some(MissingHeader(MESSAGE_ID)))
  {
    Names();
    var f := AckNackFrame(Negotiation.V12, ack, sub, mode, h).frame;
    LookupShort(f.header[0], f.header[0], f.header[0], ACK);
    LookupShort(f.header[0], f.header[0], f.header[0], MESSAGE_ID);
    TransactionDoesNotMatter(f, tx);
  }

  /** The id the server gave to a message on delivery is the id its client's earlier protocols send back. */
  lemma EarlierVersionsSayTheId(version: string, ack: bool, sub: string, mode: AckMode, g: Frame, n: nat, tx: Option<string>)
    requires (version == Negotiation.V10 || version == Negotiation.V11) && g.command == Message && n < POW64
    requires AckNackFrame(version, ack, sub, mode, Stamp(g, n, mode).header).Reply?
    ensures var f := Sent(AckNackFrame(version, ack, sub, mode, Stamp(g, n, mode).header).frame, tx);
            AckIdOf(f.header) == AckId(n)
  {
    Names();
    Negotiation.VersionsDiffer();
    StampedId(g, n, mode);
    var f := AckNackFrame(version, ack, sub, mode, Stamp(g, n, mode).header).frame;
    LookupShort(f.header[0], f.header[1], f.header[1], ACK);
    LookupShort(f.header[0], f.header[1], f.header[1], MESSAGE_ID);
    TransactionDoesNotMatter(f, tx);
  }

  lemma StampedId(g: Frame, n: nat, mode: AckMode)
    requires g.command == Message && !mode.Auto?
    ensures Lookup(Stamp(g, n, mode).header, MESSAGE_ID) == Some(Decimal(n))
    ensures Lookup(Stamp(g, n, mode).header, ACK) == Some(Decimal(n))
  {
    Names();
    var t := Decimal(n);
    var h1 := SetEntry(g.header, MESSAGE_ID, t);
    var h2 := SetEntry(h1, ID, t);
    LookupAfterSet(g.header, MESSAGE_ID, t, MESSAGE_ID);
    LookupAfterSet(h1, ID, t, MESSAGE_ID);
    LookupAfterSet(h2, ACK, t, MESSAGE_ID);
    LookupAfterSet(h2, ACK, t, ACK);
  }

  /** The two halves of the library understand each other exactly below version 1.2: for every message the
      server delivers to an ack-mode subscription, the client's acknowledgement carries the id the server gave
      it if and only if the version is 1.0 or 1.1. The server accepts 1.1 and 1.2 only. */
  lemma AcknowledgedExactly(version: string, sub: string, mode: AckMode, g: Frame, n: nat, tx: Option<string>)
    requires g.command == Message && n < POW64 && !mode.Auto?
    ensures var o := AckNackFrame(version, true, sub, mode, Stamp(g, n, mode).header);
            o.Reply? && (AckIdOf(Sent(o.frame, tx).header) == AckId(n) <==> version == Negotiation.V10 || version == Negotiation.V11)
  {
    StampedId(g, n, mode);
    if version == Negotiation.V12 {
      Version12IsRejected(true, sub, mode, Stamp(g, n, mode).header, tx, EMPTY, k => true);
    } else if version == Negotiation.V10 || version == Negotiation.V11 {
      EarlierVersionsSayTheId(version, true, sub, mode, g, n, tx);
    } else {
      TransactionDoesNotMatter(Frame(Frames.Ack, [], ""), tx);
    }
    Negotiation.VersionsDiffer();
  }
}
