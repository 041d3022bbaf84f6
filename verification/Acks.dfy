/** Acknowledgement modes and the list filters that ACK and NACK perform
    (server/client/subscription.go, server/client/subscription_list.go). */
module Acks {
  import opened Text
  import opened Frames

  datatype AckMode = Auto | Client | ClientIndividual | Invalid(text: string)

  function ModeOf(text: string): AckMode {
    if text == "auto" then Auto
    else if text == "client" then Client
    else if text == "client-individual" then ClientIndividual
    else Invalid(text)
  }

  /** Subscription.IsAckedBy; the source panics on an invalid mode. */
  predicate Acked(mode: AckMode, held: nat, msgId: nat)
    requires !mode.Invalid?
  {
    match mode
    case Auto => true
    case Client => msgId >= held
    case ClientIndividual => msgId == held
  }

  /** Subscription.IsNackedBy. */
  predicate Nacked(held: nat, msgId: nat) { msgId == held }

  // ---------- filters ----------

  function Filter<T>(l: seq<T>, p: T -> bool): (r: seq<T>)
  {
    if l == [] then []
    else if p(l[0]) then [l[0]] + Filter(l[1..], p)
    else Filter(l[1..], p)
  }

  lemma {:induction false} FilterMembers<T>(l: seq<T>, p: T -> bool)
    ensures forall x :: x in Filter(l, p) ==> x in l && p(x)
    ensures forall x :: x in l && p(x) ==> x in Filter(l, p)
  {
    if l != [] { FilterMembers(l[1..], p); }
  }

  lemma {:induction false} FilterAppend<T>(l: seq<T>, x: T, p: T -> bool)
    ensures Filter(l + [x], p) == Filter(l, p) + if p(x) then [x] else []
  {
    if l == [] {
      assert (l + [x])[1..] == [];
    } else {
      assert (l + [x])[1..] == l[1..] + [x];
      FilterAppend(l[1..], x, p);
    }
  }

  /** A filter and its complement partition the list. */
  lemma {:induction false} FilterPartition<T>(l: seq<T>, p: T -> bool, q: T -> bool)
    requires forall x :: q(x) == !p(x)
    ensures multiset(Filter(l, p)) + multiset(Filter(l, q)) == multiset(l)
  {
    if l != [] {
      assert l == [l[0]] + l[1..];
      FilterPartition(l[1..], p, q);
    }
  }

  /** Two removals leave the same list in either order. */
  lemma {:induction false} FilterCommutes<T>(l: seq<T>, p: T -> bool, q: T -> bool)
    ensures Filter(Filter(l, p), q) == Filter(Filter(l, q), p)
  {
    if l != [] {
      FilterCommutes(l[1..], p, q);
      var a, b := Filter(l[1..], p), Filter(l[1..], q);
      assert ([l[0]] + a)[1..] == a && ([l[0]] + b)[1..] == b;
    }
  }

  // ---------- headers set on delivery ----------

  /** The 64-bit message counter. */
  function NextId(n: nat): nat { if n + 1 == POW64 then 0 else n + 1 }

  /** Conn.allocateMessageId for a MESSAGE frame. */
  function Stamp(f: Frame, msgId: nat, mode: AckMode): Frame {
    if f.command !in {Message, Ack} then f
    else
      var text := Decimal(msgId);
      var h := SetEntry(SetEntry(f.header, MESSAGE_ID, text), ID, text);
      f.(header := if mode.Auto? then Without(h, ACK) else SetEntry(h, ACK, text))
  }
}
