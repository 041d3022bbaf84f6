/** Frames and headers as values (frame/frame.go, frame/header.go), and the header object that the
    source updates in place. */
module Frames {
  import opened Text

  datatype Entry = Entry(key: string, value: string)

  /** The STOMP commands; Raw is any other text in the command position. */
  datatype Command = Connect | Stomp | Connected | Send | Subscribe | Unsubscribe | Ack | Nack
                   | Begin | Commit | Abort | Disconnect | Message | Receipt | Error | Raw(text: string)

  datatype Frame = Frame(command: Command, header: seq<Entry>, body: string)

  const DESTINATION := "destination"
  const TRANSACTION := "transaction"
  const RECEIPT := "receipt"
  const RECEIPT_ID := "receipt-id"
  const SUBSCRIPTION := "subscription"
  const MESSAGE_ID := "message-id"
  const ID := "id"
  const ACK := "ack"
  const REPLY_TO := "reply-to"
  const CONTENT_LENGTH := "content-length"
  const ACCEPT_VERSION := "accept-version"
  const HEART_BEAT := "heart-beat"

  // ---------- headers as values ----------

  /** The value of the first entry with the key (Header.Contains). */
  function Lookup(h: seq<Entry>, key: string): Option<string> {
    if h == [] then None
    else if h[0].key == key then Some(h[0].value)
    else Lookup(h[1..], key)
  }

  lemma LookupShort(a: Entry, b: Entry, c: Entry, key: string)
    ensures Lookup([a], key) == if a.key == key then Some(a.value) else None
    ensures Lookup([a, b], key) == if a.key == key then Some(a.value) else if b.key == key then Some(b.value) else None
    ensures Lookup([a, b, c], key) == if a.key == key then Some(a.value) else Lookup([b, c], key)
    ensures Lookup([b, c], key) == if b.key == key then Some(b.value) else if c.key == key then Some(c.value) else None
  {
    assert [a, b, c][1..] == [b, c] && [b, c][1..] == [c] && [c][1..] == [] && [a, b][1..] == [b] && [b][1..] == [];
    assert [a][1..] == [] && Lookup([c], key) == (if c.key == key then Some(c.value) else None);
    assert Lookup([b], key) == if b.key == key then Some(b.value) else None;
  }

  /** Replaces the first entry with the key, or appends one (Header.Set). */
  function SetEntry(h: seq<Entry>, key: string, value: string): seq<Entry> {
    if h == [] then [Entry(key, value)]
    else if h[0].key == key then [Entry(key, value)] + h[1..]
    else [h[0]] + SetEntry(h[1..], key, value)
  }

  /** Drops every entry with the key (Header.Del). */
  function Without(h: seq<Entry>, key: string): seq<Entry> {
    if h == [] then []
    else if h[0].key == key then Without(h[1..], key)
    else [h[0]] + Without(h[1..], key)
  }

  /** All values of a key, in order (Header.GetAll). */
  function AllValues(h: seq<Entry>, key: string): seq<string> {
    if h == [] then []
    else (if h[0].key == key then [h[0].value] else []) + AllValues(h[1..], key)
  }

  lemma {:induction false} LookupAfterSet(h: seq<Entry>, key: string, value: string, other: string)
    ensures Lookup(SetEntry(h, key, value), other) ==
            if other == key then Some(value) else Lookup(h, other)
  {
    if h != [] && h[0].key != key { LookupAfterSet(h[1..], key, value, other); }
  }

  lemma {:induction false} LookupAfterWithout(h: seq<Entry>, key: string, other: string)
    ensures Lookup(Without(h, key), other) == if other == key then None else Lookup(h, other)
  {
    if h != [] { LookupAfterWithout(h[1..], key, other); }
  }

  lemma {:induction false} WithoutAfterSet(h: seq<Entry>, key: string, value: string)
    ensures Without(SetEntry(h, key, value), key) == Without(h, key)
  {
    if h != [] && h[0].key != key { WithoutAfterSet(h[1..], key, value); }
  }

  /** Deleting is order-independent: only the set of deleted keys matters. */
  lemma {:induction false} WithoutCommutes(h: seq<Entry>, a: string, b: string)
    ensures Without(Without(h, a), b) == Without(Without(h, b), a)
  {
    if h != [] { WithoutCommutes(h[1..], a, b); }
  }

  lemma {:induction false} WithoutIdempotent(h: seq<Entry>, key: string)
    requires Lookup(h, key).None?
    ensures Without(h, key) == h
  {
    if h != [] { WithoutIdempotent(h[1..], key); }
  }

  /** Setting one key and deleting another commute. */
  lemma {:induction false} SetWithoutCommute(h: seq<Entry>, key: string, value: string, gone: string)
    requires key != gone
    ensures Without(SetEntry(h, key, value), gone) == SetEntry(Without(h, gone), key, value)
  {
    if h != [] && h[0].key != key { SetWithoutCommute(h[1..], key, value, gone); }
  }

  lemma {:induction false} WithoutAt(h: seq<Entry>, key: string, i: nat)
    requires i < |h| && h[i].key == key
    ensures Without(h[..i] + h[i + 1..], key) == Without(h, key)
  {
    if i == 0 {
      assert h[..0] + h[1..] == h[1..];
    } else {
      assert (h[..i] + h[i + 1..])[1..] == h[1..][..i - 1] + h[1..][i..];
      WithoutAt(h[1..], key, i - 1);
    }
  }

  lemma {:induction false} FirstAt(h: seq<Entry>, key: string, i: nat)
    requires i < |h| && h[i].key == key
    requires forall j :: 0 <= j < i ==> h[j].key != key
    ensures Lookup(h, key) == Some(h[i].value)
    ensures forall v :: SetEntry(h, key, v) == h[i := Entry(key, v)]
  {
    if i > 0 {
      FirstAt(h[1..], key, i - 1);
      forall v ensures SetEntry(h, key, v) == h[i := Entry(key, v)] {
        assert [h[0]] + h[1..][i - 1 := Entry(key, v)] == h[i := Entry(key, v)];
      }
    } else {
      forall v ensures SetEntry(h, key, v) == h[i := Entry(key, v)] {
        assert [Entry(key, v)] + h[1..] == h[0 := Entry(key, v)];
      }
    }
  }

  lemma {:induction false} NoneAt(h: seq<Entry>, key: string)
    requires forall j :: 0 <= j < |h| ==> h[j].key != key
    ensures Lookup(h, key).None? && Without(h, key) == h && AllValues(h, key) == []
    ensures forall v :: SetEntry(h, key, v) == h + [Entry(key, v)]
  {
    if h != [] {
      NoneAt(h[1..], key);
      forall v ensures SetEntry(h, key, v) == h + [Entry(key, v)] {
        assert [h[0]] + (h[1..] + [Entry(key, v)]) == h + [Entry(key, v)];
      }
    }
  }

  lemma {:induction false} AllValuesAppend(h: seq<Entry>, e: Entry, key: string)
    ensures AllValues(h + [e], key) == AllValues(h, key) + if e.key == key then [e.value] else []
  {
    if h != [] {
      assert (h + [e])[1..] == h[1..] + [e];
      AllValuesAppend(h[1..], e, key);
    } else {
      assert (h + [e])[1..] == [];
    }
  }

  datatype Length = Absent | Malformed | Length(n: nat)

  /** Header.ContentLength: the first content-length entry, as a 32-bit unsigned number. */
  function ContentLength(h: seq<Entry>): Length {
    match Lookup(h, CONTENT_LENGTH)
    case None => Absent
    case Some(text) =>
      match ParseUint(text, POW32)
      case None => Malformed
      case Some(n) => Length(n)
  }

  // ---------- the header object ----------

  /** The source keeps keys at even and values at odd positions of one slice. */
  function Pairs(slice: seq<string>): (h: seq<Entry>)
    requires |slice| % 2 == 0
    ensures |h| == |slice| / 2
  {
    seq(|slice| / 2, i requires 0 <= i < |slice| / 2 => Entry(slice[2 * i], slice[2 * i + 1]))
  }

  class Header {
    var slice: seq<string>

    predicate Valid() reads this { |slice| % 2 == 0 }

    function Entries(): seq<Entry>
      requires Valid()
      reads this
    {
      Pairs(slice)
    }

    constructor ()
      ensures Valid() && Entries() == []
    {
      slice := [];
    }

    method Add(key: string, value: string)
      requires Valid()
      modifies this
      ensures Valid() && Entries() == old(Entries()) + [Entry(key, value)]
    {
      slice := slice + [key, value];
    }

    method AddHeader(header: Header?)
      requires Valid() && (header != null ==> header.Valid() && header != this)
      modifies this
      ensures Valid()
      ensures Entries() == old(Entries()) + if header == null then [] else header.Entries()
    {
      if header != null {
        var i, n := 0, |header.slice| / 2;
        while i < n
          invariant 0 <= i <= n == |header.slice| / 2 && Valid()
          invariant Entries() == old(Entries()) + header.Entries()[..i]
        {
          Add(header.slice[2 * i], header.slice[2 * i + 1]);
          i := i + 1;
        }
      }
    }

    /** The position of the first entry with the key, or -1. */
    method Index(key: string) returns (i: int)
      requires Valid()
      ensures i < 0 ==> forall j :: 0 <= j < |Entries()| ==> Entries()[j].key != key
      ensures i >= 0 ==> i % 2 == 0 && i + 1 < |slice| && Entries()[i / 2].key == key
      ensures i >= 0 ==> forall j :: 0 <= j < i / 2 ==> Entries()[j].key != key
    {
      i := 0;
      while i < |slice|
        invariant 0 <= i <= |slice| && i % 2 == 0
        invariant forall j :: 0 <= j < i / 2 ==> Entries()[j].key != key
      {
        assert Entries()[i / 2].key == slice[i];
        if slice[i] == key { return; }
        i := i + 2;
      }
      i := -1;
    }

    method Contains(key: string) returns (value: string, ok: bool)
      requires Valid()
      ensures Lookup(Entries(), key) == if ok then Some(value) else None
      ensures !ok ==> value == ""
    {
      var i := Index(key);
      if i >= 0 {
        value, ok := slice[i + 1], true;
        FirstAt(Entries(), key, i / 2);
      } else {
        value, ok := "", false;
        NoneAt(Entries(), key);
      }
    }

    method GetAll(key: string) returns (values: seq<string>)
      requires Valid()
      ensures values == AllValues(Entries(), key)
    {
      values := [];
      var i := 0;
      while i < |slice|
        invariant 0 <= i <= |slice| && i % 2 == 0
        invariant values == AllValues(Entries()[..i / 2], key)
      {
        AllValuesAppend(Entries()[..i / 2], Entries()[i / 2], key);
        assert Entries()[..i / 2 + 1] == Entries()[..i / 2] + [Entries()[i / 2]];
        if slice[i] == key { values := values + [slice[i + 1]]; }
        i := i + 2;
      }
      assert Entries()[..i / 2] == Entries();
    }

    method Set(key: string, value: string)
      requires Valid()
      modifies this
      ensures Valid() && Entries() == SetEntry(old(Entries()), key, value)
    {
      var i := Index(key);
      if i >= 0 {
        FirstAt(Entries(), key, i / 2);
        ghost var want := Entries()[i / 2 := Entry(key, value)];
        slice := slice[i + 1 := value];
        assert Entries() == want;
      } else {
        NoneAt(Entries(), key);
        slice := slice + [key, value];
        assert Entries() == old(Entries()) + [Entry(key, value)];
      }
    }

    /** Takes the entry whose key is at position i out of the slice. */
    method Cut(i: nat)
      requires Valid() && i % 2 == 0 && i + 1 < |slice|
      modifies this
      ensures Valid() && |slice| < old(|slice|)
      ensures Entries() == old(Entries()[..i / 2] + Entries()[i / 2 + 1..])
    {
      slice := slice[..i] + slice[i + 2..];
    }

    /** Deletes every entry with the key, one search at a time. */
    method Del(key: string)
      requires Valid()
      modifies this
      ensures Valid() && Entries() == Without(old(Entries()), key)
    {
      var i := Index(key);
      while i >= 0
        invariant Valid() && Without(Entries(), key) == Without(old(Entries()), key)
        invariant i >= 0 ==> i % 2 == 0 && i + 1 < |slice| && Entries()[i / 2].key == key
        invariant i < 0 ==> forall j :: 0 <= j < |Entries()| ==> Entries()[j].key != key
        decreases |slice|, i >= 0
      {
        WithoutAt(Entries(), key, i / 2);
        Cut(i);
        i := Index(key);
      }
      NoneAt(Entries(), key);
    }

    method Clone() returns (copy: Header)
      requires Valid()
      ensures fresh(copy) && copy.Valid() && copy.Entries() == Entries()
    {
      copy := new Header();
      copy.slice := slice;
    }
  }
}
