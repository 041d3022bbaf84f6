/** Frames and subscriptions as the objects that queues, topics and connections share
    (frame/frame.go, server/client/subscription.go). */
module Delivery {
  import opened Text
  import opened Frames
  import opened Acks
  import opened Queues

  class FrameObject {
    var command: Command
    const header: Header
    const body: array?<char>

    constructor (command: Command, header: Header, body: array?<char>)
      ensures this.command == command && this.header == header && this.body == body
    {
      this.command, this.header, this.body := command, header, body;
    }

    ghost predicate Valid() reads this, header { header.Valid() }

    function BodyText(): string reads body { if body == null then "" else body[..] }

    /** What the frame says, apart from which objects say it. */
    function Value(): Frame
      requires header.Valid()
      reads this, header, body
    {
      Frame(command, header.Entries(), BodyText())
    }

    /** A deep copy: no object is shared with the original. */
    method Clone() returns (copy: FrameObject)
      requires Valid()
      ensures copy.Valid() && copy.Value() == Value()
      ensures fresh(copy) && fresh(copy.header) && (copy.body != null ==> fresh(copy.body))
      ensures copy.body == null <==> body == null
    {
      var h := header.Clone();
      var text: array?<char> := null;
      if body != null {
        text := new char[body.Length](i requires 0 <= i < body.Length reads body => body[i]);
        assert text[..] == body[..];
      }
      copy := new FrameObject(command, h, text);
    }
  }

  /** The two channels of a server connection that other goroutines fill. */
  class Endpoint {
    var subChannel: seq<Subscription>
    var writeChannel: seq<FrameObject>
  }

  class Subscription {
    const conn: Endpoint
    const dest: string
    const id: string
    const ack: AckMode
    const msgId: nat
    var subList: SubscriptionList?
    var frame: FrameObject?

    constructor (conn: Endpoint, dest: string, id: string, ack: AckMode)
      ensures this.conn == conn && this.dest == dest && this.id == id && this.ack == ack && msgId == 0
      ensures subList == null && frame == null
    {
      this.conn, this.dest, this.id, this.ack, this.msgId := conn, dest, id, ack, 0;
      subList, frame := null, null;
    }

    /** Returns false where the source panics because a frame is already pending. */
    method SetSubscriptionHeader(f: FrameObject) returns (ok: bool)
      requires f.Valid()
      modifies f.header
      ensures f.Valid() && ok == (frame == null)
      ensures f.Value() == old(if ok then Tagged(f.Value(), id) else f.Value())
    {
      if frame != null { return false; }
      f.header.Set(SUBSCRIPTION, id);
      return true;
    }

    method SendQueueFrame(f: FrameObject) returns (ok: bool)
      requires f.Valid()
      modifies this`frame, f.header, conn`subChannel
      ensures f.Valid() && ok == (old(frame) == null)
      ensures ok ==> frame == f && conn.subChannel == old(conn.subChannel) + [this]
      ensures ok ==> f.Value() == Tagged(old(f.Value()), id)
      ensures !ok ==> frame == old(frame) && conn.subChannel == old(conn.subChannel) && f.Value() == old(f.Value())
    {
      ok := SetSubscriptionHeader(f);
      if ok {
        frame := f;
        conn.subChannel := conn.subChannel + [this];
      }
    }

    method SendTopicFrame(f: FrameObject) returns (ok: bool)
      requires f.Valid()
      modifies f.header, conn`writeChannel
      ensures f.Valid() && ok == (frame == null)
      ensures f.Value() == old(if ok then Tagged(f.Value(), id) else f.Value())
      ensures conn.writeChannel == old(conn.writeChannel) + if ok then [f] else []
    {
      ok := SetSubscriptionHeader(f);
      if ok { conn.writeChannel := conn.writeChannel + [f]; }
    }
  }

  /** The message as the subscription with this id receives it. */
  function Tagged(f: Frame, id: string): Frame { f.(header := SetEntry(f.header, SUBSCRIPTION, id)) }

  lemma TaggedSays(f: Frame, id: string)
    ensures var g := Tagged(f, id);
            && g.command == f.command && g.body == f.body && Lookup(g.header, "subscription") == Some(id)
            && forall key :: key != "subscription" ==> Lookup(g.header, key) == Lookup(f.header, key)
  {
    forall key ensures Lookup(Tagged(f, id).header, key) == if key == "subscription" then Some(id) else Lookup(f.header, key) {
      LookupAfterSet(f.header, SUBSCRIPTION, id, key);
    }
  }

  /** Subscription.IsAckedBy on the object; an unknown mode panics and is never acknowledged. */
  predicate AckedBy(s: Subscription, msgId: nat) { !s.ack.Invalid? && Acked(s.ack, s.msgId, msgId) }

  predicate NackedBy(s: Subscription, msgId: nat) { Nacked(s.msgId, msgId) }

  // ---------- lists of subscriptions ----------

  ghost predicate Distinct<T>(l: seq<T>) { forall i, j :: 0 <= i < j < |l| ==> l[i] != l[j] }

  /** The first element, as a sequence, if there is one. */
  function First<T>(l: seq<T>): seq<T> { if l == [] then [] else [l[0]] }

  class SubscriptionList {
    var subs: seq<Subscription>

    constructor ()
      ensures subs == [] && Valid()
    {
      subs := [];
    }

    /** No subscription occurs twice, and each one listed points back here. The converse does not hold:
        Ack, Nack and FindByIdAndRemove leave the pointer set. */
    ghost predicate Valid() reads this, subs {
      Distinct(subs) && forall s :: s in subs ==> s.subList == this
    }

    /** Returns false where the source panics because the subscription points to a list already. */
    method Add(sub: Subscription, ghost world: set<SubscriptionList>) returns (ok: bool)
      requires this in world && AllValid(world)
      modifies this, sub`subList
      ensures AllValid(world) && ok == (old(sub.subList) == null)
      ensures subs == old(subs) + if ok then [sub] else []
      ensures sub.subList == if ok then this else old(sub.subList)
    {
      if sub.subList != null { return false; }
      assert forall l :: l in world && l.Valid() ==> sub !in l.subs;
      subs := subs + [sub];
      sub.subList := this;
      return true;
    }

    method Get(ghost world: set<SubscriptionList>) returns (sub: Subscription?)
      requires this in world && AllValid(world)
      modifies this, First(subs)`subList
      ensures AllValid(world) && (sub == null <==> old(subs) == [])
      ensures sub != null ==> old(subs) == [sub] + subs && sub.subList == null
      ensures sub == null ==> subs == old(subs)
    {
      if |subs| == 0 { return null; }
      sub := subs[0];
      assert forall l :: l in world && l.Valid() && sub in l.subs ==> l == this;
      subs := subs[1..];
      sub.subList := null;
    }

    /** Takes element i out of the list, leaving its pointer. */
    method Unlink(i: nat, ghost world: set<SubscriptionList>)
      requires this in world && AllValid(world) && i < |subs|
      modifies this
      ensures AllValid(world) && subs == old(subs[..i] + subs[i + 1..])
      ensures forall l :: l in world ==> old(subs[i]) !in l.subs
    {
      assert forall l :: l in world && l.Valid() && subs[i] in l.subs ==> l == this;
      subs := subs[..i] + subs[i + 1..];
    }

    /** Takes the subscription out if it is listed here. */
    method Remove(s: Subscription, ghost world: set<SubscriptionList>)
      requires this in world && AllValid(world)
      modifies this, s`subList
      ensures AllValid(world) && subs == RemoveFirst(old(subs), s)
      ensures s.subList == if s in old(subs) then null else old(s.subList)
    {
      var i := 0;
      while i < |subs|
        invariant 0 <= i <= |subs| && subs == old(subs) && s.subList == old(s.subList)
        invariant s !in subs[..i] && AllValid(world)
      {
        if subs[i] == s {
          RemoveAt(subs, s, i);
          Unlink(i, world);
          assert forall l :: l in world ==> s !in l.subs;
          s.subList := null;
          return;
        }
        i := i + 1;
      }
      RemoveAbsent(subs, s);
    }

    /** Takes out the first subscription with the id; its pointer stays set. */
    method FindByIdAndRemove(id: string, ghost world: set<SubscriptionList>) returns (sub: Subscription?)
      requires this in world && AllValid(world)
      modifies this
      ensures AllValid(world)
      ensures sub == null ==> subs == old(subs) && forall s :: s in subs ==> s.id != id
      ensures sub != null ==> sub.id == id && sub in old(subs) && subs == RemoveFirst(old(subs), sub)
      ensures sub != null ==> forall i :: 0 <= i < |old(subs)| && old(subs)[i].id == id ==>
                                            sub in old(subs)[..i + 1]
    {
      var i := 0;
      while i < |subs|
        invariant 0 <= i <= |subs| && subs == old(subs) && AllValid(world)
        invariant forall s :: s in subs[..i] ==> s.id != id
      {
        sub := subs[i];
        if sub.id == id {
          RemoveAt(subs, sub, i);
          assert forall j :: 0 <= j < i ==> subs[j] in subs[..i];
          Unlink(i, world);
          return;
        }
        i := i + 1;
      }
      return null;
    }

    /** Calls back for every acknowledged subscription, in order, and keeps the others in order. Stops at
        the first subscription with an unknown mode, where the source panics. */
    method Ack(msgId: nat, ghost world: set<SubscriptionList>) returns (called: seq<Subscription>, ok: bool)
      requires this in world && AllValid(world)
      modifies this
      ensures AllValid(world) && ok == (Sound(old(subs)) == |old(subs)|)
      ensures called == Called(AckOf(msgId), old(subs)) && subs == Left(AckOf(msgId), old(subs))
    {
      ghost var was, n, op := subs, Sound(subs), AckOf(msgId);
      ghost var hit, miss := Hit(op), Miss(op);
      called, ok := [], true;
      var i := 0;
      ghost var k := 0;
      while i < |subs|
        invariant 0 <= k <= |was| && AllValid(world) && k <= n
        invariant i == |Filter(was[..k], miss)| && called == Filter(was[..k], hit)
        invariant subs == Filter(was[..k], miss) + was[k..]
        decreases |subs| - i
      {
        var sub := subs[i];
        SortOut(was, k, subs, i, hit, miss);
        SoundAt(was, k);
        if sub.ack.Invalid? {
          ok := false;
          return;
        }
        if AckedBy(sub, msgId) {
          Unlink(i, world);
          called := called + [sub];
        } else {
          i := i + 1;
        }
        k := k + 1;
      }
      assert k == n && was[..k] == was && was[k..] == [];
    }

    /** As Ack, for the subscriptions that hold exactly this message. */
    method Nack(msgId: nat, ghost world: set<SubscriptionList>) returns (called: seq<Subscription>)
      requires this in world && AllValid(world)
      modifies this
      ensures AllValid(world)
      ensures called == Called(NackOf(msgId), old(subs)) && subs == Left(NackOf(msgId), old(subs))
    {
      ghost var op := NackOf(msgId);
      ghost var hit, miss := Hit(op), Miss(op);
      called := [];
      var i := 0;
      ghost var k := 0;
      while i < |subs|
        invariant 0 <= k <= |old(subs)| && AllValid(world)
        invariant i == |Filter(old(subs)[..k], miss)| && called == Filter(old(subs)[..k], hit)
        invariant subs == Filter(old(subs)[..k], miss) + old(subs)[k..]
        decreases |subs| - i
      {
        var sub := subs[i];
        SortOut(old(subs), k, subs, i, hit, miss);
        if NackedBy(sub, msgId) {
          Unlink(i, world);
          called := called + [sub];
        } else {
          i := i + 1;
        }
        k := k + 1;
      }
      assert old(subs)[..k] == old(subs) && old(subs)[k..] == [];
    }
  }

  // ---------- what an acknowledgement does to a list ----------

  datatype Release = AckOf(msgId: nat) | NackOf(msgId: nat)

  predicate Matches(r: Release, s: Subscription) {
    match r case AckOf(m) => AckedBy(s, m) case NackOf(m) => NackedBy(s, m)
  }

  function Hit(r: Release): Subscription -> bool { (s: Subscription) => Matches(r, s) }

  function Miss(r: Release): Subscription -> bool { (s: Subscription) => !Matches(r, s) }

  /** How far the sweep gets: an ACK stops at the first unknown mode, a NACK does not look at modes. */
  function Reach(r: Release, l: seq<Subscription>): (n: nat)
    ensures n <= |l|
  {
    if r.AckOf? then Sound(l) else |l|
  }

  /** The subscriptions called back, in order. */
  function Called(r: Release, l: seq<Subscription>): seq<Subscription> {
    Filter(l[..Reach(r, l)], Hit(r))
  }

  /** The list that is left. */
  function Left(r: Release, l: seq<Subscription>): seq<Subscription> {
    Filter(l[..Reach(r, l)], Miss(r)) + l[Reach(r, l)..]
  }

  /** a can be got from l by leaving elements out. */
  predicate Within<T(==)>(a: seq<T>, l: seq<T>) {
    a == [] || (l != [] && ((a[0] == l[0] && Within(a[1..], l[1..])) || Within(a, l[1..])))
  }

  lemma {:induction false} FilterWithin<T>(l: seq<T>, p: T -> bool)
    ensures Within(Filter(l, p), l)
  {
    if l != [] {
      FilterWithin(l[1..], p);
      assert ([l[0]] + Filter(l[1..], p))[1..] == Filter(l[1..], p);
    }
  }

  lemma {:induction false} WithinExtended<T>(a: seq<T>, l: seq<T>, t: seq<T>)
    requires Within(a, l)
    ensures Within(a + t, l + t)
    decreases |l|
  {
    if l == [] {
      WithinSelf(t);
      assert a + t == t && l + t == t;
    } else {
      assert (l + t)[1..] == l[1..] + t && (l + t)[0] == l[0];
      if a != [] && a[0] == l[0] && Within(a[1..], l[1..]) {
        WithinExtended(a[1..], l[1..], t);
        assert (a + t)[1..] == a[1..] + t && (a + t)[0] == a[0];
      } else {
        WithinExtended(a, l[1..], t);
      }
    }
  }

  lemma {:induction false} WithinSelf<T>(t: seq<T>)
    ensures Within(t, t)
  {
    if t != [] { WithinSelf(t[1..]); }
  }

  lemma {:induction false} WithinLonger<T>(a: seq<T>, l: seq<T>, t: seq<T>)
    requires Within(a, l)
    ensures Within(a, l + t)
    decreases |l|
  {
    if a != [] {
      assert (l + t)[1..] == l[1..] + t && (l + t)[0] == l[0];
      if a[0] == l[0] && Within(a[1..], l[1..]) {
        WithinLonger(a[1..], l[1..], t);
      } else {
        WithinLonger(a, l[1..], t);
      }
    }
  }

  /** The called back and the left together are the list, each entry once. */
  lemma ReleasePartitions(r: Release, l: seq<Subscription>)
    ensures multiset(Called(r, l)) + multiset(Left(r, l)) == multiset(l)
  {
    var a, b := l[..Reach(r, l)], l[Reach(r, l)..];
    assert l == a + b;
    FilterPartition(a, Hit(r), Miss(r));
  }

  /** Both keep the order of the list. */
  lemma ReleaseKeepsOrder(r: Release, l: seq<Subscription>)
    ensures Within(Called(r, l), l) && Within(Left(r, l), l)
  {
    var a, b := l[..Reach(r, l)], l[Reach(r, l)..];
    assert l == a + b;
    FilterWithin(a, Hit(r));
    FilterWithin(a, Miss(r));
    WithinLonger(Filter(a, Hit(r)), a, b);
    WithinExtended(Filter(a, Miss(r)), a, b);
  }

  /** Exactly the matching entries that the sweep reaches are called back, and none of them is left. */
  lemma ReleaseMatches(r: Release, l: seq<Subscription>)
    ensures forall s :: s in Called(r, l) <==> s in l[..Reach(r, l)] && Matches(r, s)
    ensures forall s :: s in Left(r, l) <==> s in l[Reach(r, l)..] || (s in l[..Reach(r, l)] && !Matches(r, s))
  {
    FilterMembers(l[..Reach(r, l)], Hit(r));
    FilterMembers(l[..Reach(r, l)], Miss(r));
  }

  lemma {:induction false} SoundExactly(l: seq<Subscription>)
    ensures Sound(l) == |l| <==> forall s :: s in l ==> !s.ack.Invalid?
  {
    if l != [] {
      SoundExactly(l[1..]);
      assert l == [l[0]] + l[1..];
    }
  }

  /** On a list of known modes two acknowledgements, or an ACK and a NACK, can come in either order: they
      leave the same list and call back the same subscriptions. Two NACKs can on any list. */
  lemma ReleasesCommute(a: Release, b: Release, l: seq<Subscription>)
    requires a.AckOf? || b.AckOf? ==> Sound(l) == |l|
    ensures Left(b, Left(a, l)) == Left(a, Left(b, l))
    ensures multiset(Called(a, l)) + multiset(Called(b, Left(a, l))) ==
            multiset(Called(b, l)) + multiset(Called(a, Left(b, l)))
  {
    LeftTwice(a, b, l);
    LeftTwice(b, a, l);
    FilterCommutes(l, Miss(a), Miss(b));
    ReleasePartitions(a, l);
    ReleasePartitions(b, Left(a, l));
    ReleasePartitions(b, l);
    ReleasePartitions(a, Left(b, l));
    Cancel(Called(a, l), Called(b, Left(a, l)), Left(b, Left(a, l)), Left(a, l), l);
    Cancel(Called(b, l), Called(a, Left(b, l)), Left(a, Left(b, l)), Left(b, l), l);
  }

  lemma Cancel(c1: seq<Subscription>, c2: seq<Subscription>, end: seq<Subscription>, mid: seq<Subscription>,
               l: seq<Subscription>)
    requires multiset(c1) + multiset(mid) == multiset(l) && multiset(c2) + multiset(end) == multiset(mid)
    ensures multiset(c1) + multiset(c2) == multiset(l) - multiset(end)
  {
  }

  lemma LeftIsFilter(r: Release, l: seq<Subscription>)
    requires Reach(r, l) == |l|
    ensures Left(r, l) == Filter(l, Miss(r))
  {
    assert l[..|l|] == l && l[|l|..] == [];
  }

  lemma LeftTwice(a: Release, b: Release, l: seq<Subscription>)
    requires a.AckOf? || b.AckOf? ==> Sound(l) == |l|
    ensures Left(b, Left(a, l)) == Filter(Filter(l, Miss(a)), Miss(b))
  {
    var m := Filter(l, Miss(a));
    LeftIsFilter(a, l);
    FilterMembers(l, Miss(a));
    SoundExactly(l);
    SoundExactly(m);
    LeftIsFilter(b, m);
  }

  /** How many subscriptions precede the first one with an unknown mode. */
  function Sound(l: seq<Subscription>): (n: nat)
    ensures n <= |l|
  {
    if l == [] || l[0].ack.Invalid? then 0 else 1 + Sound(l[1..])
  }

  lemma {:induction false} SoundAt(l: seq<Subscription>, k: nat)
    requires k <= Sound(l) && k < |l|
    ensures l[k].ack.Invalid? <==> k == Sound(l)
  {
    if k > 0 { SoundAt(l[1..], k - 1); }
  }

  /** The sweep has sorted out the first k elements of l; it now looks at element i of what is left. */
  lemma SortOut<T>(l: seq<T>, k: nat, left: seq<T>, i: nat, hit: T -> bool, miss: T -> bool)
    requires k <= |l| && left == Filter(l[..k], miss) + l[k..] && i == |Filter(l[..k], miss)| < |left|
    requires forall x :: miss(x) == !hit(x)
    ensures k < |l| && left[i] == l[k]
    ensures Filter(l[..k + 1], hit) == Filter(l[..k], hit) + if hit(l[k]) then [l[k]] else []
    ensures (if hit(l[k]) then left[..i] + left[i + 1..] else left) == Filter(l[..k + 1], miss) + l[k + 1..]
    ensures |Filter(l[..k + 1], miss)| == if hit(l[k]) then i else i + 1
  {
    Around(l, k);
    Erase(Filter(l[..k], miss), l[k], l[k + 1..]);
    FilterAppend(l[..k], l[k], hit);
    FilterAppend(l[..k], l[k], miss);
  }

  lemma Around<T>(l: seq<T>, k: nat)
    requires k < |l|
    ensures l[..k + 1] == l[..k] + [l[k]] && l[k..] == [l[k]] + l[k + 1..]
  {
  }

  lemma Erase<T>(a: seq<T>, x: T, b: seq<T>)
    ensures var l := a + ([x] + b);
            l[|a|] == x && l[..|a|] + l[|a| + 1..] == a + b && l == (a + [x]) + b
  {
  }

  lemma {:induction false} RemoveAt<T>(l: seq<T>, x: T, i: nat)
    requires i < |l| && l[i] == x && x !in l[..i]
    ensures RemoveFirst(l, x) == l[..i] + l[i + 1..]
  {
    if i > 0 {
      assert l[0] in l[..i] && l[1..][..i - 1] == l[..i][1..];
      RemoveAt(l[1..], x, i - 1);
    }
  }

  lemma {:induction false} RemoveAbsent<T>(l: seq<T>, x: T)
    requires x !in l
    ensures RemoveFirst(l, x) == l
  {
    if l != [] { RemoveAbsent(l[1..], x); }
  }

  ghost function Members(world: set<SubscriptionList>): (r: set<Subscription>)
    reads world
    ensures forall l, s :: l in world && s in l.subs ==> s in r
  {
    set l, s | l in world && s in l.subs :: s
  }

  /** Every list there is satisfies its invariant. */
  ghost predicate AllValid(world: set<SubscriptionList>)
    reads world, Members(world)
  {
    forall l :: l in world ==> l.Valid()
  }
}
