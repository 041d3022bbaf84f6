/** One server queue: the subscriptions waiting for a frame and the frames waiting for a subscription
    (server/queue/queue.go, server/queue/memory_queue.go). */
module Queues {
  import opened Text

  datatype Queue<S, F> = Queue(idle: seq<S>, stored: seq<F>)

  /** The queue afterwards, and the subscription a frame was handed to, if any. */
  datatype Outcome<S, F> = Outcome(queue: Queue<S, F>, handed: Option<(S, F)>)

  function Subscribe<S, F>(q: Queue<S, F>, s: S): Outcome<S, F> {
    if q.stored == [] then Outcome(q.(idle := q.idle + [s]), None)
    else Outcome(q.(stored := q.stored[1..]), Some((s, q.stored[0])))
  }

  /** The list without the first occurrence of s (SubscriptionList.Remove). */
  function RemoveFirst<S(==)>(l: seq<S>, s: S): seq<S> {
    if l == [] then []
    else if l[0] == s then l[1..]
    else [l[0]] + RemoveFirst(l[1..], s)
  }

  function Unsubscribe<S(==), F>(q: Queue<S, F>, s: S): Queue<S, F> {
    q.(idle := RemoveFirst(q.idle, s))
  }

  function Enqueue<S, F>(q: Queue<S, F>, f: F): Outcome<S, F> {
    if q.idle == [] then Outcome(q.(stored := q.stored + [f]), None)
    else Outcome(q.(idle := q.idle[1..]), Some((q.idle[0], f)))
  }

  function Requeue<S, F>(q: Queue<S, F>, f: F): Outcome<S, F> {
    if q.idle == [] then Outcome(q.(stored := [f] + q.stored), None)
    else Outcome(q.(idle := q.idle[1..]), Some((q.idle[0], f)))
  }

  // ---------- the invariant and the reference queue ----------

  /** Subscriptions and frames never wait for each other. */
  predicate Apart<S, F>(q: Queue<S, F>) { q.idle == [] || q.stored == [] }

  /** The reference: both ends wait in line, and the heads of the two lines are paired off as long as
      neither is empty. */
  function PairOff<S, F>(q: Queue<S, F>): (Queue<S, F>, seq<(S, F)>)
    decreases |q.idle|
  {
    if Apart(q) then (q, [])
    else
      var r := PairOff(Queue(q.idle[1..], q.stored[1..]));
      (r.0, [(q.idle[0], q.stored[0])] + r.1)
  }

  datatype Op<S, F> = Sub(s: S) | Unsub(s: S) | Enq(f: F) | Req(f: F)

  function Apply<S(==), F>(q: Queue<S, F>, op: Op<S, F>): (Queue<S, F>, seq<(S, F)>) {
    match op
    case Unsub(s) => (Unsubscribe(q, s), [])
    case Sub(s) => Flat(Subscribe(q, s))
    case Enq(f) => Flat(Enqueue(q, f))
    case Req(f) => Flat(Requeue(q, f))
  }

  function Flat<S, F>(o: Outcome<S, F>): (Queue<S, F>, seq<(S, F)>) {
    (o.queue, if o.handed.None? then [] else [o.handed.value])
  }

  /** The reference operation: join the line, at its back or (requeue) its front, then pair off. */
  function Reference<S(==), F>(q: Queue<S, F>, op: Op<S, F>): (Queue<S, F>, seq<(S, F)>) {
    match op
    case Unsub(s) => PairOff(q.(idle := RemoveFirst(q.idle, s)))
    case Sub(s) => PairOff(q.(idle := q.idle + [s]))
    case Enq(f) => PairOff(q.(stored := q.stored + [f]))
    case Req(f) => PairOff(q.(stored := [f] + q.stored))
  }

  lemma {:induction false} RemoveFirstMembers<S>(l: seq<S>, s: S)
    ensures multiset(RemoveFirst(l, s)) == multiset(l) - multiset{s}
    ensures s !in l ==> RemoveFirst(l, s) == l
  {
    if l != [] {
      assert l == [l[0]] + l[1..];
      if l[0] != s { RemoveFirstMembers(l[1..], s); }
    }
  }

  lemma PairOne<S, F>(q: Queue<S, F>)
    requires q.idle != [] && q.stored != [] && (|q.idle| == 1 || |q.stored| == 1)
    ensures PairOff(q) == (Queue(q.idle[1..], q.stored[1..]), [(q.idle[0], q.stored[0])])
  {
    var rest := Queue(q.idle[1..], q.stored[1..]);
    var pair := (q.idle[0], q.stored[0]);
    assert Apart(rest) && PairOff(rest) == (rest, []);
    assert [pair] + [] == [pair];
  }

  /** Handing a frame over directly is the same as queueing it and pairing off the heads. */
  lemma DirectHandOff<S, F>(q: Queue<S, F>, op: Op<S, F>)
    requires Apart(q)
    ensures Apply(q, op) == Reference(q, op)
    ensures Apart(Apply(q, op).0)
  {
    match op
    case Unsub(s) =>
    case Sub(s) => if q.stored != [] { PairOne(Queue([s], q.stored)); assert q.idle + [s] == [s] && [s][1..] == []; }
    case Enq(f) => if q.idle != [] { PairOne(Queue(q.idle, [f])); assert q.stored + [f] == [f] && [f][1..] == []; }
    case Req(f) => if q.idle != [] { PairOne(Queue(q.idle, [f])); assert [f] + q.stored == [f] && [f][1..] == []; }
  }

  // ---------- whole runs ----------

  function Run<S(==), F>(q: Queue<S, F>, ops: seq<Op<S, F>>): (Queue<S, F>, seq<(S, F)>)
    decreases |ops|
  {
    if ops == [] then (q, [])
    else
      var first := Apply(q, ops[0]);
      var rest := Run(first.0, ops[1..]);
      (rest.0, first.1 + rest.1)
  }

  function ReferenceRun<S(==), F>(q: Queue<S, F>, ops: seq<Op<S, F>>): (Queue<S, F>, seq<(S, F)>)
    decreases |ops|
  {
    if ops == [] then (q, [])
    else
      var first := Reference(q, ops[0]);
      var rest := ReferenceRun(first.0, ops[1..]);
      (rest.0, first.1 + rest.1)
  }

  /** Over any run the queue delivers exactly what the reference delivers, in the same order, and never
      lets subscriptions and frames wait at the same time. */
  lemma {:induction false} QueueRefinesReference<S, F>(q: Queue<S, F>, ops: seq<Op<S, F>>)
    requires Apart(q)
    ensures Run(q, ops) == ReferenceRun(q, ops)
    ensures Apart(Run(q, ops).0)
    decreases |ops|
  {
    if ops != [] {
      DirectHandOff(q, ops[0]);
      QueueRefinesReference(Apply(q, ops[0]).0, ops[1..]);
    }
  }

  function FramesOf<S, F>(d: seq<(S, F)>): seq<F> { if d == [] then [] else [d[0].1] + FramesOf(d[1..]) }

  function SubsOf<S, F>(d: seq<(S, F)>): seq<S> { if d == [] then [] else [d[0].0] + SubsOf(d[1..]) }

  function Enqueued<S, F>(ops: seq<Op<S, F>>): seq<F> {
    if ops == [] then [] else (if ops[0].Enq? then [ops[0].f] else []) + Enqueued(ops[1..])
  }

  function Subscribed<S, F>(ops: seq<Op<S, F>>): seq<S> {
    if ops == [] then [] else (if ops[0].Sub? then [ops[0].s] else []) + Subscribed(ops[1..])
  }

  lemma InFront<T>(x: T, a: seq<T>, b: seq<T>)
    ensures [x] + (a + b) == ([x] + a) + b
  {
  }

  lemma {:induction false} FramesOfConcat<S, F>(a: seq<(S, F)>, b: seq<(S, F)>)
    ensures FramesOf(a + b) == FramesOf(a) + FramesOf(b)
    ensures SubsOf(a + b) == SubsOf(a) + SubsOf(b)
  {
    if a == [] {
      assert a + b == b;
    } else {
      assert (a + b)[1..] == a[1..] + b && (a + b)[0] == a[0];
      FramesOfConcat(a[1..], b);
      InFront(a[0].1, FramesOf(a[1..]), FramesOf(b));
      InFront(a[0].0, SubsOf(a[1..]), SubsOf(b));
    }
  }

  lemma FifoStep<S, F>(q: Queue<S, F>, op: Op<S, F>)
    requires Apart(q)
    ensures !op.Req? ==> FramesOf(Apply(q, op).1) + Apply(q, op).0.stored ==
                         q.stored + if op.Enq? then [op.f] else []
    ensures !op.Unsub? ==> SubsOf(Apply(q, op).1) + Apply(q, op).0.idle ==
                           q.idle + if op.Sub? then [op.s] else []
  {
    var d := Apply(q, op).1;
    if d != [] { assert d == [d[0]] && d[1..] == []; }
  }

  lemma Chain<T>(first: seq<T>, middle: seq<T>, more: seq<T>, end: seq<T>, start: seq<T>, a: seq<T>, b: seq<T>)
    requires first + middle == start + a && more + end == middle + b
    ensures (first + more) + end == start + (a + b)
  {
    assert (first + more) + end == first + (middle + b) == (first + middle) + b;
  }

  /** Without requeues, the frames delivered followed by the frames stored are the frames enqueued, in
      order. */
  lemma {:induction false} FramesAreFifo<S, F>(q: Queue<S, F>, ops: seq<Op<S, F>>)
    requires Apart(q) && forall i :: 0 <= i < |ops| ==> !ops[i].Req?
    ensures FramesOf(Run(q, ops).1) + Run(q, ops).0.stored == q.stored + Enqueued(ops)
    decreases |ops|
  {
    if ops != [] {
      var first := Apply(q, ops[0]);
      DirectHandOff(q, ops[0]);
      FifoStep(q, ops[0]);
      FramesAreFifo(first.0, ops[1..]);
      var rest := Run(first.0, ops[1..]);
      FramesOfConcat(first.1, rest.1);
      Chain(FramesOf(first.1), first.0.stored, FramesOf(rest.1), rest.0.stored, q.stored,
            if ops[0].Enq? then [ops[0].f] else [], Enqueued(ops[1..]));
    }
  }

  /** Without unsubscriptions, subscriptions are served in the order they became ready. */
  lemma {:induction false} SubscribersAreFifo<S, F>(q: Queue<S, F>, ops: seq<Op<S, F>>)
    requires Apart(q) && forall i :: 0 <= i < |ops| ==> !ops[i].Unsub?
    ensures SubsOf(Run(q, ops).1) + Run(q, ops).0.idle == q.idle + Subscribed(ops)
    decreases |ops|
  {
    if ops != [] {
      var first := Apply(q, ops[0]);
      DirectHandOff(q, ops[0]);
      FifoStep(q, ops[0]);
      SubscribersAreFifo(first.0, ops[1..]);
      var rest := Run(first.0, ops[1..]);
      FramesOfConcat(first.1, rest.1);
      Chain(SubsOf(first.1), first.0.idle, SubsOf(rest.1), rest.0.idle, q.idle,
            if ops[0].Sub? then [ops[0].s] else [], Subscribed(ops[1..]));
    }
  }

  // ---------- many destinations ----------

  datatype Addressed<S, F> = Addressed(dest: string, op: Op<S, F>)

  /** The manager creates a queue when a destination is first used (server/queue/manager.go). */
  function Find<S, F>(m: map<string, Queue<S, F>>, dest: string): Queue<S, F> {
    if dest in m then m[dest] else Queue([], [])
  }

  function RunManager<S(==), F>(m: map<string, Queue<S, F>>, ops: seq<Addressed<S, F>>)
    : (map<string, Queue<S, F>>, seq<(string, (S, F))>)
    decreases |ops|
  {
    if ops == [] then (m, [])
    else
      var d := ops[0].dest;
      var first := Apply(Find(m, d), ops[0].op);
      var rest := RunManager(m[d := first.0], ops[1..]);
      (rest.0, Tag(d, first.1) + rest.1)
  }

  function Tag<S, F>(d: string, l: seq<(S, F)>): seq<(string, (S, F))> {
    if l == [] then [] else [(d, l[0])] + Tag(d, l[1..])
  }

  function For<S, F>(dest: string, ops: seq<Addressed<S, F>>): seq<Op<S, F>> {
    if ops == [] then [] else (if ops[0].dest == dest then [ops[0].op] else []) + For(dest, ops[1..])
  }

  function DeliveredTo<S, F>(dest: string, l: seq<(string, (S, F))>): seq<(S, F)> {
    if l == [] then [] else (if l[0].0 == dest then [l[0].1] else []) + DeliveredTo(dest, l[1..])
  }

  lemma {:induction false} DeliveredTagged<S, F>(dest: string, d: string, l: seq<(S, F)>, more: seq<(string, (S, F))>)
    ensures DeliveredTo(dest, Tag(d, l) + more) == (if d == dest then l else []) + DeliveredTo(dest, more)
  {
    if l == [] {
      assert Tag(d, l) + more == more;
    } else {
      assert (Tag(d, l) + more)[1..] == Tag(d, l[1..]) + more && (Tag(d, l) + more)[0] == (d, l[0]);
      DeliveredTagged(dest, d, l[1..], more);
      if d == dest {
        InFront(l[0], l[1..], DeliveredTo(dest, more));
        assert [l[0]] + l[1..] == l;
      }
    }
  }

  /** What happens at one destination depends only on the operations addressed to it. */
  lemma {:induction false} DestinationsAreIndependent<S, F>(
    m: map<string, Queue<S, F>>, ops: seq<Addressed<S, F>>, dest: string)
    ensures Find(RunManager(m, ops).0, dest) == Run(Find(m, dest), For(dest, ops)).0
    ensures DeliveredTo(dest, RunManager(m, ops).1) == Run(Find(m, dest), For(dest, ops)).1
    decreases |ops|
  {
    if ops != [] {
      var d := ops[0].dest;
      var first := Apply(Find(m, d), ops[0].op);
      DestinationsAreIndependent(m[d := first.0], ops[1..], dest);
      DeliveredTagged(dest, d, first.1, RunManager(m[d := first.0], ops[1..]).1);
      if d == dest {
        assert For(dest, ops) == [ops[0].op] + For(dest, ops[1..]);
        assert For(dest, ops)[1..] == For(dest, ops[1..]);
      } else {
        assert For(dest, ops) == For(dest, ops[1..]);
      }
    }
  }
}
