/** The queue objects of the broker, proved against the value-level queues: storage, queue and manager
    (server/queue/memory_queue.go, server/queue/queue.go, server/queue/manager.go). */
module QueueObjects {
  import opened Delivery
  import Queues

  class MemoryQueueStorage {
    var lists: map<string, seq<FrameObject>>

    constructor ()
      ensures lists == map[]
    {
      lists := map[];
    }

    /** The frames stored for a destination; a destination without a list has none. */
    function At(queue: string): seq<FrameObject>
      reads this
    {
      if queue in lists then lists[queue] else []
    }

    method Enqueue(queue: string, frame: FrameObject)
      modifies this
      ensures At(queue) == old(At(queue)) + [frame]
      ensures forall other :: other != queue ==> At(other) == old(At(other))
    {
      if queue !in lists { lists := lists[queue := []]; }
      lists := lists[queue := lists[queue] + [frame]];
    }

    method Requeue(queue: string, frame: FrameObject)
      modifies this
      ensures At(queue) == [frame] + old(At(queue))
      ensures forall other :: other != queue ==> At(other) == old(At(other))
    {
      if queue !in lists { lists := lists[queue := []]; }
      lists := lists[queue := [frame] + lists[queue]];
    }

    method Dequeue(queue: string) returns (frame: FrameObject?)
      modifies this
      ensures frame == null <==> old(At(queue)) == []
      ensures frame != null ==> old(At(queue)) == [frame] + At(queue)
      ensures frame == null ==> lists == old(lists)
      ensures forall other :: other != queue ==> At(other) == old(At(other))
    {
      if queue !in lists || lists[queue] == [] { return null; }
      frame := lists[queue][0];
      lists := lists[queue := lists[queue][1..]];
    }
  }

  class Queue {
    const destination: string
    const qstore: MemoryQueueStorage
    const subs: SubscriptionList

    constructor (destination: string, qstore: MemoryQueueStorage)
      ensures this.destination == destination && this.qstore == qstore
      ensures fresh(subs) && subs.Valid() && subs.subs == []
    {
      this.destination, this.qstore := destination, qstore;
      subs := new SubscriptionList();
    }

    /** The queue as a value. */
    function View(): Queues.Queue<Subscription, FrameObject>
      reads subs, qstore
    {
      Queues.Queue(subs.subs, qstore.At(destination))
    }

    /** Returns false where the source panics: the subscription has a frame already, or it is to be listed
        and points to a list already. Only the first stored frame may change, and no other destination. */
    method Subscribe(sub: Subscription, ghost world: set<SubscriptionList>) returns (ok: bool)
      requires subs in world && AllValid(world)
      requires forall f :: f in qstore.At(sub.dest) ==> f.Valid()
      modifies qstore, subs, sub, sub.conn`subChannel, set f | f in First(qstore.At(sub.dest)) :: f.header
      ensures AllValid(world)
      ensures ok == if old(qstore.At(sub.dest)) == [] then old(sub.subList) == null else old(sub.frame) == null
      ensures ok && sub.dest == destination ==> View() == Queues.Subscribe(old(View()), sub).queue
      ensures ok && old(qstore.At(sub.dest)) != [] ==> HandedOver(sub, old(qstore.At(sub.dest)[0]))
      ensures old(qstore.At(sub.dest)) != [] ==> sub.subList == old(sub.subList) && subs.subs == old(subs.subs)
      ensures old(qstore.At(sub.dest)) == [] ==>
                sub.frame == old(sub.frame) && sub.conn.subChannel == old(sub.conn.subChannel)
      ensures forall d :: d != sub.dest ==> qstore.At(d) == old(qstore.At(d))
    {
      var f := qstore.Dequeue(sub.dest);
      if f == null {
        ok := subs.Add(sub, world);
      } else {
        ok := sub.SendQueueFrame(f);
      }
    }

    method Unsubscribe(sub: Subscription, ghost world: set<SubscriptionList>)
      requires subs in world && AllValid(world)
      modifies subs, sub`subList
      ensures AllValid(world) && View() == Queues.Unsubscribe(old(View()), sub)
      ensures sub.subList == if sub in old(subs.subs) then null else old(sub.subList)
    {
      subs.Remove(sub, world);
    }

    /** Only the subscription that has waited longest may change. */
    method Enqueue(f: FrameObject, ghost world: set<SubscriptionList>) returns (ok: bool)
      requires subs in world && AllValid(world) && f.Valid()
      modifies qstore, subs, First(subs.subs), f.header, (set s | s in First(subs.subs) :: s.conn)`subChannel
      ensures AllValid(world)
      ensures ok == (old(subs.subs) == [] || old(subs.subs[0].frame) == null)
      ensures View() == Queues.Enqueue(old(View()), f).queue
      ensures ok && old(subs.subs) != [] ==> HandedOver(old(subs.subs[0]), f) && old(subs.subs[0]).subList == null
      ensures old(subs.subs) == [] ==> f.Valid() && f.Value() == old(f.Value())
      ensures forall d :: d != destination ==> qstore.At(d) == old(qstore.At(d))
    {
      var sub := subs.Get(world);
      if sub == null {
        qstore.Enqueue(destination, f);
        ok := true;
      } else {
        ok := sub.SendQueueFrame(f);
      }
    }

    method Requeue(f: FrameObject, ghost world: set<SubscriptionList>) returns (ok: bool)
      requires subs in world && AllValid(world) && f.Valid()
      modifies qstore, subs, First(subs.subs), f.header, (set s | s in First(subs.subs) :: s.conn)`subChannel
      ensures AllValid(world)
      ensures ok == (old(subs.subs) == [] || old(subs.subs[0].frame) == null)
      ensures View() == Queues.Requeue(old(View()), f).queue
      ensures ok && old(subs.subs) != [] ==> HandedOver(old(subs.subs[0]), f) && old(subs.subs[0]).subList == null
      ensures old(subs.subs) == [] ==> f.Valid() && f.Value() == old(f.Value())
      ensures forall d :: d != destination ==> qstore.At(d) == old(qstore.At(d))
    {
      var sub := subs.Get(world);
      if sub == null {
        qstore.Requeue(destination, f);
        ok := true;
      } else {
        ok := sub.SendQueueFrame(f);
      }
    }
  }

  /** The subscription now holds the frame, the frame names the subscription and is otherwise the same,
      and the connection has been told. */
  twostate predicate HandedOver(sub: Subscription, f: FrameObject)
    reads sub, sub.conn, f, f.header, f.body
  {
    && sub.frame == f && sub.conn.subChannel == old(sub.conn.subChannel) + [sub]
    && old(f.Valid()) && f.Valid() && f.Value() == Tagged(old(f.Value()), sub.id)
  }

  class Manager {
    const qstore: MemoryQueueStorage
    var queues: map<string, Queue>

    constructor (qstore: MemoryQueueStorage)
      ensures this.qstore == qstore && queues == map[] && Valid()
    {
      this.qstore, queues := qstore, map[];
    }

    ghost function Lists(): set<SubscriptionList>
      reads this
    {
      set d | d in queues :: queues[d].subs
    }

    /** Every queue serves its own destination from the common storage with a list of its own. */
    ghost predicate Valid()
      reads this, Lists(), Members(Lists())
    {
      && (forall d :: d in queues ==> queues[d].destination == d && queues[d].qstore == qstore)
      && (forall d, e :: d in queues && e in queues && d != e ==> queues[d].subs != queues[e].subs)
      && AllValid(Lists())
    }

    /** The queue of a destination as a value; before its first use it has no subscription. */
    ghost function ViewOf(d: string): Queues.Queue<Subscription, FrameObject>
      requires Valid()
      reads this, qstore, Lists(), Members(Lists())
    {
      Queues.Queue(if d in queues then queues[d].subs.subs else [], qstore.At(d))
    }

    /** Looking a queue up changes no queue, and asking twice gives the same object. */
    method Find(destination: string) returns (q: Queue)
      requires Valid()
      modifies this
      ensures Valid() && destination in queues && queues[destination] == q
      ensures q.View() == old(ViewOf(destination))
      ensures forall d :: d in old(queues) ==> d in queues && queues[d] == old(queues)[d]
      ensures forall d :: ViewOf(d) == old(ViewOf(d))
    {
      if destination !in queues {
        q := new Queue(destination, qstore);
        queues := queues[destination := q];
        assert forall l :: l in Lists() ==> l == q.subs || l in old(Lists());
      } else {
        q := queues[destination];
      }
    }
  }
}
