// What the account operations leave alone, queue by queue.
module Frames {
  import opened Wire
  import opened Account
  import opened Deduplication

  /** Everything but what is visible and what the deduplication remembers. */
  predicate SameButVisible(q: Queue, q': Queue)
  {
    && q'.inFlight == q.inFlight && q'.fifo == q.fifo && q'.redrive == q.redrive
    && q'.subscriptions == q.subscriptions && q.wakes <= q'.wakes
  }

  /** Feeding a queue: more may become visible, and then its waiters are woken. */
  predicate QueueFed(q: Queue, q': Queue)
  {
    SameButVisible(q, q') && (q'.wakes == q.wakes || q.subscriptions == 0 ==> q'.visible == q.visible)
  }

  /** From `a` to `b`, messages were only fed to queues. */
  ghost predicate Fed(a: Account, b: Account)
  {
    && b.timers == a.timers && a.nextId <= b.nextId && b.topics == a.topics
    && forall k :: QueueFed(QueueOf(a, k), QueueOf(b, k))
  }

  /** From `a` to `b`, only the queue keyed `key` changed. */
  ghost predicate OnlyQueue(a: Account, b: Account, key: string)
  {
    b.nextId == a.nextId && b.topics == a.topics && forall k :: k != key ==> QueueOf(b, k) == QueueOf(a, k)
  }

  lemma FedThen(a: Account, b: Account, c: Account)
    requires Fed(a, b) && Fed(b, c)
    ensures Fed(a, c)
  {
    forall k ensures QueueFed(QueueOf(a, k), QueueOf(c, k)) {
      assert QueueFed(QueueOf(a, k), QueueOf(b, k)) && QueueFed(QueueOf(b, k), QueueOf(c, k));
    }
  }

  lemma EnqueueFeeds(a: Account, key: string, s: Stored)
    ensures Fed(a, Enqueue(a, key, s))
  {
    hide Insert;
  }

  lemma NotedFeeds(a: Account, key: string, seen: Seen, nextId: nat)
    requires a.nextId <= nextId
    ensures Fed(a, PutQueue(a, key, QueueOf(a, key).(deduplication := seen)).(nextId := nextId))
  {
  }

  lemma DeliverFeeds(a: Account, key: string, outbound: Outbound, now: nat)
    ensures Fed(a, Deliver(a, key, outbound, now))
  {
    hide Insert, SeenWithinWindow;
    var q := QueueOf(a, key);
    var seen := if outbound.fifo.Some?
      then SeenWithinWindow(q.deduplication, outbound.fifo.value.deduplication, now).1 else q.deduplication;
    var noted := PutQueue(a, key, q.(deduplication := seen)).(nextId := a.nextId + 1);
    NotedFeeds(a, key, seen, a.nextId);
    NotedFeeds(a, key, seen, a.nextId + 1);
    hide Fed, Enqueue, QueueOf;
    EnqueueFeeds(noted, key, Stored(a.nextId, outbound, 0));
    FedThen(a, noted, Enqueue(noted, key, Stored(a.nextId, outbound, 0)));
  }

  lemma {:induction false} FanOutFeeds(a: Account, endpoints: seq<string>, outbound: Outbound, now: nat)
    ensures Fed(a, FanOut(a, endpoints, outbound, now))
    decreases |endpoints|
  {
    hide Deliver;
    if endpoints != [] {
      var b := Deliver(a, endpoints[0], CopyFor(endpoints[0], outbound), now);
      DeliverFeeds(a, endpoints[0], CopyFor(endpoints[0], outbound), now);
      FanOutFeeds(b, endpoints[1..], outbound, now);
      FedThen(a, b, FanOut(b, endpoints[1..], outbound, now));
    }
  }

  lemma {:induction false} MoveSpentFeeds(a: Account, target: string, spent: seq<Stored>)
    ensures Fed(a, MoveSpent(a, target, spent))
    decreases |spent|
  {
    hide Enqueue;
    if spent != [] {
      var counted := a.(consumed := a.consumed + 1);
      var b := Enqueue(counted, target, spent[0]);
      EnqueueFeeds(counted, target, spent[0]);
      assert Fed(a, counted);
      FedThen(a, counted, b);
      MoveSpentFeeds(b, target, spent[1..]);
      FedThen(a, b, MoveSpent(b, target, spent[1..]));
    }
  }

  lemma SendFeeds(a: Account, key: string, outbound: Outbound, now: nat)
    ensures Fed(a, Send(a, key, outbound, now))
  {
    hide MessageAccepted, Deliver;
    DeliverFeeds(a, key, outbound, now);
    assert Fed(a, a);
  }

  lemma PublishFeeds(a: Account, topic: string, outbound: Outbound, now: nat)
    ensures Fed(a, Publish(a, topic, outbound, now))
  {
    hide MessageAccepted, FanOut, SeenWithinWindow;
    assert Fed(a, a);
    FanOutFeeds(a, EndpointsOf(a, topic), outbound, now);
    if outbound.fifo.Some? {
      var seen := SeenWithinWindow(TopicSeen(a, topic), outbound.fifo.value.deduplication, now).1;
      var noted := a.(topicSeen := a.topicSeen[topic := seen]);
      assert Fed(a, noted);
      FanOutFeeds(noted, EndpointsOf(noted, topic), outbound, now);
      FedThen(a, noted, FanOut(noted, EndpointsOf(noted, topic), outbound, now));
    }
  }

  /** A message back from flight: gone from flight, and fed to its queue. */
  lemma ReturnFeeds(a: Account, key: string, receipt: nat)
    requires receipt in QueueOf(a, key).inFlight
    ensures var b := Return(a, key, receipt);
            && OnlyQueue(a, b, key) && b.timers == a.timers
            && QueueFed(Ground(QueueOf(a, key), receipt), QueueOf(b, key))
            && (QueueOf(a, key).subscriptions > 0 ==>
                  && QueueOf(b, key).wakes == QueueOf(a, key).wakes + 1
                  && QueueOf(b, key).visible == Insert(QueueOf(a, key).visible, QueueOf(a, key).inFlight[receipt].stored))
  {
    hide Insert;
  }
}
