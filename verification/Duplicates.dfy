// Deduplication over runs: the map of every FIFO queue and topic is that of its whole history of
// uses, so a send is dropped as a duplicate exactly when that history says so.
module Duplicates {
  import opened Basics
  import opened Names
  import opened Wire
  import opened Account
  import opened World
  import opened Deduplication
  import opened Frames
  import Conservation
  import Futures
  import Ledger
  import Runs
  import V = Visibility

  // ---------------------------------------------------------------------------------------------
  // Histories

  /** The map after more uses. */
  function Continued(seen: Seen, uses: seq<Use>): Seen
  {
    if uses == [] then seen
    else
      var last := uses[|uses| - 1];
      SeenWithinWindow(Continued(seen, uses[..|uses| - 1]), last.id, last.at).1
  }

  lemma {:induction false} SeenAfterMore(uses: seq<Use>, more: seq<Use>)
    ensures SeenAfter(uses + more) == Continued(SeenAfter(uses), more)
  {
    hide SeenWithinWindow;
    if more == [] {
      assert uses + more == uses;
    } else {
      SeenAfterMore(uses, more[..|more| - 1]);
      assert (uses + more)[..|uses + more| - 1] == uses + more[..|more| - 1];
    }
  }

  lemma {:induction false} ContinuedMore(seen: Seen, uses: seq<Use>, more: seq<Use>)
    ensures Continued(seen, uses + more) == Continued(Continued(seen, uses), more)
  {
    hide SeenWithinWindow;
    if more == [] {
      assert uses + more == uses;
    } else {
      ContinuedMore(seen, uses, more[..|more| - 1]);
      assert (uses + more)[..|uses + more| - 1] == uses + more[..|more| - 1];
    }
  }

  /** The use an accepted message makes of its deduplication id. */
  function UseOf(outbound: Outbound, now: nat): seq<Use>
  {
    if outbound.fifo.Some? then [Use(outbound.fifo.value.deduplication, now)] else []
  }

  /** The uses a topic's message makes of ids on the queue keyed `key`. */
  function FanOutUses(endpoints: seq<string>, key: string, outbound: Outbound, now: nat): seq<Use>
  {
    if endpoints == [] then []
    else
      (if endpoints[0] == key then UseOf(CopyFor(key, outbound), now) else [])
      + FanOutUses(endpoints[1..], key, outbound, now)
  }

  ghost function UsesOf(w: World, step: Step, key: string): seq<Use>
  {
    var a := w.account;
    match step
    case SendTo(k, outbound) =>
      if k != key || SendRefusal(IsFifo(k), outbound, SQS_MAX_MESSAGE).Some? then [] else UseOf(outbound, w.now)
    case PublishTo(topic, outbound) =>
      if SendRefusal(IsFifo(topic), outbound, SNS_MAX_MESSAGE).Some? then []
      else if outbound.fifo.Some?
        && SeenWithinWindow(TopicSeen(a, topic), outbound.fifo.value.deduplication, w.now).0 then []
      else FanOutUses(EndpointsOf(a, topic), key, outbound, w.now)
    case _ => []
  }

  ghost function TopicUsesOf(w: World, step: Step, topic: string): seq<Use>
  {
    match step
    case PublishTo(t, outbound) =>
      if t != topic || SendRefusal(IsFifo(t), outbound, SNS_MAX_MESSAGE).Some? then [] else UseOf(outbound, w.now)
    case _ => []
  }

  /** Every use of an id on a queue, and on a topic, during a run. */
  ghost function History(steps: seq<Step>, key: string): seq<Use>
    requires Legal(Start(), steps)
  {
    if steps == [] then []
    else
      var before := steps[..|steps| - 1];
      History(before, key) + UsesOf(After(Start(), before), steps[|steps| - 1], key)
  }

  ghost function TopicHistory(steps: seq<Step>, topic: string): seq<Use>
    requires Legal(Start(), steps)
  {
    if steps == [] then []
    else
      var before := steps[..|steps| - 1];
      TopicHistory(before, topic) + TopicUsesOf(After(Start(), before), steps[|steps| - 1], topic)
  }

  // ---------------------------------------------------------------------------------------------
  // What each step does to the maps

  function SeenBy(a: Account, key: string): Seen { QueueOf(a, key).deduplication }

  ghost predicate Untouched(a: Account, b: Account)
  {
    b.topicSeen == a.topicSeen && forall k :: SeenBy(b, k) == SeenBy(a, k)
  }

  lemma EnqueueUntouched(a: Account, key: string, s: Stored)
    ensures Untouched(a, Enqueue(a, key, s))
  {
    hide Insert;
  }

  lemma {:induction false} MoveSpentUntouched(a: Account, target: string, spent: seq<Stored>)
    ensures Untouched(a, MoveSpent(a, target, spent))
    decreases |spent|
  {
    hide Enqueue, QueueOf;
    if spent != [] {
      var counted := a.(consumed := a.consumed + 1);
      SameQueuesUntouched(a, counted);
      EnqueueUntouched(counted, target, spent[0]);
      MoveSpentUntouched(Enqueue(counted, target, spent[0]), target, spent[1..]);
    }
  }

  lemma SameQueuesUntouched(a: Account, b: Account)
    requires b.queues == a.queues && b.topicSeen == a.topicSeen
    ensures Untouched(a, b)
  {
  }

  lemma ReceiveUntouched(a: Account, key: string, max: nat, now: nat)
    ensures Untouched(a, Receive(a, key, max, now))
  {
    hide Scan, Flights, MoveSpent;
    var q := QueueOf(a, key);
    var loop := Ledger.AfterLoop(a, key, max, now);
    assert Untouched(a, loop);
    if q.redrive.Some? {
      MoveSpentUntouched(loop, q.redrive.value.queue, ScanOf(q, max).spent);
    }
  }

  lemma ReturnUntouched(a: Account, key: string, receipt: nat)
    requires receipt in QueueOf(a, key).inFlight
    ensures Untouched(a, Return(a, key, receipt))
  {
    hide Enqueue;
    var q := QueueOf(a, key);
    EnqueueUntouched(PutQueue(a, key, Ground(q, receipt)), key, q.inFlight[receipt].stored);
  }

  lemma ChangeUntouched(a: Account, key: string, receipt: nat, visibility: nat, now: nat)
    ensures Untouched(a, ChangeVisibility(a, key, receipt, visibility, now))
  {
    hide Return;
    if ChangeRefusal(a, key, receipt, visibility, now).None? && visibility == 0 {
      ReturnUntouched(a, key, receipt);
    }
  }

  lemma LapseUntouched(a: Account, t: Timer)
    ensures Untouched(a, Lapse(a.(timers := a.timers - {t}), t.key, t.receipt, t.generation))
  {
    hide Return;
    var b := a.(timers := a.timers - {t});
    if Futures.Counts(b, t) {
      ReturnUntouched(b, t.key, t.receipt);
    }
  }

  lemma SettleUntouched(w: World, receipt: nat, outcome: Outcome, drift: nat)
    requires Enabled(w, Settle(receipt, outcome, drift))
    ensures Untouched(w.account, Settled(w, receipt, outcome, drift).account)
  {
    hide ChangeVisibility, V.RetrySeconds, ChangeRefusal;
    var h := w.handles[receipt];
    match Asked(h, outcome, HeldFor(w, receipt, drift))
    case None =>
    case Some(visibility) => ChangeUntouched(w.account, h.queue, receipt, visibility, w.now);
  }

  lemma DropUntouched(w: World, receipt: nat, drift: nat)
    requires Enabled(w, Drop(receipt, drift))
    ensures Untouched(w.account, Dropped(w, receipt, drift).account)
  {
    hide ChangeVisibility, LeftOver;
    var h := w.handles[receipt];
    var left := LeftOver(w, receipt, drift);
    if left.Some? {
      ChangeUntouched(w.account, h.queue, receipt, left.value, w.now);
    }
  }

  /** Only sends and publishes touch the maps. */
  lemma StepUntouched(w: World, step: Step)
    requires Enabled(w, step) && !step.SendTo? && !step.PublishTo?
    ensures Untouched(w.account, Next(w, step).account)
  {
    hide SetRedrive, Took, Looked, Open, Close, Lapse, Settled, Dropped, Untouched;
    match step
    case Redrive(key, cap, deadLetter) => RedriveUntouched(w.account, key, cap, deadLetter);
    case OpenReader(id, r) => CountUntouched(w.account, r.queue);
    case CloseReader(id) => CountUntouched(w.account, w.readers[id].queue);
    case Look(id) => LookUntouched(w, id);
    case Take(id) => TakeUntouched(w, id);
    case Settle(receipt, outcome, drift) => SettleUntouched(w, receipt, outcome, drift);
    case Drop(receipt, drift) => DropUntouched(w, receipt, drift);
    case Fire(t) => LapseUntouched(w.account, t);
    case SendTo(_, _) =>
    case PublishTo(_, _) =>
    case Link(topic, queue) => SameQueuesUntouched(w.account, SubscribeTopic(w.account, topic, queue));
    case _ => SameQueuesUntouched(w.account, w.account);
  }

  lemma PutUntouched(a: Account, b: Account, key: string, q: Queue)
    requires b.queues == a.queues[key := q] && q.deduplication == SeenBy(a, key) && b.topicSeen == a.topicSeen
    ensures Untouched(a, b)
  {
  }

  lemma CountUntouched(a: Account, key: string)
    ensures Untouched(a, Open(a, key)) && Untouched(a, Close(a, key))
  {
    hide Untouched;
    PutUntouched(a, Open(a, key), key, QueueOf(Open(a, key), key));
    PutUntouched(a, Close(a, key), key, QueueOf(Close(a, key), key));
  }

  lemma LookUntouched(w: World, id: nat)
    requires Enabled(w, Look(id))
    ensures Untouched(w.account, Looked(w, id).account)
  {
    hide Receivable;
  }

  lemma TakeUntouched(w: World, id: nat)
    requires id in w.readers
    ensures Untouched(w.account, Took(w, id).account)
  {
    hide Receive, TakenBy, NewHandles, Tagged, HandedOver, Untouched;
    ReceiveUntouched(w.account, w.readers[id].queue, w.readers[id].max, w.now);
  }

  lemma RedriveUntouched(a: Account, key: string, cap: nat, deadLetter: string)
    ensures Untouched(a, SetRedrive(a, key, cap, deadLetter))
  {
    hide QueueKey;
  }

  lemma DeliverUses(a: Account, key: string, outbound: Outbound, now: nat, k: string)
    ensures SeenBy(Deliver(a, key, outbound, now), k)
         == Continued(SeenBy(a, k), if k == key then UseOf(outbound, now) else [])
    ensures Deliver(a, key, outbound, now).topicSeen == a.topicSeen
  {
    hide Enqueue, SeenWithinWindow;
    var q := QueueOf(a, key);
    var seen := if outbound.fifo.Some?
      then SeenWithinWindow(q.deduplication, outbound.fifo.value.deduplication, now).1 else q.deduplication;
    var noted := PutQueue(a, key, q.(deduplication := seen)).(nextId := a.nextId + 1);
    EnqueueUntouched(noted, key, Stored(a.nextId, outbound, 0));
    assert SeenBy(noted, k) == if k == key then seen else SeenBy(a, k);
    assert UseOf(outbound, now)[..|UseOf(outbound, now)|] == UseOf(outbound, now);
  }

  lemma {:induction false} FanOutMakesUses(
    a: Account, endpoints: seq<string>, outbound: Outbound, now: nat, k: string)
    ensures SeenBy(FanOut(a, endpoints, outbound, now), k)
         == Continued(SeenBy(a, k), FanOutUses(endpoints, k, outbound, now))
    ensures FanOut(a, endpoints, outbound, now).topicSeen == a.topicSeen
    decreases |endpoints|
  {
    hide Deliver, Continued, SeenBy;
    if endpoints == [] {
      ContinuedByNone(SeenBy(a, k));
    } else {
      var copy := CopyFor(endpoints[0], outbound);
      var b := Deliver(a, endpoints[0], copy, now);
      DeliverUses(a, endpoints[0], copy, now, k);
      FanOutMakesUses(b, endpoints[1..], outbound, now, k);
      ContinuedMore(SeenBy(a, k), if endpoints[0] == k then UseOf(copy, now) else [],
        FanOutUses(endpoints[1..], k, outbound, now));
    }
  }

  lemma ContinuedByNone(seen: Seen)
    ensures Continued(seen, []) == seen
  {
  }

  lemma SendUses(w: World, key: string, outbound: Outbound, k: string)
    ensures SeenBy(Send(w.account, key, outbound, w.now), k)
         == Continued(SeenBy(w.account, k), UsesOf(w, SendTo(key, outbound), k))
    ensures Send(w.account, key, outbound, w.now).topicSeen == w.account.topicSeen
  {
    hide Deliver, MessageAccepted, SeenBy, Continued;
    ContinuedByNone(SeenBy(w.account, k));
    DeliverUses(w.account, key, outbound, w.now, k);
  }

  lemma PublishUses(w: World, topic: string, outbound: Outbound, k: string)
    ensures SeenBy(Publish(w.account, topic, outbound, w.now), k)
         == Continued(SeenBy(w.account, k), UsesOf(w, PublishTo(topic, outbound), k))
  {
    hide FanOut, MessageAccepted, Continued, SeenWithinWindow;
    var a := w.account;
    ContinuedByNone(SeenBy(a, k));
    FanOutMakesUses(a, EndpointsOf(a, topic), outbound, w.now, k);
    if outbound.fifo.Some? {
      var seen := SeenWithinWindow(TopicSeen(a, topic), outbound.fifo.value.deduplication, w.now).1;
      FanOutMakesUses(a.(topicSeen := a.topicSeen[topic := seen]), EndpointsOf(a, topic), outbound, w.now, k);
    }
  }

  /** A publish leaves what the topics have seen as its own check of the id left it. */
  lemma PublishSees(a: Account, topic: string, outbound: Outbound, now: nat)
    ensures Publish(a, topic, outbound, now).topicSeen
         == if SendRefusal(IsFifo(topic), outbound, SNS_MAX_MESSAGE).Some? || outbound.fifo.None? then a.topicSeen
            else a.topicSeen[topic := SeenWithinWindow(TopicSeen(a, topic), outbound.fifo.value.deduplication, now).1]
  {
    hide FanOut, SendRefusal, SeenWithinWindow;
    FanOutMakesUses(a, EndpointsOf(a, topic), outbound, now, "");
    if outbound.fifo.Some? {
      var seen := SeenWithinWindow(TopicSeen(a, topic), outbound.fifo.value.deduplication, now).1;
      FanOutMakesUses(a.(topicSeen := a.topicSeen[topic := seen]), EndpointsOf(a, topic), outbound, now, "");
    }
  }

  lemma ContinuedByOne(seen: Seen, use: Use)
    ensures Continued(seen, [use]) == SeenWithinWindow(seen, use.id, use.at).1
  {
    hide SeenWithinWindow;
    assert [use][..0] == [];
  }

  lemma PublishTopicUses(w: World, topic: string, outbound: Outbound, t: string)
    ensures TopicSeen(Publish(w.account, topic, outbound, w.now), t)
         == Continued(TopicSeen(w.account, t), TopicUsesOf(w, PublishTo(topic, outbound), t))
  {
    hide Publish, SendRefusal, SeenWithinWindow, Continued;
    PublishSees(w.account, topic, outbound, w.now);
    ContinuedByNone(TopicSeen(w.account, t));
    if outbound.fifo.Some? {
      ContinuedByOne(TopicSeen(w.account, t), Use(outbound.fifo.value.deduplication, w.now));
    }
  }

  lemma StepUses(w: World, step: Step, key: string, topic: string)
    requires Enabled(w, step)
    ensures SeenBy(Next(w, step).account, key) == Continued(SeenBy(w.account, key), UsesOf(w, step, key))
    ensures TopicSeen(Next(w, step).account, topic) == Continued(TopicSeen(w.account, topic), TopicUsesOf(w, step, topic))
  {
    hide Send, Publish, SeenBy, Continued, Enabled, SendRefusal;
    ContinuedByNone(SeenBy(w.account, key));
    ContinuedByNone(TopicSeen(w.account, topic));
    match step
    case SendTo(k, outbound) => SendUses(w, k, outbound, key);
    case PublishTo(t, outbound) =>
      PublishUses(w, t, outbound, key);
      PublishTopicUses(w, t, outbound, topic);
    case _ =>
      StepUntouched(w, step);
      hide Next;
  }

  // ---------------------------------------------------------------------------------------------
  // Runs

  /** A history in the order of time, none of it in the future. */
  predicate InOrder(uses: seq<Use>, now: nat)
  {
    Monotone(uses) && forall i :: 0 <= i < |uses| ==> uses[i].at <= now
  }

  predicate AllAt(uses: seq<Use>, at: nat) { forall i :: 0 <= i < |uses| ==> uses[i].at == at }

  lemma {:induction false} FanOutUsesAt(endpoints: seq<string>, key: string, outbound: Outbound, now: nat)
    ensures AllAt(FanOutUses(endpoints, key, outbound, now), now)
  {
    if endpoints != [] {
      FanOutUsesAt(endpoints[1..], key, outbound, now);
    }
  }

  lemma InOrderMore(uses: seq<Use>, more: seq<Use>, now: nat, later: nat)
    requires InOrder(uses, now) && AllAt(more, now) && now <= later
    ensures InOrder(uses + more, later)
  {
  }

  lemma UsesAreNow(w: World, step: Step, key: string)
    ensures AllAt(UsesOf(w, step, key), w.now) && AllAt(TopicUsesOf(w, step, key), w.now)
  {
    hide SendRefusal;
    if step.PublishTo? {
      FanOutUsesAt(EndpointsOf(w.account, step.topic), key, step.outbound, w.now);
    }
  }

  /** After every run, each map is that of the whole history, which is in the order of time. */
  lemma {:induction false} RunRemembers(steps: seq<Step>, key: string)
    requires Legal(Start(), steps)
    ensures var w := After(Start(), steps);
            && SeenBy(w.account, key) == SeenAfter(History(steps, key)) && InOrder(History(steps, key), w.now)
            && TopicSeen(w.account, key) == SeenAfter(TopicHistory(steps, key)) && InOrder(TopicHistory(steps, key), w.now)
  {
    hide Next, SeenWithinWindow, Continued, UsesOf, TopicUsesOf;
    if steps != [] {
      var before, last := steps[..|steps| - 1], steps[|steps| - 1];
      var w := After(Start(), before);
      RunRemembers(before, key);
      StepUses(w, last, key, key);
      UsesAreNow(w, last, key);
      Runs.StepTakesTime(w, last);
      hide SeenAfter;
      SeenAfterMore(History(before, key), UsesOf(w, last, key));
      SeenAfterMore(TopicHistory(before, key), TopicUsesOf(w, last, key));
      InOrderMore(History(before, key), UsesOf(w, last, key), w.now, Next(w, last).now);
      InOrderMore(TopicHistory(before, key), TopicUsesOf(w, last, key), w.now, Next(w, last).now);
    }
  }

  /** Some accepted use of the id is under five minutes old. */
  ghost predicate Collapses(uses: seq<Use>, id: Text, now: nat) { exists j :: Fresh(uses, j, id, now) }

  /** A map of a history answers "duplicate" exactly when an accepted use in it is under five minutes old. */
  lemma HistoryAnswers(uses: seq<Use>, id: Text, now: nat)
    requires InOrder(uses, now)
    ensures SeenWithinWindow(SeenAfter(uses), id, now).0 <==> Collapses(uses, id, now)
  {
    hide SeenWithinWindow;
    var all := uses + [Use(id, now)];
    var n := |uses|;
    assert all[..n] == uses;
    RepeatIffFreshUse(all, n);
    assert Repeat(all, n) <==> SeenWithinWindow(SeenAfter(uses), id, now).0;
    hide Repeat;
    forall j: int ensures (0 <= j < n && Fresh(all, j, id, now)) <==> Fresh(uses, j, id, now) {
      if 0 <= j < n {
        RepeatOfPrefix(all, n, j);
      }
    }
  }

  /**
   * After any run, an accepted FIFO send brings no message in exactly when nobody reads its queue
   * or an accepted use of its id on that queue, by a send or through a topic, is under five minutes old.
   */
  lemma SendCollapsesExactly(steps: seq<Step>, key: string, outbound: Outbound)
    requires Legal(Start(), steps) && outbound.fifo.Some?
    requires SendRefusal(IsFifo(key), outbound, SQS_MAX_MESSAGE).None?
    ensures var w := After(Start(), steps);
            Conservation.Arriving(w, SendTo(key, outbound)) == multiset{} <==>
              (QueueOf(w.account, key).subscriptions == 0
               || Collapses(History(steps, key), outbound.fifo.value.deduplication, w.now))
  {
    hide SendRefusal, SeenWithinWindow, SeenAfter;
    var w := After(Start(), steps);
    RunRemembers(steps, key);
    HistoryAnswers(History(steps, key), outbound.fifo.value.deduplication, w.now);
    hide Legal, After, History;
  }

  /**
   * After any run, an accepted send shows its message, under the next number, on its own queue if
   * somebody reads that and no accepted use of its id there is fresh; no other queue shows anything new.
   */
  lemma SendReachesExactly(steps: seq<Step>, key: string, outbound: Outbound, k: string)
    requires Legal(Start(), steps) && SendRefusal(IsFifo(key), outbound, SQS_MAX_MESSAGE).None?
    ensures var w := After(Start(), steps);
            var q, q' := QueueOf(w.account, k), QueueOf(Next(w, SendTo(key, outbound)).account, k);
            var reached :=
              && k == key && q.subscriptions > 0
              && (outbound.fifo.Some? ==> !Collapses(History(steps, key), outbound.fifo.value.deduplication, w.now));
            q'.visible == if reached then Insert(q.visible, Stored(w.account.nextId, outbound, 0)) else q.visible
  {
    hide SendRefusal, SeenWithinWindow, SeenAfter, Insert;
    var w := After(Start(), steps);
    RunRemembers(steps, key);
    if outbound.fifo.Some? {
      HistoryAnswers(History(steps, key), outbound.fifo.value.deduplication, w.now);
    }
    hide Legal, After, History, Deliver;
    DeliverShows(w.account, key, outbound, w.now);
  }

  /** After any run, a FIFO publish of an id with a fresh accepted use on its topic reaches no queue. */
  lemma PublishCollapses(steps: seq<Step>, topic: string, outbound: Outbound)
    requires Legal(Start(), steps) && outbound.fifo.Some?
    requires SendRefusal(IsFifo(topic), outbound, SNS_MAX_MESSAGE).None?
    ensures var w := After(Start(), steps);
            if Collapses(TopicHistory(steps, topic), outbound.fifo.value.deduplication, w.now)
            then Next(w, PublishTo(topic, outbound)).account.queues == w.account.queues
            else Next(w, PublishTo(topic, outbound)).account.queues
                 == FanOut(w.account, EndpointsOf(w.account, topic), outbound, w.now).queues
  {
    hide SendRefusal, SeenWithinWindow, SeenAfter, FanOut;
    var w := After(Start(), steps);
    RunRemembers(steps, topic);
    var id := outbound.fifo.value.deduplication;
    HistoryAnswers(TopicHistory(steps, topic), id, w.now);
    hide Legal, After, TopicHistory;
    var seen := SeenWithinWindow(TopicSeen(w.account, topic), id, w.now).1;
    FanOutAside(w.account, w.account.topicSeen[topic := seen], EndpointsOf(w.account, topic), outbound, w.now);
  }

  lemma {:induction false} FanOutAside(
    a: Account, topicSeen: map<string, Seen>, endpoints: seq<string>, outbound: Outbound, now: nat)
    ensures FanOut(a.(topicSeen := topicSeen), endpoints, outbound, now)
         == FanOut(a, endpoints, outbound, now).(topicSeen := topicSeen)
    decreases |endpoints|
  {
    hide Deliver;
    if endpoints != [] {
      var copy := CopyFor(endpoints[0], outbound);
      Conservation.DeliverSame(a, topicSeen, endpoints[0], copy, now);
      FanOutAside(Deliver(a, endpoints[0], copy, now), topicSeen, endpoints[1..], outbound, now);
    }
  }

  // ---------------------------------------------------------------------------------------------
  // What a publish reaches

  predicate Once(endpoints: seq<string>) { forall i, j :: 0 <= i < j < |endpoints| ==> endpoints[i] != endpoints[j] }

  ghost predicate AllOnce(a: Account) { forall topic :: Once(EndpointsOf(a, topic)) }

  lemma LinkOnce(a: Account, topic: string, queue: string)
    requires AllOnce(a)
    ensures AllOnce(SubscribeTopic(a, topic, queue))
  {
    hide IsFifo;
    forall t ensures Once(EndpointsOf(SubscribeTopic(a, topic, queue), t)) {
      assert Once(EndpointsOf(a, t));
    }
  }

  lemma ChangeKeepsTopics(a: Account, key: string, receipt: nat, visibility: nat, now: nat)
    ensures ChangeVisibility(a, key, receipt, visibility, now).topics == a.topics
  {
    hide Insert;
  }

  lemma TakeKeepsTopics(w: World, id: nat)
    requires id in w.readers
    ensures Took(w, id).account.topics == w.account.topics
  {
    hide Scan, Flights, MoveSpent, NewHandles, Tagged, HandedOver;
    var key, max := w.readers[id].queue, w.readers[id].max;
    var q := QueueOf(w.account, key);
    if q.redrive.Some? {
      MoveSpentFeeds(Ledger.AfterLoop(w.account, key, max, w.now), q.redrive.value.queue, TakenBy(w, id).spent);
    }
  }

  lemma SettleKeepsTopics(w: World, receipt: nat, outcome: Outcome, drift: nat)
    requires Timely(w, receipt, drift)
    ensures Settled(w, receipt, outcome, drift).account.topics == w.account.topics
  {
    hide ChangeVisibility, ChangeRefusal, Asked;
    var h := w.handles[receipt];
    match Asked(h, outcome, HeldFor(w, receipt, drift))
    case None =>
    case Some(visibility) => ChangeKeepsTopics(w.account, h.queue, receipt, visibility, w.now);
  }

  lemma DropKeepsTopics(w: World, receipt: nat, drift: nat)
    requires Timely(w, receipt, drift)
    ensures Dropped(w, receipt, drift).account.topics == w.account.topics
  {
    hide ChangeVisibility, LeftOver;
    if LeftOver(w, receipt, drift).Some? {
      ChangeKeepsTopics(w.account, w.handles[receipt].queue, receipt, LeftOver(w, receipt, drift).value, w.now);
    }
  }

  /** Only a topic subscription changes what topics reach. */
  lemma StepKeepsTopics(w: World, step: Step)
    requires Enabled(w, step) && !step.Link?
    ensures Next(w, step).account.topics == w.account.topics
  {
    hide Send, Publish, SetRedrive, Open, Close, Settled, Dropped, Took, Looked, Lapse, Fed;
    match step
    case SendTo(key, outbound) => SendKeepsTopics(w.account, key, outbound, w.now);
    case PublishTo(topic, outbound) => PublishKeepsTopics(w.account, topic, outbound, w.now);
    case Redrive(key, cap, deadLetter) => RedriveKeepsTopics(w.account, key, cap, deadLetter);
    case OpenReader(id, r) => CountKeepsTopics(w.account, r.queue);
    case CloseReader(id) => CountKeepsTopics(w.account, w.readers[id].queue);
    case Look(id) => LookKeepsTopics(w, id);
    case Take(id) => TakeKeepsTopics(w, id);
    case Settle(receipt, outcome, drift) => SettleKeepsTopics(w, receipt, outcome, drift);
    case Drop(receipt, drift) => DropKeepsTopics(w, receipt, drift);
    case Fire(t) => LapseKeepsTopics(w.account, t);
    case _ =>
  }

  lemma SendKeepsTopics(a: Account, key: string, outbound: Outbound, now: nat)
    ensures Send(a, key, outbound, now).topics == a.topics
  {
    hide Send;
    SendFeeds(a, key, outbound, now);
  }

  lemma PublishKeepsTopics(a: Account, topic: string, outbound: Outbound, now: nat)
    ensures Publish(a, topic, outbound, now).topics == a.topics
  {
    hide Publish;
    PublishFeeds(a, topic, outbound, now);
  }

  lemma CountKeepsTopics(a: Account, key: string)
    ensures Open(a, key).topics == a.topics && Close(a, key).topics == a.topics
  {
  }

  lemma LapseKeepsTopics(a: Account, t: Timer)
    ensures Lapse(a.(timers := a.timers - {t}), t.key, t.receipt, t.generation).topics == a.topics
  {
    hide Insert;
  }

  lemma RedriveKeepsTopics(a: Account, key: string, cap: nat, deadLetter: string)
    ensures SetRedrive(a, key, cap, deadLetter).topics == a.topics
  {
    hide QueueKey;
  }

  lemma LookKeepsTopics(w: World, id: nat)
    requires Enabled(w, Look(id))
    ensures Looked(w, id).account.topics == w.account.topics
  {
    hide Receivable;
  }

  /** After every run, no topic lists an endpoint twice. */
  lemma {:induction false} RunListsOnce(steps: seq<Step>)
    requires Legal(Start(), steps)
    ensures AllOnce(After(Start(), steps).account)
  {
    hide Next;
    if steps != [] {
      var before, last := steps[..|steps| - 1], steps[|steps| - 1];
      RunListsOnce(before);
      LastKeepsOnce(After(Start(), before), last);
    }
  }

  lemma LastKeepsOnce(w: World, step: Step)
    requires AllOnce(w.account) && Enabled(w, step)
    ensures AllOnce(Next(w, step).account)
  {
    hide AllOnce, SubscribeTopic, Send, Publish, SetRedrive, Settled, Dropped, Took, Looked, Open, Close, Lapse;
    if step.Link? {
      LinkOnce(w.account, step.topic, step.queue);
    } else {
      StepKeepsTopics(w, step);
      hide Next;
      SameTopicsOnce(w.account, Next(w, step).account);
    }
  }

  lemma SameTopicsOnce(a: Account, b: Account)
    requires AllOnce(a) && b.topics == a.topics
    ensures AllOnce(b)
  {
    assert forall t :: EndpointsOf(b, t) == EndpointsOf(a, t);
  }

  /** Whether a queue takes the copy delivered to it: somebody reads it, and the copy is no repeat there. */
  predicate TakesCopy(q: Queue, copy: Outbound, now: nat)
  {
    && q.subscriptions > 0
    && (copy.fifo.Some? ==> !SeenWithinWindow(q.deduplication, copy.fifo.value.deduplication, now).0)
  }

  lemma DeliverShows(a: Account, key: string, copy: Outbound, now: nat)
    ensures var b := Deliver(a, key, copy, now);
            && a.nextId <= b.nextId && (forall k :: k != key ==> QueueOf(b, k) == QueueOf(a, k))
            && QueueOf(b, key).visible == if TakesCopy(QueueOf(a, key), copy, now)
                 then Insert(QueueOf(a, key).visible, Stored(a.nextId, copy, 0)) else QueueOf(a, key).visible
  {
    hide Insert, SeenWithinWindow;
  }

  /** Of distinct endpoints, each gets its copy on its own terms, and no other queue gets anything. */
  lemma {:induction false} FanOutShows(a: Account, endpoints: seq<string>, outbound: Outbound, now: nat, key: string)
    returns (id: nat)
    requires Once(endpoints)
    ensures id >= a.nextId
    ensures QueueOf(FanOut(a, endpoints, outbound, now), key).visible
         == if key in endpoints && TakesCopy(QueueOf(a, key), CopyFor(key, outbound), now)
            then Insert(QueueOf(a, key).visible, Stored(id, CopyFor(key, outbound), 0)) else QueueOf(a, key).visible
    decreases |endpoints|
  {
    hide Deliver, TakesCopy, CopyFor, Insert;
    if endpoints == [] {
      id := a.nextId;
    } else {
      var e, rest := endpoints[0], endpoints[1..];
      var b := Deliver(a, e, CopyFor(e, outbound), now);
      DeliverShows(a, e, CopyFor(e, outbound), now);
      id := FanOutShows(b, rest, outbound, now, key);
      assert endpoints == [e] + rest;
      if e == key {
        assert key !in rest;
        id := a.nextId;
      }
    }
  }

  /**
   * After any run, an accepted publish shows its copy on exactly those endpoints of the topic that
   * somebody reads, unless its id has a fresh accepted use on the topic or, on a FIFO endpoint, there.
   */
  lemma PublishReachesExactly(steps: seq<Step>, topic: string, outbound: Outbound, key: string) returns (id: nat)
    requires Legal(Start(), steps) && SendRefusal(IsFifo(topic), outbound, SNS_MAX_MESSAGE).None?
    ensures var w := After(Start(), steps);
            var q, q' := QueueOf(w.account, key), QueueOf(Next(w, PublishTo(topic, outbound)).account, key);
            var copy := CopyFor(key, outbound);
            var reached :=
              && key in EndpointsOf(w.account, topic) && q.subscriptions > 0
              && (outbound.fifo.Some? ==> !Collapses(TopicHistory(steps, topic), outbound.fifo.value.deduplication, w.now))
              && (copy.fifo.Some? ==> !Collapses(History(steps, key), copy.fifo.value.deduplication, w.now));
            && id >= w.account.nextId
            && q'.visible == if reached then Insert(q.visible, Stored(id, copy, 0)) else q.visible
  {
    hide SendRefusal, SeenWithinWindow, SeenAfter, FanOut, Insert, IsFifo;
    var w := After(Start(), steps);
    RunRemembers(steps, key);
    RunListsOnce(steps);
    assert Once(EndpointsOf(w.account, topic));
    var copy := CopyFor(key, outbound);
    if copy.fifo.Some? {
      HistoryAnswers(History(steps, key), copy.fifo.value.deduplication, w.now);
    }
    id := FanOutShows(w.account, EndpointsOf(w.account, topic), outbound, w.now, key);
    if outbound.fifo.Some? {
      PublishCollapses(steps, topic, outbound);
    }
    hide Legal, After, History, TopicHistory;
  }

  // ---------------------------------------------------------------------------------------------
  // Ids left to the crate

  /** Whether a step sends or publishes a message under a deduplication id. */
  predicate Carries(step: Step, id: Text)
  {
    (step.SendTo? || step.PublishTo?) && step.outbound.fifo.Some? && step.outbound.fifo.value.deduplication == id
  }

  /** No message of a run carries an id of the crate's own numbered `n` or later. */
  ghost predicate DrawnBelow(steps: seq<Step>, process: nat, n: nat)
  {
    forall i, m: nat :: 0 <= i < |steps| && Carries(steps[i], CrateId(process, m)) ==> m < n
  }

  lemma {:induction false} FanOutUsesAre(endpoints: seq<string>, key: string, outbound: Outbound, now: nat, i: nat)
    requires i < |FanOutUses(endpoints, key, outbound, now)|
    ensures outbound.fifo.Some?
    ensures FanOutUses(endpoints, key, outbound, now)[i].id == outbound.fifo.value.deduplication
  {
    var first := if endpoints[0] == key then UseOf(CopyFor(key, outbound), now) else [];
    if i >= |first| {
      FanOutUsesAre(endpoints[1..], key, outbound, now, i - |first|);
    }
  }

  /** Every use in a queue's history is of an id some message of the run carried. */
  lemma {:induction false} HistoryIsCarried(steps: seq<Step>, key: string, i: nat) returns (j: nat)
    requires Legal(Start(), steps) && i < |History(steps, key)|
    ensures j < |steps| && Carries(steps[j], History(steps, key)[i].id)
  {
    hide SendRefusal, SeenWithinWindow, Next;
    var before, last := steps[..|steps| - 1], steps[|steps| - 1];
    if i < |History(before, key)| {
      j := HistoryIsCarried(before, key, i);
      assert before[j] == steps[j];
    } else {
      j := |steps| - 1;
      var w := After(Start(), before);
      hide After, Legal;
      if last.PublishTo? {
        FanOutUsesAre(EndpointsOf(w.account, last.topic), key, last.outbound, w.now, i - |History(before, key)|);
      }
    }
  }

  /**
   * After any run, a FIFO send that leaves its id to the crate is no duplicate of anything before it:
   * it brings a message in exactly when somebody reads its queue. The number drawn is used up by it.
   */
  lemma CrateSendArrives(
    steps: seq<Step>, process: nat, issued: nat, key: string, payload: seq<byte>, headers: Headers,
    options: Option<PublishOptions>, mounted: Option<Text>)
    requires Legal(Start(), steps) && DrawnBelow(steps, process, issued)
    requires IsFifo(key) && DeduplicationOption(options).None?
    requires var framed := Framed(true, payload, headers, options, mounted, CrateId(process, issued));
             framed.Success? && SendRefusal(true, framed.value, SQS_MAX_MESSAGE).None?
    ensures var outbound := Framed(true, payload, headers, options, mounted, CrateId(process, issued)).value;
            && (Conservation.Arriving(After(Start(), steps), SendTo(key, outbound)) == multiset{}
                <==> QueueOf(After(Start(), steps).account, key).subscriptions == 0)
            && DrawnBelow(steps + [SendTo(key, outbound)], process, issued + 1)
  {
    var outbound := Framed(true, payload, headers, options, mounted, CrateId(process, issued)).value;
    assert outbound.fifo.Some? && outbound.fifo.value.deduplication == CrateId(process, issued);
    hide Framed, SendRefusal, CrateId, History, Conservation.Arriving, Fresh, Next, IsFifo;
    SendCollapsesExactly(steps, key, outbound);
    hide Legal, After;
    assert !Collapses(History(steps, key), CrateId(process, issued), After(Start(), steps).now) by {
      NothingFresh(steps, process, issued, key);
    }
    DrawsOneMore(steps, process, issued, SendTo(key, outbound));
  }

  lemma NothingFresh(steps: seq<Step>, process: nat, issued: nat, key: string)
    requires Legal(Start(), steps) && DrawnBelow(steps, process, issued)
    ensures !Collapses(History(steps, key), CrateId(process, issued), After(Start(), steps).now)
  {
    hide CrateId, Next, History, Repeat;
    var uses, id, now := History(steps, key), CrateId(process, issued), After(Start(), steps).now;
    hide Legal, After;
    forall j: int ensures !Fresh(uses, j, id, now) {
      if Fresh(uses, j, id, now) {
        var i := HistoryIsCarried(steps, key, j);
        assert false;
      }
    }
  }

  lemma DrawsOneMore(steps: seq<Step>, process: nat, issued: nat, step: Step)
    requires DrawnBelow(steps, process, issued) && Carries(step, CrateId(process, issued))
    ensures DrawnBelow(steps + [step], process, issued + 1)
  {
    hide CrateId;
    forall i, m: nat | 0 <= i < |steps + [step]| && Carries((steps + [step])[i], CrateId(process, m))
      ensures m < issued + 1
    {
      if i < |steps| {
        assert Carries(steps[i], CrateId(process, m));
      } else {
        CrateIdInjective(process, m, issued);
      }
    }
  }
}
