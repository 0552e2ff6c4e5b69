// Conservation over runs: which messages each step lets in and lets go, single placement, and the
// balance of the harness counters.
module Conservation {
  import opened Basics
  import opened Names
  import opened Wire
  import opened Account
  import opened World
  import opened Ledger
  import opened Sums
  import opened Deduplication

  /** The ids a step brings in: those of accepted messages that reach a queue somebody reads. */
  ghost function Arriving(w: World, step: Step): multiset<nat>
    requires Enabled(w, step)
  {
    var a := w.account;
    match step
    case SendTo(key, outbound) =>
      if SendRefusal(IsFifo(key), outbound, SQS_MAX_MESSAGE).Some? then multiset{}
      else DeliverAdds(a, key, outbound, w.now)
    case PublishTo(topic, outbound) =>
      if SendRefusal(IsFifo(topic), outbound, SNS_MAX_MESSAGE).Some? then multiset{}
      else if outbound.fifo.Some?
        && SeenWithinWindow(TopicSeen(a, topic), outbound.fifo.value.deduplication, w.now).0 then multiset{}
      else FanOutAdds(a, EndpointsOf(a, topic), outbound, w.now)
    case _ => multiset{}
  }

  /**
   * The ids a step lets go: the message an acknowledged or discarded receipt stood for, what the
   * last subscription takes with it, and what re-enters a queue nobody reads.
   */
  ghost function Leaving(w: World, step: Step): multiset<nat>
    requires Enabled(w, step)
  {
    var a := w.account;
    match step
    case CloseReader(id) =>
      var q := QueueOf(a, w.readers[id].queue);
      if q.subscriptions <= 1 then IdBag(q.visible) else multiset{}
    case Take(id) => ReceiveDrops(a, w.readers[id].queue, w.readers[id].max)
    case Settle(receipt, outcome, drift) =>
      var h := w.handles[receipt];
      (match Asked(h, outcome, HeldFor(w, receipt, drift))
       case None => FlightOf(a, h.queue, receipt)
       case Some(visibility) => AppliedDrops(a, h.queue, receipt, visibility, w.now))
    case Drop(receipt, drift) =>
      var h := w.handles[receipt];
      (match LeftOver(w, receipt, drift)
       case None => multiset{}
       case Some(visibility) => AppliedDrops(a, h.queue, receipt, visibility, w.now))
    case Fire(t) => LapseDrops(a.(timers := a.timers - {t}), t)
    case _ => multiset{}
  }

  /** The counters are balanced, every held id is in one place, and no receipt is drawn twice. */
  ghost predicate Balanced(w: World)
  {
    && Sound(w.account)
    && Owed(w.account) == |w.handles|
    && forall r :: r in w.handles ==> r < w.account.nextId
  }

  lemma {:induction false} NewHandlesAre(reader: Reader, handed: seq<Stored>, first: nat, now: nat)
    ensures forall r :: r in NewHandles(reader, handed, first, now) <==> first <= r < first + |handed|
    ensures forall r :: r in NewHandles(reader, handed, first, now) ==>
              NewHandles(reader, handed, first, now)[r] == Handle(reader.queue, reader.visibility, now, handed[r - first].receives, reader.cap, false)
    ensures |NewHandles(reader, handed, first, now)| == |handed|
  {
    if handed != [] {
      var n := |handed| - 1;
      NewHandlesAre(reader, handed[..n], first, now);
      var before, after := NewHandles(reader, handed[..n], first, now), NewHandles(reader, handed, first, now);
      assert after.Keys == before.Keys + {first + n};
    }
  }

  lemma AddedHandles(handles: map<nat, Handle>, more: map<nat, Handle>)
    requires handles.Keys !! more.Keys
    ensures |handles + more| == |handles| + |more|
  {
    assert (handles + more).Keys == handles.Keys + more.Keys;
    assert |handles + more| == |(handles + more).Keys|;
  }

  /** A change of what no message count reads. */
  lemma SameQueuesMoves(a: Account, b: Account)
    requires Sound(a) && b.queues == a.queues && b.nextId == a.nextId
    requires b.enqueued - b.consumed == a.enqueued - a.consumed
    ensures Moves(a, b, multiset{}, multiset{}, 0) && Sound(b)
  {
    hide Visible, Flying;
    SameQueuesOrdered(a, b);
  }

  lemma SetRedriveMoves(a: Account, key: string, cap: nat, deadLetter: string)
    requires Sound(a)
    ensures Moves(a, SetRedrive(a, key, cap, deadLetter), multiset{}, multiset{}, 0)
    ensures Sound(SetRedrive(a, key, cap, deadLetter))
  {
    hide Visible, Flying, QueueKey;
    if RedriveRefusal(key, cap, deadLetter).None? {
      var target := QueueKey(deadLetter).value;
      var b := PutQueue(a, target, QueueOf(a, target));
      SettingMoves(a, target, QueueOf(a, target));
      SettingMoves(b, key, QueueOf(b, key).(redrive := Some(DeadLetter(cap, target))));
      MovesThen(a, b, SetRedrive(a, key, cap, deadLetter), multiset{}, multiset{}, 0, multiset{}, multiset{}, 0);
      Unmoved(multiset{} + multiset{}, multiset{});
    }
  }

  /** What a topic has seen is no part of the ledger. */
  lemma MovesAside(
    a: Account, b: Account, c: Account, out: multiset<nat>, into: multiset<nat>, net: int)
    requires b == a.(topicSeen := b.topicSeen) && Moves(b, c, out, into, net)
    ensures Moves(a, c, out, into, net)
  {
    hide Visible, Flying;
  }

  lemma PublishMoves(w: World, topic: string, outbound: Outbound)
    requires Sound(w.account)
    ensures var step := PublishTo(topic, outbound);
            Moves(w.account, Next(w, step).account, multiset{}, Arriving(w, step), 0) && Sound(Next(w, step).account)
  {
    hide Sound, Moves, SendRefusal, FanOut, FanOutAdds, SeenWithinWindow;
    var a := w.account;
    SameQueuesMoves(a, a);
    FanOutMoves(a, EndpointsOf(a, topic), outbound, w.now);
    if outbound.fifo.Some? {
      var (repeat, seen) := SeenWithinWindow(TopicSeen(a, topic), outbound.fifo.value.deduplication, w.now);
      var noted := a.(topicSeen := a.topicSeen[topic := seen]);
      SameQueuesMoves(a, noted);
      FanOutMoves(noted, EndpointsOf(noted, topic), outbound, w.now);
      FanOutAddsSame(a, noted.topicSeen, EndpointsOf(a, topic), outbound, w.now);
      MovesAside(a, noted, FanOut(noted, EndpointsOf(noted, topic), outbound, w.now), multiset{},
        FanOutAdds(noted, EndpointsOf(noted, topic), outbound, w.now), 0);
    }
  }

  /** What delivering adds does not depend on what a topic has seen. */
  lemma {:induction false} FanOutAddsSame(
    a: Account, topicSeen: map<string, Seen>, endpoints: seq<string>, outbound: Outbound, now: nat)
    ensures FanOutAdds(a.(topicSeen := topicSeen), endpoints, outbound, now) == FanOutAdds(a, endpoints, outbound, now)
    decreases |endpoints|
  {
    hide Deliver, DeliverAdds;
    if endpoints != [] {
      var copy := CopyFor(endpoints[0], outbound);
      DeliverSame(a, topicSeen, endpoints[0], copy, now);
      FanOutAddsSame(Deliver(a, endpoints[0], copy, now), topicSeen, endpoints[1..], outbound, now);
    }
  }

  lemma DeliverSame(a: Account, topicSeen: map<string, Seen>, key: string, outbound: Outbound, now: nat)
    ensures var b := a.(topicSeen := topicSeen);
            && Deliver(b, key, outbound, now) == Deliver(a, key, outbound, now).(topicSeen := topicSeen)
            && DeliverAdds(b, key, outbound, now) == DeliverAdds(a, key, outbound, now)
  {
    hide SeenWithinWindow, Enqueue;
    var q := QueueOf(a, key);
    var seen := if outbound.fifo.Some?
      then SeenWithinWindow(q.deduplication, outbound.fifo.value.deduplication, now).1 else q.deduplication;
    var noted := PutQueue(a, key, q.(deduplication := seen)).(nextId := a.nextId + 1);
    EnqueueSame(noted, topicSeen, key, Stored(a.nextId, outbound, 0));
  }

  lemma EnqueueSame(a: Account, topicSeen: map<string, Seen>, key: string, s: Stored)
    ensures Enqueue(a.(topicSeen := topicSeen), key, s) == Enqueue(a, key, s).(topicSeen := topicSeen)
  {
    hide Insert;
  }

  lemma TakeMoves(w: World, id: nat)
    requires Balanced(w) && id in w.readers
    ensures Moves(w.account, Took(w, id).account, ReceiveDrops(w.account, w.readers[id].queue, w.readers[id].max),
              multiset{}, |TakenBy(w, id).handed|)
    ensures Sound(Took(w, id).account)
  {
    hide Sound, Moves, ScanOf, Receive, ReceiveDrops, NewHandles, Tagged, HandedOver;
    ReceiveMoves(w.account, w.readers[id].queue, w.readers[id].max, w.now);
  }

  /** Each message handed over has a handle of its own, under a receipt drawn for it. */
  lemma TakeHandles(w: World, id: nat)
    requires id in w.readers && forall r :: r in w.handles ==> r < w.account.nextId
    ensures |Took(w, id).handles| == |w.handles| + |TakenBy(w, id).handed|
    ensures forall r :: r in Took(w, id).handles ==> r < Took(w, id).account.nextId
  {
    hide ScanOf, Receive, NewHandles, Tagged, HandedOver;
    var reader, handed := w.readers[id], TakenBy(w, id).handed;
    NewHandlesAre(reader, handed, w.account.nextId, w.now);
    AddedHandles(w.handles, NewHandles(reader, handed, w.account.nextId, w.now));
    ReceiptsIssued(w.account, reader.queue, reader.max, w.now);
  }

  lemma ReceiptsIssued(a: Account, key: string, max: nat, now: nat)
    ensures Receive(a, key, max, now).nextId == a.nextId + |ScanOf(QueueOf(a, key), max).handed|
  {
    hide Scan, Insert;
    var q := QueueOf(a, key);
    if q.redrive.Some? {
      MoveSpentIssuesNothing(AfterLoop(a, key, max, now), q.redrive.value.queue, ScanOf(q, max).spent);
    }
  }

  lemma {:induction false} MoveSpentIssuesNothing(a: Account, target: string, spent: seq<Stored>)
    ensures MoveSpent(a, target, spent).nextId == a.nextId
    decreases |spent|
  {
    if spent != [] {
      MoveSpentIssuesNothing(Enqueue(a.(consumed := a.consumed + 1), target, spent[0]), target, spent[1..]);
    }
  }

  lemma SettleMoves(w: World, receipt: nat, outcome: Outcome, drift: nat)
    requires Balanced(w) && Enabled(w, Settle(receipt, outcome, drift))
    ensures var step := Settle(receipt, outcome, drift);
            Moves(w.account, Next(w, step).account, Leaving(w, step), multiset{}, 0) && Balanced(Next(w, step))
  {
    hide Visible, Flying, ChangeVisibility, AppliedDrops, Delete, FlightOf, ChangeRefusal;
    var h := w.handles[receipt];
    match Asked(h, outcome, HeldFor(w, receipt, drift))
    case None => DeleteMoves(w.account, h.queue, receipt);
    case Some(visibility) => ChangeMoves(w.account, h.queue, receipt, visibility, w.now);
  }

  lemma ReleaseMoves(a: Account, remaining: Option<nat>, key: string, receipt: nat, now: nat)
    requires Sound(a)
    ensures var b := Release(a, remaining, key, receipt, now);
            && Moves(a, b, if remaining.Some? then AppliedDrops(a, key, receipt, remaining.value, now) else multiset{},
                 multiset{}, -1)
            && Sound(b)
  {
    hide Visible, Flying, ChangeVisibility, AppliedDrops;
    if remaining.Some? {
      ChangeMoves(a, key, receipt, remaining.value, now);
    } else {
      SameQueuesMoves(a, a);
    }
    var changed := if remaining.Some? then ChangeVisibility(a, key, receipt, remaining.value, now) else a;
    SameQueuesOrdered(changed, changed.(consumed := changed.consumed + 1));
  }

  lemma ReleaseIssuesNothing(a: Account, remaining: Option<nat>, key: string, receipt: nat, now: nat)
    ensures Release(a, remaining, key, receipt, now).nextId == a.nextId
  {
    hide Insert;
  }

  lemma DropMoves(w: World, receipt: nat, drift: nat)
    requires Balanced(w) && Enabled(w, Drop(receipt, drift))
    ensures var step := Drop(receipt, drift);
            Moves(w.account, Next(w, step).account, Leaving(w, step), multiset{}, -1) && Sound(Next(w, step).account)
    ensures Next(w, Drop(receipt, drift)).account.nextId == w.account.nextId
  {
    hide Visible, Flying, Sound, Moves, Release, AppliedDrops, LeftOver;
    var h, left := w.handles[receipt], LeftOver(w, receipt, drift);
    ReleaseMoves(w.account, left, h.queue, receipt, w.now);
    ReleaseIssuesNothing(w.account, left, h.queue, receipt, w.now);
  }

  lemma FireMoves(w: World, t: Timer)
    requires Balanced(w) && Enabled(w, Fire(t))
    ensures var step := Fire(t);
            Moves(w.account, Next(w, step).account, Leaving(w, step), multiset{}, 0) && Balanced(Next(w, step))
  {
    hide Visible, Flying, Lapse, LapseDrops;
    var unarmed := w.account.(timers := w.account.timers - {t});
    SameQueuesMoves(w.account, unarmed);
    LapseMoves(unarmed, t);
  }

  ghost predicate Conserved(w: World, step: Step)
    requires Enabled(w, step)
  {
    && Balanced(Next(w, step))
    && Moves(w.account, Next(w, step).account, Leaving(w, step), Arriving(w, step),
         |Next(w, step).handles| - |w.handles|)
  }

  lemma SendConserves(w: World, key: string, outbound: Outbound)
    requires Balanced(w)
    ensures Conserved(w, SendTo(key, outbound))
  {
    hide Visible, Flying, MessageAccepted, DeliverAdds, Deliver;
    SameQueuesMoves(w.account, w.account);
    DeliverMoves(w.account, key, outbound, w.now);
  }

  lemma OpenConserves(w: World, id: nat, r: Reader)
    requires Balanced(w) && Enabled(w, OpenReader(id, r))
    ensures Conserved(w, OpenReader(id, r))
  {
    hide Visible, Flying;
    var q := QueueOf(w.account, r.queue);
    SettingMoves(w.account, r.queue, q.(subscriptions := q.subscriptions + 1));
  }

  lemma LookConserves(w: World, id: nat)
    requires Balanced(w) && Enabled(w, Look(id))
    ensures Conserved(w, Look(id))
  {
    hide Visible, Flying, Receivable;
    SettingMoves(w.account, w.readers[id].queue, QueueOf(w.account, w.readers[id].queue));
  }

  lemma PublishConserves(w: World, topic: string, outbound: Outbound)
    requires Balanced(w)
    ensures Conserved(w, PublishTo(topic, outbound))
  {
    hide Visible, Flying, Publish, FanOutAdds, Arriving;
    PublishMoves(w, topic, outbound);
  }

  lemma RedriveConserves(w: World, key: string, cap: nat, deadLetter: string)
    requires Balanced(w)
    ensures Conserved(w, Redrive(key, cap, deadLetter))
  {
    hide Visible, Flying, SetRedrive;
    SetRedriveMoves(w.account, key, cap, deadLetter);
  }

  lemma CloseConserves(w: World, id: nat)
    requires Balanced(w) && Enabled(w, CloseReader(id))
    ensures Conserved(w, CloseReader(id))
  {
    hide Visible, Flying, IdBag;
    CloseMoves(w.account, w.readers[id].queue);
  }

  lemma TakeLeaves(w: World, id: nat)
    requires Enabled(w, Take(id))
    ensures id in w.readers && Next(w, Take(id)) == Took(w, id) && Arriving(w, Take(id)) == multiset{}
    ensures Leaving(w, Take(id)) == ReceiveDrops(w.account, w.readers[id].queue, w.readers[id].max)
  {
    hide Took, ReceiveDrops;
  }

  lemma TakeConserves(w: World, id: nat)
    requires Balanced(w) && Enabled(w, Take(id))
    ensures Conserved(w, Take(id))
  {
    hide Enabled, Next, Leaving, Arriving, Sound, Visible, Flying, Took, ReceiveDrops, TakenBy, Moves, Owed;
    TakeLeaves(w, id);
    TakeMoves(w, id);
    TakeHandles(w, id);
    OwedMoves(w.account, Took(w, id).account, ReceiveDrops(w.account, w.readers[id].queue, w.readers[id].max),
      multiset{}, |TakenBy(w, id).handed|);
  }

  lemma OwedMoves(a: Account, b: Account, out: multiset<nat>, into: multiset<nat>, net: int)
    requires Moves(a, b, out, into, net)
    ensures Owed(b) == Owed(a) + net
  {
    hide Owed;
  }

  lemma SettleConserves(w: World, receipt: nat, outcome: Outcome, drift: nat)
    requires Balanced(w) && Enabled(w, Settle(receipt, outcome, drift))
    ensures Conserved(w, Settle(receipt, outcome, drift))
  {
    hide Visible, Flying, Leaving, Delete, ChangeVisibility, ChangeRefusal;
    SettleMoves(w, receipt, outcome, drift);
    SameSize(w.handles, receipt, w.handles[receipt].(settled := true));
    SameSize(w.handles, receipt, w.handles[receipt].(settled := false));
  }

  lemma SameSize(handles: map<nat, Handle>, receipt: nat, h: Handle)
    requires receipt in handles
    ensures |handles[receipt := h]| == |handles|
  {
    assert handles[receipt := h].Keys == handles.Keys;
  }

  lemma DropConserves(w: World, receipt: nat, drift: nat)
    requires Balanced(w) && Enabled(w, Drop(receipt, drift))
    ensures Conserved(w, Drop(receipt, drift))
  {
    hide Sound, Visible, Flying, Leaving, Release, LeftOver;
    DropMoves(w, receipt, drift);
    OneLess(w.handles, receipt);
  }

  lemma OneLess(handles: map<nat, Handle>, receipt: nat)
    requires receipt in handles
    ensures |handles - {receipt}| == |handles| - 1
  {
    assert (handles - {receipt}).Keys == handles.Keys - {receipt};
    assert |handles - {receipt}| == |(handles - {receipt}).Keys|;
  }

  lemma FireConserves(w: World, t: Timer)
    requires Balanced(w) && Enabled(w, Fire(t))
    ensures Conserved(w, Fire(t))
  {
    hide Visible, Flying, Leaving, Lapse;
    FireMoves(w, t);
  }

  lemma IdleConserves(w: World, step: Step)
    requires Balanced(w) && Enabled(w, step)
    requires step.Advance? || step.Link? || step.Register? || step.Wake?
    ensures Conserved(w, step)
  {
    hide Visible, Flying;
    SameQueuesMoves(w.account, Next(w, step).account);
  }

  /**
   * The ledger of one step: what is held after, with what left, is what was held before with what
   * arrived, and the counters stay balanced.
   */
  lemma StepConserves(w: World, step: Step)
    requires Balanced(w) && Enabled(w, step)
    ensures Conserved(w, step)
  {
    hide *;
    match step
    case SendTo(key, outbound) => SendConserves(w, key, outbound);
    case PublishTo(topic, outbound) => PublishConserves(w, topic, outbound);
    case Redrive(key, cap, deadLetter) => RedriveConserves(w, key, cap, deadLetter);
    case OpenReader(id, r) => OpenConserves(w, id, r);
    case CloseReader(id) => CloseConserves(w, id);
    case Look(id) => LookConserves(w, id);
    case Take(id) => TakeConserves(w, id);
    case Settle(receipt, outcome, drift) => SettleConserves(w, receipt, outcome, drift);
    case Drop(receipt, drift) => DropConserves(w, receipt, drift);
    case Fire(t) => FireConserves(w, t);
    case _ => IdleConserves(w, step);
  }

  /** The counters balance and every message is in one place after every legal run. */
  lemma {:induction false} RunBalanced(steps: seq<Step>)
    requires Legal(Start(), steps)
    ensures Balanced(After(Start(), steps))
  {
    if steps == [] {
      assert Visible(map[]) == multiset{} && Flying(map[]) == multiset{};
    } else {
      RunBalanced(steps[..|steps| - 1]);
      StepConserves(After(Start(), steps[..|steps| - 1]), steps[|steps| - 1]);
    }
  }

  // ---------------------------------------------------------------------------------------------
  // What the ledger says of single messages

  /** How many messages are visible over all queues. */
  ghost function VisibleCount(queues: Queues): nat { Sum(queues.Keys, CountBy(queues)) }

  ghost function CountBy(queues: Queues): string -> nat { k => |QueueAt(queues, k).visible| }

  lemma CountIsBagSize(queues: Queues)
    ensures VisibleCount(queues) == |Visible(queues)|
  {
    hide Sum, BagSum;
    forall k | k in queues.Keys ensures CountBy(queues)(k) == |ShownBy(queues)(k)| {
      IdBagConcat(QueueAt(queues, k).visible, []);
    }
    SumOfSizes(queues.Keys, CountBy(queues), ShownBy(queues));
  }

  /** After every run: counted in, less counted out, is what is visible plus what is being handled. */
  lemma HarnessCountersBalance(steps: seq<Step>)
    requires Legal(Start(), steps)
    ensures var w := After(Start(), steps);
            w.account.enqueued - w.account.consumed == VisibleCount(w.account.queues) + |w.handles|
  {
    RunBalanced(steps);
    CountIsBagSize(After(Start(), steps).account.queues);
  }

  /** A place a message can be in: a position among the visible messages, or a receipt. */
  datatype Place = Shown(key: string, index: nat) | InAir(key: string, receipt: nat)

  predicate At(queues: Queues, place: Place, id: nat)
  {
    var q := QueueAt(queues, place.key);
    match place
    case Shown(_, i) => i < |q.visible| && q.visible[i].id == id
    case InAir(_, r) => r in q.inFlight && q.inFlight[r].stored.id == id
  }

  function StoredAt(queues: Queues, place: Place, id: nat): Stored
    requires At(queues, place, id)
  {
    var q := QueueAt(queues, place.key);
    match place
    case Shown(_, i) => q.visible[i]
    case InAir(_, r) => q.inFlight[r].stored
  }

  /** An id in two places is held twice. */
  lemma TwicePlaced(queues: Queues, p: Place, q: Place, id: nat)
    requires At(queues, p, id) && At(queues, q, id) && p != q
    ensures Held(queues)[id] >= 2
  {
    hide Visible, Flying, IdBag, FlightBag;
    PlaceCounts(queues, p, id);
    PlaceCounts(queues, q, id);
    if p.Shown? == q.Shown? {
      QueueInside(queues, p.key);
      if p.key != q.key {
        TwoQueues(queues, p.key, q.key, id);
      } else if p.Shown? {
        ShownTwice(QueueAt(queues, p.key).visible, p.index, q.index);
      } else {
        FlightTwice(QueueAt(queues, p.key).inFlight, p.receipt, q.receipt);
      }
    }
  }

  lemma ShownTwice(v: seq<Stored>, i: nat, j: nat)
    requires i < |v| && j < |v| && i != j && v[i].id == v[j].id
    ensures IdBag(v)[v[i].id] >= 2
  {
    if i > j {
      ShownTwice(v, j, i);
    } else {
      assert v == v[..i + 1] + v[i + 1..];
      IdBagConcat(v[..i + 1], v[i + 1..]);
      IdBagMember(v[..i + 1], i);
      IdBagMember(v[i + 1..], j - i - 1);
    }
  }

  /** An id held once is in one place. */
  lemma OnePlace(a: Account, p: Place, q: Place, id: nat)
    requires Sound(a) && At(a.queues, p, id) && At(a.queues, q, id)
    ensures p == q
  {
    if p != q {
      TwicePlaced(a.queues, p, q, id);
    }
  }

  /** An id two queues show, or two have in flight, is held twice. */
  lemma TwoQueues(queues: Queues, j: string, k: string, id: nat)
    requires j in queues && k in queues && j != k
    ensures id in IdBag(QueueAt(queues, j).visible) && id in IdBag(QueueAt(queues, k).visible) ==> Visible(queues)[id] >= 2
    ensures id in FlightBag(QueueAt(queues, j).inFlight) && id in FlightBag(QueueAt(queues, k).inFlight) ==>
              Flying(queues)[id] >= 2
  {
    hide IdBag, FlightBag, BagSum;
    BagSumContainsTwo(queues.Keys, ShownBy(queues), j, k);
    BagSumContainsTwo(queues.Keys, FlownBy(queues), j, k);
    var shown, air := ShownBy(queues)(j) + ShownBy(queues)(k), FlownBy(queues)(j) + FlownBy(queues)(k);
    assert shown[id] <= Visible(queues)[id] && air[id] <= Flying(queues)[id];
  }

  lemma PlaceCounts(queues: Queues, p: Place, id: nat)
    requires At(queues, p, id)
    ensures p.key in queues
    ensures p.Shown? ==> id in IdBag(QueueAt(queues, p.key).visible) && id in Visible(queues)
    ensures p.InAir? ==> id in FlightBag(QueueAt(queues, p.key).inFlight) && id in Flying(queues)
  {
    QueueInside(queues, p.key);
    if p.Shown? {
      IdBagMember(QueueAt(queues, p.key).visible, p.index);
    } else {
      FlightRemoved(QueueAt(queues, p.key).inFlight, p.receipt);
    }
  }

  lemma FlightTwice(m: map<nat, InFlight>, r: nat, r': nat)
    requires r in m && r' in m && r != r' && m[r].stored.id == m[r'].stored.id
    ensures FlightBag(m)[m[r].stored.id] >= 2
  {
    FlightRemoved(m, r);
    FlightRemoved(m - {r}, r');
  }

  /** After every run, each held message is in exactly one place and its number was issued. */
  lemma SinglePlacement(steps: seq<Step>, p: Place, q: Place, id: nat)
    requires Legal(Start(), steps)
    requires At(After(Start(), steps).account.queues, p, id) && At(After(Start(), steps).account.queues, q, id)
    ensures p == q && id < After(Start(), steps).account.nextId
  {
    hide Visible, Flying, At, Next;
    RunBalanced(steps);
    var a := After(Start(), steps).account;
    OnePlace(a, p, q, id);
    PlaceCounts(a.queues, p, id);
    assert id in Held(a.queues);
  }

  /** A step brings in fresh ids only, and lets go exactly the ids `Leaving` names. */
  lemma StepLetsGo(w: World, step: Step, id: nat)
    requires Balanced(w) && Enabled(w, step)
    ensures id in Held(w.account.queues) && id !in Held(Next(w, step).account.queues) <==> id in Leaving(w, step)
    ensures id !in Held(w.account.queues) && id in Held(Next(w, step).account.queues) <==> id in Arriving(w, step)
    ensures id in Arriving(w, step) ==> id >= w.account.nextId
  {
    hide Visible, Flying, Next, Leaving, Arriving;
    StepConserves(w, step);
    OneWay(w, step);
    ArrivingFresh(w, step);
    var before, after, out, into := Held(w.account.queues), Held(Next(w, step).account.queues),
      Leaving(w, step), Arriving(w, step);
    assert (after + out)[id] == (before + into)[id];
    assert before[id] <= 1 && after[id] <= 1;
  }

  lemma OneWay(w: World, step: Step)
    requires Enabled(w, step)
    ensures Leaving(w, step) == multiset{} || Arriving(w, step) == multiset{}
  {
  }

  lemma ArrivingFresh(w: World, step: Step)
    requires Balanced(w) && Enabled(w, step)
    ensures forall id :: id in Arriving(w, step) ==> id >= w.account.nextId
  {
    hide Visible, Flying, FanOutAdds, DeliverAdds, MessageAccepted, SeenWithinWindow, Deliver, FanOut;
    match step
    case SendTo(key, outbound) => DeliverMoves(w.account, key, outbound, w.now);
    case PublishTo(topic, outbound) => FanOutMoves(w.account, EndpointsOf(w.account, topic), outbound, w.now);
    case _ =>
  }

  /** A message that is gone never comes back: its id is not reissued and nothing returns it. */
  lemma {:induction false} GoneForGood(w: World, steps: seq<Step>, id: nat)
    requires Balanced(w) && Legal(w, steps)
    requires id < w.account.nextId && id !in Held(w.account.queues)
    ensures id !in Held(After(w, steps).account.queues) && id < After(w, steps).account.nextId
    ensures Balanced(After(w, steps))
  {
    if steps != [] {
      var before, last := steps[..|steps| - 1], steps[|steps| - 1];
      GoneForGood(w, before, id);
      StepConserves(After(w, before), last);
      StepLetsGo(After(w, before), last, id);
    }
  }
}
