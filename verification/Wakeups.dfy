// No lost wake-up: a subscription that waits, and was not woken since it registered its interest,
// has nothing it could receive.
module Wakeups {
  import opened Basics
  import opened Account
  import opened World
  import opened Frames
  import Conservation
  import Futures
  import Groups
  import Handovers
  import Ledger
  import opened Runs
  import V = Visibility

  /** Nothing visible may be handed out. */
  predicate NothingFree(q: Queue)
  {
    forall i :: 0 <= i < |q.visible| ==> !Free(q.visible[i], Blocked(q))
  }

  lemma {:induction false} FreeOfNothing(visible: seq<Stored>, blocked: set<Text>)
    ensures FreeOf(visible, blocked) == [] <==> forall i :: 0 <= i < |visible| ==> !Free(visible[i], blocked)
  {
    if visible != [] {
      FreeOfNothing(visible[1..], blocked);
      if FreeOf(visible, blocked) == [] {
        forall i | 0 <= i < |visible| ensures !Free(visible[i], blocked) {
          assert i > 0 ==> visible[i] == visible[1..][i - 1];
        }
      } else if Free(visible[0], blocked) {
      } else {
        var j :| 0 <= j < |visible[1..]| && Free(visible[1..][j], blocked);
        assert Free(visible[j + 1], blocked);
      }
    }
  }

  function ReadersOf(readers: map<nat, Reader>, key: string): set<nat>
  {
    set id | id in readers && readers[id].queue == key
  }

  /** A queue nobody reads shows nothing. */
  predicate Drained(q: Queue) { q.subscriptions == 0 ==> q.visible == [] }

  /** A waiting or armed subscription, against the queue it reads. */
  predicate Watched(reader: Reader, q: Queue)
  {
    && reader.max > 0
    && (reader.phase.Armed? ==> reader.phase.ticket <= q.wakes)
    && (reader.phase.Parked? ==> reader.phase.ticket <= q.wakes && (reader.phase.ticket == q.wakes ==> NothingFree(q)))
  }

  ghost predicate AllCounted(w: World)
  {
    forall key :: QueueOf(w.account, key).subscriptions == |ReadersOf(w.readers, key)|
  }

  ghost predicate AllDrained(a: Account) { forall key :: Drained(QueueOf(a, key)) }

  ghost predicate AllWatched(w: World)
  {
    forall id :: id in w.readers ==> Watched(w.readers[id], QueueOf(w.account, w.readers[id].queue))
  }

  /** Subscriptions are counted, unread queues are drained, and no waiting subscription is forgotten. */
  ghost predicate Attended(w: World) { AllCounted(w) && AllDrained(w.account) && AllWatched(w) }

  // ---------------------------------------------------------------------------------------------
  // Changes of a queue that forget no waiter

  /** Waiters are woken unless there is still nothing for them. */
  predicate Quiet(q: Queue, q': Queue)
  {
    && q'.subscriptions == q.subscriptions && q.wakes <= q'.wakes
    && (Drained(q) ==> Drained(q'))
    && (Drained(q) && q'.wakes == q.wakes && NothingFree(q) ==> NothingFree(q'))
  }

  ghost predicate AllQuiet(a: Account, b: Account) { forall k :: Quiet(QueueOf(a, k), QueueOf(b, k)) }

  lemma QuietThen(a: Account, b: Account, c: Account)
    requires AllQuiet(a, b) && AllQuiet(b, c)
    ensures AllQuiet(a, c)
  {
    forall k ensures Quiet(QueueOf(a, k), QueueOf(c, k)) {
      assert Quiet(QueueOf(a, k), QueueOf(b, k)) && Quiet(QueueOf(b, k), QueueOf(c, k));
    }
  }

  lemma FedIsQuiet(a: Account, b: Account)
    requires Fed(a, b)
    ensures AllQuiet(a, b)
  {
    forall k ensures Quiet(QueueOf(a, k), QueueOf(b, k)) {
      var q, q' := QueueOf(a, k), QueueOf(b, k);
      assert QueueFed(q, q');
      assert Blocked(q') == Blocked(q);
    }
  }

  lemma OneQueueIsQuiet(a: Account, b: Account, key: string)
    requires OnlyQueue(a, b, key) && Quiet(QueueOf(a, key), QueueOf(b, key))
    ensures AllQuiet(a, b)
  {
    forall k ensures Quiet(QueueOf(a, k), QueueOf(b, k)) {
      if k != key {
        assert QueueOf(b, k) == QueueOf(a, k);
      }
    }
  }

  /** A message out of flight: the group it blocked may be free, so the waiters are woken. */
  lemma DeleteIsQuiet(a: Account, key: string, receipt: nat)
    ensures AllQuiet(a, Delete(a, key, receipt))
  {
    OneQueueIsQuiet(a, Delete(a, key, receipt), key);
  }

  lemma ReturnIsQuiet(a: Account, key: string, receipt: nat)
    requires receipt in QueueOf(a, key).inFlight
    ensures AllQuiet(a, Return(a, key, receipt))
  {
    hide Insert;
    ReturnFeeds(a, key, receipt);
    OneQueueIsQuiet(a, Return(a, key, receipt), key);
  }

  lemma ChangeIsQuiet(a: Account, key: string, receipt: nat, visibility: nat, now: nat)
    ensures AllQuiet(a, ChangeVisibility(a, key, receipt, visibility, now))
  {
    hide Return;
    var b := ChangeVisibility(a, key, receipt, visibility, now);
    if ChangeRefusal(a, key, receipt, visibility, now).Some? {
      OneQueueIsQuiet(a, b, key);
    } else if visibility == 0 {
      ReturnIsQuiet(a, key, receipt);
    } else {
      var q, q' := QueueOf(a, key), QueueOf(b, key);
      var entry := q.inFlight[receipt];
      assert q' == q.(inFlight := q.inFlight[receipt := entry.(generation := entry.generation + 1)]);
      SameBlocked(q, q');
      OneQueueIsQuiet(a, b, key);
    }
  }

  lemma SameBlocked(q: Queue, q': Queue)
    requires q'.fifo == q.fifo && q'.inFlight.Keys == q.inFlight.Keys
    requires forall r :: r in q.inFlight ==> q'.inFlight[r].stored == q.inFlight[r].stored
    ensures Blocked(q') == Blocked(q)
  {
  }

  lemma LapseIsQuiet(a: Account, t: Timer)
    ensures AllQuiet(a, Lapse(a.(timers := a.timers - {t}), t.key, t.receipt, t.generation))
  {
    hide Return;
    var b := a.(timers := a.timers - {t});
    var c := Lapse(b, t.key, t.receipt, t.generation);
    assert AllQuiet(a, b);
    if Futures.Counts(b, t) {
      ReturnIsQuiet(b, t.key, t.receipt);
    } else {
      OneQueueIsQuiet(b, c, t.key);
    }
    QuietThen(a, b, c);
  }

  /** Receiving takes visible messages and blocks groups, so it frees nothing. */
  lemma TakenFromIsQuiet(q: Queue, max: nat, first: nat, now: nat)
    requires forall r :: r in q.inFlight ==> r < first
    ensures Quiet(q, TakenFrom(q, ScanOf(q, max), first, now))
  {
    hide Scan, Flights;
    var t := ScanOf(q, max);
    var q' := TakenFrom(q, t, first, now);
    Ledger.FlightsAre(t.handed, first, now);
    ScanLeft(q.visible, Blocked(q), q.redrive, max);
    assert forall r :: r in q.inFlight ==> r in q'.inFlight && q'.inFlight[r] == q.inFlight[r];
    assert Blocked(q) <= Blocked(q');
    forall i | Drained(q) && NothingFree(q) && 0 <= i < |q'.visible| ensures !Free(q'.visible[i], Blocked(q')) {
      assert q'.visible[i] in q.visible;
    }
  }

  lemma {:induction false} ScanLeft(v: seq<Stored>, blocked: set<Text>, redrive: Option<DeadLetter>, max: nat)
    ensures forall i :: 0 <= i < |Scan(v, blocked, redrive, max).left| ==> Scan(v, blocked, redrive, max).left[i] in v
    ensures v == [] ==> Scan(v, blocked, redrive, max).left == []
  {
    if max > 0 && v != [] {
      ScanLeft(v[1..], blocked, redrive, if Free(v[0], blocked) && !Spent(v[0], redrive) then max - 1 else max);
    }
  }

  lemma ReceiveIsQuiet(a: Account, key: string, max: nat, now: nat)
    requires Ledger.Ordered(a)
    ensures AllQuiet(a, Receive(a, key, max, now))
  {
    hide Scan, Flights, MoveSpent;
    var q := QueueOf(a, key);
    var loop := Ledger.AfterLoop(a, key, max, now);
    TakenFromIsQuiet(q, max, a.nextId, now);
    assert forall k :: k != key ==> QueueOf(loop, k) == QueueOf(a, k);
    forall k ensures Quiet(QueueOf(a, k), QueueOf(loop, k)) {
    }
    if q.redrive.Some? {
      MoveSpentFeeds(loop, q.redrive.value.queue, ScanOf(q, max).spent);
      FedIsQuiet(loop, Receive(a, key, max, now));
      QuietThen(a, loop, Receive(a, key, max, now));
    }
  }

  // ---------------------------------------------------------------------------------------------
  // Steps

  /** Quiet changes under unchanged subscriptions. */
  lemma QuietKeeps(w: World, w': World)
    requires Attended(w) && AllQuiet(w.account, w'.account) && w'.readers == w.readers
    ensures Attended(w')
  {
    hide QueueOf, NothingFree;
    forall k ensures Quiet(QueueOf(w.account, k), QueueOf(w'.account, k)) {
    }
    forall id | id in w'.readers ensures Watched(w'.readers[id], QueueOf(w'.account, w'.readers[id].queue)) {
      assert Watched(w.readers[id], QueueOf(w.account, w.readers[id].queue));
      assert Drained(QueueOf(w.account, w.readers[id].queue));
    }
  }

  /** One subscription changes phase. */
  lemma PhaseKeeps(w: World, w': World, id: nat, phase: Phase)
    requires Attended(w) && id in w.readers && w' == InPhase(w, id, phase)
    requires Watched(w'.readers[id], QueueOf(w.account, w.readers[id].queue))
    ensures Attended(w')
  {
    hide NothingFree;
    forall k ensures ReadersOf(w'.readers, k) == ReadersOf(w.readers, k) {
    }
    forall r | r in w'.readers ensures Watched(w'.readers[r], QueueOf(w'.account, w'.readers[r].queue)) {
      if r != id {
        assert Watched(w.readers[r], QueueOf(w.account, w.readers[r].queue));
      }
    }
  }

  /** A subscription more, or one less, on one queue: the count follows the readers. */
  lemma RecountKeeps(w: World, w': World, key: string)
    requires AllCounted(w) && OnlyQueue(w.account, w'.account, key)
    requires forall k :: k != key ==> ReadersOf(w'.readers, k) == ReadersOf(w.readers, k)
    requires QueueOf(w'.account, key).subscriptions == |ReadersOf(w'.readers, key)|
    ensures AllCounted(w')
  {
    hide QueueOf, ReadersOf;
    forall k ensures QueueOf(w'.account, k).subscriptions == |ReadersOf(w'.readers, k)| {
      if k != key {
        assert QueueOf(w'.account, k) == QueueOf(w.account, k);
      }
    }
  }

  lemma OpenKeeps(w: World, id: nat, r: Reader)
    requires Attended(w) && Enabled(w, OpenReader(id, r))
    ensures Attended(Next(w, OpenReader(id, r)))
  {
    hide AllCounted, AllDrained, AllWatched;
    OpenKeepsCount(w, id, r);
    OpenKeepsDrained(w, id, r);
    OpenKeepsWatched(w, id, r);
  }

  lemma ReadersOpened(readers: map<nat, Reader>, id: nat, r: Reader, k: string)
    requires id !in readers
    ensures ReadersOf(readers[id := r], k) == ReadersOf(readers, k) + if k == r.queue then {id} else {}
    ensures id !in ReadersOf(readers, k)
  {
  }

  lemma OpenCounts(a: Account, key: string)
    ensures OnlyQueue(a, Open(a, key), key)
    ensures QueueOf(Open(a, key), key).subscriptions == QueueOf(a, key).subscriptions + 1
  {
  }

  lemma OpenKeepsCount(w: World, id: nat, r: Reader)
    requires AllCounted(w) && Enabled(w, OpenReader(id, r))
    ensures AllCounted(Next(w, OpenReader(id, r)))
  {
    hide Open, QueueOf, ReadersOf;
    var w' := Next(w, OpenReader(id, r));
    assert QueueOf(w.account, r.queue).subscriptions == |ReadersOf(w.readers, r.queue)|;
    hide AllCounted, Next, Enabled;
    OpenCounts(w.account, r.queue);
    ReadersOpened(w.readers, id, r, r.queue);
    forall k | k != r.queue ensures ReadersOf(w'.readers, k) == ReadersOf(w.readers, k) {
      ReadersOpened(w.readers, id, r, k);
    }
    RecountKeeps(w, w', r.queue);
  }

  lemma OpenKeepsDrained(w: World, id: nat, r: Reader)
    requires AllDrained(w.account) && Enabled(w, OpenReader(id, r))
    ensures AllDrained(Next(w, OpenReader(id, r)).account)
  {
    forall k ensures Drained(QueueOf(Next(w, OpenReader(id, r)).account, k)) {
      assert Drained(QueueOf(w.account, k));
    }
  }

  lemma OpenKeepsWatched(w: World, id: nat, r: Reader)
    requires AllWatched(w) && Enabled(w, OpenReader(id, r))
    ensures AllWatched(Next(w, OpenReader(id, r)))
  {
    hide NothingFree;
    var w' := Next(w, OpenReader(id, r));
    forall i | i in w'.readers ensures Watched(w'.readers[i], QueueOf(w'.account, w'.readers[i].queue)) {
      if i != id {
        assert Watched(w.readers[i], QueueOf(w.account, w.readers[i].queue));
        SubscriptionsAside(QueueOf(w.account, w.readers[i].queue), QueueOf(w'.account, w.readers[i].queue));
      }
    }
  }

  lemma SubscriptionsAside(q: Queue, q': Queue)
    requires q' == q.(subscriptions := q'.subscriptions)
    ensures NothingFree(q) == NothingFree(q') && q'.wakes == q.wakes
  {
    assert Blocked(q') == Blocked(q);
  }

  lemma CloseKeeps(w: World, id: nat)
    requires Attended(w) && Enabled(w, CloseReader(id))
    ensures Attended(Next(w, CloseReader(id)))
  {
    hide AllCounted, AllDrained, AllWatched;
    CloseKeepsCount(w, id);
    CloseKeepsDrained(w, id);
    CloseKeepsWatched(w, id);
  }

  lemma CloseKeepsCount(w: World, id: nat)
    requires AllCounted(w) && Enabled(w, CloseReader(id))
    ensures AllCounted(Next(w, CloseReader(id)))
  {
    var w', key := Next(w, CloseReader(id)), w.readers[id].queue;
    assert id in ReadersOf(w.readers, key);
    assert ReadersOf(w'.readers, key) == ReadersOf(w.readers, key) - {id};
    forall k | k != key ensures ReadersOf(w'.readers, k) == ReadersOf(w.readers, k) {
    }
    RecountKeeps(w, w', key);
  }

  lemma CloseKeepsDrained(w: World, id: nat)
    requires AllDrained(w.account) && Enabled(w, CloseReader(id))
    ensures AllDrained(Next(w, CloseReader(id)).account)
  {
    forall k ensures Drained(QueueOf(Next(w, CloseReader(id)).account, k)) {
      assert Drained(QueueOf(w.account, k));
    }
  }

  /** While another subscription of the queue is open, closing one drops nothing it waits for. */
  lemma CloseKeepsWatched(w: World, id: nat)
    requires AllWatched(w) && AllCounted(w) && Enabled(w, CloseReader(id))
    ensures AllWatched(Next(w, CloseReader(id)))
  {
    hide NothingFree;
    var w', key := Next(w, CloseReader(id)), w.readers[id].queue;
    CloseKeepsCount(w, id);
    forall i | i in w'.readers ensures Watched(w'.readers[i], QueueOf(w'.account, w'.readers[i].queue)) {
      assert Watched(w.readers[i], QueueOf(w.account, w.readers[i].queue));
      if w.readers[i].queue == key {
        assert i in ReadersOf(w'.readers, key);
        SubscriptionsAside(QueueOf(w.account, key), QueueOf(w'.account, key));
      }
    }
  }

  lemma LookKeeps(w: World, id: nat)
    requires Attended(w) && Enabled(w, Look(id))
    ensures Attended(Next(w, Look(id)))
  {
    hide NothingFree, FreeOf;
    var reader := w.readers[id];
    var q := QueueOf(w.account, reader.queue);
    var looked := w.(account := PutQueue(w.account, reader.queue, q));
    assert AllQuiet(w.account, looked.account) by {
      OneQueueIsQuiet(w.account, looked.account, reader.queue);
    }
    QuietKeeps(w, looked);
    assert Watched(reader, q);
    FreeIsReceivable(q, reader.max);
    var phase := if Receivable(w.account, reader.queue, reader.max) == 0 then Parked(reader.phase.ticket) else Ready;
    PhaseKeeps(looked, Next(w, Look(id)), id, phase);
  }

  lemma FreeIsReceivable(q: Queue, max: nat)
    requires max > 0
    ensures Min(|FreeOf(q.visible, Blocked(q))|, max) == 0 <==> NothingFree(q)
  {
    FreeOfNothing(q.visible, Blocked(q));
  }

  lemma TakeKeeps(w: World, id: nat)
    requires Attended(w) && Ledger.Ordered(w.account) && Enabled(w, Take(id))
    ensures Attended(Next(w, Take(id)))
  {
    hide NothingFree, Receive, NewHandles, Tagged, HandedOver, Scan, Ledger.Ordered;
    var reader := w.readers[id];
    ReceiveIsQuiet(w.account, reader.queue, reader.max, w.now);
    var received := w.(account := Receive(w.account, reader.queue, reader.max, w.now));
    QuietKeeps(w, received);
    assert Watched(reader, QueueOf(received.account, reader.queue));
    PhaseKeeps(received, InPhase(received, id, Idle), id, Idle);
    SameAttended(InPhase(received, id, Idle), Next(w, Take(id)));
  }

  lemma SameAttended(w: World, w': World)
    requires Attended(w) && w'.account == w.account && w'.readers == w.readers
    ensures Attended(w')
  {
  }

  lemma SettleKeeps(w: World, receipt: nat, outcome: Outcome, drift: nat)
    requires Attended(w) && Enabled(w, Settle(receipt, outcome, drift))
    ensures Attended(Next(w, Settle(receipt, outcome, drift)))
  {
    hide Attended, ChangeVisibility, ChangeRefusal, Delete, V.RetrySeconds;
    var h := w.handles[receipt];
    match Asked(h, outcome, HeldFor(w, receipt, drift))
    case None =>
      DeleteIsQuiet(w.account, h.queue, receipt);
      QuietKeeps(w, Next(w, Settle(receipt, outcome, drift)));
    case Some(visibility) =>
      ChangeIsQuiet(w.account, h.queue, receipt, visibility, w.now);
      QuietKeeps(w, Next(w, Settle(receipt, outcome, drift)));
  }

  lemma DropKeeps(w: World, receipt: nat, drift: nat)
    requires Attended(w) && Enabled(w, Drop(receipt, drift))
    ensures Attended(Next(w, Drop(receipt, drift)))
  {
    hide Attended, ChangeVisibility, LeftOver;
    var h, left := w.handles[receipt], LeftOver(w, receipt, drift);
    var w' := Next(w, Drop(receipt, drift));
    if left.Some? {
      ChangeIsQuiet(w.account, h.queue, receipt, left.value, w.now);
      var changed := ChangeVisibility(w.account, h.queue, receipt, left.value, w.now);
      assert AllQuiet(changed, w'.account);
      QuietThen(w.account, changed, w'.account);
    } else {
      assert AllQuiet(w.account, w'.account);
    }
    QuietKeeps(w, w');
  }

  /** Every step keeps every waiting subscription attended. */
  lemma StepKeepsAttended(w: World, step: Step)
    requires Attended(w) && Ledger.Ordered(w.account) && Enabled(w, step)
    ensures Attended(Next(w, step))
  {
    hide Send, Publish, SetRedrive, NothingFree, Lapse, Ledger.Ordered, Settled, Dropped, Took, Looked, Open, Close;
    var w' := Next(w, step);
    match step
    case SendTo(key, outbound) =>
      SendFeeds(w.account, key, outbound, w.now);
      FedIsQuiet(w.account, w'.account);
      QuietKeeps(w, w');
    case PublishTo(topic, outbound) =>
      PublishFeeds(w.account, topic, outbound, w.now);
      FedIsQuiet(w.account, w'.account);
      QuietKeeps(w, w');
    case Redrive(key, cap, deadLetter) => RedriveKeeps(w, w', key, cap, deadLetter);
    case OpenReader(id, r) => OpenKeeps(w, id, r);
    case CloseReader(id) => CloseKeeps(w, id);
    case Register(id) =>
      assert Watched(w.readers[id], QueueOf(w.account, w.readers[id].queue));
      PhaseKeeps(w, w', id, Armed(QueueOf(w.account, w.readers[id].queue).wakes));
    case Look(id) => LookKeeps(w, id);
    case Wake(id) =>
      assert Watched(w.readers[id], QueueOf(w.account, w.readers[id].queue));
      PhaseKeeps(w, w', id, Idle);
    case Take(id) => TakeKeeps(w, id);
    case Settle(receipt, outcome, drift) => SettleKeeps(w, receipt, outcome, drift);
    case Drop(receipt, drift) => DropKeeps(w, receipt, drift);
    case Fire(t) =>
      LapseIsQuiet(w.account, t);
      QuietKeeps(w, w');
    case Link(topic, queue) =>
      assert AllQuiet(w.account, w'.account);
      QuietKeeps(w, w');
    case Advance(_) => SameAttended(w, w');
  }

  lemma RedriveKeeps(w: World, w': World, key: string, cap: nat, deadLetter: string)
    requires Attended(w) && w' == w.(account := SetRedrive(w.account, key, cap, deadLetter))
    ensures Attended(w')
  {
    hide SetRedrive, QueueOf, Attended;
    Futures.SetRedriveFlights(w.account, key, cap, deadLetter);
    forall k ensures Quiet(QueueOf(w.account, k), QueueOf(w'.account, k)) {
      SameBlocked(QueueOf(w.account, k), QueueOf(w'.account, k));
    }
    QuietKeeps(w, w');
  }

  // ---------------------------------------------------------------------------------------------
  // Runs

  lemma {:induction false} RunAttended(steps: seq<Step>)
    requires Legal(Start(), steps)
    ensures Attended(After(Start(), steps))
  {
    hide Next;
    if steps == [] {
      assert forall key :: ReadersOf(map[], key) == {};
    } else {
      var before := steps[..|steps| - 1];
      RunAttended(before);
      Conservation.RunBalanced(before);
      StepKeepsAttended(After(Start(), before), steps[|steps| - 1]);
    }
  }

  /**
   * After every run: a subscription that waits and was not woken since it registered its interest
   * has nothing to receive; all its queue shows is of groups with a message in flight.
   */
  lemma NoLostWakeup(steps: seq<Step>, id: nat)
    requires Legal(Start(), steps) && id in After(Start(), steps).readers
    requires After(Start(), steps).readers[id].phase.Parked?
    requires !Enabled(After(Start(), steps), Wake(id))
    ensures var w := After(Start(), steps);
            var q := QueueOf(w.account, w.readers[id].queue);
            && Receivable(w.account, w.readers[id].queue, w.readers[id].max) == 0
            && forall i :: 0 <= i < |q.visible| ==> !Handovers.AtRest(q, q.visible[i])
  {
    hide Next, FreeOf, Blocked, Free, Handovers.AtRest;
    RunAttended(steps);
    Groups.RunKeepsKinds(steps);
    var w := After(Start(), steps);
    var key := w.readers[id].queue;
    var q := QueueOf(w.account, key);
    assert Watched(w.readers[id], q);
    FreeIsReceivable(q, w.readers[id].max);
    assert Groups.QueueOfKind(q, key);
    forall i | 0 <= i < |q.visible| ensures !Handovers.AtRest(q, q.visible[i]) {
      assert Groups.OfKind(q.visible[i], key);
      Handovers.FreeIsAtRest(q, key, q.visible[i]);
    }
  }

  lemma {:induction false} ScanTakesNothing(v: seq<Stored>, blocked: set<Text>, redrive: Option<DeadLetter>, max: nat)
    requires max > 0
    ensures var t := Scan(v, blocked, redrive, max);
            t.handed == [] && t.spent == [] <==> forall i :: 0 <= i < |v| ==> !Free(v[i], blocked)
  {
    hide Free, Spent;
    if v != [] && !Free(v[0], blocked) {
      ScanTakesNothing(v[1..], blocked, redrive, max);
      assert forall i :: 0 < i < |v| ==> v[i] == v[1..][i - 1];
    }
  }

  /** A subscription that looks waits exactly when a receive at that moment would take nothing off its queue. */
  lemma LookDecides(steps: seq<Step>, id: nat)
    requires Legal(Start(), steps) && Enabled(After(Start(), steps), Look(id))
    ensures var w := After(Start(), steps);
            var phase := Next(w, Look(id)).readers[id].phase;
            && (phase.Parked? || phase == Ready)
            && (phase.Parked? <==> TakenBy(w, id).handed == [] && TakenBy(w, id).spent == [])
  {
    hide FreeOf, Blocked, Free, Scan;
    RunAttended(steps);
    var w := After(Start(), steps);
    hide Legal, After;
    var q := QueueOf(w.account, w.readers[id].queue);
    assert Watched(w.readers[id], q);
    FreeIsReceivable(q, w.readers[id].max);
    ScanTakesNothing(q.visible, Blocked(q), q.redrive, w.readers[id].max);
  }

  predicate Interested(phase: Phase) { phase.Armed? || phase.Parked? }

  /** How a subscription comes to wait, and to receive: by registering, and by a look that found something. */
  lemma PhaseStep(w: World, step: Step, id: nat)
    requires Enabled(w, step) && id in Next(w, step).readers
    ensures var reader := Next(w, step).readers[id];
            && (Interested(reader.phase) ==>
                  && id in w.readers && w.readers[id].queue == reader.queue
                  && (if step == Register(id) then reader.phase.ticket == QueueOf(w.account, reader.queue).wakes
                      else Interested(w.readers[id].phase) && w.readers[id].phase.ticket == reader.phase.ticket))
            && (reader.phase.Ready? && step != Look(id) ==> id in w.readers && w.readers[id].phase.Ready?)
  {
    hide Send, Publish, SetRedrive, Receive, TakenBy, NewHandles, Tagged, HandedOver, Settled, Dropped, Lapse, Receivable;
    if step.Settle? {
      SettleKeepsReaders(w, step.receipt, step.outcome, step.drift);
    }
    if step.Drop? {
      DropKeepsReaders(w, step.receipt, step.drift);
    }
  }

  lemma SettleKeepsReaders(w: World, receipt: nat, outcome: Outcome, drift: nat)
    requires Timely(w, receipt, drift)
    ensures Settled(w, receipt, outcome, drift).readers == w.readers
  {
    hide Asked, ChangeVisibility, ChangeRefusal, Delete;
  }

  lemma DropKeepsReaders(w: World, receipt: nat, drift: nat)
    requires Timely(w, receipt, drift)
    ensures Dropped(w, receipt, drift).readers == w.readers
  {
    hide Release, LeftOver;
  }

  /**
   * No spurious wake-up: after any run, what a subscription waits with is the number of wakes its
   * queue had when it registered, so it is woken exactly if its queue was since.
   */
  lemma {:induction false} TicketIsRegistration(run: seq<Step>, id: nat) returns (n: nat)
    requires Legal(Start(), run) && id in After(Start(), run).readers
    requires Interested(After(Start(), run).readers[id].phase)
    ensures n < |run| && run[n] == Register(id)
    ensures var reader := After(Start(), run).readers[id];
            reader.phase.ticket == QueueOf(At(run, n).account, reader.queue).wakes
  {
    hide Next, At, After, Legal, Enabled, QueueOf;
    NobodyReads();
    LastOf(run);
    var before, last := run[..|run| - 1], run[|run| - 1];
    PhaseStep(After(Start(), before), last, id);
    if last == Register(id) {
      n := |run| - 1;
    } else {
      n := TicketIsRegistration(before, id);
      AtPrefix(run, n);
    }
  }

  /** After any run, a subscription about to receive has looked, and a receive then would have taken something. */
  lemma {:induction false} ReadyHasLooked(run: seq<Step>, id: nat) returns (n: nat)
    requires Legal(Start(), run) && id in After(Start(), run).readers
    requires After(Start(), run).readers[id].phase.Ready?
    ensures n < |run| && run[n] == Look(id) && id in At(run, n).readers
    ensures TakenBy(At(run, n), id).handed != [] || TakenBy(At(run, n), id).spent != []
  {
    hide Next, At, After, Legal, Enabled, TakenBy;
    NobodyReads();
    LastOf(run);
    var before, last := run[..|run| - 1], run[|run| - 1];
    PhaseStep(After(Start(), before), last, id);
    if last == Look(id) {
      n := |run| - 1;
      LookDecides(before, id);
      LookReads(After(Start(), before), id);
    } else {
      n := ReadyHasLooked(before, id);
      AtPrefix(run, n);
    }
  }

  lemma LookReads(w: World, id: nat)
    requires Enabled(w, Look(id))
    ensures id in w.readers
  {
  }

  lemma NobodyReads()
    ensures After(Start(), []).readers == map[]
  {
  }
}
