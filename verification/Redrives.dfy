// The redrive policy: the receive count a message carries is how often it was handed over, a queue
// under a cap hands a message over at most that often, and a discard never loses a used-up message.
module Redrives {
  import opened Basics
  import opened Names
  import opened Wire
  import opened Account
  import opened World
  import opened Runs
  import opened Deduplication
  import Conservation
  import Fifo
  import Futures
  import Groups
  import Ledger
  import Returns
  import V = Visibility

  // ---------------------------------------------------------------------------------------------
  // What every operation does to the stored messages

  predicate Throughout(q: Queue, P: Stored -> bool)
  {
    && (forall i :: 0 <= i < |q.visible| ==> P(q.visible[i]))
    && (forall r :: r in q.inFlight ==> P(q.inFlight[r].stored))
  }

  /** Every message the account holds, visible or in flight, meets `P`. */
  ghost predicate Everywhere(a: Account, P: Stored -> bool) { forall k :: Throughout(QueueOf(a, k), P) }

  /** What a step puts on queues: a send its message, a publish that or its copy without a group. */
  predicate Brings(step: Step, copy: Outbound)
  {
    match step
    case SendTo(_, outbound) => copy == outbound
    case PublishTo(_, outbound) => copy == outbound || copy == outbound.(fifo := None)
    case _ => false
  }

  /** What a step brings in, stored under a number not issued yet, meets `P`. */
  ghost predicate NewMeets(a: Account, step: Step, P: Stored -> bool)
  {
    forall s: Stored :: s.receives == 0 && s.id >= a.nextId && Brings(step, s.outbound) ==> P(s)
  }

  lemma PutThroughout(a: Account, b: Account, key: string, q: Queue, P: Stored -> bool)
    requires Everywhere(a, P) && Throughout(q, P) && b.queues == a.queues[key := q]
    ensures Everywhere(b, P)
  {
    assert forall k :: QueueOf(b, k) == if k == key then q else QueueOf(a, k);
  }

  lemma SameThroughout(a: Account, b: Account, P: Stored -> bool)
    requires Everywhere(a, P) && b.queues == a.queues
    ensures Everywhere(b, P)
  {
    assert forall k :: QueueOf(b, k) == QueueOf(a, k);
  }

  lemma EnqueueThroughout(a: Account, key: string, s: Stored, P: Stored -> bool)
    requires Everywhere(a, P) && P(s)
    ensures Everywhere(Enqueue(a, key, s), P)
  {
    hide Insert;
    var q := QueueOf(a, key);
    assert Throughout(q, P);
    Ledger.InsertMembers(q.visible, s);
    var inserted := Insert(q.visible, s);
    forall i | 0 <= i < |inserted| ensures P(inserted[i]) {
      assert inserted[i] in inserted;
    }
    var q' := if q.subscriptions == 0 then q else q.(visible := inserted, wakes := q.wakes + 1);
    PutThroughout(a, Enqueue(a, key, s), key, q', P);
  }

  lemma DeliverThroughout(a: Account, key: string, copy: Outbound, now: nat, step: Step, P: Stored -> bool)
    requires Everywhere(a, P) && NewMeets(a, step, P) && Brings(step, copy)
    ensures Everywhere(Deliver(a, key, copy, now), P) && NewMeets(Deliver(a, key, copy, now), step, P)
  {
    hide Insert, SeenWithinWindow;
    var q := QueueOf(a, key);
    var seen := if copy.fifo.Some?
      then SeenWithinWindow(q.deduplication, copy.fifo.value.deduplication, now).1 else q.deduplication;
    var noted := PutQueue(a, key, q.(deduplication := seen));
    assert Throughout(q, P);
    PutThroughout(a, noted, key, q.(deduplication := seen), P);
    SameThroughout(noted, noted.(nextId := a.nextId + 1), P);
    EnqueueThroughout(noted.(nextId := a.nextId + 1), key, Stored(a.nextId, copy, 0), P);
  }

  lemma {:induction false} FanOutThroughout(
    a: Account, endpoints: seq<string>, topic: string, outbound: Outbound, now: nat, P: Stored -> bool)
    requires Everywhere(a, P) && NewMeets(a, PublishTo(topic, outbound), P)
    ensures Everywhere(FanOut(a, endpoints, outbound, now), P)
    decreases |endpoints|
  {
    hide Deliver, Everywhere, NewMeets;
    if endpoints != [] {
      var copy := CopyFor(endpoints[0], outbound);
      DeliverThroughout(a, endpoints[0], copy, now, PublishTo(topic, outbound), P);
      FanOutThroughout(Deliver(a, endpoints[0], copy, now), endpoints[1..], topic, outbound, now, P);
    }
  }

  lemma PublishThroughout(a: Account, topic: string, outbound: Outbound, now: nat, P: Stored -> bool)
    requires Everywhere(a, P) && NewMeets(a, PublishTo(topic, outbound), P)
    ensures Everywhere(Publish(a, topic, outbound, now), P)
  {
    hide IsFifo, FanOut, MessageAccepted, SeenWithinWindow;
    FanOutThroughout(a, EndpointsOf(a, topic), topic, outbound, now, P);
    if outbound.fifo.Some? {
      var seen := SeenWithinWindow(TopicSeen(a, topic), outbound.fifo.value.deduplication, now).1;
      var noted := a.(topicSeen := a.topicSeen[topic := seen]);
      SameThroughout(a, noted, P);
      FanOutThroughout(noted, EndpointsOf(noted, topic), topic, outbound, now, P);
    }
  }

  lemma {:induction false} MoveSpentThroughout(a: Account, target: string, spent: seq<Stored>, P: Stored -> bool)
    requires Everywhere(a, P) && forall i :: 0 <= i < |spent| ==> P(spent[i])
    ensures Everywhere(MoveSpent(a, target, spent), P)
    decreases |spent|
  {
    hide Enqueue, Everywhere;
    if spent != [] {
      var counted := a.(consumed := a.consumed + 1);
      SameThroughout(a, counted, P);
      EnqueueThroughout(counted, target, spent[0], P);
      MoveSpentThroughout(Enqueue(counted, target, spent[0]), target, spent[1..], P);
    }
  }

  lemma ReceiveThroughout(a: Account, key: string, max: nat, now: nat, P: Stored -> bool)
    requires Everywhere(a, P)
    requires forall y :: y in ScanOf(QueueOf(a, key), max).handed ==> P(y)
    ensures Everywhere(Receive(a, key, max, now), P)
  {
    hide Scan, Flights, MoveSpent;
    var q := QueueOf(a, key);
    var t := ScanOf(q, max);
    assert Throughout(q, P);
    Fifo.ScanTakesFree(q.visible, Blocked(q), q.redrive, max);
    Ledger.FlightsAre(t.handed, a.nextId, now);
    var q' := TakenFrom(q, t, a.nextId, now);
    assert forall x :: x in q.visible ==> P(x);
    forall i | 0 <= i < |t.left| ensures P(t.left[i]) {
      assert t.left[i] in t.left;
    }
    forall i | 0 <= i < |t.spent| ensures P(t.spent[i]) {
      assert t.spent[i] in t.spent;
    }
    var loop := Ledger.AfterLoop(a, key, max, now);
    PutThroughout(a, loop, key, q', P);
    if q.redrive.Some? {
      MoveSpentThroughout(loop, q.redrive.value.queue, t.spent, P);
    }
  }

  lemma ReturnThroughout(a: Account, key: string, receipt: nat, P: Stored -> bool)
    requires Everywhere(a, P) && receipt in QueueOf(a, key).inFlight
    ensures Everywhere(Return(a, key, receipt), P)
  {
    hide Enqueue;
    var q := QueueOf(a, key);
    assert Throughout(q, P);
    PutThroughout(a, PutQueue(a, key, Ground(q, receipt)), key, Ground(q, receipt), P);
    EnqueueThroughout(PutQueue(a, key, Ground(q, receipt)), key, q.inFlight[receipt].stored, P);
  }

  lemma ChangeThroughout(a: Account, key: string, receipt: nat, visibility: nat, now: nat, P: Stored -> bool)
    requires Everywhere(a, P)
    ensures Everywhere(ChangeVisibility(a, key, receipt, visibility, now), P)
  {
    hide Return;
    var q := QueueOf(a, key);
    var b := ChangeVisibility(a, key, receipt, visibility, now);
    assert Throughout(q, P);
    if ChangeRefusal(a, key, receipt, visibility, now).Some? {
      PutThroughout(a, PutQueue(a, key, q), key, q, P);
    } else if visibility == 0 {
      ReturnThroughout(a, key, receipt, P);
    } else {
      var entry := q.inFlight[receipt];
      PutThroughout(a, b, key,
        q.(inFlight := q.inFlight[receipt := entry.(generation := entry.generation + 1)]), P);
    }
  }

  lemma DeleteThroughout(a: Account, key: string, receipt: nat, P: Stored -> bool)
    requires Everywhere(a, P)
    ensures Everywhere(Delete(a, key, receipt), P)
  {
    var q := QueueOf(a, key);
    assert Throughout(q, P);
    PutThroughout(a, Delete(a, key, receipt), key,
      if receipt in q.inFlight then Ground(q, receipt).(wakes := q.wakes + 1) else q, P);
  }

  lemma LapseThroughout(a: Account, t: Timer, P: Stored -> bool)
    requires Everywhere(a, P)
    ensures Everywhere(Lapse(a.(timers := a.timers - {t}), t.key, t.receipt, t.generation), P)
  {
    hide Return;
    var b := a.(timers := a.timers - {t});
    SameThroughout(a, b, P);
    var q := QueueOf(b, t.key);
    assert Throughout(q, P);
    PutThroughout(b, PutQueue(b, t.key, q), t.key, q, P);
    if Futures.Counts(b, t) {
      ReturnThroughout(b, t.key, t.receipt, P);
    }
  }

  lemma SetRedriveThroughout(a: Account, key: string, cap: nat, deadLetter: string, P: Stored -> bool)
    requires Everywhere(a, P)
    ensures Everywhere(SetRedrive(a, key, cap, deadLetter), P)
  {
    hide SetRedrive, QueueOf;
    Futures.SetRedriveFlights(a, key, cap, deadLetter);
    forall k ensures Throughout(QueueOf(SetRedrive(a, key, cap, deadLetter), k), P) {
      assert Throughout(QueueOf(a, k), P);
    }
  }

  lemma SettleThroughout(w: World, receipt: nat, outcome: Outcome, drift: nat, P: Stored -> bool)
    requires Everywhere(w.account, P) && Enabled(w, Settle(receipt, outcome, drift))
    ensures Everywhere(Settled(w, receipt, outcome, drift).account, P)
  {
    hide ChangeVisibility, Delete, V.RetrySeconds, ChangeRefusal, Everywhere;
    var h := w.handles[receipt];
    match Asked(h, outcome, HeldFor(w, receipt, drift))
    case None => DeleteThroughout(w.account, h.queue, receipt, P);
    case Some(visibility) => ChangeThroughout(w.account, h.queue, receipt, visibility, w.now, P);
  }

  lemma DropThroughout(w: World, receipt: nat, drift: nat, P: Stored -> bool)
    requires Everywhere(w.account, P) && Enabled(w, Drop(receipt, drift))
    ensures Everywhere(Dropped(w, receipt, drift).account, P)
  {
    hide ChangeVisibility, LeftOver, Everywhere;
    var h := w.handles[receipt];
    var left := LeftOver(w, receipt, drift);
    var changed := if left.Some? then ChangeVisibility(w.account, h.queue, receipt, left.value, w.now) else w.account;
    if left.Some? {
      ChangeThroughout(w.account, h.queue, receipt, left.value, w.now, P);
    }
    SameThroughout(changed, changed.(consumed := changed.consumed + 1), P);
  }

  lemma SettingThroughout(a: Account, key: string, subscriptions: nat, P: Stored -> bool)
    requires Everywhere(a, P)
    ensures Everywhere(PutQueue(a, key, QueueOf(a, key).(subscriptions := subscriptions)), P)
  {
    var q := QueueOf(a, key).(subscriptions := subscriptions);
    assert Throughout(QueueOf(a, key), P);
    PutThroughout(a, PutQueue(a, key, q), key, q, P);
  }

  lemma CloseThroughout(a: Account, key: string, P: Stored -> bool)
    requires Everywhere(a, P)
    ensures Everywhere(Close(a, key), P)
  {
    var q := QueueOf(a, key);
    assert Throughout(q, P);
    PutThroughout(a, Close(a, key), key, QueueOf(Close(a, key), key), P);
  }

  /** No step but a receive changes a message: a send or publish only brings in what it carries. */
  lemma StepThroughout(w: World, step: Step, P: Stored -> bool)
    requires Everywhere(w.account, P) && Enabled(w, step)
    requires NewMeets(w.account, step, P)
    requires step.Take? ==> forall y :: y in TakenBy(w, step.id).handed ==> P(y)
    ensures Everywhere(Next(w, step).account, P)
  {
    hide Everywhere, NewMeets, IsFifo, Scan, Publish, MessageAccepted, Deliver, Receive, SetRedrive, Close, Lapse, Settled, Dropped;
    var a := w.account;
    match step
    case SendTo(key, outbound) => DeliverThroughout(a, key, outbound, w.now, step, P);
    case PublishTo(topic, outbound) => PublishThroughout(a, topic, outbound, w.now, P);
    case Redrive(key, cap, deadLetter) => SetRedriveThroughout(a, key, cap, deadLetter, P);
    case OpenReader(id, r) => SettingThroughout(a, r.queue, QueueOf(a, r.queue).subscriptions + 1, P);
    case CloseReader(id) => CloseThroughout(a, w.readers[id].queue, P);
    case Look(id) => SettingThroughout(a, w.readers[id].queue, QueueOf(a, w.readers[id].queue).subscriptions, P);
    case Take(id) => ReceiveThroughout(a, w.readers[id].queue, w.readers[id].max, w.now, P);
    case Settle(receipt, outcome, drift) => SettleThroughout(w, receipt, outcome, drift, P);
    case Drop(receipt, drift) => DropThroughout(w, receipt, drift, P);
    case Fire(t) => LapseThroughout(a, t, P);
    case _ => SameThroughout(a, Next(w, step).account, P);
  }

  // ---------------------------------------------------------------------------------------------
  // The receive count over runs

  /** How often a message was handed over, as the 32-bit counter it carries says it. */
  function TimesHanded(handovers: map<nat, nat>): Stored -> bool
  {
    (s: Stored) => s.receives == Min(HandoversOf(handovers, s.id), U32_MAX)
  }

  predicate Issued(handovers: map<nat, nat>, nextId: nat) { forall id :: id in handovers ==> id < nextId }

  /** Every message carries its own count, and only issued messages were handed over. */
  ghost predicate Tallied(w: World)
  {
    Everywhere(w.account, TimesHanded(w.handovers)) && Issued(w.handovers, w.account.nextId)
  }

  lemma {:induction false} HandedOverCounts(handovers: map<nat, nat>, handed: seq<Stored>, id: nat)
    ensures HandoversOf(HandedOver(handovers, handed), id) == HandoversOf(handovers, id) + Ledger.IdBag(handed)[id]
    ensures forall x :: x in HandedOver(handovers, handed) ==> x in handovers || x in Ledger.IdBag(handed)
  {
    if handed != [] {
      var rest, last := handed[..|handed| - 1], handed[|handed| - 1];
      HandedOverCounts(handovers, rest, id);
      assert handed == rest + [last];
      Ledger.IdBagSnoc(rest, last);
    }
  }

  function Or(P: Stored -> bool, handed: seq<Stored>): Stored -> bool { s => P(s) || s in handed }

  lemma Weaker(a: Account, P: Stored -> bool, Q: Stored -> bool)
    requires Everywhere(a, P) && forall s :: P(s) ==> Q(s)
    ensures Everywhere(a, Q)
  {
    forall k ensures Throughout(QueueOf(a, k), Q) {
      assert Throughout(QueueOf(a, k), P);
    }
  }

  /** The ids one receive hands over are distinct. */
  lemma HandedOnce(a: Account, key: string, max: nat, id: nat)
    requires Ledger.Sound(a)
    ensures Ledger.IdBag(ScanOf(QueueOf(a, key), max).handed)[id] <= 1
  {
    hide Scan, Ledger.IdBag, Ledger.Visible, Ledger.Flying;
    var q := QueueOf(a, key);
    Ledger.ScanLedger(q.visible, Blocked(q), q.redrive, max);
    Ledger.QueueInside(a.queues, key);
    assert Ledger.Held(a.queues)[id] <= 1;
  }

  /** A message handed over carries one count more than it had been handed over before. */
  lemma HandedCarriesCount(w: World, id: nat, i: nat)
    requires Tallied(w) && Ledger.Sound(w.account) && id in w.readers && i < |TakenBy(w, id).handed|
    ensures var y := TakenBy(w, id).handed[i];
            && HandoversOf(Took(w, id).handovers, y.id) == HandoversOf(w.handovers, y.id) + 1
            && y.receives == Min(HandoversOf(Took(w, id).handovers, y.id), U32_MAX)
  {
    hide Scan, Receive, NewHandles, Tagged, HandedOver, Ledger.Sound, Ledger.IdBag;
    var q, max := QueueOf(w.account, w.readers[id].queue), w.readers[id].max;
    var handed := TakenBy(w, id).handed;
    var y := handed[i];
    Fifo.ScanTakesFree(q.visible, Blocked(q), q.redrive, max);
    assert y in handed;
    var s :| s in q.visible && y == Counted(s);
    assert Throughout(q, TimesHanded(w.handovers));
    assert TimesHanded(w.handovers)(s);
    HandedOverCounts(w.handovers, handed, y.id);
    Ledger.IdBagMember(handed, i);
    HandedOnce(w.account, w.readers[id].queue, max, y.id);
  }

  /** A message handed over is in flight under its receipt. */
  lemma HandedFlies(w: World, id: nat, i: nat)
    requires id in w.readers && i < |TakenBy(w, id).handed|
    ensures var m := QueueOf(Took(w, id).account, w.readers[id].queue).inFlight;
            w.account.nextId + i in m && m[w.account.nextId + i].stored == TakenBy(w, id).handed[i]
  {
    hide Scan, Receive, NewHandles, Tagged, HandedOver, Flights;
    Futures.TakeFlights(w, id);
    Ledger.FlightsAre(TakenBy(w, id).handed, w.account.nextId, w.now);
  }

  /** What the account holds after a receive under an id it handed over is that handed message. */
  lemma HandedIsInAir(w: World, id: nat, i: nat, place: Conservation.Place)
    requires id in w.readers && Enabled(w, Take(id)) && Conservation.Balanced(w) && i < |TakenBy(w, id).handed|
    requires Conservation.At(Took(w, id).account.queues, place, TakenBy(w, id).handed[i].id)
    ensures Conservation.StoredAt(Took(w, id).account.queues, place, TakenBy(w, id).handed[i].id) == TakenBy(w, id).handed[i]
    ensures place == Conservation.InAir(w.readers[id].queue, w.account.nextId + i)
    ensures var q := QueueOf(Took(w, id).account, place.key);
            place.receipt in q.inFlight && q.inFlight[place.receipt].stored == TakenBy(w, id).handed[i]
  {
    hide *;
    TookSound(w, id);
    HandedFlies(w, id, i);
    OnlyInAir(Took(w, id).account, w.readers[id].queue, w.account.nextId + i, TakenBy(w, id).handed[i], place);
  }

  lemma OnlyInAir(a: Account, key: string, receipt: nat, s: Stored, place: Conservation.Place)
    requires Ledger.Sound(a) && Conservation.At(a.queues, place, s.id)
    requires receipt in QueueOf(a, key).inFlight && QueueOf(a, key).inFlight[receipt].stored == s
    ensures place == Conservation.InAir(key, receipt) && Conservation.StoredAt(a.queues, place, s.id) == s
  {
    hide Ledger.Sound;
    Conservation.OnePlace(a, place, Conservation.InAir(key, receipt), s.id);
  }

  lemma TookSound(w: World, id: nat)
    requires Conservation.Balanced(w) && Enabled(w, Take(id))
    ensures Ledger.Sound(Took(w, id).account)
  {
    hide Took, TakenBy, Ledger.Sound;
    Conservation.TakeMoves(w, id);
  }

  /** A message under an id handed over is that handed message, after a receive. */
  lemma PlacedIsHanded(w: World, id: nat, place: Conservation.Place, s: Stored)
    requires id in w.readers && Enabled(w, Take(id)) && Conservation.Balanced(w)
    requires Conservation.At(Took(w, id).account.queues, place, s.id)
    requires s == Conservation.StoredAt(Took(w, id).account.queues, place, s.id)
    ensures s.id in Ledger.IdBag(TakenBy(w, id).handed) ==> s in TakenBy(w, id).handed
  {
    hide Took, TakenBy, Ledger.IdBag, Conservation.At, Conservation.Balanced, Enabled;
    if s.id in Ledger.IdBag(TakenBy(w, id).handed) {
      var i := Ledger.IdBagPosition(TakenBy(w, id).handed, s.id);
      HandedIsInAir(w, id, i, place);
    }
  }

  /** The ids of a receive, each once: what it hands over carries its count, and anything else still does. */
  lemma CountsAfter(handovers: map<nat, nat>, handed: seq<Stored>, s: Stored)
    requires s.id in Ledger.IdBag(handed) ==> s in handed
    requires TimesHanded(handovers)(s) || s in handed
    requires s in handed ==> TimesHanded(HandedOver(handovers, handed))(s)
    ensures TimesHanded(HandedOver(handovers, handed))(s)
  {
    hide HandedOver, Ledger.IdBag;
    if s !in handed {
      HandedOverCounts(handovers, handed, s.id);
    }
  }

  lemma TookCounts(w: World, id: nat, s: Stored)
    requires Tallied(w) && Ledger.Sound(w.account) && id in w.readers && s in TakenBy(w, id).handed
    ensures TimesHanded(HandedOver(w.handovers, TakenBy(w, id).handed))(s)
  {
    var i :| 0 <= i < |TakenBy(w, id).handed| && TakenBy(w, id).handed[i] == s;
    HandedCarriesCount(w, id, i);
    hide TakenBy, HandedOver, Receive, NewHandles, Tagged, Tallied, Ledger.Sound;
  }

  lemma TakeTallies(w: World, id: nat)
    requires Tallied(w) && Conservation.Balanced(w) && Enabled(w, Take(id))
    ensures Tallied(Took(w, id))
  {
    var w', handed := Took(w, id), TakenBy(w, id).handed;
    assert w'.handovers == HandedOver(w.handovers, handed);
    TakeMixes(w, id);
    HandedIssued(w, id);
    hide Took, TakenBy, HandedOver;
    forall k ensures Throughout(QueueOf(w'.account, k), TimesHanded(w'.handovers)) {
      TookTalliesQueue(w, id, k);
    }
  }

  /** After a receive, every message is as it was counted before or was just handed over. */
  lemma TakeMixes(w: World, id: nat)
    requires Tallied(w) && Enabled(w, Take(id))
    ensures Everywhere(Took(w, id).account, Or(TimesHanded(w.handovers), TakenBy(w, id).handed))
  {
    var P := Or(TimesHanded(w.handovers), TakenBy(w, id).handed);
    Weaker(w.account, TimesHanded(w.handovers), P);
    hide ScanOf, Receive, NewHandles, Tagged, HandedOver, Everywhere;
    ReceiveThroughout(w.account, w.readers[id].queue, w.readers[id].max, w.now, P);
  }

  lemma TookTalliesQueue(w: World, id: nat, k: string)
    requires id in w.readers && Tallied(w) && Conservation.Balanced(w) && Enabled(w, Take(id))
    requires Everywhere(Took(w, id).account, Or(TimesHanded(w.handovers), TakenBy(w, id).handed))
    ensures Throughout(QueueOf(Took(w, id).account, k), TimesHanded(HandedOver(w.handovers, TakenBy(w, id).handed)))
  {
    hide Took, TakenBy, HandedOver, Conservation.Balanced, Enabled, Tallied, Ledger.IdBag;
    var q := QueueOf(Took(w, id).account, k);
    var P := Or(TimesHanded(w.handovers), TakenBy(w, id).handed);
    assert Throughout(q, P);
    BalancedIsSound(w);
    forall i | 0 <= i < |q.visible| ensures TimesHanded(HandedOver(w.handovers, TakenBy(w, id).handed))(q.visible[i]) {
      PlacedIsHanded(w, id, Conservation.Shown(k, i), q.visible[i]);
      if q.visible[i] in TakenBy(w, id).handed {
        TookCounts(w, id, q.visible[i]);
      }
      CountsAfter(w.handovers, TakenBy(w, id).handed, q.visible[i]);
    }
    forall r | r in q.inFlight
      ensures TimesHanded(HandedOver(w.handovers, TakenBy(w, id).handed))(q.inFlight[r].stored)
    {
      PlacedIsHanded(w, id, Conservation.InAir(k, r), q.inFlight[r].stored);
      if q.inFlight[r].stored in TakenBy(w, id).handed {
        TookCounts(w, id, q.inFlight[r].stored);
      }
      CountsAfter(w.handovers, TakenBy(w, id).handed, q.inFlight[r].stored);
    }
  }

  lemma BalancedIsSound(w: World)
    requires Conservation.Balanced(w)
    ensures Ledger.Sound(w.account)
  {
  }

  lemma HandedIssued(w: World, id: nat)
    requires Issued(w.handovers, w.account.nextId) && Conservation.Balanced(w) && Enabled(w, Take(id))
    ensures Issued(Took(w, id).handovers, Took(w, id).account.nextId)
  {
    hide Scan, Receive, NewHandles, Tagged, HandedOver, Ledger.IdBag, Ledger.Visible, Ledger.Flying;
    var key, max := w.readers[id].queue, w.readers[id].max;
    var q := QueueOf(w.account, key);
    HandedOverCounts(w.handovers, TakenBy(w, id).handed, 0);
    Ledger.ScanLedger(q.visible, Blocked(q), q.redrive, max);
    Ledger.QueueInside(w.account.queues, key);
    Conservation.ReceiptsIssued(w.account, key, max, w.now);
    forall x | x in Ledger.IdBag(TakenBy(w, id).handed) ensures x < w.account.nextId {
      assert x in Ledger.Held(w.account.queues);
    }
  }

  /** Every step keeps every message's count true. */
  lemma StepTallies(w: World, step: Step)
    requires Tallied(w) && Conservation.Balanced(w) && Enabled(w, step)
    ensures Tallied(Next(w, step))
  {
    hide Everywhere, Next;
    if step.Take? {
      TakeTallies(w, step.id);
      Fifo.TakeStep(w, step.id);
    } else {
      Conservation.StepConserves(w, step);
      StepThroughout(w, step, TimesHanded(w.handovers));
      HandoversKept(w, step);
    }
  }

  lemma HandoversKept(w: World, step: Step)
    requires Enabled(w, step) && !step.Take?
    ensures Next(w, step).handovers == w.handovers
  {
  }

  /** After every run, the receive count each held message carries is how often it was handed over. */
  lemma {:induction false} RunTallies(steps: seq<Step>)
    requires Legal(Start(), steps)
    ensures Tallied(After(Start(), steps))
  {
    hide Next;
    if steps != [] {
      var before := steps[..|steps| - 1];
      RunTallies(before);
      Conservation.RunBalanced(before);
      StepTallies(After(Start(), before), steps[|steps| - 1]);
    }
  }

  // ---------------------------------------------------------------------------------------------
  // The cap

  /**
   * After any run, the n-th time a message is handed over it carries the count n, and a queue under
   * a cap hands it over only while n is within the cap.
   */
  lemma HandoverWithinCap(steps: seq<Step>, id: nat, i: nat)
    requires Legal(Start(), steps) && Enabled(After(Start(), steps), Take(id))
    requires i < |TakenBy(After(Start(), steps), id).handed|
    ensures var w := After(Start(), steps);
            var y := TakenBy(w, id).handed[i];
            var n := HandoversOf(w.handovers, y.id) + 1;
            && n == HandoversOf(Next(w, Take(id)).handovers, y.id)
            && y.receives == Min(n, U32_MAX)
            && var redrive := QueueOf(w.account, w.readers[id].queue).redrive;
               redrive.Some? ==> n <= redrive.value.cap
  {
    hide Next, Scan, Ledger.Sound, Ledger.IdBag, HandedOver;
    var w := After(Start(), steps);
    RunTallies(steps);
    Conservation.RunBalanced(steps);
    Groups.RunKeepsKinds(steps);
    HandedCarriesCount(w, id, i);
    Fifo.TakeStep(w, id);
    var key := w.readers[id].queue;
    var q := QueueOf(w.account, key);
    Fifo.ScanTakesFree(q.visible, Blocked(q), q.redrive, w.readers[id].max);
    assert TakenBy(w, id).handed[i] in TakenBy(w, id).handed;
    assert Groups.QueueOfKind(q, key);
  }

  /** Whether the last step of a run is a receive from the queue keyed `key`. */
  ghost predicate EndsTaking(w: World, steps: seq<Step>, key: string)
    requires Legal(w, steps)
  {
    && steps != [] && steps[|steps| - 1].Take?
    && After(w, steps[..|steps| - 1]).readers[steps[|steps| - 1].id].queue == key
  }

  /** How often the queue keyed `key` handed over the message `id` during a run. */
  ghost function HandedFrom(steps: seq<Step>, key: string, id: nat): nat
    requires Legal(Start(), steps)
  {
    if steps == [] then 0
    else
      var before, last := steps[..|steps| - 1], steps[|steps| - 1];
      HandedFrom(before, key, id)
      + if EndsTaking(Start(), steps, key) && id in Ledger.IdBag(TakenBy(After(Start(), before), last.id).handed)
        then 1 else 0
  }

  /** The queue keyed `key` is under a cap of `cap` at each receive of a run. */
  ghost predicate UnderCap(steps: seq<Step>, key: string, cap: nat)
    requires Legal(Start(), steps)
  {
    steps == [] ||
    (var before := steps[..|steps| - 1];
     && UnderCap(before, key, cap)
     && (EndsTaking(Start(), steps, key) ==>
           var redrive := QueueOf(After(Start(), before).account, key).redrive;
           redrive.Some? && redrive.value.cap == cap))
  }

  /** In every run, a queue under a cap hands each message over at most that often. */
  lemma {:induction false} AtMostCap(steps: seq<Step>, key: string, cap: nat, id: nat)
    requires Legal(Start(), steps) && UnderCap(steps, key, cap)
    ensures HandedFrom(steps, key, id) <= Min(cap, HandoversOf(After(Start(), steps).handovers, id))
  {
    hide Next, Ledger.IdBag, TakenBy, After;
    if steps != [] {
      var before, last := steps[..|steps| - 1], steps[|steps| - 1];
      var w := After(Start(), before);
      AtMostCap(before, key, cap, id);
      LastOf(steps);
      if EndsTaking(Start(), steps, key) && id in Ledger.IdBag(TakenBy(w, last.id).handed) {
        var i := Ledger.IdBagPosition(TakenBy(w, last.id).handed, id);
        HandoverWithinCap(before, last.id, i);
      } else {
        HandoversGrow(w, last, id);
      }
    }
  }

  lemma HandoversGrow(w: World, step: Step, id: nat)
    requires Enabled(w, step)
    ensures HandoversOf(w.handovers, id) <= HandoversOf(Next(w, step).handovers, id)
  {
    hide Next;
    if step.Take? {
      Fifo.TakeStep(w, step.id);
      HandedOverCounts(w.handovers, TakenBy(w, step.id).handed, id);
    } else {
      HandoversKept(w, step);
    }
  }

  // ---------------------------------------------------------------------------------------------
  // Discards

  /** An unsettled handle knows the receive count of its message. */
  ghost predicate Agree(w: World)
  {
    forall r :: r in w.handles && !w.handles[r].settled ==> AgreeAt(w, r)
  }

  predicate AgreeAt(w: World, r: nat)
    requires r in w.handles
  {
    var h := w.handles[r];
    r in QueueOf(w.account, h.queue).inFlight ==>
      r < w.account.nextId && QueueOf(w.account, h.queue).inFlight[r].stored.receives == h.receives
  }

  lemma TakeAgrees(w: World, id: nat)
    requires Agree(w) && Conservation.Balanced(w) && Enabled(w, Take(id))
    ensures Agree(Took(w, id))
  {
    Futures.TookCarries(w, id);
    assert forall r :: r in w.handles ==> r < w.account.nextId;
    hide TakenBy, Took, Futures.Carried, AgreeAt, Conservation.Balanced;
    CarriedAgrees(w, Took(w, id), w.readers[id], TakenBy(w, id).handed);
  }

  lemma CarriedAgrees(w: World, w': World, reader: Reader, handed: seq<Stored>)
    requires Agree(w) && Futures.Carried(w, w', reader, handed) && forall r :: r in w.handles ==> r < w.account.nextId
    ensures Agree(w')
  {
    forall r | r in w'.handles && !w'.handles[r].settled ensures AgreeAt(w', r) {
      Futures.CarriedOver(w, w', reader, handed, w'.handles[r].queue, r);
      CarriedCounts(w, w', reader, handed, r);
      assert w.account.nextId <= w'.account.nextId;
      hide Futures.Carried;
      if r < w.account.nextId {
        assert AgreeAt(w, r);
      }
    }
  }

  /** A handle drawn by a receive knows the receive count of its message. */
  lemma CarriedCounts(w: World, w': World, reader: Reader, handed: seq<Stored>, r: nat)
    requires Futures.Carried(w, w', reader, handed)
    ensures w.account.nextId <= r < w.account.nextId + |handed| ==>
              && r in w'.handles && r in Futures.Aloft(w'.account, reader.queue)
              && w'.handles[r].queue == reader.queue && r < w'.account.nextId
              && w'.handles[r].receives == Futures.Aloft(w'.account, reader.queue)[r].stored.receives
  {
    hide Flights, NewHandles, Futures.Aloft;
    Ledger.FlightsAre(handed, w.account.nextId, w.now);
    Conservation.NewHandlesAre(reader, handed, w.account.nextId, w.now);
  }

  lemma StepAgrees(w: World, step: Step)
    requires Agree(w) && Conservation.Balanced(w) && Enabled(w, step)
    ensures Agree(Next(w, step))
  {
    hide Next, Ledger.Sound;
    if step.Take? {
      Fifo.TakeStep(w, step.id);
      TakeAgrees(w, step.id);
    } else {
      Fifo.StepWithin(w, step);
      Conservation.StepConserves(w, step);
      HandlesKept(w, step);
      var w' := Next(w, step);
      hide Enabled;
      forall r | r in w'.handles && !w'.handles[r].settled ensures AgreeAt(w', r) {
        assert AgreeAt(w, r);
      }
    }
  }

  lemma HandlesKept(w: World, step: Step)
    requires Enabled(w, step) && !step.Take?
    ensures var w' := Next(w, step);
            forall r :: r in w'.handles && !w'.handles[r].settled ==> r in w.handles && w'.handles[r] == w.handles[r]
  {
    hide Send, Publish, Delete, ChangeVisibility, ChangeRefusal, V.RetrySeconds;
  }

  lemma {:induction false} RunAgrees(steps: seq<Step>)
    requires Legal(Start(), steps)
    ensures Agree(After(Start(), steps))
  {
    hide Next;
    if steps != [] {
      var before := steps[..|steps| - 1];
      RunAgrees(before);
      Conservation.RunBalanced(before);
      StepAgrees(After(Start(), before), steps[|steps| - 1]);
    }
  }

  /**
   * After any run, a discard deletes its message unless the delivery has used up the receives the
   * policy allows; then the message comes back as it was, with that receive count.
   */
  lemma DiscardReturnsUsedUp(steps: seq<Step>, receipt: nat, drift: nat)
    requires Legal(Start(), steps) && Enabled(After(Start(), steps), Settle(receipt, Nack(false), drift))
    ensures var w := After(Start(), steps);
            var w', h := Next(w, Settle(receipt, Nack(false), drift)), w.handles[receipt];
            var q, q' := QueueOf(w.account, h.queue), QueueOf(w'.account, h.queue);
            && receipt in q.inFlight && receipt !in q'.inFlight
            && var m := q.inFlight[receipt].stored;
               && m.receives == h.receives
               && if h.cap.Some? && m.receives >= h.cap.value
                  then q'.visible == if q.subscriptions > 0 then Insert(q.visible, m) else q.visible
                  else m.id !in Ledger.Held(w'.account.queues)
  {
    hide Next;
    var w := After(Start(), steps);
    var h := w.handles[receipt];
    Futures.RunAccounted(steps);
    Conservation.RunBalanced(steps);
    RunAgrees(steps);
    Futures.LiveIsAloft(w, receipt);
    assert AgreeAt(w, receipt);
    hide Futures.Accounted, Conservation.Balanced, Agree, Legal, After;
    DiscardEffect(w, receipt, drift);
  }

  lemma DiscardEffect(w: World, receipt: nat, drift: nat)
    requires Conservation.Balanced(w) && Enabled(w, Settle(receipt, Nack(false), drift))
    requires receipt in QueueOf(w.account, w.handles[receipt].queue).inFlight
    requires UsedUp(w.handles[receipt]) ==>
               ChangeRefusal(w.account, w.handles[receipt].queue, receipt, 0, w.now).None?
    ensures var w', h := Next(w, Settle(receipt, Nack(false), drift)), w.handles[receipt];
            var q, q' := QueueOf(w.account, h.queue), QueueOf(w'.account, h.queue);
            && receipt !in q'.inFlight
            && var m := q.inFlight[receipt].stored;
               && (UsedUp(h) ==> q'.visible == if q.subscriptions > 0 then Insert(q.visible, m) else q.visible)
               && (!UsedUp(h) ==> m.id !in Ledger.Held(w'.account.queues))
  {
    hide Insert, Ledger.Visible, Ledger.Flying, Conservation.Balanced;
    var h, m := w.handles[receipt], QueueOf(w.account, w.handles[receipt].queue).inFlight[receipt].stored;
    var step := Settle(receipt, Nack(false), drift);
    if !UsedUp(h) {
      Conservation.StepLetsGo(w, step, m.id);
    }
  }

  lemma {:induction false} InsertKeepsOthers(v: seq<Stored>, s: Stored, m: Stored)
    requires m == s || (m in v && m.id != s.id)
    ensures m in Insert(v, s)
  {
    if v != [] && s.id > v[0].id && m != v[0] {
      assert v == [v[0]] + v[1..];
      InsertKeepsOthers(v[1..], s, m);
    } else if v != [] && s.id == v[0].id {
      assert v == [v[0]] + v[1..];
    }
  }

  /** A spent message moved to a queue somebody reads is visible there. */
  lemma {:induction false} MoveSpentShows(a: Account, target: string, spent: seq<Stored>, m: Stored)
    requires Ledger.Sorted(spent) && QueueOf(a, target).subscriptions > 0
    requires m in spent || (m in QueueOf(a, target).visible && forall s :: s in spent ==> s.id != m.id)
    ensures m in QueueOf(MoveSpent(a, target, spent), target).visible
    decreases |spent|
  {
    hide Insert;
    if spent != [] {
      var s, rest := spent[0], spent[1..];
      var b := Enqueue(a.(consumed := a.consumed + 1), target, s);
      Fifo.HeadIsLeast(spent);
      if m !in rest {
        InsertKeepsOthers(QueueOf(a, target).visible, s, m);
      }
      MoveSpentShows(b, target, rest, m);
    }
  }

  /**
   * A visible message its queue's policy has run out for is never handed over: a receive that
   * reaches it moves it, and shows it on the dead-letter queue where somebody reads that; one that
   * does not handed over all it could of what came before it.
   */
  lemma SpentIsNeverHanded(w: World, id: nat, m: Stored)
    requires Conservation.Balanced(w) && Enabled(w, Take(id))
    requires var q := QueueOf(w.account, w.readers[id].queue);
             m in q.visible && Spent(m, q.redrive) && Free(m, Blocked(q))
    ensures var q, t := QueueOf(w.account, w.readers[id].queue), TakenBy(w, id);
            && (forall y :: y in t.handed ==> y.id != m.id)
            && (m in t.spent ==>
                  var target := q.redrive.value.queue;
                  QueueOf(w.account, target).subscriptions > 0 ==>
                    m in QueueOf(Next(w, Take(id)).account, target).visible)
            && (m !in t.spent ==>
                  m in t.left && |t.handed| == w.readers[id].max && forall y :: y in t.handed ==> y.id < m.id)
  {
    hide Next, Scan, Flights, MoveSpent, Ledger.Visible, Ledger.Flying, Ledger.IdBag, NewHandles, Tagged, HandedOver;
    var key, max := w.readers[id].queue, w.readers[id].max;
    var q := QueueOf(w.account, key);
    ScanReaches(q.visible, Blocked(q), q.redrive, max, m);
    if m in TakenBy(w, id).spent {
      Fifo.TakeStep(w, id);
      Fifo.ScanKeepsOrder(q.visible, Blocked(q), q.redrive, max);
      var target := q.redrive.value.queue;
      if QueueOf(w.account, target).subscriptions > 0 {
        MoveSpentShows(Ledger.AfterLoop(w.account, key, max, w.now), target, TakenBy(w, id).spent, m);
      }
    }
  }

  /** Where a scan leaves a free message that is spent. */
  lemma {:induction false} ScanReaches(v: seq<Stored>, blocked: set<Text>, redrive: Option<DeadLetter>, max: nat, m: Stored)
    requires Ledger.Sorted(v) && m in v && Free(m, blocked) && Spent(m, redrive)
    ensures var t := Scan(v, blocked, redrive, max);
            && (forall y :: y in t.handed ==> y.id != m.id)
            && (m !in t.spent ==> m in t.left && |t.handed| == max && forall y :: y in t.handed ==> y.id < m.id)
  {
    if max > 0 {
      var s, rest := v[0], v[1..];
      var more := if Free(s, blocked) && !Spent(s, redrive) then max - 1 else max;
      Fifo.HeadIsLeast(v);
      Fifo.ScanTakesFree(rest, blocked, redrive, more);
      if m != s {
        assert v == [s] + rest;
        ScanReaches(rest, blocked, redrive, more, m);
      }
    }
  }

  /**
   * No loss by discard: after any run, a discard of a used-up delivery, where somebody reads the
   * queue, makes its message visible again. While the queue is under a cap the delivery had used up,
   * no receive that finds it there later hands it over, and one that reaches it moves it.
   */
  lemma UsedUpDiscardIsMoved(steps: seq<Step>, receipt: nat, drift: nat, more: seq<Step>, id: nat)
    requires Legal(Start(), steps) && Enabled(After(Start(), steps), Settle(receipt, Nack(false), drift))
    requires UsedUp(After(Start(), steps).handles[receipt])
    requires var w := After(Start(), steps);
             var w', h := Next(w, Settle(receipt, Nack(false), drift)), w.handles[receipt];
             && Legal(w', more) && Enabled(After(w', more), Take(id))
             && After(w', more).readers[id].queue == h.queue
             && var q := QueueOf(After(w', more).account, h.queue);
                q.redrive.Some? && q.redrive.value.cap <= h.cap.value
    ensures var w := After(Start(), steps);
            var w', h := Next(w, Settle(receipt, Nack(false), drift)), w.handles[receipt];
            var v := After(w', more);
            var q, t := QueueOf(v.account, h.queue), TakenBy(v, id);
            && receipt in QueueOf(w.account, h.queue).inFlight
            && var m := QueueOf(w.account, h.queue).inFlight[receipt].stored;
               && (QueueOf(w.account, h.queue).subscriptions > 0 ==> m in QueueOf(w'.account, h.queue).visible)
               && Spent(m, q.redrive)
               && (m in q.visible && Free(m, Blocked(q)) ==>
                     && (forall y :: y in t.handed ==> y.id != m.id)
                     && (m in t.spent && QueueOf(v.account, q.redrive.value.queue).subscriptions > 0 ==>
                           m in QueueOf(Next(v, Take(id)).account, q.redrive.value.queue).visible)
                     && (m !in t.spent ==>
                           m in t.left && |t.handed| == v.readers[id].max && forall y :: y in t.handed ==> y.id < m.id))
  {
    var w, step := After(Start(), steps), Settle(receipt, Nack(false), drift);
    var h := w.handles[receipt];
    DiscardReturnsUsedUp(steps, receipt, drift);
    Conservation.RunBalanced(steps);
    var m := QueueOf(w.account, h.queue).inFlight[receipt].stored;
    assert h.cap.Some? && m.receives >= h.cap.value;
    hide Next, Conservation.Balanced, TakenBy, Blocked, Insert, Free, After, Legal, Enabled;
    if QueueOf(w.account, h.queue).subscriptions > 0 {
      InsertKeepsOthers(QueueOf(w.account, h.queue).visible, m, m);
    }
    Returns.BalancedAfter(w, step);
    Returns.StaysBalanced(Next(w, step), more);
    var v := After(Next(w, step), more);
    if m in QueueOf(v.account, h.queue).visible && Free(m, Blocked(QueueOf(v.account, h.queue))) {
      SpentIsNeverHanded(v, id, m);
    }
  }
}
