// What a settlement and a drop do to their message, over runs: an acknowledgement deletes it, a
// requeue returns it, a discard does either by the number of times it was handed over, and a handle
// let go brings it back when the live extension would have.
module Settlements {
  import opened Basics
  import opened Account
  import opened World
  import opened Runs
  import opened Futures
  import Conservation
  import Fifo
  import Ledger
  import Redrives
  import Returns
  import V = Visibility

  // ---------------------------------------------------------------------------------------------
  // Acknowledgements and requeues

  /** Settling the delivery under `receipt` left every other message and what every queue shows alone. */
  ghost predicate Deletes(w: World, w': World, key: string, receipt: nat)
  {
    && receipt in Aloft(w.account, key) && FlightOut(w.account, w'.account, key, receipt)
    && (forall k :: QueueOf(w'.account, k).visible == QueueOf(w.account, k).visible)
    && Ledger.Held(w'.account.queues) == Ledger.Held(w.account.queues) - multiset{Aloft(w.account, key)[receipt].stored.id}
  }

  lemma OneGone(before: multiset<nat>, after: multiset<nat>, id: nat)
    requires after + multiset{id} == before + multiset{}
    ensures after == before - multiset{id}
  {
    assert before == after + multiset{id};
  }

  lemma DeleteDeletes(a: Account, key: string, receipt: nat)
    requires Ledger.Sound(a) && receipt in Aloft(a, key)
    ensures var b := Delete(a, key, receipt);
            && (forall k :: QueueOf(b, k).visible == QueueOf(a, k).visible)
            && Ledger.Held(b.queues) == Ledger.Held(a.queues) - multiset{Aloft(a, key)[receipt].stored.id}
  {
    hide Ledger.Sound, Ledger.Owed, Ledger.Held;
    Ledger.DeleteMoves(a, key, receipt);
    OneGone(Ledger.Held(a.queues), Ledger.Held(Delete(a, key, receipt).queues), Aloft(a, key)[receipt].stored.id);
  }

  lemma AckEffect(w: World, receipt: nat, drift: nat)
    requires Accounted(w) && Conservation.Balanced(w) && Enabled(w, Settle(receipt, Ack, drift))
    ensures var h, w' := w.handles[receipt], Next(w, Settle(receipt, Ack, drift));
            Deletes(w, w', h.queue, receipt) && w'.handles == w.handles[receipt := h.(settled := true)]
  {
    LiveIsAloft(w, receipt);
    hide Ledger.Held, Ledger.Sound, Delete, Aloft;
    DeleteEffect(w.account, w.handles[receipt].queue, receipt);
    DeleteDeletes(w.account, w.handles[receipt].queue, receipt);
  }

  /**
   * After any run, an acknowledgement deletes its message: settled, the message out of flight and
   * shown nowhere, nothing else touched; and whatever follows, it never comes back.
   */
  lemma AckDeletes(steps: seq<Step>, receipt: nat, drift: nat, more: seq<Step>)
    requires Legal(Start(), steps) && Enabled(After(Start(), steps), Settle(receipt, Ack, drift))
    requires Legal(Next(After(Start(), steps), Settle(receipt, Ack, drift)), more)
    ensures var w := After(Start(), steps);
            var h, w' := w.handles[receipt], Next(w, Settle(receipt, Ack, drift));
            && Deletes(w, w', h.queue, receipt)
            && w'.handles == w.handles[receipt := h.(settled := true)]
            && Aloft(w.account, h.queue)[receipt].stored.id !in Ledger.Held(After(w', more).account.queues)
  {
    var w, step := After(Start(), steps), Settle(receipt, Ack, drift);
    UnsettledIsTimely(w, step);
    hide *;
    RunAccounted(steps);
    Conservation.RunBalanced(steps);
    AckEffect(w, receipt, drift);
    Returns.BalancedAfter(w, step);
    var key := w.handles[receipt].queue;
    DeletedIsGone(w, Next(w, step), key, receipt);
    Conservation.GoneForGood(Next(w, step), more, Aloft(w.account, key)[receipt].stored.id);
  }

  /** A deleted message was held once, under an issued number, so it is held no more. */
  lemma DeletedIsGone(w: World, w': World, key: string, receipt: nat)
    requires Conservation.Balanced(w) && Deletes(w, w', key, receipt)
    ensures receipt in Aloft(w.account, key)
    ensures var id := Aloft(w.account, key)[receipt].stored.id;
            id < w.account.nextId && id !in Ledger.Held(w'.account.queues)
  {
    hide Ledger.Visible, Ledger.Flying;
    Ledger.FlightInside(w.account.queues, key, receipt);
    assert Aloft(w.account, key)[receipt].stored.id in Ledger.Held(w.account.queues);
  }

  lemma UnsettledIsTimely(w: World, step: Step)
    requires Enabled(w, step) && step.Settle?
    ensures Timely(w, step.receipt, step.drift) && !w.handles[step.receipt].settled
  {
  }

  /**
   * After any run, a requeue takes its message out of flight as it is and makes it visible again
   * where somebody reads the queue; every other queue is left alone.
   */
  lemma RequeueReturns(steps: seq<Step>, receipt: nat, drift: nat)
    requires Legal(Start(), steps) && Enabled(After(Start(), steps), Settle(receipt, Nack(true), drift))
    ensures var w := After(Start(), steps);
            var h, w' := w.handles[receipt], Next(w, Settle(receipt, Nack(true), drift));
            var q, q' := QueueOf(w.account, h.queue), QueueOf(w'.account, h.queue);
            && receipt in q.inFlight && q'.inFlight == q.inFlight - {receipt}
            && q'.visible == (if q.subscriptions > 0 then Insert(q.visible, q.inFlight[receipt].stored) else q.visible)
            && (q.subscriptions > 0 ==> q.inFlight[receipt].stored in q'.visible)
            && (forall k :: k != h.queue ==> QueueOf(w'.account, k) == QueueOf(w.account, k))
            && w'.handles == w.handles[receipt := h.(settled := true)]
  {
    var w := After(Start(), steps);
    RunAccounted(steps);
    hide Legal, After;
    RequeueEffect(w, receipt, drift);
  }

  lemma RequeueEffect(w: World, receipt: nat, drift: nat)
    requires AllLive(w) && Enabled(w, Settle(receipt, Nack(true), drift))
    ensures var h, w' := w.handles[receipt], Next(w, Settle(receipt, Nack(true), drift));
            var q, q' := QueueOf(w.account, h.queue), QueueOf(w'.account, h.queue);
            && receipt in q.inFlight && q'.inFlight == q.inFlight - {receipt}
            && q'.visible == (if q.subscriptions > 0 then Insert(q.visible, q.inFlight[receipt].stored) else q.visible)
            && (q.subscriptions > 0 ==> q.inFlight[receipt].stored in q'.visible)
            && (forall k :: k != h.queue ==> QueueOf(w'.account, k) == QueueOf(w.account, k))
            && w'.handles == w.handles[receipt := h.(settled := true)]
  {
    LiveIsAloft(w, receipt);
    var q := QueueOf(w.account, w.handles[receipt].queue);
    Ledger.InsertMembers(q.visible, q.inFlight[receipt].stored);
    hide Insert, AllLive;
  }

  // ---------------------------------------------------------------------------------------------
  // A delivery from its receive to its settlement

  lemma {:induction false} NumbersGrow(run: seq<Step>, n: nat)
    requires Legal(Start(), run) && n <= |run|
    ensures At(run, n).account.nextId <= After(Start(), run).account.nextId
  {
    hide Next, Enabled, Legal, After, At;
    if n < |run| {
      var before, last := run[..|run| - 1], |run| - 1;
      AtPrefix(run, n);
      AtEnds(run, last);
      NumbersGrow(before, n);
      AtPrefix(run, last);
      assert At(run, last) == After(Start(), before) by {
        AtWhole(before);
      }
      Conservation.RunBalanced(before);
      NumbersStep(At(run, last), run[last]);
    } else {
      AtWhole(run);
    }
  }

  lemma NumbersStep(w: World, step: Step)
    requires Conservation.Balanced(w) && Enabled(w, step)
    ensures w.account.nextId <= Next(w, step).account.nextId
  {
    hide Next, Enabled, Conservation.Balanced, Conservation.Leaving, Conservation.Arriving;
    Conservation.StepConserves(w, step);
  }

  /** An unsettled delivery, the handle and the message it was. */
  ghost predicate SameDelivery(w: World, v: World, receipt: nat)
  {
    && receipt in w.handles && !w.handles[receipt].settled
    && receipt in v.handles && v.handles[receipt] == w.handles[receipt]
    && var key := w.handles[receipt].queue;
       receipt in Aloft(w.account, key) && receipt in Aloft(v.account, key)
       && Aloft(v.account, key)[receipt].stored == Aloft(w.account, key)[receipt].stored
  }

  lemma TakeKeepsDelivery(w: World, id: nat, receipt: nat)
    requires Accounted(w) && Enabled(w, Take(id)) && receipt < w.account.nextId
    requires receipt in Took(w, id).handles && !Took(w, id).handles[receipt].settled
    ensures SameDelivery(w, Took(w, id), receipt)
  {
    TookCarries(w, id);
    hide Took, TakenBy, Carried, Aloft;
    CarriedOver(w, Took(w, id), w.readers[id], TakenBy(w, id).handed, Took(w, id).handles[receipt].queue, receipt);
    LiveIsAloft(w, receipt);
  }

  lemma OtherKeepsDelivery(w: World, step: Step, receipt: nat)
    requires Accounted(w) && Enabled(w, step) && Accounted(Next(w, step)) && !step.Take?
    requires receipt in Next(w, step).handles && !Next(w, step).handles[receipt].settled
    ensures SameDelivery(w, Next(w, step), receipt)
  {
    hide Next, Enabled;
    LiveIsAloft(Next(w, step), receipt);
    Redrives.HandlesKept(w, step);
    LiveIsAloft(w, receipt);
    Fifo.StepWithin(w, step);
  }

  /** A delivery still unsettled after a step is the one it was before it. */
  lemma StepKeepsDelivery(w: World, step: Step, receipt: nat)
    requires Accounted(w) && Enabled(w, step) && receipt < w.account.nextId
    requires receipt in Next(w, step).handles && !Next(w, step).handles[receipt].settled
    ensures SameDelivery(w, Next(w, step), receipt)
  {
    hide Next, Enabled, Accounted, SameDelivery;
    if step.Take? {
      Fifo.TakeStep(w, step.id);
      TakeKeepsDelivery(w, step.id, receipt);
    } else {
      StepKeepsAccounted(w, step);
      OtherKeepsDelivery(w, step, receipt);
    }
  }

  /** A receive handed its `i`-th message over under its own receipt, as the subscription was opened. */
  ghost predicate AsHanded(w: World, id: nat, i: nat, v: World)
    requires id in w.readers && i < |TakenBy(w, id).handed|
  {
    var reader, receipt, y := w.readers[id], w.account.nextId + i, TakenBy(w, id).handed[i];
    && receipt in v.handles
    && v.handles[receipt] == Handle(reader.queue, reader.visibility, w.now, y.receives, reader.cap, false)
    && receipt in Aloft(v.account, reader.queue) && Aloft(v.account, reader.queue)[receipt].stored == y
  }

  lemma CarriedHandle(w: World, w': World, reader: Reader, handed: seq<Stored>, i: nat)
    requires Carried(w, w', reader, handed) && i < |handed|
    ensures var receipt := w.account.nextId + i;
            && receipt in w'.handles && receipt < w'.account.nextId
            && w'.handles[receipt] == Handle(reader.queue, reader.visibility, w.now, handed[i].receives, reader.cap, false)
            && receipt in Aloft(w'.account, reader.queue) && Aloft(w'.account, reader.queue)[receipt].stored == handed[i]
  {
    hide Flights, NewHandles, Aloft;
    Ledger.FlightsAre(handed, w.account.nextId, w.now);
    Conservation.NewHandlesAre(reader, handed, w.account.nextId, w.now);
  }

  lemma TakeIsAsHanded(w: World, id: nat, i: nat)
    requires Enabled(w, Take(id)) && i < |TakenBy(w, id).handed|
    ensures AsHanded(w, id, i, Next(w, Take(id))) && w.account.nextId + i < Next(w, Take(id)).account.nextId
  {
    Fifo.TakeStep(w, id);
    hide TakenBy, Took, Next, Carried, Aloft, Enabled;
    TookIsAsHanded(w, id, i);
  }

  lemma TookIsAsHanded(w: World, id: nat, i: nat)
    requires id in w.readers && i < |TakenBy(w, id).handed|
    ensures AsHanded(w, id, i, Took(w, id)) && w.account.nextId + i < Took(w, id).account.nextId
  {
    hide TakenBy, Took, Carried, Aloft;
    TookCarries(w, id);
    CarriedHandle(w, Took(w, id), w.readers[id], TakenBy(w, id).handed, i);
  }

  lemma SameIsAsHanded(w: World, id: nat, i: nat, v: World, v': World)
    requires id in w.readers && i < |TakenBy(w, id).handed|
    requires AsHanded(w, id, i, v) && SameDelivery(v, v', w.account.nextId + i)
    ensures AsHanded(w, id, i, v')
  {
    hide TakenBy, Aloft;
  }

  /** The receive a run made as its step `n`, and what it handed over. */
  ghost predicate Receives(run: seq<Step>, n: nat, i: nat)
  {
    && Legal(Start(), run) && n < |run| && run[n].Take?
    && (AtEnds(run, n); i < |TakenBy(At(run, n), run[n].id).handed|)
  }

  lemma ReceiveIsTake(run: seq<Step>, n: nat, i: nat)
    requires Receives(run, n, i)
    ensures Legal(Start(), run) && n < |run| && run[n].Take? && Enabled(At(run, n), run[n])
    ensures run[n].id in At(run, n).readers && i < |TakenBy(At(run, n), run[n].id).handed|
    ensures n + 1 <= |run| && At(run, n + 1) == Next(At(run, n), run[n])
  {
    hide Next, TakenBy, At;
    AtEnds(run, n);
  }

  lemma ReceivesBefore(run: seq<Step>, n: nat, i: nat)
    requires Receives(run, n, i) && n < |run| - 1
    ensures Receives(run[..|run| - 1], n, i) && At(run[..|run| - 1], n) == At(run, n)
  {
    hide Next, TakenBy, At, Enabled;
    AtEnds(run, n);
    AtPrefix(run, n);
    AtEnds(run[..|run| - 1], n);
  }

  /** The receipt of a delivery a run's receive handed over. */
  ghost function ReceiptOf(run: seq<Step>, n: nat, i: nat): nat
    requires Receives(run, n, i)
  {
    At(run, n).account.nextId + i
  }

  /** It is still to be settled when the run ends. */
  ghost predicate Outstanding(run: seq<Step>, n: nat, i: nat)
    requires Receives(run, n, i)
  {
    var handles := After(Start(), run).handles;
    ReceiptOf(run, n, i) in handles && !handles[ReceiptOf(run, n, i)].settled
  }

  /** It is as it was handed over. */
  ghost predicate Kept(run: seq<Step>, n: nat, i: nat)
    requires Receives(run, n, i)
  {
    ReceiveIsTake(run, n, i);
    AsHanded(At(run, n), run[n].id, i, After(Start(), run))
  }

  lemma JustHanded(run: seq<Step>, n: nat, i: nat)
    requires Receives(run, n, i) && n == |run| - 1
    ensures Kept(run, n, i)
  {
    ReceiveIsTake(run, n, i);
    LastOf(run);
    hide Next, Enabled, At, After, Legal, TakenBy;
    TakeIsAsHanded(At(run, n), run[n].id, i);
  }

  lemma ReceiptIssued(run: seq<Step>, n: nat, i: nat)
    requires Receives(run, n, i)
    ensures ReceiptOf(run, n, i) < After(Start(), run).account.nextId
  {
    ReceiveIsTake(run, n, i);
    hide Next, Enabled, At, After, Legal, TakenBy, AsHanded, Receives;
    TakeIsAsHanded(At(run, n), run[n].id, i);
    NumbersGrow(run, n + 1);
  }

  lemma StepKeepsHanded(v: World, step: Step, w: World, id: nat, i: nat, receipt: nat)
    requires Accounted(v) && Enabled(v, step) && receipt < v.account.nextId
    requires id in w.readers && i < |TakenBy(w, id).handed| && receipt == w.account.nextId + i
    requires receipt in Next(v, step).handles && !Next(v, step).handles[receipt].settled
    ensures receipt in v.handles && !v.handles[receipt].settled
    ensures AsHanded(w, id, i, v) ==> AsHanded(w, id, i, Next(v, step))
  {
    hide *;
    StepKeepsDelivery(v, step, receipt);
    WasUnsettled(v, Next(v, step), receipt);
    if AsHanded(w, id, i, v) {
      SameIsAsHanded(w, id, i, v, Next(v, step));
    }
  }

  lemma OutstandingBefore(run: seq<Step>, n: nat, i: nat)
    requires Receives(run, n, i) && Outstanding(run, n, i) && n < |run| - 1
    ensures Receives(run[..|run| - 1], n, i) && Outstanding(run[..|run| - 1], n, i)
    ensures Kept(run[..|run| - 1], n, i) ==> Kept(run, n, i)
  {
    hide Next, Enabled, At, After, Legal, TakenBy, AsHanded, Receives, Accounted;
    var before, last := run[..|run| - 1], run[|run| - 1];
    ReceivesBefore(run, n, i);
    ReceiveIsTake(run, n, i);
    ReceiveIsTake(before, n, i);
    LastOf(run);
    ReceiptIssued(before, n, i);
    RunAccounted(before);
    StepKeepsHanded(After(Start(), before), last, At(run, n), run[n].id, i, ReceiptOf(run, n, i));
  }

  /** Over every run, a delivery still unsettled is as it was handed over. */
  lemma {:induction false} DeliveryStays(run: seq<Step>, n: nat, i: nat)
    requires Receives(run, n, i) && Outstanding(run, n, i)
    ensures Kept(run, n, i)
  {
    ReceiveIsTake(run, n, i);
    hide *;
    if n < |run| - 1 {
      OutstandingBefore(run, n, i);
      DeliveryStays(run[..|run| - 1], n, i);
    } else {
      JustHanded(run, n, i);
    }
  }

  lemma WasUnsettled(v: World, v': World, receipt: nat)
    requires SameDelivery(v, v', receipt)
    ensures receipt in v.handles && !v.handles[receipt].settled
  {
  }

  // ---------------------------------------------------------------------------------------------
  // Discards

  /** The message a run's receive handed over, the subscription it went to, and how often it had been by then. */
  ghost function MessageOf(run: seq<Step>, n: nat, i: nat): Stored
    requires Receives(run, n, i)
  {
    ReceiveIsTake(run, n, i);
    TakenBy(At(run, n), run[n].id).handed[i]
  }

  ghost function ReaderOf(run: seq<Step>, n: nat, i: nat): Reader
    requires Receives(run, n, i)
  {
    ReceiveIsTake(run, n, i);
    At(run, n).readers[run[n].id]
  }

  ghost function TimesByThen(run: seq<Step>, n: nat, i: nat): nat
    requires Receives(run, n, i)
  {
    ReceiveIsTake(run, n, i);
    HandoversOf(At(run, n + 1).handovers, MessageOf(run, n, i).id)
  }

  lemma KeptIs(run: seq<Step>, n: nat, i: nat)
    requires Receives(run, n, i) && Kept(run, n, i)
    ensures var v, receipt, reader, y := After(Start(), run), ReceiptOf(run, n, i), ReaderOf(run, n, i), MessageOf(run, n, i);
            && Legal(Start(), run) && receipt in v.handles
            && v.handles[receipt] == Handle(reader.queue, reader.visibility, At(run, n).now, y.receives, reader.cap, false)
            && receipt in QueueOf(v.account, reader.queue).inFlight
            && QueueOf(v.account, reader.queue).inFlight[receipt].stored == y
  {
    hide Next, Enabled, At, After, Legal, TakenBy, Receives;
    ReceiveIsTake(run, n, i);
  }

  /** It reports how often it was handed over, as a 32-bit count. */
  lemma CountsByThen(run: seq<Step>, n: nat, i: nat)
    requires Receives(run, n, i)
    ensures MessageOf(run, n, i).receives == Min(TimesByThen(run, n, i), U32_MAX)
  {
    hide Next, Enabled, Legal, TakenBy, Receives;
    ReceiveIsTake(run, n, i);
    LegalPrefix(Start(), run, n);
    Redrives.HandoverWithinCap(run[..n], run[n].id, i);
    hide At, After;
  }

  /**
   * Whenever in a run a delivery is discarded, it comes back, as it was handed over, if it had been
   * handed over by then at least as often as its registration allows; otherwise its message is gone.
   */
  lemma DiscardDecided(run: seq<Step>, n: nat, i: nat, drift: nat)
    requires Receives(run, n, i) && Outstanding(run, n, i)
    requires Enabled(After(Start(), run), Settle(ReceiptOf(run, n, i), Nack(false), drift))
    ensures var v, reader, y := After(Start(), run), ReaderOf(run, n, i), MessageOf(run, n, i);
            var v' := Next(v, Settle(ReceiptOf(run, n, i), Nack(false), drift));
            var q, q' := QueueOf(v.account, reader.queue), QueueOf(v'.account, reader.queue);
            && ReceiptOf(run, n, i) !in q'.inFlight
            && if reader.cap.Some? && Min(TimesByThen(run, n, i), U32_MAX) >= reader.cap.value
               then q'.visible == if q.subscriptions > 0 then Insert(q.visible, y) else q.visible
               else y.id !in Ledger.Held(v'.account.queues)
  {
    DeliveryStays(run, n, i);
    KeptIs(run, n, i);
    CountsByThen(run, n, i);
    hide Next, Enabled, After, Legal, Receives, Outstanding, Kept, MessageOf, ReaderOf, ReceiptOf, TimesByThen,
      Ledger.Held, Insert, At;
    Redrives.DiscardReturnsUsedUp(run, ReceiptOf(run, n, i), drift);
  }

  // ---------------------------------------------------------------------------------------------
  // Drops

  lemma DropTakesNoTime(w: World, receipt: nat, drift: nat)
    requires Enabled(w, Drop(receipt, drift))
    ensures Next(w, Drop(receipt, drift)).now == w.now
  {
  }

  /** What an unsettled handle has left when it is let go. */
  lemma LeftIs(w: World, receipt: nat, drift: nat)
    requires Timely(w, receipt, drift) && !w.handles[receipt].settled
    ensures LeftOver(w, receipt, drift) == Some(V.RemainingVisibility(w.handles[receipt].visibility, HeldFor(w, receipt, drift)))
  {
    hide V.RemainingVisibility;
  }

  lemma DropRestGranted(w: World, receipt: nat, drift: nat, time: nat)
    requires Accounted(w) && Enabled(w, Drop(receipt, drift)) && Timely(w, receipt, drift) && drift <= V.MARGIN
    requires LeftOver(w, receipt, drift) == Some(time) && time > 0
    ensures Returns.GrantedRest(w, receipt, drift, time)
  {
    hide Enabled, Accounted, LeftOver, ChangeRefusal;
    DropGranted(w, receipt, drift);
  }

  lemma DropLandsAtOnce(w: World, receipt: nat, drift: nat)
    requires Accounted(w) && Enabled(w, Drop(receipt, drift)) && Timely(w, receipt, drift) && drift <= V.MARGIN
    requires LeftOver(w, receipt, drift) == Some(0)
    ensures receipt !in Aloft(Next(w, Drop(receipt, drift)).account, w.handles[receipt].queue)
  {
    hide LeftOver, ChangeRefusal, Aloft, Accounted, Dropped, Enabled;
    DropGranted(w, receipt, drift);
    DropEffect(w, receipt, drift);
  }

  /** A punctual drop holds its message back for exactly the visibility it has left. */
  lemma DropHoldsBack(w: World, receipt: nat, drift: nat, time: nat, until: nat)
    requires Accounted(w) && Conservation.Balanced(w) && Enabled(w, Drop(receipt, drift)) && Timely(w, receipt, drift)
    requires drift <= V.MARGIN && LeftOver(w, receipt, drift) == Some(time)
    requires receipt in Aloft(w.account, w.handles[receipt].queue)
    ensures var key := w.handles[receipt].queue;
            Returns.HeldBack(Next(w, Drop(receipt, drift)), key, receipt, Aloft(w.account, key)[receipt].stored, until)
            <==> until <= w.now + time
  {
    assert receipt in w.handles;
    hide *;
    DropTakesNoTime(w, receipt, drift);
    if time == 0 {
      DropLandsAtOnce(w, receipt, drift);
      var key := w.handles[receipt].queue;
      BackFrom(Next(w, Drop(receipt, drift)), key, receipt, Aloft(w.account, key)[receipt].stored, until);
    } else {
      DropRestGranted(w, receipt, drift, time);
      RestHoldsBack(w, receipt, drift, time, until);
    }
  }

  lemma BackFrom(w: World, key: string, receipt: nat, s: Stored, until: nat)
    requires receipt !in Aloft(w.account, key)
    ensures Returns.HeldBack(w, key, receipt, s, until) <==> until <= w.now
  {
    hide *;
    if until <= w.now {
      Returns.NothingIsEarly(w, key, receipt, s, until);
    } else {
      Returns.BackAlready(w, key, receipt, s, until);
    }
  }

  lemma RestHoldsBack(w: World, receipt: nat, drift: nat, time: nat, until: nat)
    requires Accounted(w) && Conservation.Balanced(w) && Returns.GrantedRest(w, receipt, drift, time)
    requires Enabled(w, Drop(receipt, drift)) && receipt in w.handles
    ensures var key := w.handles[receipt].queue;
            && receipt in Aloft(w.account, key)
            && (Returns.HeldBack(Next(w, Drop(receipt, drift)), key, receipt, Aloft(w.account, key)[receipt].stored, until)
                <==> until <= w.now + time)
  {
    hide *;
    var w', key := Next(w, Drop(receipt, drift)), w.handles[receipt].queue;
    DropTakesNoTime(w, receipt, drift);
    Returns.DropRearms(w, receipt, drift, time);
    Returns.RearmedArms(w, Drop(receipt, drift), key, receipt, w.now + time);
    Returns.ArmedHoldsBack(w', key, receipt, w.now + time, Aloft(w.account, key)[receipt].stored, until);
  }

  lemma AloftIs(w: World, key: string, receipt: nat, y: Stored)
    requires receipt in QueueOf(w.account, key).inFlight && QueueOf(w.account, key).inFlight[receipt].stored == y
    ensures receipt in Aloft(w.account, key) && Aloft(w.account, key)[receipt].stored == y
  {
  }

  lemma HeldSince(w: World, receipt: nat, drift: nat)
    requires Timely(w, receipt, drift)
    ensures w.handles[receipt].received + drift <= w.now
    ensures HeldFor(w, receipt, drift) == w.now - drift - w.handles[receipt].received
  {
  }

  /**
   * Whenever in a run a delivery is dropped unsettled, its clock at most the margin behind, it is out
   * of sight, whatever follows, exactly until what the closed form leaves of the subscription's
   * visibility is up; for the timeouts where that is the loop's, exactly as long as the live
   * extension, stopped then, would have kept it.
   */
  lemma DroppedAsExtended(run: seq<Step>, n: nat, i: nat, drift: nat, until: nat)
    requires Receives(run, n, i) && Outstanding(run, n, i) && drift <= V.MARGIN
    requires Enabled(After(Start(), run), Drop(ReceiptOf(run, n, i), drift))
    ensures var v, reader, received := After(Start(), run), ReaderOf(run, n, i), At(run, n).now;
            var v' := Next(v, Drop(ReceiptOf(run, n, i), drift));
            && received + drift <= v.now
            && var held := v.now - drift - received;
               && (Returns.HeldBack(v', reader.queue, ReceiptOf(run, n, i), MessageOf(run, n, i), until)
                   <==> until <= v.now + V.RemainingVisibility(reader.visibility, held))
               && (reader.visibility > 0 && V.NeverParts(reader.visibility / V.SECOND) ==>
                     V.RemainingVisibility(reader.visibility, held) == V.LoopRemaining(reader.visibility, held))
  {
    hide *;
    DeliveryStays(run, n, i);
    KeptIs(run, n, i);
    var v, reader, receipt := After(Start(), run), ReaderOf(run, n, i), ReceiptOf(run, n, i);
    DropIsTimely(v, receipt, drift);
    HeldSince(v, receipt, drift);
    AloftIs(v, reader.queue, receipt, MessageOf(run, n, i));
    RunAccounted(run);
    Conservation.RunBalanced(run);
    LeftIs(v, receipt, drift);
    WholeIsNotOne(reader.visibility);
    var time := V.RemainingVisibility(reader.visibility, HeldFor(v, receipt, drift));
    DropHoldsBack(v, receipt, drift, time, until);
    ExtensionAgrees(reader.visibility, HeldFor(v, receipt, drift));
  }

  lemma WholeIsNotOne(visibility: WholeSpan)
    ensures visibility != 1
  {
  }

  lemma ExtensionAgrees(visibility: WholeSpan, held: nat)
    ensures visibility > 0 ==> visibility / V.SECOND > 0 && V.ExtensionPeriod(visibility) > 0
    ensures visibility > 0 && V.NeverParts(visibility / V.SECOND) ==>
              V.RemainingVisibility(visibility, held) == V.LoopRemaining(visibility, held)
  {
    if visibility > 0 {
      assert visibility / V.SECOND * V.SECOND == visibility;
      if V.NeverParts(visibility / V.SECOND) {
        V.NeverPartsAgrees(visibility / V.SECOND, held);
      }
    }
  }
}
