// What becomes of a message in flight: it has a live handle, or exactly one timer that still counts,
// or its unsettled handle was dropped so late that the queue refused to take it back.
module Futures {
  import opened Names
  import opened Account
  import opened World
  import opened Frames
  import Conservation
  import Ledger
  import V = Visibility

  /** The messages of one queue in flight. */
  function Aloft(a: Account, key: string): map<nat, InFlight> { QueueOf(a, key).inFlight }

  predicate HasHandle(handles: map<nat, Handle>, key: string, receipt: nat)
  {
    receipt in handles && !handles[receipt].settled && handles[receipt].queue == key
  }

  ghost predicate HasTimer(timers: set<Timer>, key: string, receipt: nat, generation: nat)
  {
    exists due :: Timer(key, receipt, generation, due) in timers
  }

  /** A message in flight: under an issued receipt, its handle received when it was, a timer once changed. */
  ghost predicate Traced(w: World, key: string, receipt: nat)
    requires receipt in Aloft(w.account, key)
  {
    var entry := Aloft(w.account, key)[receipt];
    && receipt < w.account.nextId
    && (HasHandle(w.handles, key, receipt) ==> w.handles[receipt].received == entry.received)
    && (entry.generation > 0 ==> HasTimer(w.account.timers, key, receipt, entry.generation))
  }

  /** A live handle: unsettled, its message is in flight and was never changed. */
  ghost predicate Live(w: World, receipt: nat)
    requires receipt in w.handles
  {
    var h := w.handles[receipt];
    && receipt < w.account.nextId && h.received <= w.now
    && (!h.settled ==> receipt in Aloft(w.account, h.queue) && Aloft(w.account, h.queue)[receipt].generation == 0)
  }

  /** A timer is of a change already made. */
  ghost predicate Past(a: Account, t: Timer)
  {
    && t.generation >= 1 && t.receipt < a.nextId
    && (t.receipt in Aloft(a, t.key) ==> t.generation <= Aloft(a, t.key)[t.receipt].generation)
  }

  /** Whether a timer is of the current generation of a message in flight. */
  predicate Counts(a: Account, t: Timer)
  {
    t.receipt in Aloft(a, t.key) && Aloft(a, t.key)[t.receipt].generation == t.generation
  }

  ghost predicate OneTimerEach(timers: set<Timer>)
  {
    forall t, u :: t in timers && u in timers && t == u.(due := t.due) ==> t == u
  }

  ghost predicate AllTraced(w: World)
  {
    forall key, receipt :: receipt in Aloft(w.account, key) ==> Traced(w, key, receipt)
  }

  ghost predicate AllLive(w: World) { forall receipt :: receipt in w.handles ==> Live(w, receipt) }

  ghost predicate AllPast(a: Account) { forall t :: t in a.timers ==> Past(a, t) }

  ghost predicate Accounted(w: World)
  {
    AllTraced(w) && AllLive(w) && AllPast(w.account) && OneTimerEach(w.account.timers)
  }

  // ---------------------------------------------------------------------------------------------
  // What the account operations do to flight and timers

  ghost predicate SameFlights(a: Account, b: Account) { forall k :: Aloft(b, k) == Aloft(a, k) }

  /** One message out of flight. */
  ghost predicate FlightOut(a: Account, b: Account, key: string, receipt: nat)
  {
    && (forall k :: k != key ==> Aloft(b, k) == Aloft(a, k))
    && Aloft(b, key) == Aloft(a, key) - {receipt}
  }

  /** One message under its next generation, with the timer of it. */
  ghost predicate FlightBumped(a: Account, b: Account, key: string, receipt: nat, due: nat)
  {
    && receipt in Aloft(a, key)
    && (forall k :: k != key ==> Aloft(b, k) == Aloft(a, k))
    && var entry := Aloft(a, key)[receipt];
       && Aloft(b, key) == Aloft(a, key)[receipt := entry.(generation := entry.generation + 1)]
       && b.timers == a.timers + {Timer(key, receipt, entry.generation + 1, due)}
  }

  lemma DeleteEffect(a: Account, key: string, receipt: nat)
    ensures var b := Delete(a, key, receipt);
            FlightOut(a, b, key, receipt) && b.timers == a.timers && b.nextId == a.nextId
  {
  }

  lemma ReturnEffect(a: Account, key: string, receipt: nat)
    requires receipt in Aloft(a, key)
    ensures var b := Return(a, key, receipt);
            FlightOut(a, b, key, receipt) && b.timers == a.timers && b.nextId == a.nextId
  {
    hide Insert;
  }

  lemma ChangeEffect(a: Account, key: string, receipt: nat, visibility: nat, now: nat)
    ensures var b := ChangeVisibility(a, key, receipt, visibility, now);
            && b.nextId == a.nextId
            && if ChangeRefusal(a, key, receipt, visibility, now).Some? then SameFlights(a, b) && b.timers == a.timers
               else if visibility == 0 then FlightOut(a, b, key, receipt) && b.timers == a.timers
               else FlightBumped(a, b, key, receipt, now + visibility)
  {
    hide Return;
    if ChangeRefusal(a, key, receipt, visibility, now).None? && visibility == 0 {
      ReturnEffect(a, key, receipt);
    }
  }

  lemma LapseEffect(a: Account, t: Timer)
    ensures var b := Lapse(a.(timers := a.timers - {t}), t.key, t.receipt, t.generation);
            && b.nextId == a.nextId && b.timers == a.timers - {t}
            && if Counts(a, t) then FlightOut(a, b, t.key, t.receipt) else SameFlights(a, b)
  {
    hide Return;
    var unarmed := a.(timers := a.timers - {t});
    assert SameFlights(a, unarmed);
    if Counts(a, t) {
      ReturnEffect(unarmed, t.key, t.receipt);
    }
  }

  lemma FedEffect(a: Account, b: Account)
    requires Fed(a, b)
    ensures SameFlights(a, b) && b.timers == a.timers && a.nextId <= b.nextId
  {
    hide QueueOf;
    forall k ensures Aloft(b, k) == Aloft(a, k) {
      assert QueueFed(QueueOf(a, k), QueueOf(b, k));
    }
  }

  lemma SetRedriveFlights(a: Account, key: string, cap: nat, deadLetter: string)
    ensures var b := SetRedrive(a, key, cap, deadLetter);
            && b.timers == a.timers && b.nextId == a.nextId
            && forall k :: QueueOf(b, k) == QueueOf(a, k).(redrive := QueueOf(b, k).redrive)
  {
    hide QueueKey;
  }

  /** What a receive adds to flight, and where. */
  lemma TakeFlights(w: World, id: nat)
    requires id in w.readers
    ensures var key := w.readers[id].queue;
            var handed := TakenBy(w, id).handed;
            var b := Receive(w.account, key, w.readers[id].max, w.now);
            && b.timers == w.account.timers && b.nextId >= w.account.nextId + |handed|
            && (forall k :: QueueOf(b, k).inFlight == if k == key
                  then QueueOf(w.account, k).inFlight + Flights(handed, w.account.nextId, w.now)
                  else QueueOf(w.account, k).inFlight)
  {
    hide Scan, MoveSpent, Flights;
    var key, max := w.readers[id].queue, w.readers[id].max;
    var a := w.account;
    var q := QueueOf(a, key);
    var loop := Ledger.AfterLoop(a, key, max, w.now);
    if q.redrive.Some? {
      MoveSpentFeeds(loop, q.redrive.value.queue, TakenBy(w, id).spent);
    }
    var b := Receive(a, key, max, w.now);
    assert Fed(loop, b) by {
      assert Fed(loop, loop);
    }
    FedEffect(loop, b);
  }

  // ---------------------------------------------------------------------------------------------
  // Changes of the world that keep everything accounted for

  /** Flight, timers and handles are what they were. */
  ghost predicate Still(w: World, w': World)
  {
    && SameFlights(w.account, w'.account) && w'.account.timers == w.account.timers && w'.handles == w.handles
    && w.account.nextId <= w'.account.nextId && w.now <= w'.now
  }

  /** Handles were settled or let go, and nothing else. */
  predicate Loosened(handles: map<nat, Handle>, handles': map<nat, Handle>)
  {
    forall r :: r in handles' ==>
      r in handles && (handles'[r] == handles[r] || handles'[r] == handles[r].(settled := true))
  }

  /** Flight is unchanged, and only timers that do not count went. */
  ghost predicate Steady(w: World, w': World)
  {
    && SameFlights(w.account, w'.account) && w.account.nextId <= w'.account.nextId && w.now <= w'.now
    && w'.account.timers <= w.account.timers
    && (forall u :: u in w.account.timers && u !in w'.account.timers ==> !Counts(w.account, u))
    && Loosened(w.handles, w'.handles)
  }

  lemma SteadyKeeps(w: World, w': World)
    requires Accounted(w) && Steady(w, w')
    ensures Accounted(w')
  {
    hide Aloft;
    SteadyTraced(w, w');
    forall r | r in w'.handles ensures Live(w', r) {
      assert Live(w, r);
    }
    forall t | t in w'.account.timers ensures Past(w'.account, t) {
      assert Past(w.account, t);
    }
  }

  lemma SteadyTraced(w: World, w': World)
    requires AllTraced(w) && Steady(w, w')
    ensures AllTraced(w')
  {
    hide Aloft;
    forall key, r | r in Aloft(w'.account, key) ensures Traced(w', key, r) {
      assert Traced(w, key, r);
      var entry := Aloft(w.account, key)[r];
      if entry.generation > 0 {
        var due :| Timer(key, r, entry.generation, due) in w.account.timers;
        assert Timer(key, r, entry.generation, due) in w'.account.timers;
      }
    }
  }

  /** One message left flight, its handle no longer unsettled, and at most timers of its own went. */
  ghost predicate Landed(w: World, w': World, key: string, receipt: nat)
  {
    && FlightOut(w.account, w'.account, key, receipt)
    && w'.account.nextId == w.account.nextId && w'.now == w.now
    && w'.account.timers <= w.account.timers
    && (forall u :: u in w.account.timers && u !in w'.account.timers ==> u.key == key && u.receipt == receipt)
    && Loosened(w.handles, w'.handles) && !HasHandle(w'.handles, key, receipt)
  }

  lemma LandedKeeps(w: World, w': World, key: string, receipt: nat)
    requires Accounted(w) && Landed(w, w', key, receipt)
    ensures Accounted(w')
  {
    hide Aloft;
    LandedTraced(w, w', key, receipt);
    forall r | r in w'.handles ensures Live(w', r) {
      assert Live(w, r);
    }
    forall t | t in w'.account.timers ensures Past(w'.account, t) {
      assert Past(w.account, t);
    }
  }

  lemma LandedTraced(w: World, w': World, key: string, receipt: nat)
    requires AllTraced(w) && Landed(w, w', key, receipt)
    ensures AllTraced(w')
  {
    hide Aloft;
    forall k, r | r in Aloft(w'.account, k) ensures Traced(w', k, r) {
      assert Traced(w, k, r);
      var entry := Aloft(w.account, k)[r];
      if entry.generation > 0 {
        var due :| Timer(k, r, entry.generation, due) in w.account.timers;
        assert Timer(k, r, entry.generation, due) in w'.account.timers;
      }
    }
  }

  /** The first change of a live delivery: generation one, and the one timer of it. */
  ghost predicate Rearmed(w: World, w': World, key: string, receipt: nat, due: nat)
  {
    && FlightBumped(w.account, w'.account, key, receipt, due)
    && Aloft(w.account, key)[receipt].generation == 0
    && w'.account.nextId == w.account.nextId && w'.now == w.now
    && Loosened(w.handles, w'.handles) && !HasHandle(w'.handles, key, receipt)
  }

  lemma RearmedKeeps(w: World, w': World, key: string, receipt: nat, due: nat)
    requires Accounted(w) && Rearmed(w, w', key, receipt, due)
    ensures Accounted(w') && Timer(key, receipt, 1, due) !in w.account.timers
  {
    NoTimersYet(w, key, receipt);
    hide Aloft, Rearmed, AllTraced, AllLive, AllPast, OneTimerEach;
    RearmedTraced(w, w', key, receipt, due);
    RearmedLive(w, w', key, receipt, due);
    RearmedPast(w, w', key, receipt, due);
    RearmedTimers(w, w', key, receipt, due);
  }

  lemma RearmedTraced(w: World, w': World, key: string, receipt: nat, due: nat)
    requires AllTraced(w) && Rearmed(w, w', key, receipt, due)
    ensures AllTraced(w')
  {
    hide Aloft;
    assert Timer(key, receipt, 1, due) in w'.account.timers;
    forall k, r | r in Aloft(w'.account, k) ensures Traced(w', k, r) {
      assert Traced(w, k, r);
    }
  }

  lemma RearmedLive(w: World, w': World, key: string, receipt: nat, due: nat)
    requires AllLive(w) && Rearmed(w, w', key, receipt, due)
    ensures AllLive(w')
  {
    hide Aloft;
    forall r | r in w'.handles ensures Live(w', r) {
      assert Live(w, r);
    }
  }

  lemma RearmedPast(w: World, w': World, key: string, receipt: nat, due: nat)
    requires AllTraced(w) && AllPast(w.account) && Rearmed(w, w', key, receipt, due)
    ensures AllPast(w'.account)
  {
    hide Aloft;
    assert Traced(w, key, receipt);
    forall t | t in w'.account.timers ensures Past(w'.account, t) {
      assert t != Timer(key, receipt, 1, due) ==> Past(w.account, t);
    }
  }

  lemma RearmedTimers(w: World, w': World, key: string, receipt: nat, due: nat)
    requires OneTimerEach(w.account.timers) && Rearmed(w, w', key, receipt, due)
    requires forall u :: u in w.account.timers ==> !(u.key == key && u.receipt == receipt)
    ensures OneTimerEach(w'.account.timers) && Timer(key, receipt, 1, due) !in w.account.timers
  {
    hide Aloft;
  }

  /** A message that was never changed has no timer. */
  lemma NoTimersYet(w: World, key: string, receipt: nat)
    requires AllPast(w.account) && receipt in Aloft(w.account, key) && Aloft(w.account, key)[receipt].generation == 0
    ensures forall u :: u in w.account.timers ==> !(u.key == key && u.receipt == receipt)
  {
    hide Aloft;
    forall u | u in w.account.timers ensures !(u.key == key && u.receipt == receipt) {
      assert Past(w.account, u);
    }
  }

  /** A receive put new messages in flight, each with a handle of its own. */
  ghost predicate Carried(w: World, w': World, reader: Reader, handed: seq<Stored>)
  {
    && w'.account.timers == w.account.timers && w'.account.nextId >= w.account.nextId + |handed|
    && (forall k :: Aloft(w'.account, k) == if k == reader.queue
          then Aloft(w.account, k) + Flights(handed, w.account.nextId, w.now) else Aloft(w.account, k))
    && w'.handles == w.handles + NewHandles(reader, handed, w.account.nextId, w.now) && w'.now == w.now
  }

  lemma TookCarries(w: World, id: nat)
    requires id in w.readers
    ensures Carried(w, Took(w, id), w.readers[id], TakenBy(w, id).handed)
  {
    hide TakenBy, Flights, NewHandles, Receive, Tagged, HandedOver;
    TakeFlights(w, id);
  }

  /** Under the receipts drawn, new messages and their handles; under any other, what was there. */
  lemma CarriedOver(w: World, w': World, reader: Reader, handed: seq<Stored>, key: string, r: nat)
    requires Carried(w, w', reader, handed)
    ensures var drawn := w.account.nextId <= r < w.account.nextId + |handed|;
            && (drawn && key == reader.queue ==>
                  && r in Aloft(w'.account, key) && Aloft(w'.account, key)[r].generation == 0
                  && Aloft(w'.account, key)[r].received == w.now
                  && HasHandle(w'.handles, key, r) && w'.handles[r].received == w.now)
            && (!(drawn && key == reader.queue) ==>
                  && (r in Aloft(w'.account, key) <==> r in Aloft(w.account, key))
                  && (r in Aloft(w.account, key) ==> Aloft(w'.account, key)[r] == Aloft(w.account, key)[r]))
            && (!drawn ==> (r in w'.handles <==> r in w.handles) && (r in w.handles ==> w'.handles[r] == w.handles[r]))
            && (drawn ==> r in w'.handles && w'.handles[r].queue == reader.queue && w'.handles[r].received == w.now
                          && !w'.handles[r].settled && r < w'.account.nextId)
  {
    hide Flights, NewHandles, Aloft;
    Ledger.FlightsAre(handed, w.account.nextId, w.now);
    Conservation.NewHandlesAre(reader, handed, w.account.nextId, w.now);
  }

  lemma CarriedTraced(w: World, w': World, reader: Reader, handed: seq<Stored>)
    requires AllTraced(w) && Carried(w, w', reader, handed)
    ensures AllTraced(w')
  {
    forall key, r | r in Aloft(w'.account, key) ensures Traced(w', key, r) {
      CarriedOver(w, w', reader, handed, key, r);
      assert w'.account.timers == w.account.timers && w.account.nextId <= w'.account.nextId;
      hide Carried, Aloft;
      if !(w.account.nextId <= r < w.account.nextId + |handed| && key == reader.queue) {
        assert Traced(w, key, r);
      }
    }
  }

  lemma CarriedLive(w: World, w': World, reader: Reader, handed: seq<Stored>)
    requires AllLive(w) && Carried(w, w', reader, handed)
    ensures AllLive(w')
  {
    assert w.account.nextId <= w'.account.nextId && w'.now == w.now;
    forall r | r in w'.handles ensures Live(w', r) {
      CarriedOver(w, w', reader, handed, w'.handles[r].queue, r);
      hide Carried, Aloft;
      if !(w.account.nextId <= r < w.account.nextId + |handed|) {
        assert Live(w, r);
      }
    }
  }

  lemma CarriedPast(w: World, w': World, reader: Reader, handed: seq<Stored>)
    requires AllPast(w.account) && Carried(w, w', reader, handed)
    ensures AllPast(w'.account)
  {
    assert w.account.nextId <= w'.account.nextId;
    forall t | t in w'.account.timers ensures Past(w'.account, t) {
      assert Past(w.account, t);
      CarriedOver(w, w', reader, handed, t.key, t.receipt);
      hide Carried, Aloft;
    }
  }

  // ---------------------------------------------------------------------------------------------
  // Steps

  lemma TakeKeeps(w: World, id: nat)
    requires Accounted(w) && id in w.readers
    ensures Accounted(Took(w, id))
  {
    hide Took, TakenBy, AllTraced, AllLive, AllPast;
    var w', reader, handed := Took(w, id), w.readers[id], TakenBy(w, id).handed;
    TookCarries(w, id);
    assert w'.account.timers == w.account.timers;
    hide Carried;
    CarriedTraced(w, w', reader, handed);
    CarriedLive(w, w', reader, handed);
    CarriedPast(w, w', reader, handed);
  }

  lemma LiveIsAloft(w: World, receipt: nat)
    requires AllLive(w) && receipt in w.handles && !w.handles[receipt].settled
    ensures var key := w.handles[receipt].queue;
            receipt in Aloft(w.account, key) && Aloft(w.account, key)[receipt].generation == 0
  {
    assert Live(w, receipt);
  }

  lemma DeletedLands(w: World, receipt: nat)
    requires receipt in w.handles
    ensures var h := w.handles[receipt];
            var w' := w.(account := Delete(w.account, h.queue, receipt), handles := w.handles[receipt := h.(settled := true)]);
            Landed(w, w', h.queue, receipt) && w'.account.timers == w.account.timers
  {
    DeleteEffect(w.account, w.handles[receipt].queue, receipt);
    hide Aloft, Delete;
  }

  /** An unsettled delivery's visibility changed: nothing if refused, else landed or re-armed, and settled. */
  lemma ChangeSettles(w: World, receipt: nat, visibility: nat)
    requires AllLive(w) && receipt in w.handles && !w.handles[receipt].settled
    ensures var h := w.handles[receipt];
            var refusal := ChangeRefusal(w.account, h.queue, receipt, visibility, w.now);
            var w' := w.(account := ChangeVisibility(w.account, h.queue, receipt, visibility, w.now),
              handles := w.handles[receipt := h.(settled := refusal.None?)]);
            if refusal.Some? then Still(w, w')
            else if visibility == 0 then Landed(w, w', h.queue, receipt) && w'.account.timers == w.account.timers
            else Rearmed(w, w', h.queue, receipt, w.now + visibility) && w'.handles[receipt].settled
  {
    var h := w.handles[receipt];
    LiveIsAloft(w, receipt);
    ChangeEffect(w.account, h.queue, receipt, visibility, w.now);
    assert w.handles[receipt := h.(settled := false)] == w.handles;
    hide Aloft, ChangeVisibility, ChangeRefusal, AllLive;
  }

  /** A settlement that deletes, that is refused, that returns its message, or that keeps it for a time. */
  lemma SettleEffect(w: World, receipt: nat, outcome: Outcome, drift: nat)
    requires Accounted(w) && Enabled(w, Settle(receipt, outcome, drift))
    ensures var h, w' := w.handles[receipt], Settled(w, receipt, outcome, drift);
            match Asked(h, outcome, HeldFor(w, receipt, drift))
            case None => Landed(w, w', h.queue, receipt) && w'.account.timers == w.account.timers
            case Some(visibility) =>
              if ChangeRefusal(w.account, h.queue, receipt, visibility, w.now).Some? then Still(w, w')
              else if visibility == 0 then Landed(w, w', h.queue, receipt) && w'.account.timers == w.account.timers
              else Rearmed(w, w', h.queue, receipt, w.now + visibility) && w'.handles[receipt].settled
  {
    SettleIsTimely(w, receipt, outcome, drift);
    assert AllLive(w);
    hide Enabled, Accounted, Aloft, Asked, Delete, ChangeVisibility, ChangeRefusal, Landed, Rearmed, Still;
    match Asked(w.handles[receipt], outcome, HeldFor(w, receipt, drift))
    case None => DeletedLands(w, receipt);
    case Some(visibility) => ChangeSettles(w, receipt, visibility);
  }

  lemma SettleKeeps(w: World, receipt: nat, outcome: Outcome, drift: nat)
    requires Accounted(w) && Enabled(w, Settle(receipt, outcome, drift))
    ensures Accounted(Settled(w, receipt, outcome, drift))
  {
    assert Timely(w, receipt, drift);
    hide *;
    SettleEffect(w, receipt, outcome, drift);
    var h, w' := w.handles[receipt], Settled(w, receipt, outcome, drift);
    match Asked(h, outcome, HeldFor(w, receipt, drift))
    case None => LandedKeeps(w, w', h.queue, receipt);
    case Some(visibility) =>
      if ChangeRefusal(w.account, h.queue, receipt, visibility, w.now).Some? {
        StillKeeps(w, w');
      } else if visibility == 0 {
        LandedKeeps(w, w', h.queue, receipt);
      } else {
        RearmedKeeps(w, w', h.queue, receipt, w.now + visibility);
      }
  }

  /** A handle let go: settled, refused, returned at once, or kept for the time it has left. */
  lemma DropEffect(w: World, receipt: nat, drift: nat)
    requires Accounted(w) && Enabled(w, Drop(receipt, drift))
    ensures var h, w' := w.handles[receipt], Dropped(w, receipt, drift);
            && w'.handles == w.handles - {receipt}
            && match LeftOver(w, receipt, drift)
               case None => Steady(w, w') && w'.account.timers == w.account.timers
               case Some(left) =>
                 if ChangeRefusal(w.account, h.queue, receipt, left, w.now).Some? then
                   Steady(w, w') && w'.account.timers == w.account.timers
                 else if left == 0 then Landed(w, w', h.queue, receipt) && w'.account.timers == w.account.timers
                 else Rearmed(w, w', h.queue, receipt, w.now + left)
  {
    hide LeftOver, ChangeVisibility, ChangeRefusal;
    var h, left := w.handles[receipt], LeftOver(w, receipt, drift);
    if left.Some? {
      assert !h.settled by {
        LeftOfUnsettled(w, receipt, drift);
      }
      LiveIsAloft(w, receipt);
      ChangeEffect(w.account, h.queue, receipt, left.value, w.now);
      var changed := ChangeVisibility(w.account, h.queue, receipt, left.value, w.now);
      SameAloft(changed, Dropped(w, receipt, drift).account);
    } else {
      SameAloft(w.account, Dropped(w, receipt, drift).account);
    }
    hide Aloft;
  }

  lemma LeftOfUnsettled(w: World, receipt: nat, drift: nat)
    requires Timely(w, receipt, drift)
    ensures LeftOver(w, receipt, drift).Some? <==> !w.handles[receipt].settled
  {
  }

  lemma SameAloft(a: Account, b: Account)
    requires b.queues == a.queues
    ensures forall k :: Aloft(b, k) == Aloft(a, k)
  {
  }

  lemma DropKeeps(w: World, receipt: nat, drift: nat)
    requires Accounted(w) && Enabled(w, Drop(receipt, drift))
    ensures Accounted(Dropped(w, receipt, drift))
  {
    assert Timely(w, receipt, drift);
    hide *;
    DropEffect(w, receipt, drift);
    var h, w' := w.handles[receipt], Dropped(w, receipt, drift);
    match LeftOver(w, receipt, drift)
    case None => SteadyKeeps(w, w');
    case Some(left) =>
      if ChangeRefusal(w.account, h.queue, receipt, left, w.now).Some? {
        SteadyKeeps(w, w');
      } else if left == 0 {
        LandedKeeps(w, w', h.queue, receipt);
      } else {
        RearmedKeeps(w, w', h.queue, receipt, w.now + left);
      }
  }

  /** A message whose timer counts has no unsettled handle. */
  lemma CountingHasNoHandle(w: World, t: Timer)
    requires AllLive(w) && AllPast(w.account) && t in w.account.timers && Counts(w.account, t)
    ensures !HasHandle(w.handles, t.key, t.receipt)
  {
    hide Aloft;
    assert Past(w.account, t);
    assert t.receipt in w.handles ==> Live(w, t.receipt);
  }

  lemma FireEffect(w: World, t: Timer)
    requires Accounted(w) && Enabled(w, Fire(t))
    ensures var w' := Next(w, Fire(t));
            && w'.handles == w.handles && w'.account.timers == w.account.timers - {t}
            && if Counts(w.account, t) then Landed(w, w', t.key, t.receipt) else Steady(w, w')
  {
    hide Lapse, Aloft;
    LapseEffect(w.account, t);
    if Counts(w.account, t) {
      CountingHasNoHandle(w, t);
    }
  }

  lemma FireKeeps(w: World, t: Timer)
    requires Accounted(w) && Enabled(w, Fire(t))
    ensures Accounted(Next(w, Fire(t)))
  {
    hide *;
    FireEffect(w, t);
    if Counts(w.account, t) {
      LandedKeeps(w, Next(w, Fire(t)), t.key, t.receipt);
    } else {
      SteadyKeeps(w, Next(w, Fire(t)));
    }
  }

  lemma SendIsStill(w: World, step: Step)
    requires step.SendTo? || step.PublishTo?
    ensures Still(w, Next(w, step))
  {
    hide Send, Publish, Aloft;
    if step.SendTo? {
      SendFeeds(w.account, step.key, step.outbound, w.now);
    } else {
      PublishFeeds(w.account, step.topic, step.outbound, w.now);
    }
    FedEffect(w.account, Next(w, step).account);
  }

  lemma RedriveIsStill(w: World, key: string, cap: nat, deadLetter: string)
    ensures Still(w, Next(w, Redrive(key, cap, deadLetter)))
  {
    hide SetRedrive, QueueOf;
    SetRedriveFlights(w.account, key, cap, deadLetter);
  }

  lemma ReaderIsStill(w: World, step: Step)
    requires Enabled(w, step) && (step.OpenReader? || step.CloseReader? || step.Look?)
    ensures Still(w, Next(w, step))
  {
    hide Receivable;
  }

  /** Every other step leaves flight, timers and handles alone. */
  lemma OtherIsStill(w: World, step: Step)
    requires Enabled(w, step) && !step.Take? && !step.Settle? && !step.Drop? && !step.Fire?
    ensures Still(w, Next(w, step))
  {
    hide Send, Publish, SetRedrive, Open, Close, Looked;
    match step
    case SendTo(_, _) => SendIsStill(w, step);
    case PublishTo(_, _) => SendIsStill(w, step);
    case Redrive(key, cap, deadLetter) => RedriveIsStill(w, key, cap, deadLetter);
    case OpenReader(_, _) => ReaderIsStill(w, step);
    case CloseReader(_) => ReaderIsStill(w, step);
    case Look(_) => ReaderIsStill(w, step);
    case _ =>
  }

  lemma StillKeeps(w: World, w': World)
    requires Accounted(w) && Still(w, w')
    ensures Accounted(w')
  {
    hide Accounted, Aloft;
    SteadyKeeps(w, w');
  }

  /** Every step keeps every message in flight accounted for. */
  lemma StepKeepsAccounted(w: World, step: Step)
    requires Accounted(w) && Enabled(w, step)
    ensures Accounted(Next(w, step))
  {
    hide Accounted, Still, Send, Publish, SetRedrive, Open, Close, Settled, Dropped, Took, Looked, Lapse;
    match step
    case Take(id) => TakeKeeps(w, id);
    case Settle(receipt, outcome, drift) => SettleKeeps(w, receipt, outcome, drift);
    case Drop(receipt, drift) => DropKeeps(w, receipt, drift);
    case Fire(t) => FireKeeps(w, t);
    case _ =>
      OtherIsStill(w, step);
      hide Next;
      StillKeeps(w, Next(w, step));
  }

  /** Every message in flight is accounted for after every legal run. */
  lemma {:induction false} RunAccounted(steps: seq<Step>)
    requires Legal(Start(), steps)
    ensures Accounted(After(Start(), steps))
  {
    hide Accounted, Next;
    if steps == [] {
      StartAccounted();
    } else {
      RunAccounted(steps[..|steps| - 1]);
      StepKeepsAccounted(After(Start(), steps[..|steps| - 1]), steps[|steps| - 1]);
    }
  }

  lemma StartAccounted()
    ensures Accounted(Start())
  {
  }

  // ---------------------------------------------------------------------------------------------
  // When the queue refuses the crate's own changes

  lemma HeldIsElapsed(w: World, receipt: nat)
    requires AllTraced(w) && AllLive(w) && receipt in w.handles && !w.handles[receipt].settled
    ensures var h := w.handles[receipt];
            && receipt in Aloft(w.account, h.queue)
            && Aloft(w.account, h.queue)[receipt].received == h.received <= w.now
  {
    LiveIsAloft(w, receipt);
    assert Live(w, receipt);
    assert Traced(w, w.handles[receipt].queue, receipt);
  }

  /** A change an unsettled delivery asks for is refused exactly when it ends past the twelve hours. */
  lemma RefusedPastWindow(w: World, receipt: nat, visibility: nat)
    requires Accounted(w) && receipt in w.handles && !w.handles[receipt].settled && visibility <= V.REACH
    ensures var h := w.handles[receipt];
            ChangeRefusal(w.account, h.queue, receipt, visibility, w.now).Some?
            <==> visibility > 0 && w.now - h.received + visibility > V.WINDOW
  {
    HeldIsElapsed(w, receipt);
  }

  /**
   * What a settlement asks for is refused exactly when it ends past the twelve hours; never while
   * the clock moves no further than the margin in between.
   */
  lemma SettlementGranted(w: World, receipt: nat, outcome: Outcome, drift: nat)
    requires Accounted(w) && Enabled(w, Settle(receipt, outcome, drift))
    ensures var h := w.handles[receipt];
            var asked := Asked(h, outcome, HeldFor(w, receipt, drift));
            asked.Some? ==>
              && (ChangeRefusal(w.account, h.queue, receipt, asked.value, w.now).Some?
                  <==> asked.value > 0 && w.now - h.received + asked.value > V.WINDOW)
              && (drift <= V.MARGIN ==> ChangeRefusal(w.account, h.queue, receipt, asked.value, w.now).None?)
  {
    hide ChangeRefusal, Accounted;
    var h := w.handles[receipt];
    var asked := Asked(h, outcome, HeldFor(w, receipt, drift));
    if asked.Some? {
      RefusedPastWindow(w, receipt, asked.value);
      if outcome.NackAfter? && drift <= V.MARGIN {
        V.RetryAccepted(outcome.delay, HeldFor(w, receipt, drift), drift);
      }
    }
  }

  /** What a handle dropped unsettled asks for, likewise. */
  lemma DropGranted(w: World, receipt: nat, drift: nat)
    requires Accounted(w) && Enabled(w, Drop(receipt, drift))
    ensures var h := w.handles[receipt];
            var left := LeftOver(w, receipt, drift);
            left.Some? ==>
              && (ChangeRefusal(w.account, h.queue, receipt, left.value, w.now).Some?
                  <==> left.value > 0 && w.now - h.received + left.value > V.WINDOW)
              && (drift <= V.MARGIN ==> ChangeRefusal(w.account, h.queue, receipt, left.value, w.now).None?)
  {
    hide ChangeRefusal, Accounted;
    var h := w.handles[receipt];
    if !h.settled {
      V.DropWithinReach(h.visibility, HeldFor(w, receipt, drift));
      RefusedPastWindow(w, receipt, LeftOver(w, receipt, drift).value);
      if drift <= V.MARGIN {
        V.DropAccepted(h.visibility, HeldFor(w, receipt, drift), drift);
      }
    }
  }

  // ---------------------------------------------------------------------------------------------
  // One message through one step

  /** Whether a step is about this message: its unsettled handle's, or its counting timer's. */
  predicate Touches(w: World, step: Step, key: string, receipt: nat)
  {
    match step
    case Settle(r, _, _) => r == receipt && HasHandle(w.handles, key, receipt)
    case Drop(r, _) => r == receipt && HasHandle(w.handles, key, receipt)
    case Fire(t) => t.key == key && t.receipt == receipt && Counts(w.account, t)
    case _ => false
  }

  /** A message in flight as it was, its handle and its timers with it. */
  ghost predicate Undisturbed(w: World, w': World, step: Step, key: string, receipt: nat)
    requires receipt in Aloft(w.account, key)
  {
    && receipt in Aloft(w'.account, key)
    && Aloft(w'.account, key)[receipt] == Aloft(w.account, key)[receipt]
    && HasHandle(w'.handles, key, receipt) == HasHandle(w.handles, key, receipt)
    && (forall t :: t in w.account.timers && t.key == key && t.receipt == receipt && step != Fire(t)
          ==> t in w'.account.timers)
  }

  lemma LandedElsewhere(w: World, w': World, step: Step, k: string, r: nat, key: string, receipt: nat)
    requires Landed(w, w', k, r) && receipt in Aloft(w.account, key) && !(k == key && r == receipt)
    requires w'.account.timers == w.account.timers || (step.Fire? && w'.account.timers == w.account.timers - {step.timer})
    requires HasHandle(w'.handles, key, receipt) == HasHandle(w.handles, key, receipt)
    ensures Undisturbed(w, w', step, key, receipt)
  {
    hide Aloft;
  }

  lemma RearmedElsewhere(w: World, w': World, step: Step, k: string, r: nat, due: nat, key: string, receipt: nat)
    requires Rearmed(w, w', k, r, due) && receipt in Aloft(w.account, key) && !(k == key && r == receipt)
    requires HasHandle(w'.handles, key, receipt) == HasHandle(w.handles, key, receipt)
    ensures Undisturbed(w, w', step, key, receipt)
  {
    hide Aloft;
  }

  lemma SteadyElsewhere(w: World, w': World, step: Step, key: string, receipt: nat)
    requires Steady(w, w') && receipt in Aloft(w.account, key)
    requires w'.account.timers == w.account.timers || (step.Fire? && w'.account.timers == w.account.timers - {step.timer})
    requires HasHandle(w'.handles, key, receipt) == HasHandle(w.handles, key, receipt)
    ensures Undisturbed(w, w', step, key, receipt)
  {
    hide Aloft;
  }

  lemma StillElsewhere(w: World, w': World, step: Step, key: string, receipt: nat)
    requires Still(w, w') && receipt in Aloft(w.account, key)
    ensures Undisturbed(w, w', step, key, receipt)
  {
    hide Aloft;
  }

  lemma OtherHandleSettled(w: World, receipt: nat, outcome: Outcome, drift: nat, key: string, r: nat)
    requires Timely(w, receipt, drift) && !(receipt == r && HasHandle(w.handles, key, r))
    requires !w.handles[receipt].settled
    ensures HasHandle(Settled(w, receipt, outcome, drift).handles, key, r) == HasHandle(w.handles, key, r)
    ensures !(w.handles[receipt].queue == key && receipt == r)
  {
    hide ChangeRefusal, Asked, ChangeVisibility, Delete;
  }

  lemma SettleIsTimely(w: World, receipt: nat, outcome: Outcome, drift: nat)
    requires Enabled(w, Settle(receipt, outcome, drift))
    ensures Timely(w, receipt, drift) && !w.handles[receipt].settled
  {
  }

  /** A settlement of another delivery changes no handle of this message. */
  lemma SettleSpares(w: World, receipt: nat, outcome: Outcome, drift: nat, key: string, r: nat)
    requires Accounted(w) && Enabled(w, Settle(receipt, outcome, drift)) && r in Aloft(w.account, key)
    requires !(receipt == r && HasHandle(w.handles, key, r))
    ensures Undisturbed(w, Settled(w, receipt, outcome, drift), Settle(receipt, outcome, drift), key, r)
  {
    hide *;
    SettleIsTimely(w, receipt, outcome, drift);
    OtherHandleSettled(w, receipt, outcome, drift, key, r);
    var h, w', step := w.handles[receipt], Settled(w, receipt, outcome, drift), Settle(receipt, outcome, drift);
    var asked := Asked(h, outcome, HeldFor(w, receipt, drift));
    SettleEffect(w, receipt, outcome, drift);
    match asked
    case None => LandedElsewhere(w, w', step, h.queue, receipt, key, r);
    case Some(visibility) =>
      if ChangeRefusal(w.account, h.queue, receipt, visibility, w.now).Some? {
        StillElsewhere(w, w', step, key, r);
      } else if visibility == 0 {
        LandedElsewhere(w, w', step, h.queue, receipt, key, r);
      } else {
        RearmedElsewhere(w, w', step, h.queue, receipt, w.now + visibility, key, r);
      }
  }

  lemma OtherHandleDropped(w: World, receipt: nat, key: string, r: nat)
    requires receipt in w.handles && !(receipt == r && HasHandle(w.handles, key, r))
    ensures HasHandle(w.handles - {receipt}, key, r) == HasHandle(w.handles, key, r)
    ensures !w.handles[receipt].settled ==> !(w.handles[receipt].queue == key && receipt == r)
  {
  }

  lemma DropIsTimely(w: World, receipt: nat, drift: nat)
    requires Enabled(w, Drop(receipt, drift))
    ensures Timely(w, receipt, drift)
  {
  }

  lemma DropSpares(w: World, receipt: nat, drift: nat, key: string, r: nat)
    requires Accounted(w) && Enabled(w, Drop(receipt, drift)) && r in Aloft(w.account, key)
    requires !(receipt == r && HasHandle(w.handles, key, r))
    ensures Undisturbed(w, Dropped(w, receipt, drift), Drop(receipt, drift), key, r)
  {
    hide *;
    DropIsTimely(w, receipt, drift);
    OtherHandleDropped(w, receipt, key, r);
    LeftOfUnsettled(w, receipt, drift);
    var h, w', step := w.handles[receipt], Dropped(w, receipt, drift), Drop(receipt, drift);
    DropEffect(w, receipt, drift);
    match LeftOver(w, receipt, drift)
    case None => SteadyElsewhere(w, w', step, key, r);
    case Some(left) =>
      if ChangeRefusal(w.account, h.queue, receipt, left, w.now).Some? {
        SteadyElsewhere(w, w', step, key, r);
      } else if left == 0 {
        LandedElsewhere(w, w', step, h.queue, receipt, key, r);
      } else {
        RearmedElsewhere(w, w', step, h.queue, receipt, w.now + left, key, r);
      }
  }

  lemma FireSpares(w: World, t: Timer, key: string, r: nat)
    requires Accounted(w) && Enabled(w, Fire(t)) && r in Aloft(w.account, key)
    requires !(t.key == key && t.receipt == r && Counts(w.account, t))
    ensures Undisturbed(w, Next(w, Fire(t)), Fire(t), key, r)
  {
    hide *;
    FireEffect(w, t);
    SameHandlesSame(w.handles, Next(w, Fire(t)).handles, key, r);
    if Counts(w.account, t) {
      LandedElsewhere(w, Next(w, Fire(t)), Fire(t), t.key, t.receipt, key, r);
    } else {
      SteadyElsewhere(w, Next(w, Fire(t)), Fire(t), key, r);
    }
  }

  lemma SameHandlesSame(handles: map<nat, Handle>, handles': map<nat, Handle>, key: string, r: nat)
    requires handles' == handles
    ensures HasHandle(handles', key, r) == HasHandle(handles, key, r)
  {
  }

  lemma TakeSpares(w: World, id: nat, key: string, r: nat)
    requires AllTraced(w) && Enabled(w, Take(id)) && r in Aloft(w.account, key)
    ensures Undisturbed(w, Took(w, id), Take(id), key, r)
  {
    hide Took, TakenBy, Carried, Aloft;
    assert Traced(w, key, r);
    TookCarries(w, id);
    CarriedOver(w, Took(w, id), w.readers[id], TakenBy(w, id).handed, key, r);
    TimersCarried(w, Took(w, id), w.readers[id], TakenBy(w, id).handed);
  }

  lemma TimersCarried(w: World, w': World, reader: Reader, handed: seq<Stored>)
    requires Carried(w, w', reader, handed)
    ensures w'.account.timers == w.account.timers
  {
  }

  /** A step that is not about a message in flight leaves it, its handle and its timers alone. */
  lemma StepSpares(w: World, step: Step, key: string, receipt: nat)
    requires Accounted(w) && Enabled(w, step) && receipt in Aloft(w.account, key) && !Touches(w, step, key, receipt)
    ensures Undisturbed(w, Next(w, step), step, key, receipt)
  {
    hide Still, Undisturbed, HasHandle, Counts, Aloft, Send, Publish, SetRedrive, Open, Close, Settled, Dropped, Took,
      Looked, Lapse;
    match step
    case Take(id) => TakeSpares(w, id, key, receipt);
    case Settle(r, outcome, drift) => SettleSpares(w, r, outcome, drift, key, receipt);
    case Drop(r, drift) => DropSpares(w, r, drift, key, receipt);
    case Fire(t) => FireSpares(w, t, key, receipt);
    case _ =>
      OtherIsStill(w, step);
      hide Next;
      StillElsewhere(w, Next(w, step), step, key, receipt);
  }

  // ---------------------------------------------------------------------------------------------
  // Handle, timer, or neither

  /** In flight, never changed, and no unsettled handle left: nothing will bring it back. */
  predicate Forsaken(w: World, key: string, receipt: nat)
  {
    && receipt in Aloft(w.account, key) && Aloft(w.account, key)[receipt].generation == 0
    && !HasHandle(w.handles, key, receipt)
  }

  /** The drop of an unsettled handle whose change ends past the twelve hours. */
  predicate Abandons(w: World, step: Step, key: string, receipt: nat)
  {
    && step.Drop? && step.receipt == receipt && HasHandle(w.handles, key, receipt) && Timely(w, receipt, step.drift)
    && var left := LeftOver(w, receipt, step.drift).value;
       left > 0 && w.now - w.handles[receipt].received + left > V.WINDOW
  }

  /** `t` is the timer of this message that counts, and no other does. */
  ghost predicate OnlyCounting(a: Account, t: Timer, key: string, receipt: nat)
  {
    && t in a.timers && t.key == key && t.receipt == receipt && Counts(a, t)
    && forall u :: u in a.timers && u.key == key && u.receipt == receipt && Counts(a, u) ==> u == t
  }

  lemma CountsAlone(w: World, t: Timer)
    requires OneTimerEach(w.account.timers) && t in w.account.timers && Counts(w.account, t)
    ensures OnlyCounting(w.account, t, t.key, t.receipt)
  {
    hide Aloft;
    forall u | u in w.account.timers && u.key == t.key && u.receipt == t.receipt && Counts(w.account, u) ensures u == t {
      assert t == u.(due := t.due);
    }
  }

  /**
   * After every run, a message in flight has its unsettled handle and no timer, or is forsaken and
   * has no timer, or has no unsettled handle and exactly one timer that counts.
   */
  lemma ExactlyOneFuture(steps: seq<Step>, key: string, receipt: nat)
    requires Legal(Start(), steps)
    requires receipt in Aloft(After(Start(), steps).account, key)
    ensures var w := After(Start(), steps);
            if HasHandle(w.handles, key, receipt) || Forsaken(w, key, receipt) then
              forall t :: t in w.account.timers ==> !(t.key == key && t.receipt == receipt)
            else
              exists t :: OnlyCounting(w.account, t, key, receipt)
  {
    RunAccounted(steps);
    var w := After(Start(), steps);
    hide After, Legal, Aloft;
    assert Traced(w, key, receipt);
    if HasHandle(w.handles, key, receipt) || Forsaken(w, key, receipt) {
      assert receipt in w.handles ==> Live(w, receipt);
      NoTimersYet(w, key, receipt);
    } else {
      var generation := Aloft(w.account, key)[receipt].generation;
      var due :| Timer(key, receipt, generation, due) in w.account.timers;
      CountsAlone(w, Timer(key, receipt, generation, due));
    }
  }
}
