// FIFO over runs: a group in flight comes from one receive, and a receive takes each group from the
// front, in order, passing nothing over.
module Fifo {
  import opened Basics
  import opened Names
  import opened Account
  import opened World
  import Conservation
  import Futures
  import Groups
  import Ledger
  import V = Visibility

  // ---------------------------------------------------------------------------------------------
  // One scan

  /** Two messages that carry one message group. */
  predicate SameGroup(s: Stored, t: Stored)
  {
    s.outbound.fifo.Some? && t.outbound.fifo.Some? && s.outbound.fifo.value.group == t.outbound.fifo.value.group
  }

  /** What a scan hands over or moves comes from what it read, was free, and is not or is spent. */
  lemma {:induction false} ScanTakesFree(v: seq<Stored>, blocked: set<Text>, redrive: Option<DeadLetter>, max: nat)
    ensures var t := Scan(v, blocked, redrive, max);
            && (forall y :: y in t.handed ==>
                  Free(y, blocked) && exists s :: s in v && y == Counted(s) && !Spent(s, redrive))
            && (forall y :: y in t.spent ==> Free(y, blocked) && y in v && Spent(y, redrive))
            && (forall x :: x in t.left ==> x in v)
  {
    if max > 0 && v != [] {
      var s, rest := v[0], v[1..];
      var more := if Free(s, blocked) && !Spent(s, redrive) then max - 1 else max;
      ScanTakesFree(rest, blocked, redrive, more);
      assert v == [s] + rest;
    }
  }

  lemma HeadIsLeast(v: seq<Stored>)
    requires Ledger.Sorted(v) && v != []
    ensures Ledger.Sorted(v[1..]) && forall x :: x in v[1..] ==> v[0].id < x.id
  {
  }

  /** A scan hands over in order. */
  lemma {:induction false} ScanKeepsOrder(v: seq<Stored>, blocked: set<Text>, redrive: Option<DeadLetter>, max: nat)
    requires Ledger.Sorted(v)
    ensures Ledger.Sorted(Scan(v, blocked, redrive, max).handed) && Ledger.Sorted(Scan(v, blocked, redrive, max).spent)
  {
    if max > 0 && v != [] {
      var more := if Free(v[0], blocked) && !Spent(v[0], redrive) then max - 1 else max;
      HeadIsLeast(v);
      ScanKeepsOrder(v[1..], blocked, redrive, more);
      ScanTakesFree(v[1..], blocked, redrive, more);
      var t := Scan(v[1..], blocked, redrive, more);
      hide Free, Spent, Ledger.Sorted;
      LeastInFront(v[0], t.spent);
      assert Counted(v[0]).id == v[0].id;
      LeastInFront(Counted(v[0]), t.handed);
    }
  }

  lemma LeastInFront(s: Stored, v: seq<Stored>)
    requires Ledger.Sorted(v) && forall y :: y in v ==> s.id < y.id
    ensures Ledger.Sorted([s] + v)
  {
    assert forall i :: 0 <= i < |v| ==> v[i] in v;
  }

  /** No message a scan leaves is older than one of its group it takes. */
  ghost predicate NoneOvertaken(t: Taken)
  {
    forall x, y :: x in t.left && (y in t.handed || y in t.spent) && SameGroup(x, y) ==> y.id < x.id
  }

  lemma {:induction false} ScanOvertakesNone(v: seq<Stored>, blocked: set<Text>, redrive: Option<DeadLetter>, max: nat)
    requires Ledger.Sorted(v)
    ensures NoneOvertaken(Scan(v, blocked, redrive, max))
  {
    if max > 0 && v != [] {
      var s := v[0];
      var more := if Free(s, blocked) && !Spent(s, redrive) then max - 1 else max;
      HeadIsLeast(v);
      ScanOvertakesNone(v[1..], blocked, redrive, more);
      ScanTakesFree(v[1..], blocked, redrive, more);
    }
  }

  // ---------------------------------------------------------------------------------------------
  // What one receive takes, without the loop

  /** The messages of `v` a receive may hand over, counted; those it may only move; those it skips. */
  function Fresh(v: seq<Stored>, blocked: set<Text>, redrive: Option<DeadLetter>): seq<Stored>
  {
    if v == [] then []
    else (if Free(v[0], blocked) && !Spent(v[0], redrive) then [Counted(v[0])] else []) + Fresh(v[1..], blocked, redrive)
  }

  function UsedUpOf(v: seq<Stored>, blocked: set<Text>, redrive: Option<DeadLetter>): seq<Stored>
  {
    if v == [] then []
    else (if Free(v[0], blocked) && Spent(v[0], redrive) then [v[0]] else []) + UsedUpOf(v[1..], blocked, redrive)
  }

  function Skipped(v: seq<Stored>, blocked: set<Text>): seq<Stored>
  {
    if v == [] then [] else (if Free(v[0], blocked) then [] else [v[0]]) + Skipped(v[1..], blocked)
  }

  /** How many messages a receive reads: up to the `max`-th it may hand over, or all. */
  function Reach(v: seq<Stored>, blocked: set<Text>, redrive: Option<DeadLetter>, max: nat): (n: nat)
    ensures n <= |v|
  {
    if max == 0 || v == [] then 0
    else 1 + Reach(v[1..], blocked, redrive, if Free(v[0], blocked) && !Spent(v[0], redrive) then max - 1 else max)
  }

  /** The part of `v` a receive reads, one message more. */
  lemma OneRead(v: seq<Stored>, blocked: set<Text>, redrive: Option<DeadLetter>, max: nat, more: nat)
    requires max > 0 && v != []
    requires more == if Free(v[0], blocked) && !Spent(v[0], redrive) then max - 1 else max
    ensures var n, n' := Reach(v, blocked, redrive, max), Reach(v[1..], blocked, redrive, more);
            v[..n] != [] && v[..n][0] == v[0] && v[..n][1..] == v[1..][..n'] && v[n..] == v[1..][n'..]
  {
  }

  lemma {:induction false} HandsOverFresh(v: seq<Stored>, blocked: set<Text>, redrive: Option<DeadLetter>, max: nat)
    ensures Scan(v, blocked, redrive, max).handed == Fresh(v[..Reach(v, blocked, redrive, max)], blocked, redrive)
    ensures Scan(v, blocked, redrive, max).spent == UsedUpOf(v[..Reach(v, blocked, redrive, max)], blocked, redrive)
  {
    hide Free, Spent, Counted;
    if max > 0 && v != [] {
      var more := if Free(v[0], blocked) && !Spent(v[0], redrive) then max - 1 else max;
      HandsOverFresh(v[1..], blocked, redrive, more);
      OneRead(v, blocked, redrive, max, more);
      hide Reach;
    }
  }

  lemma {:induction false} LeavesTheRest(v: seq<Stored>, blocked: set<Text>, redrive: Option<DeadLetter>, max: nat)
    ensures var n := Reach(v, blocked, redrive, max);
            Scan(v, blocked, redrive, max).left == Skipped(v[..n], blocked) + v[n..]
  {
    hide Free, Spent, Counted;
    if max > 0 && v != [] {
      var more := if Free(v[0], blocked) && !Spent(v[0], redrive) then max - 1 else max;
      LeavesTheRest(v[1..], blocked, redrive, more);
      OneRead(v, blocked, redrive, max, more);
      var n, n' := Reach(v, blocked, redrive, max), Reach(v[1..], blocked, redrive, more);
      hide Reach;
      assert Skipped(v[..n], blocked) == (if Free(v[0], blocked) then [] else [v[0]]) + Skipped(v[1..][..n'], blocked);
      hide Skipped;
    }
  }

  /**
   * Of the front part of the queue it reads, a receive hands over what is free and not spent, moves
   * what is free and spent, and skips the blocked; behind it everything stays.
   */
  lemma ScanReadsAPrefix(v: seq<Stored>, blocked: set<Text>, redrive: Option<DeadLetter>, max: nat)
    ensures var n := Reach(v, blocked, redrive, max);
            Scan(v, blocked, redrive, max) ==
            Taken(Fresh(v[..n], blocked, redrive), UsedUpOf(v[..n], blocked, redrive), Skipped(v[..n], blocked) + v[n..])
  {
    hide *;
    HandsOverFresh(v, blocked, redrive, max);
    LeavesTheRest(v, blocked, redrive, max);
  }

  /** A receive stops reading only once it has `max` messages, and hands over all it can up to that. */
  lemma {:induction false} ReachesTheMaximum(v: seq<Stored>, blocked: set<Text>, redrive: Option<DeadLetter>, max: nat)
    ensures var t := Scan(v, blocked, redrive, max);
            && |t.handed| == Min(max, |Fresh(v, blocked, redrive)|)
            && (Reach(v, blocked, redrive, max) < |v| ==> |t.handed| == max)
  {
    if max > 0 && v != [] {
      ReachesTheMaximum(v[1..], blocked, redrive, if Free(v[0], blocked) && !Spent(v[0], redrive) then max - 1 else max);
    }
  }

  /** With nothing spent, a receive hands over as many messages as `receivable` counted. */
  lemma ReceivesWhatIsReceivable(a: Account, key: string, max: nat)
    requires forall s :: s in QueueOf(a, key).visible && Spent(s, QueueOf(a, key).redrive) ==>
               !Free(s, Blocked(QueueOf(a, key)))
    ensures |ScanOf(QueueOf(a, key), max).handed| == Receivable(a, key, max)
  {
    var q := QueueOf(a, key);
    ReachesTheMaximum(q.visible, Blocked(q), q.redrive, max);
    NoneUsedUp(q.visible, Blocked(q), q.redrive);
  }

  lemma {:induction false} NoneUsedUp(v: seq<Stored>, blocked: set<Text>, redrive: Option<DeadLetter>)
    requires forall s :: s in v && Spent(s, redrive) ==> !Free(s, blocked)
    ensures |Fresh(v, blocked, redrive)| == |FreeOf(v, blocked)|
  {
    if v != [] {
      NoneUsedUp(v[1..], blocked, redrive);
    }
  }

  // ---------------------------------------------------------------------------------------------
  // Exclusivity over runs

  /** Messages of one group in flight on one queue were received together. */
  ghost predicate Exclusive(w: World)
  {
    forall k, r, s :: r in QueueOf(w.account, k).inFlight && s in QueueOf(w.account, k).inFlight
      && SameGroup(QueueOf(w.account, k).inFlight[r].stored, QueueOf(w.account, k).inFlight[s].stored)
      ==> SameRound(w.roundOf, r, s)
  }

  predicate SameRound(roundOf: map<nat, nat>, r: nat, s: nat)
  {
    r in roundOf && s in roundOf && roundOf[r] == roundOf[s]
  }

  /** Nothing new is in flight. */
  ghost predicate FlightsWithin(a: Account, b: Account)
  {
    forall k, r :: r in QueueOf(b, k).inFlight ==>
      r in QueueOf(a, k).inFlight && QueueOf(b, k).inFlight[r].stored == QueueOf(a, k).inFlight[r].stored
  }

  lemma WithinKeepsExclusive(w: World, w': World)
    requires Exclusive(w) && FlightsWithin(w.account, w'.account) && w'.roundOf == w.roundOf
    ensures Exclusive(w')
  {
    hide QueueOf;
  }

  lemma {:induction false} TaggedAre(tags: map<nat, nat>, first: nat, count: nat, tag: nat)
    ensures forall r :: first <= r < first + count ==>
              r in Tagged(tags, first, count, tag) && Tagged(tags, first, count, tag)[r] == tag
    ensures forall r :: r < first ==> (r in Tagged(tags, first, count, tag) <==> r in tags)
                                      && (r in tags ==> Tagged(tags, first, count, tag)[r] == tags[r])
  {
    if count > 0 {
      TaggedAre(tags, first, count - 1, tag);
    }
  }

  /** A message handed over shares no group with one already in flight. */
  lemma HandedIsUnblocked(q: Queue, key: string, max: nat, y: Stored, r: nat)
    requires Groups.QueueOfKind(q, key) && r in q.inFlight
    requires y in ScanOf(q, max).handed || y in ScanOf(q, max).spent
    ensures !SameGroup(q.inFlight[r].stored, y)
  {
    hide Scan, IsFifo;
    ScanTakesFree(q.visible, Blocked(q), q.redrive, max);
    assert Groups.OfKind(q.inFlight[r].stored, key);
    if GroupOf(q.inFlight[r].stored).Some? {
      assert GroupOf(q.inFlight[r].stored).value in Blocked(q);
      assert Free(y, Blocked(q));
    }
  }

  lemma TakeKeepsExclusive(w: World, id: nat)
    requires Exclusive(w) && Groups.Kinds(w.account) && Ledger.Ordered(w.account) && id in w.readers
    ensures Exclusive(Took(w, id))
  {
    var w' := Took(w, id);
    forall k, r, s | r in QueueOf(w'.account, k).inFlight && s in QueueOf(w'.account, k).inFlight
      && SameGroup(QueueOf(w'.account, k).inFlight[r].stored, QueueOf(w'.account, k).inFlight[s].stored)
      ensures SameRound(w'.roundOf, r, s)
    {
      TakenTogether(w, id, k, r, s);
    }
  }

  lemma TakenTogether(w: World, id: nat, k: string, r: nat, s: nat)
    requires Exclusive(w) && Groups.Kinds(w.account) && Ledger.Ordered(w.account) && id in w.readers
    requires var q' := QueueOf(Took(w, id).account, k);
             r in q'.inFlight && s in q'.inFlight && SameGroup(q'.inFlight[r].stored, q'.inFlight[s].stored)
    ensures SameRound(Took(w, id).roundOf, r, s)
  {
    hide Scan, Flights, Receive, Tagged, HandedOver, NewHandles, IsFifo;
    var key, max, first := w.readers[id].queue, w.readers[id].max, w.account.nextId;
    var handed := TakenBy(w, id).handed;
    Futures.TakeFlights(w, id);
    Ledger.FlightsAre(handed, first, w.now);
    TaggedAre(w.roundOf, first, |handed|, w.rounds);
    var q := QueueOf(w.account, k);
    assert Groups.QueueOfKind(q, k);
    var news := Flights(handed, first, w.now);
    if k == key && r in news && s !in news {
      assert handed[r - first] in handed;
      HandedIsUnblocked(q, k, max, handed[r - first], s);
    } else if k == key && s in news && r !in news {
      assert handed[s - first] in handed;
      HandedIsUnblocked(q, k, max, handed[s - first], r);
    } else if k == key && r in news && s in news {
    } else {
      assert SameRound(w.roundOf, r, s);
    }
  }

  /** Every other step puts nothing new in flight. */
  lemma StepWithin(w: World, step: Step)
    requires Enabled(w, step) && !step.Take?
    ensures FlightsWithin(w.account, Next(w, step).account) && Next(w, step).roundOf == w.roundOf
  {
    RoundsKept(w, step);
    hide FlightsWithin, Futures.Still, Send, Publish, SetRedrive, Open, Close, Settled, Dropped, Looked, Lapse;
    match step
    case Settle(receipt, outcome, drift) => SettleWithin(w, receipt, outcome, drift);
    case Drop(receipt, drift) => DropWithin(w, receipt, drift);
    case Fire(t) => LapseWithin(w.account, t);
    case Take(_) =>
    case _ =>
      Futures.OtherIsStill(w, step);
      hide Next;
      StillWithin(w, Next(w, step));
  }

  lemma RoundsKept(w: World, step: Step)
    requires Enabled(w, step) && !step.Take?
    ensures Next(w, step).roundOf == w.roundOf && Next(w, step).rounds == w.rounds
  {
    hide Send, Publish, SetRedrive, Open, Close, Lapse;
  }

  lemma StillWithin(w: World, w': World)
    requires Futures.Still(w, w')
    ensures FlightsWithin(w.account, w'.account)
  {
    forall k ensures QueueOf(w'.account, k).inFlight == QueueOf(w.account, k).inFlight {
      assert Futures.Aloft(w'.account, k) == Futures.Aloft(w.account, k);
    }
  }

  lemma ReturnWithin(a: Account, key: string, receipt: nat)
    requires receipt in QueueOf(a, key).inFlight
    ensures FlightsWithin(a, Return(a, key, receipt))
  {
    hide Insert;
  }

  lemma ChangeWithin(a: Account, key: string, receipt: nat, visibility: nat, now: nat)
    ensures FlightsWithin(a, ChangeVisibility(a, key, receipt, visibility, now))
  {
    hide Return;
    if ChangeRefusal(a, key, receipt, visibility, now).None? && visibility == 0 {
      ReturnWithin(a, key, receipt);
    }
  }

  lemma LapseWithin(a: Account, t: Timer)
    ensures FlightsWithin(a, Lapse(a.(timers := a.timers - {t}), t.key, t.receipt, t.generation))
  {
    hide Return;
    var b := a.(timers := a.timers - {t});
    if t.receipt in QueueOf(b, t.key).inFlight {
      ReturnWithin(b, t.key, t.receipt);
    }
    assert FlightsWithin(a, b);
  }

  lemma SettleWithin(w: World, receipt: nat, outcome: Outcome, drift: nat)
    requires Enabled(w, Settle(receipt, outcome, drift))
    ensures FlightsWithin(w.account, Settled(w, receipt, outcome, drift).account)
  {
    hide ChangeVisibility, ChangeRefusal, V.RetrySeconds;
    var h := w.handles[receipt];
    match Asked(h, outcome, HeldFor(w, receipt, drift))
    case None =>
    case Some(visibility) => ChangeWithin(w.account, h.queue, receipt, visibility, w.now);
  }

  lemma DropWithin(w: World, receipt: nat, drift: nat)
    requires Enabled(w, Drop(receipt, drift))
    ensures FlightsWithin(w.account, Dropped(w, receipt, drift).account)
  {
    hide ChangeVisibility, LeftOver;
    var h := w.handles[receipt];
    var left := LeftOver(w, receipt, drift);
    if left.Some? {
      ChangeWithin(w.account, h.queue, receipt, left.value, w.now);
    }
  }

  /** The rounds noted so far are those of earlier receives. */
  predicate RoundsPast(w: World)
  {
    forall r :: r in w.roundOf ==> w.roundOf[r] < w.rounds && r < w.account.nextId
  }

  lemma TakeRounds(w: World, id: nat)
    requires RoundsPast(w) && Enabled(w, Take(id))
    ensures RoundsPast(Next(w, Take(id)))
    ensures var w' := Next(w, Take(id));
            && (forall r :: w.account.nextId <= r < w.account.nextId + |TakenBy(w, id).handed| ==>
                  r in w'.roundOf && w'.roundOf[r] == w.rounds)
            && (forall r :: r in w.roundOf ==> r in w'.roundOf && w'.roundOf[r] == w.roundOf[r] != w.rounds)
  {
    hide Scan, Receive, NewHandles, Tagged, HandedOver;
    TaggedAre(w.roundOf, w.account.nextId, |TakenBy(w, id).handed|, w.rounds);
    TaggedNoMore(w.roundOf, w.account.nextId, |TakenBy(w, id).handed|, w.rounds);
    Conservation.ReceiptsIssued(w.account, w.readers[id].queue, w.readers[id].max, w.now);
  }

  lemma {:induction false} TaggedNoMore(tags: map<nat, nat>, first: nat, count: nat, tag: nat)
    ensures forall r :: r in Tagged(tags, first, count, tag) ==> r in tags || first <= r < first + count
    ensures forall r :: r in Tagged(tags, first, count, tag) && !(first <= r < first + count) ==>
              Tagged(tags, first, count, tag)[r] == tags[r]
  {
    if count > 0 {
      TaggedNoMore(tags, first, count - 1, tag);
    }
  }

  /** After any run, a receive notes a round no earlier one noted, for everything it hands over. */
  lemma RoundIsOneReceive(steps: seq<Step>, id: nat)
    requires Legal(Start(), steps) && Enabled(After(Start(), steps), Take(id))
    ensures var w := After(Start(), steps);
            var w', first := Next(w, Take(id)), w.account.nextId;
            && (forall r, s :: first <= r < first + |TakenBy(w, id).handed| && s in w.roundOf ==>
                  !SameRound(w'.roundOf, r, s))
            && (forall r, s :: first <= r < first + |TakenBy(w, id).handed| && first <= s < first + |TakenBy(w, id).handed| ==>
                  SameRound(w'.roundOf, r, s))
  {
    hide Next, TakenBy;
    RoundsAreReceives(steps);
    TakeRounds(After(Start(), steps), id);
  }

  lemma {:induction false} RoundsAreReceives(steps: seq<Step>)
    requires Legal(Start(), steps)
    ensures RoundsPast(After(Start(), steps))
  {
    hide Next;
    if steps != [] {
      var before, last := steps[..|steps| - 1], steps[|steps| - 1];
      var w := After(Start(), before);
      RoundsAreReceives(before);
      if last.Take? {
        TakeRounds(w, last.id);
      } else {
        RoundsKept(w, last);
        Conservation.RunBalanced(before);
        Conservation.StepConserves(w, last);
        hide Conservation.Leaving, Conservation.Arriving, Ledger.Sound;
      }
    }
  }

  // ---------------------------------------------------------------------------------------------
  // The FIFO guarantees

  /** After every run, messages of one group in flight on one queue come from a single receive. */
  lemma {:induction false} GroupsInFlightTogether(steps: seq<Step>)
    requires Legal(Start(), steps)
    ensures Exclusive(After(Start(), steps))
  {
    hide Next, Exclusive;
    if steps == [] {
      NothingInFlight();
    } else {
      var before, last := steps[..|steps| - 1], steps[|steps| - 1];
      var w := After(Start(), before);
      GroupsInFlightTogether(before);
      if last.Take? {
        Groups.RunKeepsKinds(before);
        Conservation.RunBalanced(before);
        TakeKeepsExclusive(w, last.id);
        TakeStep(w, last.id);
      } else {
        StepWithin(w, last);
        WithinKeepsExclusive(w, Next(w, last));
      }
    }
  }

  lemma TakeStep(w: World, id: nat)
    requires Enabled(w, Take(id))
    ensures Next(w, Take(id)) == Took(w, id)
  {
  }

  lemma NothingInFlight()
    ensures Exclusive(Start())
  {
  }

  /**
   * What any receive after any run takes: in ascending order; of each group a front part of what
   * the queue shows, nothing older left behind; and of no group with a message still in flight.
   */
  lemma ReceiveTakesGroupsFromTheFront(steps: seq<Step>, id: nat)
    requires Legal(Start(), steps) && Enabled(After(Start(), steps), Take(id))
    ensures var w := After(Start(), steps);
            var q, t := QueueOf(w.account, w.readers[id].queue), TakenBy(w, id);
            && Ledger.Sorted(t.handed) && Ledger.Sorted(t.spent)
            && Ledger.IdBag(q.visible) == Ledger.IdBag(t.handed) + Ledger.IdBag(t.spent) + Ledger.IdBag(t.left)
            && NoneOvertaken(t)
            && (forall r, y :: r in q.inFlight && (y in t.handed || y in t.spent) ==>
                  !SameGroup(q.inFlight[r].stored, y))
  {
    hide Next, Scan, Ledger.IdBag, Ledger.Visible, Ledger.Flying, Groups.OfKind;
    Conservation.RunBalanced(steps);
    Groups.RunKeepsKinds(steps);
    var w := After(Start(), steps);
    var key, max := w.readers[id].queue, w.readers[id].max;
    var q := QueueOf(w.account, key);
    assert Ledger.Sorted(QueueOf(w.account, key).visible);
    ScanKeepsOrder(q.visible, Blocked(q), q.redrive, max);
    Ledger.ScanLedger(q.visible, Blocked(q), q.redrive, max);
    ScanOvertakesNone(q.visible, Blocked(q), q.redrive, max);
    assert Groups.QueueOfKind(q, key);
    forall r, y | r in q.inFlight && (y in TakenBy(w, id).handed || y in TakenBy(w, id).spent)
      ensures !SameGroup(q.inFlight[r].stored, y)
    {
      HandedIsUnblocked(q, key, max, y, r);
    }
  }
}
