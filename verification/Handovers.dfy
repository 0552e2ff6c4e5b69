// What a receive does, from the history alone: the policy in force is the one the last accepted call
// wrote, and how often each message was handed over decides whether it is handed over or moved.
module Handovers {
  import opened Basics
  import opened Names
  import opened Account
  import opened World
  import opened Frames
  import Conservation
  import Fifo
  import Groups
  import Ledger
  import Redrives
  import opened Runs

  // ---------------------------------------------------------------------------------------------
  // The policy in force

  /** A redrive policy the account takes: a queue it can name, a cap it allows, queues of one kind. */
  predicate Takeable(key: string, cap: nat, deadLetter: string)
  {
    QueueKey(deadLetter).Some? && cap <= 1_000 && IsFifo(key) == IsFifo(QueueKey(deadLetter).value)
  }

  predicate WritesPolicy(step: Step, key: string)
  {
    step.Redrive? && step.key == key && Takeable(key, step.cap, step.deadLetter)
  }

  /** The policy the last accepted call of a run wrote onto a queue. */
  function PolicyOf(steps: seq<Step>, key: string): Option<DeadLetter>
  {
    if steps == [] then None
    else
      var last := steps[|steps| - 1];
      if WritesPolicy(last, key) then Some(DeadLetter(last.cap, QueueKey(last.deadLetter).value))
      else PolicyOf(steps[..|steps| - 1], key)
  }

  ghost predicate SamePolicies(a: Account, b: Account)
  {
    forall k :: QueueOf(b, k).redrive == QueueOf(a, k).redrive
  }

  lemma RedriveRefusedExactly(key: string, cap: nat, deadLetter: string)
    ensures RedriveRefusal(key, cap, deadLetter).None? <==> Takeable(key, cap, deadLetter)
  {
    hide QueueKey, IsFifo;
  }

  lemma SetRedriveWrites(a: Account, key: string, cap: nat, deadLetter: string, k: string)
    ensures QueueOf(SetRedrive(a, key, cap, deadLetter), k).redrive
         == if k == key && Takeable(key, cap, deadLetter) then Some(DeadLetter(cap, QueueKey(deadLetter).value))
            else QueueOf(a, k).redrive
  {
    hide QueueKey, IsFifo;
    RedriveRefusedExactly(key, cap, deadLetter);
  }

  lemma FedKeepsPolicies(a: Account, b: Account)
    requires Fed(a, b)
    ensures SamePolicies(a, b)
  {
    hide QueueOf;
    forall k ensures QueueOf(b, k).redrive == QueueOf(a, k).redrive {
      assert QueueFed(QueueOf(a, k), QueueOf(b, k));
    }
  }

  lemma TakeKeepsPolicies(w: World, id: nat)
    requires id in w.readers
    ensures SamePolicies(w.account, Took(w, id).account)
  {
    hide Scan, Flights, MoveSpent, NewHandles, Tagged, HandedOver, Fed;
    var key, max := w.readers[id].queue, w.readers[id].max;
    var q := QueueOf(w.account, key);
    if q.redrive.Some? {
      var loop := Ledger.AfterLoop(w.account, key, max, w.now);
      MoveSpentFeeds(loop, q.redrive.value.queue, TakenBy(w, id).spent);
      FedKeepsPolicies(loop, MoveSpent(loop, q.redrive.value.queue, TakenBy(w, id).spent));
    }
  }

  lemma ChangeKeepsPolicies(a: Account, key: string, receipt: nat, visibility: nat, now: nat)
    ensures SamePolicies(a, ChangeVisibility(a, key, receipt, visibility, now))
  {
    hide Insert, ChangeRefusal;
    if ChangeRefusal(a, key, receipt, visibility, now).None? {
      assert receipt in QueueOf(a, key).inFlight by {
        GrantedIsAloft(a, key, receipt, visibility, now);
      }
    }
  }

  lemma GrantedIsAloft(a: Account, key: string, receipt: nat, visibility: nat, now: nat)
    requires ChangeRefusal(a, key, receipt, visibility, now).None?
    ensures receipt in QueueOf(a, key).inFlight
  {
  }

  lemma SettleKeepsPolicies(w: World, receipt: nat, outcome: Outcome, drift: nat)
    requires Timely(w, receipt, drift)
    ensures SamePolicies(w.account, Settled(w, receipt, outcome, drift).account)
  {
    hide ChangeVisibility, ChangeRefusal, Asked;
    var h := w.handles[receipt];
    match Asked(h, outcome, HeldFor(w, receipt, drift))
    case None =>
    case Some(visibility) => ChangeKeepsPolicies(w.account, h.queue, receipt, visibility, w.now);
  }

  lemma DropKeepsPolicies(w: World, receipt: nat, drift: nat)
    requires Timely(w, receipt, drift)
    ensures SamePolicies(w.account, Dropped(w, receipt, drift).account)
  {
    hide ChangeVisibility, LeftOver;
    var left := LeftOver(w, receipt, drift);
    if left.Some? {
      ChangeKeepsPolicies(w.account, w.handles[receipt].queue, receipt, left.value, w.now);
    }
  }

  lemma LapseKeepsPolicies(a: Account, t: Timer)
    ensures SamePolicies(a, Lapse(a.(timers := a.timers - {t}), t.key, t.receipt, t.generation))
  {
    hide Insert;
  }

  lemma CountKeepsPolicies(a: Account, key: string)
    ensures SamePolicies(a, Open(a, key)) && SamePolicies(a, Close(a, key))
  {
  }

  lemma LookKeepsPolicies(w: World, id: nat)
    requires Enabled(w, Look(id))
    ensures SamePolicies(w.account, Looked(w, id).account)
  {
    hide Receivable;
  }

  lemma SameQueuesSamePolicies(a: Account, b: Account)
    requires b.queues == a.queues
    ensures SamePolicies(a, b)
  {
  }

  /** Only an accepted redrive call changes a policy. */
  lemma StepKeepsPolicies(w: World, step: Step)
    requires Enabled(w, step) && !step.Redrive?
    ensures SamePolicies(w.account, Next(w, step).account)
  {
    hide Send, Publish, SetRedrive, Open, Close, Settled, Dropped, Took, Looked, Lapse, Fed, SamePolicies;
    match step
    case SendTo(key, outbound) =>
      SendFeeds(w.account, key, outbound, w.now);
      FedKeepsPolicies(w.account, Next(w, step).account);
    case PublishTo(topic, outbound) =>
      PublishFeeds(w.account, topic, outbound, w.now);
      FedKeepsPolicies(w.account, Next(w, step).account);
    case Redrive(_, _, _) =>
    case OpenReader(id, r) => CountKeepsPolicies(w.account, r.queue);
    case CloseReader(id) => CountKeepsPolicies(w.account, w.readers[id].queue);
    case Look(id) => LookKeepsPolicies(w, id);
    case Take(id) => TakeKeepsPolicies(w, id);
    case Settle(receipt, outcome, drift) => SettleKeepsPolicies(w, receipt, outcome, drift);
    case Drop(receipt, drift) => DropKeepsPolicies(w, receipt, drift);
    case Fire(t) => LapseKeepsPolicies(w.account, t);
    case Link(topic, queue) => SameQueuesSamePolicies(w.account, SubscribeTopic(w.account, topic, queue));
    case _ => SameQueuesSamePolicies(w.account, w.account);
  }

  /** After every run, each queue is under the policy the last accepted call wrote onto it. */
  lemma {:induction false} PolicyInForce(steps: seq<Step>, key: string)
    requires Legal(Start(), steps)
    ensures QueueOf(After(Start(), steps).account, key).redrive == PolicyOf(steps, key)
  {
    hide Takeable;
    if steps != [] {
      var before, last := steps[..|steps| - 1], steps[|steps| - 1];
      var w := After(Start(), before);
      PolicyInForce(before, key);
      if last.Redrive? {
        SetRedriveWrites(w.account, last.key, last.cap, last.deadLetter, key);
        hide SetRedrive;
      } else {
        StepKeepsPolicies(w, last);
        hide Next;
      }
    }
  }

  // ---------------------------------------------------------------------------------------------
  // What a receive may hand over and what it must move

  /** No message of its group is in flight on the queue. */
  predicate AtRest(q: Queue, s: Stored)
  {
    forall r :: r in q.inFlight ==> !Fifo.SameGroup(q.inFlight[r].stored, s)
  }

  /** A message a receive may hand over: its group at rest, and handed over fewer times than the cap. */
  predicate MayHand(q: Queue, policy: Option<DeadLetter>, handovers: map<nat, nat>, s: Stored)
  {
    AtRest(q, s) && (policy.Some? ==> HandoversOf(handovers, s.id) < policy.value.cap)
  }

  /** A message a receive may only move: handed over as often as the cap, or more. */
  predicate MustMove(q: Queue, policy: Option<DeadLetter>, handovers: map<nat, nat>, s: Stored)
  {
    AtRest(q, s) && policy.Some? && HandoversOf(handovers, s.id) >= policy.value.cap
  }

  /** The messages of `v` a receive may hand over, in order. */
  function Handable(q: Queue, policy: Option<DeadLetter>, handovers: map<nat, nat>, v: seq<Stored>): seq<Stored>
  {
    if v == [] then []
    else (if MayHand(q, policy, handovers, v[0]) then [v[0]] else []) + Handable(q, policy, handovers, v[1..])
  }

  /** A message handed over once more: it carries the number of times, as a 32-bit count. */
  function OnceMore(handovers: map<nat, nat>, s: Stored): Stored
  {
    s.(receives := Min(HandoversOf(handovers, s.id) + 1, U32_MAX))
  }

  /** The queue reads each message of `v` as the history does. */
  ghost predicate ReadAlike(q: Queue, handovers: map<nat, nat>, v: seq<Stored>)
  {
    forall i :: 0 <= i < |v| ==>
      && (Free(v[i], Blocked(q)) <==> AtRest(q, v[i]))
      && (Free(v[i], Blocked(q)) && !Spent(v[i], q.redrive) <==> MayHand(q, q.redrive, handovers, v[i]))
      && (Free(v[i], Blocked(q)) && Spent(v[i], q.redrive) <==> MustMove(q, q.redrive, handovers, v[i]))
      && Counted(v[i]) == OnceMore(handovers, v[i])
  }

  lemma FreeIsAtRest(q: Queue, key: string, s: Stored)
    requires Groups.QueueOfKind(q, key) && Groups.OfKind(s, key)
    ensures Free(s, Blocked(q)) <==> AtRest(q, s)
  {
    hide IsFifo;
    if q.fifo {
      forall r | r in q.inFlight
        ensures Fifo.SameGroup(q.inFlight[r].stored, s) <==> GroupOf(q.inFlight[r].stored) == GroupOf(s)
      {
        assert Groups.OfKind(q.inFlight[r].stored, key);
      }
    }
  }

  lemma CountIsHistory(q: Queue, key: string, handovers: map<nat, nat>, s: Stored)
    requires Groups.QueueOfKind(q, key) && Redrives.TimesHanded(handovers)(s)
    ensures q.redrive.Some? ==> (Spent(s, q.redrive) <==> HandoversOf(handovers, s.id) >= q.redrive.value.cap)
    ensures Counted(s) == OnceMore(handovers, s)
  {
    hide IsFifo;
  }

  /** In every reachable state, what a queue shows is read as the history does. */
  lemma RunReadsAlike(steps: seq<Step>, key: string)
    requires Legal(Start(), steps)
    ensures var w := After(Start(), steps);
            ReadAlike(QueueOf(w.account, key), w.handovers, QueueOf(w.account, key).visible)
  {
    hide Next, Blocked, Free, AtRest, Spent, Counted, OnceMore;
    var w := After(Start(), steps);
    var q := QueueOf(w.account, key);
    Redrives.RunTallies(steps);
    Groups.RunKeepsKinds(steps);
    assert Groups.QueueOfKind(q, key);
    assert Redrives.Throughout(q, Redrives.TimesHanded(w.handovers));
    forall i | 0 <= i < |q.visible|
      ensures Free(q.visible[i], Blocked(q)) <==> AtRest(q, q.visible[i])
      ensures q.redrive.Some? ==>
                (Spent(q.visible[i], q.redrive) <==> HandoversOf(w.handovers, q.visible[i].id) >= q.redrive.value.cap)
      ensures q.redrive.None? ==> !Spent(q.visible[i], q.redrive)
      ensures Counted(q.visible[i]) == OnceMore(w.handovers, q.visible[i])
    {
      assert Groups.OfKind(q.visible[i], key) && Redrives.TimesHanded(w.handovers)(q.visible[i]);
      FreeIsAtRest(q, key, q.visible[i]);
      CountIsHistory(q, key, w.handovers, q.visible[i]);
      NoPolicyNotSpent(q.visible[i]);
    }
  }

  lemma NoPolicyNotSpent(s: Stored)
    ensures !Spent(s, None)
  {
  }

  lemma ReadAlikeRest(q: Queue, handovers: map<nat, nat>, v: seq<Stored>)
    requires ReadAlike(q, handovers, v) && v != []
    ensures ReadAlike(q, handovers, v[1..])
  {
    hide Free, Blocked, AtRest, Spent, MayHand, MustMove, Counted, OnceMore;
  }

  /** The first `max` of the messages, each handed over once more. */
  predicate FirstOnceMore(handovers: map<nat, nat>, handable: seq<Stored>, max: nat, handed: seq<Stored>)
  {
    && |handed| == Min(max, |handable|)
    && forall i :: 0 <= i < |handed| ==> handed[i] == OnceMore(handovers, handable[i])
  }

  lemma OneMoreInFront(handovers: map<nat, nat>, handable: seq<Stored>, max: nat, handed: seq<Stored>, s: Stored)
    requires max > 0 && FirstOnceMore(handovers, handable, max - 1, handed)
    ensures FirstOnceMore(handovers, [s] + handable, max, [OnceMore(handovers, s)] + handed)
  {
    hide OnceMore;
  }

  /** A scan and the messages it may hand over, from the first message on. */
  lemma ScanHead(q: Queue, handovers: map<nat, nat>, v: seq<Stored>, max: nat, more: nat)
    requires ReadAlike(q, handovers, v) && max > 0 && v != []
    requires more == if MayHand(q, q.redrive, handovers, v[0]) then max - 1 else max
    ensures var t, rest := Scan(v, Blocked(q), q.redrive, max), Scan(v[1..], Blocked(q), q.redrive, more);
            t.handed == (if MayHand(q, q.redrive, handovers, v[0]) then [OnceMore(handovers, v[0])] else []) + rest.handed
    ensures var all, rest := Handable(q, q.redrive, handovers, v), Handable(q, q.redrive, handovers, v[1..]);
            all == (if MayHand(q, q.redrive, handovers, v[0]) then [v[0]] else []) + rest
  {
    hide Free, Blocked, AtRest, Spent, MayHand, MustMove, Counted, OnceMore;
  }

  /** A scan hands over the first `max` messages it may, in order. */
  lemma {:induction false} ScanHandsOver(q: Queue, handovers: map<nat, nat>, v: seq<Stored>, max: nat)
    requires ReadAlike(q, handovers, v)
    ensures FirstOnceMore(handovers, Handable(q, q.redrive, handovers, v), max, Scan(v, Blocked(q), q.redrive, max).handed)
  {
    hide ReadAlike, Blocked, MayHand, OnceMore;
    if max > 0 && v != [] {
      hide Scan, Handable, FirstOnceMore;
      var more := if MayHand(q, q.redrive, handovers, v[0]) then max - 1 else max;
      ReadAlikeRest(q, handovers, v);
      ScanHandsOver(q, handovers, v[1..], more);
      ScanHead(q, handovers, v, max, more);
      var rest := Scan(v[1..], Blocked(q), q.redrive, more).handed;
      if MayHand(q, q.redrive, handovers, v[0]) {
        OneMoreInFront(handovers, Handable(q, q.redrive, handovers, v[1..]), max, rest, v[0]);
      } else {
        assert [] + rest == rest && [] + Handable(q, q.redrive, handovers, v[1..]) == Handable(q, q.redrive, handovers, v[1..]);
      }
    }
  }

  /** Where a scan puts one message: handed over in its turn, moved, or left. */
  predicate Placed(
    q: Queue, policy: Option<DeadLetter>, handovers: map<nat, nat>, v: seq<Stored>, i: nat, max: nat, t: Taken)
    requires i < |v|
  {
    var m, ahead := v[i], |Handable(q, policy, handovers, v[..i])|;
    && (MayHand(q, policy, handovers, m) && ahead < max ==> ahead < |t.handed| && t.handed[ahead] == OnceMore(handovers, m))
    && (m in t.spent <==> MustMove(q, policy, handovers, m) && ahead < max)
    && (m in t.left <==> !AtRest(q, m) || ahead >= max)
  }

  lemma NotBehind(v: seq<Stored>, blocked: set<Text>, redrive: Option<DeadLetter>, max: nat)
    requires Ledger.Sorted(v) && v != []
    ensures var t := Scan(v[1..], blocked, redrive, max);
            v[0] !in t.spent && v[0] !in t.left && v[0] !in v[1..]
  {
    hide Free, Spent, Counted;
    Fifo.HeadIsLeast(v);
    Fifo.ScanTakesFree(v[1..], blocked, redrive, max);
  }

  lemma HeadPlaced(q: Queue, handovers: map<nat, nat>, v: seq<Stored>, max: nat)
    requires ReadAlike(q, handovers, v) && Ledger.Sorted(v) && v != []
    ensures Placed(q, q.redrive, handovers, v, 0, max, Scan(v, Blocked(q), q.redrive, max))
  {
    hide Free, Blocked, AtRest, Spent, Counted, OnceMore, Ledger.Sorted;
    assert v[0] in v;
    if max > 0 {
      NotBehind(v, Blocked(q), q.redrive, if Free(v[0], Blocked(q)) && !Spent(v[0], q.redrive) then max - 1 else max);
    }
  }

  /** One message more in front: the rest is placed by the rest of the scan. */
  lemma BehindHead(q: Queue, handovers: map<nat, nat>, v: seq<Stored>, i: nat, max: nat, more: nat)
    requires ReadAlike(q, handovers, v) && Ledger.Sorted(v) && 0 < i < |v| && max > 0
    requires more == if Free(v[0], Blocked(q)) && !Spent(v[0], q.redrive) then max - 1 else max
    requires Placed(q, q.redrive, handovers, v[1..], i - 1, more, Scan(v[1..], Blocked(q), q.redrive, more))
    ensures Placed(q, q.redrive, handovers, v, i, max, Scan(v, Blocked(q), q.redrive, max))
  {
    hide Free, Blocked, AtRest, Spent, Counted, OnceMore, MayHand, MustMove;
    assert v[..i][0] == v[0] && v[..i][1..] == v[1..][..i - 1];
    assert v[i] != v[0] && v[1..][i - 1] == v[i];
    hide Ledger.Sorted;
  }

  lemma {:induction false} ScanPlaces(q: Queue, handovers: map<nat, nat>, v: seq<Stored>, i: nat, max: nat)
    requires ReadAlike(q, handovers, v) && Ledger.Sorted(v) && i < |v|
    ensures Placed(q, q.redrive, handovers, v, i, max, Scan(v, Blocked(q), q.redrive, max))
  {
    if i == 0 {
      HeadPlaced(q, handovers, v, max);
    } else if max == 0 {
      hide Free, Blocked, AtRest, Spent, Counted, OnceMore;
      assert v[i] in v;
    } else {
      var more := if Free(v[0], Blocked(q)) && !Spent(v[0], q.redrive) then max - 1 else max;
      ReadAlikeRest(q, handovers, v);
      Fifo.HeadIsLeast(v);
      hide ReadAlike, Placed, Scan, Free, Blocked, Spent;
      ScanPlaces(q, handovers, v[1..], i - 1, more);
      BehindHead(q, handovers, v, i, max, more);
    }
  }

  // ---------------------------------------------------------------------------------------------
  // One receive after any run

  /**
   * After any run, a receive hands over the first `max` of the messages whose group is at rest and
   * which were handed over fewer times than the cap last set allows, each carrying its new number.
   */
  lemma HandsOverExactly(steps: seq<Step>, id: nat)
    requires Legal(Start(), steps) && Enabled(After(Start(), steps), Take(id))
    ensures var w := After(Start(), steps);
            var key, handed := w.readers[id].queue, TakenBy(w, id).handed;
            var q := QueueOf(w.account, key);
            var handable := Handable(q, PolicyOf(steps, key), w.handovers, q.visible);
            && |handed| == Min(w.readers[id].max, |handable|)
            && forall i :: 0 <= i < |handed| ==> handed[i] == OnceMore(w.handovers, handable[i])
  {
    hide Next, Scan, ReadAlike, Handable, OnceMore, Legal, After, AtRest, MayHand;
    var w := After(Start(), steps);
    var key := w.readers[id].queue;
    var q := QueueOf(w.account, key);
    PolicyInForce(steps, key);
    RunReadsAlike(steps, key);
    ScanHandsOver(q, w.handovers, q.visible, w.readers[id].max);
  }

  predicate InFlightAs(a: Account, key: string, receipt: nat, s: Stored)
  {
    receipt in QueueOf(a, key).inFlight && QueueOf(a, key).inFlight[receipt].stored == s
  }

  predicate Shows(a: Account, key: string, s: Stored) { s in QueueOf(a, key).visible }

  /** What becomes of a message, one that may be handed over in its turn and its receipt known. */
  ghost predicate Decided(w: World, id: nat, policy: Option<DeadLetter>, m: Stored, ahead: nat)
    requires Enabled(w, Take(id))
  {
    var key, max, w' := w.readers[id].queue, w.readers[id].max, Next(w, Take(id));
    var q := QueueOf(w.account, key);
    && (MayHand(q, policy, w.handovers, m) && ahead < max ==>
          InFlightAs(w'.account, key, w.account.nextId + ahead, OnceMore(w.handovers, m)))
    && (m in TakenBy(w, id).spent <==> MustMove(q, policy, w.handovers, m) && ahead < max)
    && (MustMove(q, policy, w.handovers, m) && ahead < max && QueueOf(w.account, policy.value.queue).subscriptions > 0 ==>
          Shows(w'.account, policy.value.queue, m))
    && (!AtRest(q, m) || ahead >= max ==> Shows(w'.account, key, m))
  }

  /**
   * After any run, a receive decides what becomes of each visible message: with its group at rest and
   * fewer than `max` it may hand over ahead of it, it is handed over in its turn and is in flight, or,
   * handed over as often as the cap already, moved and shown on the dead-letter queue where somebody
   * reads that; otherwise it stays visible where it was.
   */
  lemma ReceiveDecides(steps: seq<Step>, id: nat, i: nat)
    requires Legal(Start(), steps) && Enabled(After(Start(), steps), Take(id))
    requires i < |QueueOf(After(Start(), steps).account, After(Start(), steps).readers[id].queue).visible|
    ensures var w := After(Start(), steps);
            var q, policy := QueueOf(w.account, w.readers[id].queue), PolicyOf(steps, w.readers[id].queue);
            Decided(w, id, policy, q.visible[i], |Handable(q, policy, w.handovers, q.visible[..i])|)
  {
    var w := After(Start(), steps);
    Conservation.RunBalanced(steps);
    PolicyInForce(steps, w.readers[id].queue);
    RunReadsAlike(steps, w.readers[id].queue);
    ShownInOrder(w, w.readers[id].queue);
    hide Legal, After, Next, Decided, Handable, ReadAlike, Ledger.Sorted, Conservation.Balanced, PolicyOf;
    TakePlaces(w, id, i);
  }

  lemma ShownInOrder(w: World, key: string)
    requires Conservation.Balanced(w)
    ensures Ledger.Sorted(QueueOf(w.account, key).visible)
  {
    hide Ledger.Visible, Ledger.Flying;
  }

  lemma {:induction false} MoveSpentElsewhere(a: Account, target: string, spent: seq<Stored>, key: string)
    requires key != target || QueueOf(a, target).subscriptions == 0
    ensures QueueOf(MoveSpent(a, target, spent), key).visible == QueueOf(a, key).visible
    decreases |spent|
  {
    hide Insert;
    if spent != [] {
      MoveSpentElsewhere(Enqueue(a.(consumed := a.consumed + 1), target, spent[0]), target, spent[1..], key);
    }
  }

  lemma TakenIsScan(w: World, id: nat)
    requires id in w.readers
    ensures var q := QueueOf(w.account, w.readers[id].queue);
            TakenBy(w, id) == Scan(q.visible, Blocked(q), q.redrive, w.readers[id].max)
  {
  }

  /** What a scan takes, in the world after the receive. */
  lemma TakePlaces(w: World, id: nat, i: nat)
    requires Conservation.Balanced(w) && Enabled(w, Take(id)) && i < |QueueOf(w.account, w.readers[id].queue).visible|
    requires var q := QueueOf(w.account, w.readers[id].queue);
             ReadAlike(q, w.handovers, q.visible) && Ledger.Sorted(q.visible)
    ensures var q := QueueOf(w.account, w.readers[id].queue);
            Decided(w, id, q.redrive, q.visible[i], |Handable(q, q.redrive, w.handovers, q.visible[..i])|)
  {
    var q := QueueOf(w.account, w.readers[id].queue);
    TakenIsScan(w, id);
    hide Next, Scan, ReadAlike, Handable, OnceMore, MayHand, MustMove, AtRest, Conservation.Balanced, TakenBy,
      Ledger.Sorted, QueueOf, Blocked, Decided;
    ScanPlaces(q, w.handovers, q.visible, i, w.readers[id].max);
    DecidedBy(w, id, q, q.visible[i], |Handable(q, q.redrive, w.handovers, q.visible[..i])|);
  }

  lemma DecidedBy(w: World, id: nat, q: Queue, m: Stored, ahead: nat)
    requires Conservation.Balanced(w) && Enabled(w, Take(id)) && id in w.readers
    requires q == QueueOf(w.account, w.readers[id].queue)
    requires var t, max := TakenBy(w, id), w.readers[id].max;
             && (MayHand(q, q.redrive, w.handovers, m) && ahead < max ==>
                   ahead < |t.handed| && t.handed[ahead] == OnceMore(w.handovers, m))
             && (m in t.spent <==> MustMove(q, q.redrive, w.handovers, m) && ahead < max)
             && (m in t.left <==> !AtRest(q, m) || ahead >= max)
    ensures Decided(w, id, q.redrive, m, ahead)
  {
    hide Next, Enabled, Scan, OnceMore, MayHand, AtRest, Conservation.Balanced, Took, TakenBy, QueueOf, InFlightAs, Shows;
    var t := TakenBy(w, id);
    Fifo.TakeStep(w, id);
    if MayHand(q, q.redrive, w.handovers, m) && ahead < w.readers[id].max {
      TurnFlies(w, id, ahead);
    }
    if m in t.spent {
      SpentIsShown(w, id, m);
    }
    if m in t.left {
      LeftIsShown(w, id, m);
    }
  }

  lemma TurnFlies(w: World, id: nat, i: nat)
    requires id in w.readers && i < |TakenBy(w, id).handed|
    ensures InFlightAs(Took(w, id).account, w.readers[id].queue, w.account.nextId + i, TakenBy(w, id).handed[i])
  {
    hide Took, TakenBy;
    Redrives.HandedFlies(w, id, i);
  }

  lemma SpentIsShown(w: World, id: nat, m: Stored)
    requires Conservation.Balanced(w) && Enabled(w, Take(id)) && m in TakenBy(w, id).spent
    ensures var q := QueueOf(w.account, w.readers[id].queue);
            q.redrive.Some? && QueueOf(w.account, q.redrive.value.queue).subscriptions > 0 ==>
              Shows(Took(w, id).account, q.redrive.value.queue, m)
  {
    hide Scan, Flights, MoveSpent, Ledger.Visible, Ledger.Flying, NewHandles, Tagged, HandedOver;
    var key, max := w.readers[id].queue, w.readers[id].max;
    var q := QueueOf(w.account, key);
    Fifo.ScanKeepsOrder(q.visible, Blocked(q), q.redrive, max);
    if q.redrive.Some? && QueueOf(w.account, q.redrive.value.queue).subscriptions > 0 {
      Redrives.MoveSpentShows(Ledger.AfterLoop(w.account, key, max, w.now), q.redrive.value.queue, TakenBy(w, id).spent, m);
    }
  }

  lemma LeftIsShown(w: World, id: nat, m: Stored)
    requires Conservation.Balanced(w) && Enabled(w, Take(id)) && m in TakenBy(w, id).left
    ensures Shows(Took(w, id).account, w.readers[id].queue, m)
  {
    hide Scan, Flights, MoveSpent, Ledger.Visible, Ledger.Flying, NewHandles, Tagged, HandedOver, Ledger.IdBag;
    var key, max := w.readers[id].queue, w.readers[id].max;
    var q, t := QueueOf(w.account, key), TakenBy(w, id);
    var loop := Ledger.AfterLoop(w.account, key, max, w.now);
    if q.redrive.Some? {
      var target := q.redrive.value.queue;
      if key != target || QueueOf(loop, target).subscriptions == 0 {
        MoveSpentElsewhere(loop, target, t.spent, key);
      } else {
        Fifo.ScanKeepsOrder(q.visible, Blocked(q), q.redrive, max);
        Ledger.ScanLedger(q.visible, Blocked(q), q.redrive, max);
        Apart(q.visible, t.spent, t.left, Ledger.IdBag(t.handed), m);
        Redrives.MoveSpentShows(loop, target, t.spent, m);
      }
    }
  }

  /** What is left and what is moved are different messages. */
  lemma Apart(v: seq<Stored>, spent: seq<Stored>, left: seq<Stored>, rest: multiset<nat>, m: Stored)
    requires Ledger.Sorted(v) && Ledger.IdBag(v) == rest + Ledger.IdBag(spent) + Ledger.IdBag(left) && m in left
    ensures forall s :: s in spent ==> s.id != m.id
  {
    forall s | s in spent ensures s.id != m.id {
      var i :| 0 <= i < |spent| && spent[i] == s;
      var j :| 0 <= j < |left| && left[j] == m;
      Ledger.IdBagMember(spent, i);
      Ledger.IdBagMember(left, j);
      OnceInOrder(v, m.id);
    }
  }

  lemma {:induction false} OnceInOrder(v: seq<Stored>, id: nat)
    requires Ledger.Sorted(v)
    ensures Ledger.IdBag(v)[id] <= 1
  {
    if v != [] {
      Fifo.HeadIsLeast(v);
      OnceInOrder(v[1..], id);
      assert v == [v[0]] + v[1..];
      Ledger.IdBagCons(v[0], v[1..]);
      if id in Ledger.IdBag(v[1..]) {
        var i := Ledger.IdBagPosition(v[1..], id);
      }
    }
  }

  /**
   * A redrive call the account takes governs its queue until the next one it takes: a receive from
   * the queue hands a message over only for an n-th time with n within that cap, moves only what was
   * handed over that often, and shows it on the dead-letter queue that call named.
   */
  lemma RedriveGoverns(
    steps: seq<Step>, key: string, cap: nat, deadLetter: string, more: seq<Step>, id: nat)
    requires Legal(Start(), steps) && Takeable(key, cap, deadLetter)
    requires Legal(Next(After(Start(), steps), Redrive(key, cap, deadLetter)), more)
    requires forall i :: 0 <= i < |more| ==> !WritesPolicy(more[i], key)
    requires var v := After(Next(After(Start(), steps), Redrive(key, cap, deadLetter)), more);
             Enabled(v, Take(id)) && v.readers[id].queue == key
    ensures var v := After(Next(After(Start(), steps), Redrive(key, cap, deadLetter)), more);
            var target := QueueKey(deadLetter).value;
            && QueueOf(v.account, key).redrive == Some(DeadLetter(cap, target))
            && (forall y :: y in TakenBy(v, id).handed ==> HandoversOf(v.handovers, y.id) + 1 <= cap)
            && (forall m :: m in TakenBy(v, id).spent ==>
                  && HandoversOf(v.handovers, m.id) >= cap
                  && (QueueOf(v.account, target).subscriptions > 0 ==>
                        Shows(Next(v, Take(id)).account, target, m)))
  {
    var call := Redrive(key, cap, deadLetter);
    var w := After(Start(), steps);
    var run := steps + [call] + more;
    CallThen(steps, call, more);
    var v := After(Next(w, call), more);
    PolicyStays(steps, call, more, key);
    hide *;
    PolicyInForce(run, key);
    TakenFromHistory(run, id);
  }

  lemma {:induction false} PolicyStays(steps: seq<Step>, call: Step, more: seq<Step>, key: string)
    requires WritesPolicy(call, key) && forall i :: 0 <= i < |more| ==> !WritesPolicy(more[i], key)
    ensures PolicyOf(steps + [call] + more, key) == Some(DeadLetter(call.cap, QueueKey(call.deadLetter).value))
  {
    hide QueueKey, Takeable;
    if more == [] {
      assert steps + [call] + more == steps + [call];
    } else {
      PolicyStays(steps, call, more[..|more| - 1], key);
      assert (steps + [call] + more)[..|steps + [call] + more| - 1] == steps + [call] + more[..|more| - 1];
    }
  }

  /** What any receive after a run hands over and moves, by the policy of the run. */
  lemma TakenFromHistory(steps: seq<Step>, id: nat)
    requires Legal(Start(), steps) && Enabled(After(Start(), steps), Take(id))
    ensures var w := After(Start(), steps);
            var policy, t := PolicyOf(steps, w.readers[id].queue), TakenBy(w, id);
            && (policy.Some? ==> forall y :: y in t.handed ==> HandoversOf(w.handovers, y.id) + 1 <= policy.value.cap)
            && (forall m :: m in t.spent ==>
                  && policy.Some? && HandoversOf(w.handovers, m.id) >= policy.value.cap
                  && (QueueOf(w.account, policy.value.queue).subscriptions > 0 ==>
                        Shows(Next(w, Take(id)).account, policy.value.queue, m)))
  {
    hide Next, Legal, After, Scan, Handable, AtRest, Free, Blocked;
    var w := After(Start(), steps);
    var key, t := w.readers[id].queue, TakenBy(w, id);
    var q := QueueOf(w.account, key);
    PolicyInForce(steps, key);
    forall y | y in t.handed && q.redrive.Some? ensures HandoversOf(w.handovers, y.id) + 1 <= q.redrive.value.cap {
      var i :| 0 <= i < |t.handed| && t.handed[i] == y;
      Redrives.HandoverWithinCap(steps, id, i);
    }
    Fifo.ScanTakesFree(q.visible, Blocked(q), q.redrive, w.readers[id].max);
    forall m | m in t.spent
      ensures q.redrive.Some? && HandoversOf(w.handovers, m.id) >= q.redrive.value.cap
      ensures QueueOf(w.account, q.redrive.value.queue).subscriptions > 0 ==>
                Shows(Next(w, Take(id)).account, q.redrive.value.queue, m)
    {
      assert m in q.visible;
      var i :| 0 <= i < |q.visible| && q.visible[i] == m;
      ReceiveDecides(steps, id, i);
    }
  }

  // ---------------------------------------------------------------------------------------------
  // The history itself

  /** How many receives of a run handed a message over. */
  ghost function ReceivesHanding(steps: seq<Step>, id: nat): nat
    requires Legal(Start(), steps)
  {
    if steps == [] then 0
    else
      var before, last := steps[..|steps| - 1], steps[|steps| - 1];
      ReceivesHanding(before, id)
      + if last.Take? && id in Ledger.IdBag(TakenBy(After(Start(), before), last.id).handed) then 1 else 0
  }

  /** The number of handovers a message's history records is that of the receives that handed it over. */
  lemma {:induction false} HandoversAreReceives(steps: seq<Step>, id: nat)
    requires Legal(Start(), steps)
    ensures HandoversOf(After(Start(), steps).handovers, id) == ReceivesHanding(steps, id)
  {
    hide Next, TakenBy, Ledger.IdBag;
    if steps != [] {
      var before, last := steps[..|steps| - 1], steps[|steps| - 1];
      HandoversAreReceives(before, id);
      Conservation.RunBalanced(before);
      HandoversStep(After(Start(), before), last, id);
    }
  }

  lemma HandoversStep(w: World, step: Step, id: nat)
    requires Conservation.Balanced(w) && Enabled(w, step)
    ensures HandoversOf(Next(w, step).handovers, id) == HandoversOf(w.handovers, id)
         + if step.Take? && id in Ledger.IdBag(TakenBy(w, step.id).handed) then 1 else 0
  {
    hide Next, Scan, Ledger.IdBag, Ledger.Sound, HandedOver, Receive, NewHandles, Tagged;
    if step.Take? {
      Fifo.TakeStep(w, step.id);
      Redrives.HandedOverCounts(w.handovers, TakenBy(w, step.id).handed, id);
      Redrives.HandedOnce(w.account, w.readers[step.id].queue, w.readers[step.id].max, id);
    } else {
      Redrives.HandoversKept(w, step);
    }
  }
}
