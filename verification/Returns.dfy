// When a message in flight comes back, over runs: at the firing of its counting timer and not
// before, unless its handle was abandoned, and then never.
module Returns {
  import opened Basics
  import opened Account
  import opened World
  import opened Runs
  import opened Futures
  import Conservation
  import Ledger
  import V = Visibility

  // ---------------------------------------------------------------------------------------------
  // Forsaken messages

  /** Whether a step of a run dropped this message's handle too late for the queue to take it back. */
  ghost predicate Abandoned(steps: seq<Step>, key: string, receipt: nat)
    requires Legal(Start(), steps)
  {
    steps != [] &&
    (var before := steps[..|steps| - 1];
     Abandoned(before, key, receipt) || Abandons(After(Start(), before), steps[|steps| - 1], key, receipt))
  }

  lemma SettleForsakesNone(w: World, receipt: nat, outcome: Outcome, drift: nat, key: string)
    requires Accounted(w) && Enabled(w, Settle(receipt, outcome, drift)) && HasHandle(w.handles, key, receipt)
    ensures !Forsaken(Settled(w, receipt, outcome, drift), key, receipt)
  {
    assert Timely(w, receipt, drift) && w.handles[receipt].queue == key;
    hide Settled, Asked, ChangeRefusal, Aloft, Accounted, Enabled;
    SettleEffect(w, receipt, outcome, drift);
  }

  lemma DropForsakes(w: World, receipt: nat, drift: nat, key: string)
    requires Accounted(w) && Enabled(w, Drop(receipt, drift)) && HasHandle(w.handles, key, receipt)
    ensures Forsaken(Dropped(w, receipt, drift), key, receipt) <==> Abandons(w, Drop(receipt, drift), key, receipt)
  {
    assert Timely(w, receipt, drift) && w.handles[receipt].queue == key;
    LiveIsAloft(w, receipt);
    LeftOfUnsettled(w, receipt, drift);
    hide Dropped, LeftOver, ChangeRefusal, Aloft, Accounted, Enabled;
    DropEffect(w, receipt, drift);
    DropGranted(w, receipt, drift);
  }

  lemma FireForsakesNone(w: World, t: Timer)
    requires Accounted(w) && Enabled(w, Fire(t)) && Counts(w.account, t)
    ensures !Forsaken(w, t.key, t.receipt) && !Forsaken(Next(w, Fire(t)), t.key, t.receipt)
  {
    assert Past(w.account, t);
    hide Next, Aloft, Accounted;
    FireEffect(w, t);
  }

  /** A message new in flight comes with its handle. */
  lemma StepBrings(w: World, step: Step, key: string, receipt: nat)
    requires Accounted(w) && Enabled(w, step) && receipt !in Aloft(w.account, key)
    ensures !Forsaken(Next(w, step), key, receipt)
  {
    hide Still, Aloft, Send, Publish, SetRedrive, Open, Close, Settled, Dropped, Took, Looked, Lapse;
    match step
    case Take(id) =>
      TookCarries(w, id);
      hide TakenBy, Carried;
      CarriedOver(w, Took(w, id), w.readers[id], TakenBy(w, id).handed, key, receipt);
    case Settle(r, outcome, drift) => SettleBringsNone(w, r, outcome, drift, key, receipt);
    case Drop(r, drift) => DropBringsNone(w, r, drift, key, receipt);
    case Fire(t) => FireBringsNone(w, t, key, receipt);
    case _ =>
      OtherIsStill(w, step);
      hide Next;
      StillBringsNone(w, Next(w, step), key, receipt);
  }

  lemma StillBringsNone(w: World, w': World, key: string, receipt: nat)
    requires Still(w, w') && receipt !in Aloft(w.account, key)
    ensures receipt !in Aloft(w'.account, key)
  {
  }

  lemma SettleBringsNone(w: World, r: nat, outcome: Outcome, drift: nat, key: string, receipt: nat)
    requires Accounted(w) && Enabled(w, Settle(r, outcome, drift)) && receipt !in Aloft(w.account, key)
    ensures receipt !in Aloft(Settled(w, r, outcome, drift).account, key)
  {
    hide Settled, Asked, ChangeRefusal, Aloft, Accounted;
    SettleEffect(w, r, outcome, drift);
  }

  lemma DropBringsNone(w: World, r: nat, drift: nat, key: string, receipt: nat)
    requires Accounted(w) && Enabled(w, Drop(r, drift)) && receipt !in Aloft(w.account, key)
    ensures receipt !in Aloft(Dropped(w, r, drift).account, key)
  {
    hide Dropped, LeftOver, ChangeRefusal, Aloft, Accounted;
    DropEffect(w, r, drift);
  }

  lemma FireBringsNone(w: World, t: Timer, key: string, receipt: nat)
    requires Accounted(w) && Enabled(w, Fire(t)) && receipt !in Aloft(w.account, key)
    ensures receipt !in Aloft(Next(w, Fire(t)).account, key)
  {
    hide Next, Aloft, Accounted;
    FireEffect(w, t);
  }

  lemma UndisturbedForsaken(w: World, w': World, step: Step, key: string, receipt: nat)
    requires receipt in Aloft(w.account, key) && Undisturbed(w, w', step, key, receipt)
    ensures Forsaken(w', key, receipt) <==> Forsaken(w, key, receipt)
  {
    hide Aloft, HasHandle;
  }

  lemma AbandonedIsAloft(w: World, step: Step, key: string, receipt: nat)
    requires Accounted(w)
    ensures Abandons(w, step, key, receipt) ==> receipt in Aloft(w.account, key) && Touches(w, step, key, receipt)
  {
    hide Aloft, LeftOver;
    if HasHandle(w.handles, key, receipt) {
      LiveIsAloft(w, receipt);
    }
  }

  /** A step forsakes a message exactly when it abandons it; once forsaken it stays so. */
  lemma StepForsakes(w: World, step: Step, key: string, receipt: nat)
    requires Accounted(w) && Enabled(w, step)
    ensures Forsaken(Next(w, step), key, receipt) <==> Forsaken(w, key, receipt) || Abandons(w, step, key, receipt)
  {
    AbandonedIsAloft(w, step, key, receipt);
    if receipt !in Aloft(w.account, key) {
      StepBrings(w, step, key, receipt);
    } else if !Touches(w, step, key, receipt) {
      StepSpares(w, step, key, receipt);
      hide Undisturbed, Next;
      UndisturbedForsaken(w, Next(w, step), step, key, receipt);
    } else {
      hide Settled, Dropped, Lapse, Counts, Abandons, Accounted, Aloft;
      match step
      case Settle(r, outcome, drift) => SettleForsakesNone(w, r, outcome, drift, key);
      case Drop(r, drift) => DropForsakes(w, r, drift, key);
      case Fire(t) => FireForsakesNone(w, t);
    }
  }

  /** After every run, exactly the messages whose handle was abandoned are forsaken. */
  lemma {:induction false} ForsakenExactly(steps: seq<Step>, key: string, receipt: nat)
    requires Legal(Start(), steps)
    ensures Forsaken(After(Start(), steps), key, receipt) <==> Abandoned(steps, key, receipt)
  {
    hide Next, Abandons, Accounted;
    if steps != [] {
      var before, last := steps[..|steps| - 1], steps[|steps| - 1];
      ForsakenExactly(before, key, receipt);
      RunAccounted(before);
      StepForsakes(After(Start(), before), last, key, receipt);
    }
  }

  /** No drop of a run reads its clock more than the margin before the queue does. */
  predicate Punctual(steps: seq<Step>)
  {
    forall i :: 0 <= i < |steps| && steps[i].Drop? ==> steps[i].drift <= V.MARGIN
  }

  /** While drops are punctual, no message is ever forsaken. */
  lemma {:induction false} PunctualForsakesNone(steps: seq<Step>, key: string, receipt: nat)
    requires Legal(Start(), steps) && Punctual(steps)
    ensures !Forsaken(After(Start(), steps), key, receipt)
  {
    hide Next;
    ForsakenExactly(steps, key, receipt);
    if steps != [] {
      var before, last := steps[..|steps| - 1], steps[|steps| - 1];
      var w := After(Start(), before);
      PunctualForsakesNone(before, key, receipt);
      ForsakenExactly(before, key, receipt);
      RunAccounted(before);
      assert last == steps[|steps| - 1];
      if last.Drop? {
        DropGranted(w, last.receipt, last.drift);
      }
    }
  }

  // ---------------------------------------------------------------------------------------------
  // Until its timer fires

  /** `t` is armed and of the current generation of its message. */
  predicate Waiting(w: World, t: Timer) { t in w.account.timers && Counts(w.account, t) }

  lemma WaitingIsUntouched(w: World, step: Step, t: Timer)
    requires Accounted(w) && Enabled(w, step) && Waiting(w, t) && step != Fire(t)
    ensures !Touches(w, step, t.key, t.receipt)
  {
    hide Aloft, Counts;
    CountingHasNoHandle(w, t);
    if step.Fire? && step.timer.key == t.key && step.timer.receipt == t.receipt && Counts(w.account, step.timer) {
      CountsAlone(w, t);
    }
  }

  /** Nothing but the firing of its timer disturbs a message that waits for it. */
  lemma StepWaits(w: World, step: Step, t: Timer)
    requires Accounted(w) && Enabled(w, step) && Waiting(w, t) && step != Fire(t)
    ensures Waiting(Next(w, step), t)
    ensures Aloft(Next(w, step).account, t.key)[t.receipt] == Aloft(w.account, t.key)[t.receipt]
  {
    hide Next, Aloft, Accounted, Enabled, Touches;
    WaitingIsUntouched(w, step, t);
    StepSpares(w, step, t.key, t.receipt);
  }

  /** Over every run without its firing, the message stays in flight as it was. */
  lemma {:induction false} WaitsForItsTimer(w: World, more: seq<Step>, t: Timer)
    requires Accounted(w) && Legal(w, more) && Waiting(w, t) && Fire(t) !in more
    ensures Accounted(After(w, more)) && Waiting(After(w, more), t)
    ensures Aloft(After(w, more).account, t.key)[t.receipt] == Aloft(w.account, t.key)[t.receipt]
  {
    hide Next, Accounted, Waiting, Aloft;
    if more != [] {
      var before, last := more[..|more| - 1], more[|more| - 1];
      assert forall s :: s in before ==> s in more;
      assert last in more;
      WaitsForItsTimer(w, before, t);
      var v := After(w, before);
      StepKeepsAccounted(v, last);
      StepWaits(v, last, t);
    }
  }

  /** Where a step first occurs. */
  lemma {:induction false} FirstOf(more: seq<Step>, step: Step) returns (i: nat)
    requires step in more
    ensures i < |more| && more[i] == step && step !in more[..i]
  {
    if more[0] == step {
      i := 0;
    } else {
      i := FirstOf(more[1..], step);
      assert more[..i + 1] == [more[0]] + more[1..][..i];
      i := i + 1;
    }
  }

  /** While the clock has not reached what the timer is due at, the timer has not fired. */
  lemma NotFiredEarly(w: World, more: seq<Step>, t: Timer)
    requires Legal(w, more) && After(w, more).now < t.due
    ensures Fire(t) !in more
  {
    hide Next, Legal, After;
    if Fire(t) in more {
      var i := FirstOf(more, Fire(t));
      LegalPrefix(w, more, i);
    }
  }

  /**
   * The firing that ends the wait: not before the timer is due, the message until then in flight as
   * it was; then out of flight, and visible where somebody reads, dropped where nobody does.
   */
  lemma BackAtItsTimer(w: World, more: seq<Step>, t: Timer) returns (i: nat)
    requires Accounted(w) && Legal(w, more) && Waiting(w, t) && Fire(t) in more
    ensures i < |more| && more[i] == Fire(t) && Legal(w, more[..i])
    ensures var v, s := After(w, more[..i]), Aloft(w.account, t.key)[t.receipt].stored;
            && t.due <= v.now && Waiting(v, t)
            && Aloft(v.account, t.key)[t.receipt].stored == s
            && Enabled(v, Fire(t))
            && var q, q' := QueueOf(v.account, t.key), QueueOf(Next(v, Fire(t)).account, t.key);
               && t.receipt !in q'.inFlight
               && q'.visible == if q.subscriptions > 0 then Insert(q.visible, s) else q.visible
  {
    hide Next, Accounted, Legal, After;
    i := FirstOf(more, Fire(t));
    LegalPrefix(w, more, i);
    WaitsForItsTimer(w, more[..i], t);
    FiringReturns(After(w, more[..i]), t);
  }

  lemma FiringReturns(v: World, t: Timer)
    requires Enabled(v, Fire(t)) && Counts(v.account, t)
    ensures var q, q' := QueueOf(v.account, t.key), QueueOf(Next(v, Fire(t)).account, t.key);
            && t.receipt !in q'.inFlight
            && q'.visible == if q.subscriptions > 0 then Insert(q.visible, q.inFlight[t.receipt].stored) else q.visible
  {
    hide Insert;
  }

  // ---------------------------------------------------------------------------------------------
  // Settlements and drops

  /** A message in flight and visible nowhere. */
  ghost predicate OutOfSight(w: World, key: string, receipt: nat, s: Stored)
  {
    && receipt in Aloft(w.account, key) && Aloft(w.account, key)[receipt].stored == s
    && forall k, i :: 0 <= i < |QueueOf(w.account, k).visible| ==> QueueOf(w.account, k).visible[i].id != s.id
  }

  lemma AloftIsOutOfSight(w: World, key: string, receipt: nat)
    requires Conservation.Balanced(w) && receipt in Aloft(w.account, key)
    ensures OutOfSight(w, key, receipt, Aloft(w.account, key)[receipt].stored)
  {
    hide Ledger.Sound;
    var s := Aloft(w.account, key)[receipt].stored;
    forall k, i | 0 <= i < |QueueOf(w.account, k).visible| ensures QueueOf(w.account, k).visible[i].id != s.id {
      if QueueOf(w.account, k).visible[i].id == s.id {
        Conservation.OnePlace(w.account, Conservation.Shown(k, i), Conservation.InAir(key, receipt), s.id);
      }
    }
  }

  lemma {:induction false} StaysBalanced(w: World, more: seq<Step>)
    requires Conservation.Balanced(w) && Legal(w, more)
    ensures Conservation.Balanced(After(w, more))
  {
    hide Next, Conservation.Balanced;
    if more != [] {
      StaysBalanced(w, more[..|more| - 1]);
      Conservation.StepConserves(After(w, more[..|more| - 1]), more[|more| - 1]);
      hide Conservation.Leaving, Conservation.Arriving, Ledger.Moves;
    }
  }

  /** Until the clock reaches what its timer is due at, whatever happens, a waiting message is out of sight. */
  lemma NeverEarly(w: World, more: seq<Step>, t: Timer)
    requires Accounted(w) && Conservation.Balanced(w) && Legal(w, more) && Waiting(w, t)
    ensures After(w, more).now < t.due ==>
              OutOfSight(After(w, more), t.key, t.receipt, Aloft(w.account, t.key)[t.receipt].stored)
  {
    hide Accounted, Conservation.Balanced, Legal, After, OutOfSight, Aloft;
    if After(w, more).now < t.due {
      NotFiredEarly(w, more, t);
      WaitsForItsTimer(w, more, t);
      StaysBalanced(w, more);
      AloftIsOutOfSight(After(w, more), t.key, t.receipt);
    }
  }

  /** The timer of a delivery's first change. */
  function FirstTimer(key: string, receipt: nat, due: nat): Timer { Timer(key, receipt, 1, due) }

  lemma RearmedWaits(w: World, w': World, key: string, receipt: nat, due: nat)
    requires Rearmed(w, w', key, receipt, due)
    ensures Waiting(w', FirstTimer(key, receipt, due))
    ensures Aloft(w'.account, key)[receipt].stored == Aloft(w.account, key)[receipt].stored
  {
    hide Aloft;
  }

  /** The message waits for the one timer of its first change. */
  ghost predicate Armed(w: World, key: string, receipt: nat, due: nat, s: Stored)
  {
    && Accounted(w) && Conservation.Balanced(w) && Waiting(w, FirstTimer(key, receipt, due))
    && Aloft(w.account, key)[receipt].stored == s
  }

  lemma ArmedHolds(w: World, key: string, receipt: nat, due: nat, s: Stored, more: seq<Step>)
    requires Armed(w, key, receipt, due, s) && Legal(w, more)
    ensures OnlyCounting(w.account, FirstTimer(key, receipt, due), key, receipt)
    ensures After(w, more).now < due ==> OutOfSight(After(w, more), key, receipt, s)
  {
    hide Aloft, OutOfSight, After, Legal;
    CountsAlone(w, FirstTimer(key, receipt, due));
    NeverEarly(w, more, FirstTimer(key, receipt, due));
  }

  lemma BalancedAfter(w: World, step: Step)
    requires Conservation.Balanced(w) && Enabled(w, step)
    ensures Conservation.Balanced(Next(w, step))
  {
    hide Conservation.Balanced, Conservation.Leaving, Conservation.Arriving, Ledger.Moves, Enabled, Next;
    Conservation.StepConserves(w, step);
  }

  /** A granted settlement that asks for time. */
  predicate GrantedTime(w: World, receipt: nat, outcome: Outcome, drift: nat, time: nat)
  {
    && Timely(w, receipt, drift) && Enabled(w, Settle(receipt, outcome, drift))
    && Asked(w.handles[receipt], outcome, HeldFor(w, receipt, drift)) == Some(time) && time > 0
    && ChangeRefusal(w.account, w.handles[receipt].queue, receipt, time, w.now).None?
  }

  lemma GrantedTimeIsEnabled(w: World, receipt: nat, outcome: Outcome, drift: nat, time: nat)
    requires GrantedTime(w, receipt, outcome, drift, time)
    ensures Enabled(w, Settle(receipt, outcome, drift)) && receipt in w.handles
  {
  }

  lemma SettlementRearms(w: World, receipt: nat, outcome: Outcome, drift: nat, time: nat)
    requires Accounted(w) && GrantedTime(w, receipt, outcome, drift, time)
    ensures Rearmed(w, Next(w, Settle(receipt, outcome, drift)), w.handles[receipt].queue, receipt, w.now + time)
  {
    hide Settled, Rearmed, Accounted, Asked, ChangeRefusal, Aloft, Landed, Still;
    SettleEffect(w, receipt, outcome, drift);
  }

  /** A granted drop of an unsettled handle with visibility left. */
  predicate GrantedRest(w: World, receipt: nat, drift: nat, time: nat)
  {
    && Timely(w, receipt, drift) && LeftOver(w, receipt, drift) == Some(time) && time > 0
    && ChangeRefusal(w.account, w.handles[receipt].queue, receipt, time, w.now).None?
  }

  lemma GrantedRestIsEnabled(w: World, receipt: nat, drift: nat, time: nat)
    requires GrantedRest(w, receipt, drift, time)
    ensures Enabled(w, Drop(receipt, drift)) && receipt in w.handles
  {
  }

  lemma DropRearms(w: World, receipt: nat, drift: nat, time: nat)
    requires Accounted(w) && GrantedRest(w, receipt, drift, time)
    ensures Rearmed(w, Next(w, Drop(receipt, drift)), w.handles[receipt].queue, receipt, w.now + time)
  {
    hide Dropped, Rearmed, Accounted, LeftOver, ChangeRefusal, Aloft, Landed, Steady;
    DropEffect(w, receipt, drift);
  }

  lemma RearmedArms(w: World, step: Step, key: string, receipt: nat, due: nat)
    requires Accounted(w) && Conservation.Balanced(w) && Enabled(w, step)
    requires Rearmed(w, Next(w, step), key, receipt, due)
    ensures receipt in Aloft(w.account, key)
    ensures Armed(Next(w, step), key, receipt, due, Aloft(w.account, key)[receipt].stored)
  {
    assert receipt in Aloft(w.account, key);
    hide Accounted, Conservation.Balanced, Rearmed, Next, Enabled, Aloft, Waiting;
    StepKeepsAccounted(w, step);
    BalancedAfter(w, step);
    RearmedWaits(w, Next(w, step), key, receipt, due);
  }

  /**
   * After any run, a settlement that is granted a time arms the one timer that counts, due when that
   * time is up; until the clock reaches it, whatever steps follow, the message is out of sight.
   */
  lemma SettlementArms(
    steps: seq<Step>, receipt: nat, outcome: Outcome, drift: nat, time: nat, more: seq<Step>)
    requires Legal(Start(), steps) && GrantedTime(After(Start(), steps), receipt, outcome, drift, time)
    requires Legal(Next(After(Start(), steps), Settle(receipt, outcome, drift)), more)
    ensures var w := After(Start(), steps);
            var w', key := Next(w, Settle(receipt, outcome, drift)), w.handles[receipt].queue;
            && receipt in Aloft(w.account, key)
            && OnlyCounting(w'.account, FirstTimer(key, receipt, w.now + time), key, receipt)
            && (After(w', more).now < w.now + time ==>
                  OutOfSight(After(w', more), key, receipt, Aloft(w.account, key)[receipt].stored))
  {
    hide *;
    var w, step := After(Start(), steps), Settle(receipt, outcome, drift);
    GrantedTimeIsEnabled(w, receipt, outcome, drift, time);
    RunAccounted(steps);
    Conservation.RunBalanced(steps);
    SettlementRearms(w, receipt, outcome, drift, time);
    RearmedArms(w, step, w.handles[receipt].queue, receipt, w.now + time);
    var s := Aloft(w.account, w.handles[receipt].queue)[receipt].stored;
    ArmedHolds(Next(w, step), w.handles[receipt].queue, receipt, w.now + time, s, more);
  }

  /** After any run, a granted drop of an unsettled handle does so with the visibility it has left. */
  lemma DropArms(steps: seq<Step>, receipt: nat, drift: nat, time: nat, more: seq<Step>)
    requires Legal(Start(), steps) && GrantedRest(After(Start(), steps), receipt, drift, time)
    requires Legal(Next(After(Start(), steps), Drop(receipt, drift)), more)
    ensures var w := After(Start(), steps);
            var w', key := Next(w, Drop(receipt, drift)), w.handles[receipt].queue;
            && receipt in Aloft(w.account, key)
            && OnlyCounting(w'.account, FirstTimer(key, receipt, w.now + time), key, receipt)
            && (After(w', more).now < w.now + time ==>
                  OutOfSight(After(w', more), key, receipt, Aloft(w.account, key)[receipt].stored))
  {
    hide *;
    var w, step := After(Start(), steps), Drop(receipt, drift);
    GrantedRestIsEnabled(w, receipt, drift, time);
    RunAccounted(steps);
    Conservation.RunBalanced(steps);
    DropRearms(w, receipt, drift, time);
    RearmedArms(w, step, w.handles[receipt].queue, receipt, w.now + time);
    var s := Aloft(w.account, w.handles[receipt].queue)[receipt].stored;
    ArmedHolds(Next(w, step), w.handles[receipt].queue, receipt, w.now + time, s, more);
  }

  // ---------------------------------------------------------------------------------------------
  // Deferred retries

  /** Whatever follows, the message is out of sight until `until`. */
  ghost predicate HeldBack(w: World, key: string, receipt: nat, s: Stored, until: nat)
  {
    forall more :: Legal(w, more) && After(w, more).now < until ==> OutOfSight(After(w, more), key, receipt, s)
  }

  lemma OneStep(w: World, step: Step)
    requires Enabled(w, step)
    ensures Legal(w, [step]) && After(w, [step]) == Next(w, step)
  {
    hide Enabled, Next;
    assert [step][..0] == [];
  }

  lemma TwoSteps(w: World, step: Step, next: Step)
    requires Enabled(w, step) && Enabled(Next(w, step), next)
    ensures Legal(w, [step, next]) && After(w, [step, next]) == Next(Next(w, step), next)
  {
    hide Enabled, Next;
    OneStep(w, step);
    assert [step, next][..1] == [step];
  }

  /** The run that lets the clock reach a timer and fires it. */
  lemma WaitAndFire(w: World, t: Timer, ticks: nat)
    requires Waiting(w, t) && t.due == w.now + ticks
    ensures var more := [Advance(ticks), Fire(t)];
            Legal(w, more) && After(w, more).now == t.due && t.receipt !in Aloft(After(w, more).account, t.key)
  {
    TwoSteps(w, Advance(ticks), Fire(t));
    FiringReturns(w.(now := w.now + ticks), t);
  }

  lemma RetryTime(w: World, receipt: nat, delay: nat, drift: nat)
    requires Timely(w, receipt, drift)
    ensures var held := HeldFor(w, receipt, drift);
            var asked := Asked(w.handles[receipt], NackAfter(delay), held);
            && asked == Some(V.RetrySeconds(delay, held) * V.SECOND)
            && (asked.value >= delay <==> V.WholeSeconds(delay) <= V.WindowLeft(held))
  {
    V.RetryNotShortened(delay, HeldFor(w, receipt, drift));
    hide V.RetrySeconds, V.WholeSeconds, V.WindowLeft;
  }

  /** The state a punctual deferred retry is settled in, and what it asks for. */
  ghost predicate Retrying(w: World, receipt: nat, delay: nat, drift: nat, time: nat)
  {
    && Accounted(w) && Conservation.Balanced(w) && drift <= V.MARGIN
    && Timely(w, receipt, drift) && !w.handles[receipt].settled
    && Asked(w.handles[receipt], NackAfter(delay), HeldFor(w, receipt, drift)) == Some(time)
  }

  lemma RetryIsLive(w: World, receipt: nat, delay: nat, drift: nat, time: nat)
    requires Retrying(w, receipt, delay, drift, time)
    ensures receipt in w.handles && receipt in Aloft(w.account, w.handles[receipt].queue)
    ensures Enabled(w, Settle(receipt, NackAfter(delay), drift))
  {
    LiveIsAloft(w, receipt);
  }

  /** A punctual retry is granted what it asks for. */
  lemma RetryIsGranted(w: World, receipt: nat, delay: nat, drift: nat, time: nat)
    requires Retrying(w, receipt, delay, drift, time)
    ensures ChangeRefusal(w.account, w.handles[receipt].queue, receipt, time, w.now).None?
  {
    assert Enabled(w, Settle(receipt, NackAfter(delay), drift));
    hide Enabled, Accounted, Conservation.Balanced, Asked, ChangeRefusal;
    SettlementGranted(w, receipt, NackAfter(delay), drift);
  }

  /** Granted no time at all, the message is back at once. */
  lemma RetryAtOnce(w: World, receipt: nat, delay: nat, drift: nat)
    requires Retrying(w, receipt, delay, drift, 0)
    ensures receipt !in Aloft(Next(w, Settle(receipt, NackAfter(delay), drift)).account, w.handles[receipt].queue)
  {
    RetryIsGranted(w, receipt, delay, drift, 0);
    RetryIsLive(w, receipt, delay, drift, 0);
    hide Enabled, Accounted, Conservation.Balanced, Asked, ChangeRefusal, Aloft, Settled;
    SettleEffect(w, receipt, NackAfter(delay), drift);
  }

  lemma RetryIsArmed(w: World, receipt: nat, delay: nat, drift: nat, time: nat)
    requires Retrying(w, receipt, delay, drift, time) && time > 0
    ensures var key := w.handles[receipt].queue;
            && receipt in Aloft(w.account, key)
            && Armed(Next(w, Settle(receipt, NackAfter(delay), drift)), key, receipt, w.now + time,
                 Aloft(w.account, key)[receipt].stored)
  {
    hide *;
    RetryGrantsTime(w, receipt, delay, drift, time);
    RetryParts(w, receipt, delay, drift, time);
    SettlementRearms(w, receipt, NackAfter(delay), drift, time);
    RearmedArms(w, Settle(receipt, NackAfter(delay), drift), w.handles[receipt].queue, receipt, w.now + time);
  }

  lemma RetryGrantsTime(w: World, receipt: nat, delay: nat, drift: nat, time: nat)
    requires Retrying(w, receipt, delay, drift, time) && time > 0
    ensures GrantedTime(w, receipt, NackAfter(delay), drift, time)
  {
    RetryIsGranted(w, receipt, delay, drift, time);
    RetryIsLive(w, receipt, delay, drift, time);
    hide Enabled, Accounted, Conservation.Balanced, Asked, ChangeRefusal, Aloft;
  }

  lemma RetryParts(w: World, receipt: nat, delay: nat, drift: nat, time: nat)
    requires Retrying(w, receipt, delay, drift, time)
    ensures Accounted(w) && Conservation.Balanced(w) && receipt in w.handles
    ensures Enabled(w, Settle(receipt, NackAfter(delay), drift))
  {
    hide Accounted, Conservation.Balanced, Asked;
  }

  /** Held back for `delay` exactly when granted at least that. */
  lemma RetryHoldsGranted(w: World, receipt: nat, delay: nat, drift: nat, time: nat)
    requires Retrying(w, receipt, delay, drift, time)
    ensures var w', key := Next(w, Settle(receipt, NackAfter(delay), drift)), w.handles[receipt].queue;
            && receipt in Aloft(w.account, key)
            && (HeldBack(w', key, receipt, Aloft(w.account, key)[receipt].stored, w.now + delay) <==> delay <= time)
  {
    hide *;
    var step := Settle(receipt, NackAfter(delay), drift);
    RetryIsLive(w, receipt, delay, drift, time);
    var w', key := Next(w, step), w.handles[receipt].queue;
    var s := Aloft(w.account, key)[receipt].stored;
    SettlingTakesNoTime(w, receipt, NackAfter(delay), drift);
    if time == 0 {
      RetryAtOnce(w, receipt, delay, drift);
      if delay == 0 {
        NothingIsEarly(w', key, receipt, s, w'.now);
      } else {
        BackAlready(w', key, receipt, s, w.now + delay);
      }
    } else {
      RetryIsArmed(w, receipt, delay, drift, time);
      ArmedHoldsBack(w', key, receipt, w.now + time, s, w.now + delay);
    }
  }

  lemma BackAlready(w: World, key: string, receipt: nat, s: Stored, until: nat)
    requires receipt !in Aloft(w.account, key) && w.now < until
    ensures !HeldBack(w, key, receipt, s, until)
  {
    hide Aloft;
    assert Legal(w, []) && After(w, []) == w;
  }

  lemma SettlingTakesNoTime(w: World, receipt: nat, outcome: Outcome, drift: nat)
    requires Enabled(w, Settle(receipt, outcome, drift))
    ensures Next(w, Settle(receipt, outcome, drift)).now == w.now
  {
  }

  lemma NothingIsEarly(w: World, key: string, receipt: nat, s: Stored, until: nat)
    requires until <= w.now
    ensures HeldBack(w, key, receipt, s, until)
  {
    hide Next, OutOfSight;
    forall more | Legal(w, more) ensures w.now <= After(w, more).now {
      TimePasses(w, more);
    }
  }

  /** An armed message is held back exactly until its timer is due. */
  lemma ArmedHoldsBack(w: World, key: string, receipt: nat, due: nat, s: Stored, until: nat)
    requires Armed(w, key, receipt, due, s) && w.now <= due
    ensures HeldBack(w, key, receipt, s, until) <==> until <= due
  {
    if until <= due {
      forall more | Legal(w, more) && After(w, more).now < until ensures OutOfSight(After(w, more), key, receipt, s) {
        hide *;
        ArmedHolds(w, key, receipt, due, s, more);
      }
    } else {
      WaitAndFire(w, FirstTimer(key, receipt, due), due - w.now);
      hide Armed, Legal, After, Next, Waiting, Aloft;
    }
  }

  lemma RetryBegins(w: World, receipt: nat, delay: nat, drift: nat)
    requires Accounted(w) && Conservation.Balanced(w) && drift <= V.MARGIN
    requires Enabled(w, Settle(receipt, NackAfter(delay), drift))
    ensures Timely(w, receipt, drift)
    ensures Retrying(w, receipt, delay, drift, V.RetrySeconds(delay, HeldFor(w, receipt, drift)) * V.SECOND)
  {
    hide Accounted, Conservation.Balanced, V.RetrySeconds;
  }

  /**
   * After any run, a deferred retry keeps its message out of sight for the whole delay, whatever
   * follows, exactly when the delay in whole seconds fits what is left of the twelve hours.
   */
  lemma DeferredRetryHolds(steps: seq<Step>, receipt: nat, delay: nat, drift: nat)
    requires Legal(Start(), steps) && Enabled(After(Start(), steps), Settle(receipt, NackAfter(delay), drift))
    requires drift <= V.MARGIN
    ensures var w := After(Start(), steps);
            var w', key := Next(w, Settle(receipt, NackAfter(delay), drift)), w.handles[receipt].queue;
            && receipt in Aloft(w.account, key)
            && (HeldBack(w', key, receipt, Aloft(w.account, key)[receipt].stored, w.now + delay)
                <==> V.WholeSeconds(delay) <= V.WindowLeft(HeldFor(w, receipt, drift)))
  {
    hide *;
    var w := After(Start(), steps);
    RunAccounted(steps);
    Conservation.RunBalanced(steps);
    RetryBegins(w, receipt, delay, drift);
    RetryTime(w, receipt, delay, drift);
    var time := V.RetrySeconds(delay, HeldFor(w, receipt, drift)) * V.SECOND;
    RetryHoldsGranted(w, receipt, delay, drift, time);
  }
}
