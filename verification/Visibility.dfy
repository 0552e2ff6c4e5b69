// Visibility arithmetic: how long a held delivery stays invisible, what a settlement asks for, and
// what the queue accepts. Durations are nanoseconds, counted from the receive.
module Visibility {
  import opened Basics

  const SECOND := 1_000_000_000
  const HALF := 500_000_000
  const MAX_VISIBILITY_SECS := 43_200
  const WINDOW := 43_200 * SECOND
  const MARGIN := 10 * SECOND

  /** The latest deadline the crate asks for. */
  const REACH := WINDOW - MARGIN

  /** A duration in whole seconds, rounded up. */
  function WholeSeconds(d: nat): nat
  {
    if d % SECOND > 0 then d / SECOND + 1 else d / SECOND
  }

  /** The whole seconds of the window a delivery held for `held` can still claim. */
  function WindowLeft(held: nat): nat
  {
    SaturatingSub(REACH, held) / SECOND
  }

  function ExtensionPeriod(visibility: nat): nat { visibility / 2 }

  datatype Extension = Extension(seconds: nat, last: bool)

  function ExtensionOf(full: nat, left: nat): Extension
  {
    if full < left then Extension(full, false) else Extension(left, true)
  }

  /** The queue's answer to a visibility change, for a message received `elapsed` ago. */
  predicate ChangeAccepted(elapsed: nat, visibility: nat)
  {
    && visibility / SECOND <= MAX_VISIBILITY_SECS
    && (visibility == 0 || elapsed + visibility <= WINDOW)
  }

  /** The seconds a deferred retry asks for, held for `held`. */
  function RetrySeconds(delay: nat, held: nat): nat
  {
    Min(WholeSeconds(delay), WindowLeft(held))
  }

  /** When a delivery held for `held` lapses by the closed form: extended every half timeout. */
  function ClosedDeadline(visibility: nat, held: nat): nat
    requires ExtensionPeriod(visibility) > 0
  {
    var period := ExtensionPeriod(visibility);
    Min(Min(held / period, U32_MAX) * period + visibility, REACH)
  }

  /** What the closed form leaves of the visibility after `held`. */
  function RemainingVisibility(visibility: nat, held: nat): nat
    requires visibility != 1
  {
    if visibility == 0 then 0 else SaturatingSub(ClosedDeadline(visibility, held), held)
  }

  // ---------------------------------------------------------------------------------------------
  // The extension loop

  /** A visibility change the loop makes: when, and for how many seconds. */
  datatype Call = Call(at: nat, seconds: nat)

  /** The call of one tick; a tick with nothing left makes none. */
  function TickCalls(at: nat, e: Extension): seq<Call>
  {
    if e.seconds > 0 then [Call(at, e.seconds)] else []
  }

  function FullSeconds(visibility: nat): nat { visibility / SECOND }

  function Tick(visibility: nat, at: nat): Extension
  {
    ExtensionOf(FullSeconds(visibility), WindowLeft(at))
  }

  /** The calls from `now` on, where the `k`-th call takes `latency(k)`. */
  function Calls(visibility: nat, now: nat, latency: nat -> nat, k: nat): seq<Call>
    requires ExtensionPeriod(visibility) > 0
    decreases SaturatingSub(REACH, now)
  {
    var at := now + ExtensionPeriod(visibility);
    var e := Tick(visibility, at);
    if e.last then TickCalls(at, e)
    else TickCalls(at, e) + Calls(visibility, at + latency(k), latency, k + 1)
  }

  /** How long is left before the reach. */
  function ToReach(now: nat): nat { SaturatingSub(REACH, now) }

  /** A tick that is not the last comes before the reach. */
  lemma MoreToCome(visibility: nat, at: nat)
    requires !Tick(visibility, at).last
    ensures at < REACH
  {
  }

  /** The calls made by `now`: with those still to come, they are all the calls. */
  ghost predicate MadeBy(calls: seq<Call>, visibility: nat, now: nat, latency: nat -> nat, k: nat)
    requires ExtensionPeriod(visibility) > 0
  {
    calls + Calls(visibility, now, latency, k) == Calls(visibility, 0, latency, 0)
  }

  lemma NoneMade(visibility: nat, latency: nat -> nat)
    requires visibility > 1
    ensures ExtensionPeriod(visibility) > 0
    ensures MadeBy([], visibility, 0, latency, 0)
  {
  }

  /** One turn of the loop: the calls of its tick are made, and it was the last or time remains. */
  lemma TickMakes(calls: seq<Call>, visibility: nat, now: nat, latency: nat -> nat, k: nat)
    requires ExtensionPeriod(visibility) > 0 && MadeBy(calls, visibility, now, latency, k)
    ensures var at := now + ExtensionPeriod(visibility);
            var e := ExtensionOf(FullSeconds(visibility), WindowLeft(at));
            var made := calls + TickCalls(at, e);
            && (e.last ==> made == Calls(visibility, 0, latency, 0))
            && (!e.last ==> MadeBy(made, visibility, at + latency(k), latency, k + 1)
                            && ToReach(at + latency(k)) < ToReach(now))
  {
    hide TickCalls;
    var at := now + ExtensionPeriod(visibility);
    assert Tick(visibility, at) == ExtensionOf(FullSeconds(visibility), WindowLeft(at));
    if !Tick(visibility, at).last {
      MoreToCome(visibility, at);
    }
  }

  /** The background task of a held delivery; it ends for every latency of its calls. */
  method ExtendVisibility(visibility: nat, latency: nat -> nat) returns (calls: seq<Call>)
    requires visibility != 1
    ensures calls == if visibility == 0 then [] else Calls(visibility, 0, latency, 0)
  {
    hide *;
    calls := [];
    if visibility == 0 {
      return;
    }
    var period, full := ExtensionPeriod(visibility), FullSeconds(visibility);
    NoneMade(visibility, latency);
    var now: nat, k: nat := 0, 0;
    while true
      invariant MadeBy(calls, visibility, now, latency, k)
      decreases ToReach(now)
    {
      TickMakes(calls, visibility, now, latency, k);
      now := now + period;
      var e := ExtensionOf(full, WindowLeft(now));
      calls := calls + TickCalls(now, e);
      if e.last {
        return;
      }
      now := now + latency(k);
      k := k + 1;
    }
  }

  /** The deadline in force after `held`: that of the last call made by then. */
  function DeadlineAfter(deadline: nat, calls: seq<Call>, held: nat): nat
    decreases |calls|
  {
    if calls == [] || calls[0].at > held then deadline
    else DeadlineAfter(calls[0].at + calls[0].seconds * SECOND, calls[1..], held)
  }

  function NoLatency(): nat -> nat { k => 0 }

  /** What the loop leaves of the visibility after `held`, its calls taking no time. */
  function LoopRemaining(visibility: nat, held: nat): nat
    requires ExtensionPeriod(visibility) > 0
  {
    SaturatingSub(DeadlineAfter(visibility, Calls(visibility, 0, NoLatency(), 0), held), held)
  }

  /** The last re-arm at or before `held`, counting from one at `now`. */
  function RearmBefore(now: nat, period: nat, held: nat): (at: nat)
    requires period > 0
    ensures now <= at && (now <= held ==> held < at + period)
    decreases SaturatingSub(held, now)
  {
    if held < now + period then now else RearmBefore(now + period, period, held)
  }

  lemma Quotient(k: nat, period: nat, held: nat)
    requires period > 0 && k * period <= held < (k + 1) * period
    ensures held / period == k
  {
    var q := held / period;
    assert held == q * period + held % period;
    assert q < k ==> (q + 1) * period <= k * period;
    assert q > k ==> (k + 1) * period <= q * period;
  }

  lemma {:induction false} RearmBeforeIsAMultiple(k: nat, period: nat, held: nat)
    requires period > 0 && k * period <= held
    ensures RearmBefore(k * period, period, held) == held / period * period
    decreases held - k * period
  {
    assert (k + 1) * period == k * period + period;
    if held < k * period + period {
      Quotient(k, period, held);
    } else {
      RearmBeforeIsAMultiple(k + 1, period, held);
    }
  }

  lemma Larger(a: nat, b: nat, period: nat)
    requires a <= b
    ensures a * period <= b * period
  {
  }

  /** Past the 32-bit cap on the count of periods, half a second each, the reach is long past. */
  lemma CapIsPastReach(periods: nat, period: nat)
    requires period >= HALF && periods >= U32_MAX
    ensures periods * period >= REACH
  {
    Larger(HALF, period, periods);
    assert HALF * periods >= REACH;
  }

  /** The closed form, with its count of periods unrolled; its 32-bit cap never shows. */
  lemma ClosedDeadlineUnrolled(visibility: nat, held: nat)
    requires ExtensionPeriod(visibility) >= HALF
    ensures ClosedDeadline(visibility, held)
         == Min(RearmBefore(0, ExtensionPeriod(visibility), held) + visibility, REACH)
  {
    var period := ExtensionPeriod(visibility);
    RearmBeforeIsAMultiple(0, period, held);
    var periods := held / period;
    assert ClosedDeadline(visibility, held) == Min(Min(periods, U32_MAX) * period + visibility, REACH);
    hide *;
    assert 0 * period == 0;
    if periods > U32_MAX {
      CapIsPastReach(periods, period);
      CapIsPastReach(U32_MAX, period);
    }
  }

  /** Where the last call of the loop ends: the reach, or half a second before it. */
  function LoopReach(calls: seq<Call>): nat
    requires calls != []
  {
    if calls[|calls| - 1].at % SECOND == 0 then REACH else REACH - HALF
  }

  /** One tick of an `s`-second timeout, the time of it counted in half seconds. */
  lemma TickInHalves(s: nat, m: nat)
    requires s > 0 && m < 2 * 43_190
    ensures var left := (2 * 43_190 - m) / 2;
            && Tick(s * SECOND, m * HALF) == ExtensionOf(s, left)
            && m * HALF + left * SECOND == if m % 2 == 0 then REACH else REACH - HALF
    ensures m * HALF % SECOND == 0 <==> m % 2 == 0
  {
    assert REACH - m * HALF == (2 * 43_190 - m) * HALF;
  }

  /** One more tick in front of the calls that follow it. */
  lemma CallsUnrolled(s: nat, m: nat, n: nat)
    requires s > 0 && m + s < 2 * 43_190
    ensures var calls := Calls(s * SECOND, m * HALF, NoLatency(), n);
            var e := Tick(s * SECOND, (m + s) * HALF);
            && (e.last ==> calls == TickCalls((m + s) * HALF, e))
            && (!e.last ==> calls == [Call((m + s) * HALF, s)] + Calls(s * SECOND, (m + s) * HALF, NoLatency(), n + 1))
  {
    assert ExtensionPeriod(s * SECOND) == s * HALF;
  }

  /** The last call is that of the last tick, or the last of the calls that follow this tick. */
  lemma LastUnrolled(s: nat, m: nat, n: nat)
    requires s > 0 && m + s < 2 * 43_190
    ensures var calls, rest := Calls(s * SECOND, m * HALF, NoLatency(), n), Calls(s * SECOND, (m + s) * HALF, NoLatency(), n + 1);
            var e := Tick(s * SECOND, (m + s) * HALF);
            && (e.last && e.seconds > 0 ==> calls != [] && calls[|calls| - 1].at == (m + s) * HALF)
            && (!e.last && rest != [] ==> calls != [] && calls[|calls| - 1] == rest[|rest| - 1])
  {
    CallsUnrolled(s, m, n);
    hide Calls, Tick;
  }

  /** The half seconds at which the last call is made, the loop re-armed at `m` of them. */
  function FinalTick(s: nat, m: nat): nat
    requires s > 0
    decreases SaturatingSub(86_379, m)
  {
    if m + 3 * s >= 86_379 then m + s else FinalTick(s, m + s)
  }

  lemma {:induction false} FinalTickIs(s: nat, m: nat)
    requires s > 0 && (s % 2 == 0 ==> m % 2 == 0)
    requires m + 2 * s + s % 2 <= 2 * 43_190
    ensures FinalTick(s, m) + s <= 2 * 43_190
    ensures s % 2 == 0 ==> FinalTick(s, m) % 2 == 0
    decreases SaturatingSub(86_379, m)
  {
    if m + 3 * s < 86_379 {
      FinalTickIs(s, m + s);
    }
  }

  lemma TickIsFinal(s: nat, m: nat)
    requires s > 0 && m + 2 * s + s % 2 <= 2 * 43_190
    ensures var e := Tick(s * SECOND, (m + s) * HALF);
            && (e.last <==> m + 3 * s >= 86_379)
            && (e.last ==> e.seconds > 0)
  {
    TickInHalves(s, m + s);
    hide Tick;
  }

  lemma {:induction false} LastCallAt(s: nat, m: nat, n: nat)
    requires s > 0 && m + 2 * s + s % 2 <= 2 * 43_190
    ensures var calls := Calls(s * SECOND, m * HALF, NoLatency(), n);
            calls != [] && calls[|calls| - 1].at == FinalTick(s, m) * HALF
    decreases SaturatingSub(86_379, m)
  {
    TickIsFinal(s, m);
    LastUnrolled(s, m, n);
    hide Calls, Tick;
    if m + 3 * s < 86_379 {
      LastCallAt(s, m + s, n + 1);
    }
  }

  /** The last call is made half a timeout before the reach, and on a whole second for even ones. */
  lemma LastCall(s: nat, m: nat, n: nat)
    requires s > 0 && (s % 2 == 0 ==> m % 2 == 0)
    requires m + 2 * s + s % 2 <= 2 * 43_190
    ensures var calls := Calls(s * SECOND, m * HALF, NoLatency(), n);
            && calls != []
            && calls[|calls| - 1].at + s * HALF <= REACH
            && (s % 2 == 0 ==> calls[|calls| - 1].at % SECOND == 0)
  {
    LastCallAt(s, m, n);
    FinalTickIs(s, m);
    HalvesParity(FinalTick(s, m));
    hide Calls, FinalTick;
  }

  /** After `held`, the loop re-armed at `m` half seconds keeps the deadline of the closed form. */
  predicate KeepsDeadline(s: nat, m: nat, n: nat, held: nat)
    requires s > 0
  {
    var calls := Calls(s * SECOND, m * HALF, NoLatency(), n);
    && calls != []
    && DeadlineAfter(m * HALF + s * SECOND, calls, held)
       == Min(Min(RearmBefore(m * HALF, s * HALF, held) + s * SECOND, REACH), LoopReach(calls))
  }

  lemma BeforeNextTick(s: nat, m: nat, n: nat, held: nat)
    requires s > 0 && m * HALF <= held < (m + s) * HALF && (s % 2 == 0 ==> m % 2 == 0)
    requires m + 2 * s + s % 2 <= 2 * 43_190
    ensures KeepsDeadline(s, m, n, held)
  {
    LastCall(s, m, n);
    TickInHalves(s, m + s);
    CallsUnrolled(s, m, n);
    var calls := Calls(s * SECOND, m * HALF, NoLatency(), n);
    assert calls[0].at == (m + s) * HALF;
    assert LoopReach(calls) >= m * HALF + s * SECOND;
  }

  lemma AtLastTick(s: nat, m: nat, n: nat, held: nat)
    requires s > 0 && (m + s) * HALF <= held && (s % 2 == 0 ==> m % 2 == 0)
    requires m + 2 * s + s % 2 <= 2 * 43_190
    requires Tick(s * SECOND, (m + s) * HALF).last
    ensures KeepsDeadline(s, m, n, held)
  {
    LastCall(s, m, n);
    TickInHalves(s, m + s);
    CallsUnrolled(s, m, n);
    var calls := Calls(s * SECOND, m * HALF, NoLatency(), n);
    var e := Tick(s * SECOND, (m + s) * HALF);
    assert calls[1..] == [];
    assert DeadlineAfter((m + s) * HALF + e.seconds * SECOND, [], held) == LoopReach(calls);
    assert RearmBefore(m * HALF, s * HALF, held) + s * SECOND >= LoopReach(calls);
  }

  lemma FirstCallMade(deadline: nat, call: Call, rest: seq<Call>, held: nat)
    requires call.at <= held && rest != []
    ensures DeadlineAfter(deadline, [call] + rest, held)
         == DeadlineAfter(call.at + call.seconds * SECOND, rest, held)
    ensures LoopReach([call] + rest) == LoopReach(rest)
  {
    assert ([call] + rest)[1..] == rest;
  }

  lemma RearmAtNextTick(s: nat, m: nat, held: nat)
    requires s > 0 && (m + s) * HALF <= held
    ensures RearmBefore(m * HALF, s * HALF, held) == RearmBefore((m + s) * HALF, s * HALF, held)
  {
    assert (m + s) * HALF == m * HALF + s * HALF;
  }

  lemma AtEarlierTick(s: nat, m: nat, n: nat, held: nat)
    requires s > 0 && (m + s) * HALF <= held && (s % 2 == 0 ==> m % 2 == 0)
    requires m + 2 * s + s % 2 <= 2 * 43_190
    requires !Tick(s * SECOND, (m + s) * HALF).last
    requires KeepsDeadline(s, m + s, n + 1, held)
    ensures KeepsDeadline(s, m, n, held)
  {
    hide Calls, Tick, RearmBefore;
    CallsUnrolled(s, m, n);
    RearmAtNextTick(s, m, held);
    var rest := Calls(s * SECOND, (m + s) * HALF, NoLatency(), n + 1);
    FirstCallMade(m * HALF + s * SECOND, Call((m + s) * HALF, s), rest, held);
  }

  /** From a re-arm at `m` half seconds on, the loop and the closed form keep one deadline. */
  lemma {:induction false} LoopFrom(s: nat, m: nat, n: nat, held: nat)
    requires s > 0 && m * HALF <= held && (s % 2 == 0 ==> m % 2 == 0)
    requires m + 2 * s + s % 2 <= 2 * 43_190
    ensures KeepsDeadline(s, m, n, held)
    decreases 2 * 43_190 - m
  {
    TickIsFinal(s, m);
    hide KeepsDeadline, Tick;
    if held < (m + s) * HALF {
      BeforeNextTick(s, m, n, held);
    } else if Tick(s * SECOND, (m + s) * HALF).last {
      AtLastTick(s, m, n, held);
    } else {
      LoopFrom(s, m + s, n + 1, held);
      AtEarlierTick(s, m, n, held);
    }
  }

  // ---------------------------------------------------------------------------------------------
  // The closed form against the loop

  predicate AgreesAt(visibility: nat, held: nat)
    requires ExtensionPeriod(visibility) > 0
  {
    RemainingVisibility(visibility, held) == LoopRemaining(visibility, held)
  }

  /** Up to the reach, the loop's deadline is the closed form's, cut at the loop's own end. */
  lemma LoopCutsClosedForm(s: nat, held: nat)
    requires 0 < s <= 43_190
    ensures Calls(s * SECOND, 0, NoLatency(), 0) != []
    ensures var calls := Calls(s * SECOND, 0, NoLatency(), 0);
            LoopRemaining(s * SECOND, held)
            == SaturatingSub(Min(ClosedDeadline(s * SECOND, held), LoopReach(calls)), held)
  {
    LoopFrom(s, 0, 0, held);
    ClosedDeadlineUnrolled(s * SECOND, held);
    assert ExtensionPeriod(s * SECOND) == s * HALF;
  }

  /** An even timeout up to the reach: the closed form is the loop, however long it is held. */
  lemma EvenSecondsAgree(s: nat, held: nat)
    requires 0 < s <= 43_190 && s % 2 == 0
    ensures AgreesAt(s * SECOND, held)
  {
    LoopCutsClosedForm(s, held);
    LastCall(s, 0, 0);
  }

  /** Any timeout up to the reach: the closed form is never early, and at most half a second late. */
  lemma WithinHalfASecond(s: nat, held: nat)
    requires 0 < s <= 43_190
    ensures LoopRemaining(s * SECOND, held) <= RemainingVisibility(s * SECOND, held)
         <= LoopRemaining(s * SECOND, held) + HALF
  {
    LoopCutsClosedForm(s, held);
  }

  function CeilDiv(a: nat, b: nat): nat
    requires b > 0
  {
    (a + b - 1) / b
  }

  /** `j` timeouts, added up. */
  function Times(j: nat, s: nat): nat
  {
    if j == 0 then 0 else Times(j - 1, s) + s
  }

  lemma {:induction false} TimesIsProduct(j: nat, s: nat)
    ensures Times(j, s) == j * s
  {
    if j > 0 {
      TimesIsProduct(j - 1, s);
    }
  }

  /** The tick that reaches the end, by its number. */
  lemma LastTickNumber(s: nat, j: nat, m: nat)
    requires s > 0 && s % 2 == 1 && m == Times(j, s)
    requires m + 2 * s < 86_379 <= m + 3 * s
    ensures CeilDiv(86_379, s) == j + 3 && (m + s) % 2 == (j + 1) % 2
  {
    TimesIsProduct(j, s);
    assert (j + 3) * s == m + 3 * s && (j + 4) * s == m + 4 * s && (j + 1) * s == m + s;
    Quotient(j + 3, s, 86_379 + s - 1);
    OddProduct(j + 1, s);
  }

  lemma {:induction false} FinalTickParity(s: nat, j: nat, m: nat)
    requires s > 0 && s % 2 == 1 && m == Times(j, s) && m + 2 * s < 86_379
    ensures FinalTick(s, m) % 2 == 0 <==> CeilDiv(86_379, s) % 2 == 0
    decreases 86_379 - m
  {
    hide CeilDiv;
    if m + 3 * s >= 86_379 {
      LastTickNumber(s, j, m);
    } else {
      assert Times(j + 1, s) == m + s;
      hide Times;
      FinalTickParity(s, j + 1, m + s);
    }
  }

  lemma HalvesParity(m: nat)
    ensures m * HALF % SECOND == 0 <==> m % 2 == 0
  {
  }

  /** The last call of an odd timeout falls on a whole second exactly when its tick is even. */
  lemma OddLastCallParity(s: nat)
    requires 0 < s < 43_190 && s % 2 == 1
    ensures Calls(s * SECOND, 0, NoLatency(), 0) != []
    ensures var calls := Calls(s * SECOND, 0, NoLatency(), 0);
            calls[|calls| - 1].at % SECOND == 0 <==> CeilDiv(86_379, s) % 2 == 0
  {
    LastCallAt(s, 0, 0);
    FinalTickParity(s, 0, 0);
    HalvesParity(FinalTick(s, 0));
    hide Calls, FinalTick;
  }

  lemma OddProduct(a: nat, s: nat)
    requires s % 2 == 1
    ensures a * s % 2 == a % 2
  {
    var h := a * (s / 2);
    assert a * s == 2 * h + a by {
      assert s == 2 * (s / 2) + 1;
    }
    DoubleParity(h, a);
  }

  lemma DoubleParity(h: nat, a: nat)
    ensures (2 * h + a) % 2 == a % 2
  {
  }

  /** The timeouts for which the closed form and the loop never part, among all whole seconds. */
  predicate NeverParts(s: nat)
    requires s > 0
  {
    s <= 43_190 && (s % 2 == 0 || CeilDiv(86_379, s) % 2 == 0)
  }

  /** The closed form refines the loop for exactly these timeouts. */
  lemma ClosedFormRefinesLoop(s: nat)
    requires s > 0
    ensures (forall held: nat :: AgreesAt(s * SECOND, held)) <==> NeverParts(s)
  {
    if NeverParts(s) {
      forall held: nat ensures AgreesAt(s * SECOND, held) {
        NeverPartsAgrees(s, held);
      }
    } else if s > 43_190 {
      LongTimeoutParts(s);
    } else {
      OddLastCallParity(s);
      OddTimeoutParts(s);
    }
  }

  lemma NeverPartsAgrees(s: nat, held: nat)
    requires s > 0 && NeverParts(s)
    ensures AgreesAt(s * SECOND, held)
  {
    if s % 2 == 0 {
      EvenSecondsAgree(s, held);
    } else {
      OddLastCallParity(s);
      LoopCutsClosedForm(s, held);
    }
  }

  /** Past the reach, the loop starts from a deadline the closed form never allows. */
  lemma LongTimeoutParts(s: nat)
    requires s > 43_190
    ensures !AgreesAt(s * SECOND, 0)
  {
    var calls := Calls(s * SECOND, 0, NoLatency(), 0);
    assert DeadlineAfter(s * SECOND, calls, 0) == s * SECOND by {
      assert calls != [] ==> calls[0].at > 0;
    }
  }

  /** An odd timeout whose last call is on a half second parts half a second before the reach. */
  lemma OddTimeoutParts(s: nat)
    requires 0 < s < 43_190
    requires Calls(s * SECOND, 0, NoLatency(), 0) != []
    requires LoopReach(Calls(s * SECOND, 0, NoLatency(), 0)) == REACH - HALF
    ensures !AgreesAt(s * SECOND, REACH - HALF)
  {
    var held := REACH - HALF;
    LoopCutsClosedForm(s, held);
    ClosedDeadlineUnrolled(s * SECOND, held);
    assert ExtensionPeriod(s * SECOND) == s * HALF;
  }

  // ---------------------------------------------------------------------------------------------
  // Calls in time, and changes the queue accepts

  lemma CallsAre(visibility: nat, now: nat, latency: nat -> nat, k: nat)
    requires ExtensionPeriod(visibility) > 0
    ensures var at := now + ExtensionPeriod(visibility);
            Calls(visibility, now, latency, k)
            == if Tick(visibility, at).last then TickCalls(at, Tick(visibility, at))
               else TickCalls(at, Tick(visibility, at)) + Calls(visibility, at + latency(k), latency, k + 1)
  {
    hide Tick, TickCalls;
  }

  /** A tick that is not the last re-arms the full timeout. */
  lemma TickIsFull(visibility: nat, at: nat)
    requires ExtensionPeriod(visibility) >= HALF
    ensures !Tick(visibility, at).last ==> Tick(visibility, at).seconds == visibility / SECOND > 0
  {
  }

  /** Every call but the last re-arms the full timeout, one latency and one period after the one before. */
  lemma {:induction false} CallSpacing(visibility: nat, now: nat, latency: nat -> nat, k: nat, i: nat)
    requires ExtensionPeriod(visibility) >= HALF
    requires i < |Calls(visibility, now, latency, k)|
    ensures var calls := Calls(visibility, now, latency, k);
            && (i == 0 ==> calls[i].at == now + ExtensionPeriod(visibility))
            && (i > 0 ==> calls[i - 1].seconds == visibility / SECOND)
            && (i > 0 ==> calls[i].at == calls[i - 1].at + latency(k + i - 1) + ExtensionPeriod(visibility))
    decreases i
  {
    hide Calls, Tick, ExtensionPeriod;
    var at := now + ExtensionPeriod(visibility);
    CallsAre(visibility, now, latency, k);
    TickIsFull(visibility, at);
    if i > 0 {
      CallSpacing(visibility, at + latency(k), latency, k + 1, i - 1);
    }
  }

  lemma FullSecondsOf(s: nat)
    ensures ExtensionPeriod(s * SECOND) == s * HALF && s * SECOND / SECOND == s
  {
  }

  /** A re-arm fires before the one before it lapses exactly when that call took under half the timeout. */
  lemma RearmsInTime(s: nat, latency: nat -> nat, i: nat)
    requires s > 0 && i < |Calls(s * SECOND, 0, latency, 0)|
    ensures var calls := Calls(s * SECOND, 0, latency, 0);
            && (i == 0 ==> calls[0].at < s * SECOND)
            && (i > 0 ==> (calls[i].at < calls[i - 1].at + calls[i - 1].seconds * SECOND <==> latency(i - 1) < s * HALF))
  {
    FullSecondsOf(s);
    hide Calls, ExtensionPeriod;
    CallSpacing(s * SECOND, 0, latency, 0, i);
  }

  lemma TickAccepted(visibility: nat, at: nat, drift: nat)
    requires drift <= MARGIN
    ensures Tick(visibility, at).seconds > 0 ==> ChangeAccepted(at + drift, Tick(visibility, at).seconds * SECOND)
  {
  }

  lemma TickIsBounded(visibility: nat, at: nat)
    ensures !Tick(visibility, at).last ==> forall now: nat, later: nat :: now < at <= later ==> ToReach(later) < ToReach(now)
  {
  }

  /** The queue accepts every re-arm, reaching it up to the margin late, whatever the calls take. */
  lemma {:induction false} RearmsAccepted(
    visibility: nat, now: nat, latency: nat -> nat, k: nat, i: nat, drift: nat)
    requires ExtensionPeriod(visibility) > 0 && drift <= MARGIN
    requires i < |Calls(visibility, now, latency, k)|
    ensures var call := Calls(visibility, now, latency, k)[i];
            ChangeAccepted(call.at + drift, call.seconds * SECOND)
    decreases ToReach(now)
  {
    hide Calls, Tick, ChangeAccepted, ExtensionPeriod, ToReach;
    var at := now + ExtensionPeriod(visibility);
    var e := Tick(visibility, at);
    TickAccepted(visibility, at, drift);
    TickIsBounded(visibility, at);
    CallsAre(visibility, now, latency, k);
    if i >= |TickCalls(at, e)| {
      RearmsAccepted(visibility, at + latency(k), latency, k + 1, i - |TickCalls(at, e)|, drift);
    }
  }

  /** The queue accepts every deferred retry, whatever the delay and however long it was held. */
  lemma RetryAccepted(delay: nat, held: nat, drift: nat)
    requires drift <= MARGIN
    ensures ChangeAccepted(held + drift, RetrySeconds(delay, held) * SECOND)
  {
  }

  /** A deferred retry waits at least its delay exactly when its rounded delay fits the window left. */
  lemma RetryNotShortened(delay: nat, held: nat)
    ensures RetrySeconds(delay, held) * SECOND >= delay <==> WholeSeconds(delay) <= WindowLeft(held)
    ensures WholeSeconds(delay) <= WindowLeft(held) ==> RetrySeconds(delay, held) * SECOND < delay + SECOND
  {
  }

  /** What an unsettled drop asks for never reaches past the margin. */
  lemma DropWithinReach(visibility: nat, held: nat)
    requires visibility != 1
    ensures RemainingVisibility(visibility, held) <= REACH
  {
  }

  /** The queue accepts what an unsettled drop asks for, the clock moving up to the margin meanwhile. */
  lemma DropAccepted(visibility: nat, held: nat, drift: nat)
    requires visibility != 1 && drift <= MARGIN
    ensures ChangeAccepted(held + drift, RemainingVisibility(visibility, held))
  {
  }

  /** The margin is exact: any longer drift is refused for some drop and for some deferred retry. */
  lemma DriftPastMarginRefused(drift: nat)
    requires drift > MARGIN
    ensures !ChangeAccepted(drift, RemainingVisibility(REACH, 0))
    ensures !ChangeAccepted(drift, RetrySeconds(REACH, 0) * SECOND)
  {
    ClosedDeadlineUnrolled(REACH, 0);
  }
}
