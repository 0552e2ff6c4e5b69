// The in-process account as a value, and what each of its operations does to it: the
// specification the `Bus` class is proved against. Time is a number of nanoseconds.
module Account {
  import opened Basics
  import opened Names
  import opened Wire
  import opened Deduplication
  import V = Visibility

  const MAX_RECEIVE_COUNT := 1_000

  /** A message the account holds; `id` is its sequence number. */
  datatype Stored = Stored(id: nat, outbound: Outbound, receives: nat)

  /** A received message, when it was received, and the number of its visibility changes. */
  datatype InFlight = InFlight(stored: Stored, received: nat, generation: nat)

  datatype DeadLetter = DeadLetter(cap: nat, queue: string)

  /**
   * One queue. `visible` holds the entries of the ordered map in key order; `wakes` counts the
   * calls that woke the waiters, which is how a waiter tells it was woken.
   */
  datatype Queue = Queue(
    fifo: bool,
    redrive: Option<DeadLetter>,
    subscriptions: nat,
    wakes: nat,
    visible: seq<Stored>,
    inFlight: map<nat, InFlight>,
    deduplication: Seen)

  /** An armed visibility timeout. */
  datatype Timer = Timer(key: string, receipt: nat, generation: nat, due: nat)

  /**
   * The account, its identifier counter, and the harness coordinator it reports to: the messages
   * counted in, those counted out, and the redeliveries scheduled.
   */
  datatype Account = Account(
    queues: map<string, Queue>,
    topics: map<string, seq<string>>,
    topicSeen: map<string, Seen>,
    nextId: nat,
    enqueued: nat,
    consumed: nat,
    timers: set<Timer>)

  datatype Received = Received(message: Message, receipt: nat, at: nat)

  function NewAccount(): Account { Account(map[], map[], map[], 1, 0, 0, {}) }

  function NewQueue(fifo: bool): Queue { Queue(fifo, None, 0, 0, [], map[], map[]) }

  type Queues = map<string, Queue>

  function QueueAt(queues: Queues, key: string): Queue
  {
    if key in queues then queues[key] else NewQueue(IsFifo(key))
  }

  /** The queue keyed `key`; one not used yet is an empty one. */
  function QueueOf(a: Account, key: string): Queue { QueueAt(a.queues, key) }

  function PutQueue(a: Account, key: string, q: Queue): Account
  {
    a.(queues := a.queues[key := q])
  }

  function GroupOf(stored: Stored): Option<Text>
  {
    if stored.outbound.fifo.Some? then Some(stored.outbound.fifo.value.group) else None
  }

  /** What an earlier receive has not let go of yet, group by group. */
  function Blocked(q: Queue): set<Text>
  {
    if !q.fifo then {}
    else set r | r in q.inFlight && GroupOf(q.inFlight[r].stored).Some? :: GroupOf(q.inFlight[r].stored).value
  }

  predicate Free(stored: Stored, blocked: set<Text>)
  {
    GroupOf(stored).None? || GroupOf(stored).value !in blocked
  }

  /** The visible messages a receive may hand out, in order. */
  function FreeOf(visible: seq<Stored>, blocked: set<Text>): seq<Stored>
  {
    if visible == [] then []
    else (if Free(visible[0], blocked) then [visible[0]] else []) + FreeOf(visible[1..], blocked)
  }

  /** Insertion into the ordered map: an entry under the same key is replaced. */
  function Insert(visible: seq<Stored>, s: Stored): seq<Stored>
  {
    if visible == [] || s.id < visible[0].id then [s] + visible
    else if s.id == visible[0].id then [s] + visible[1..]
    else [visible[0]] + Insert(visible[1..], s)
  }

  function Enqueue(a: Account, key: string, s: Stored): Account
  {
    var q := QueueOf(a, key);
    if q.subscriptions == 0 then PutQueue(a, key, q)
    else PutQueue(a, key, q.(visible := Insert(q.visible, s), wakes := q.wakes + 1)).(enqueued := a.enqueued + 1)
  }

  function Deliver(a: Account, key: string, outbound: Outbound, now: nat): Account
  {
    var q := QueueOf(a, key);
    var (repeat, seen) :=
      if outbound.fifo.Some? then SeenWithinWindow(q.deduplication, outbound.fifo.value.deduplication, now)
      else (false, q.deduplication);
    var noted := PutQueue(a, key, q.(deduplication := seen));
    if repeat then noted
    else Enqueue(noted.(nextId := a.nextId + 1), key, Stored(a.nextId, outbound, 0))
  }

  /** Why a queue or topic that is FIFO or not refuses a message, if it does. */
  ghost function SendRefusal(fifo: bool, outbound: Outbound, limit: nat): Option<Refusal>
  {
    if !MessageAccepted(outbound, limit) then Some(MessageRefused)
    else if fifo && outbound.fifo.None? then Some(GroupMissing)
    else if !fifo && outbound.fifo.Some? then Some(GroupUnexpected)
    else if !FifoAccepted(outbound) then Some(IdRefused)
    else None
  }

  ghost function Send(a: Account, key: string, outbound: Outbound, now: nat): Account
  {
    if SendRefusal(IsFifo(key), outbound, SQS_MAX_MESSAGE).Some? then a else Deliver(a, key, outbound, now)
  }

  /** The copy of a topic's message a queue receives: a standard queue's carries no group. */
  function CopyFor(key: string, outbound: Outbound): Outbound
  {
    if IsFifo(key) then outbound else outbound.(fifo := None)
  }

  function FanOut(a: Account, endpoints: seq<string>, outbound: Outbound, now: nat): Account
    decreases |endpoints|
  {
    if endpoints == [] then a
    else FanOut(Deliver(a, endpoints[0], CopyFor(endpoints[0], outbound), now), endpoints[1..], outbound, now)
  }

  function EndpointsOf(a: Account, topic: string): seq<string>
  {
    if topic in a.topics then a.topics[topic] else []
  }

  function TopicSeen(a: Account, topic: string): Seen
  {
    if topic in a.topicSeen then a.topicSeen[topic] else map[]
  }

  ghost function Publish(a: Account, topic: string, outbound: Outbound, now: nat): Account
  {
    if SendRefusal(IsFifo(topic), outbound, SNS_MAX_MESSAGE).Some? then a
    else if outbound.fifo.None? then FanOut(a, EndpointsOf(a, topic), outbound, now)
    else
      var (repeat, seen) := SeenWithinWindow(TopicSeen(a, topic), outbound.fifo.value.deduplication, now);
      var noted := a.(topicSeen := a.topicSeen[topic := seen]);
      if repeat then noted else FanOut(noted, EndpointsOf(noted, topic), outbound, now)
  }

  predicate SubscribeRefused(topic: string, queue: string) { !IsFifo(topic) && IsFifo(queue) }

  function SubscribeTopic(a: Account, topic: string, queue: string): Account
  {
    if SubscribeRefused(topic, queue) then a
    else
      var endpoints := EndpointsOf(a, topic);
      a.(topics := a.topics[topic := if queue in endpoints then endpoints else endpoints + [queue]])
  }

  function Open(a: Account, key: string): Account
  {
    var q := QueueOf(a, key);
    PutQueue(a, key, q.(subscriptions := q.subscriptions + 1))
  }

  /** The last subscription to close takes what the queue shows with it. */
  function Close(a: Account, key: string): Account
  {
    var q := QueueOf(a, key);
    var subscriptions := SaturatingSub(q.subscriptions, 1);
    if subscriptions == 0 then
      PutQueue(a, key, q.(subscriptions := 0, visible := [])).(consumed := a.consumed + |q.visible|)
    else PutQueue(a, key, q.(subscriptions := subscriptions))
  }

  function RedriveRefusal(key: string, cap: nat, deadLetter: string): Option<Refusal>
  {
    match QueueKey(deadLetter)
    case None => Some(NameRefused)
    case Some(target) =>
      if cap > MAX_RECEIVE_COUNT then Some(CapRefused)
      else if IsFifo(key) != IsFifo(target) then Some(KindMismatch)
      else None
  }

  function SetRedrive(a: Account, key: string, cap: nat, deadLetter: string): Account
  {
    if RedriveRefusal(key, cap, deadLetter).Some? then a
    else
      var target := QueueKey(deadLetter).value;
      var created := PutQueue(a, target, QueueOf(a, target));
      PutQueue(created, key, QueueOf(created, key).(redrive := Some(DeadLetter(cap, target))))
  }

  // ---------------------------------------------------------------------------------------------
  // Receiving

  /** What one receive takes: messages handed over, messages spent, and what it leaves visible. */
  datatype Taken = Taken(handed: seq<Stored>, spent: seq<Stored>, left: seq<Stored>)

  predicate Spent(s: Stored, redrive: Option<DeadLetter>)
  {
    redrive.Some? && s.receives >= redrive.value.cap
  }

  function Counted(s: Stored): Stored { s.(receives := Min(s.receives + 1, U32_MAX)) }

  /** One pass over the visible messages, in order, until `max` are handed over. */
  function Scan(visible: seq<Stored>, blocked: set<Text>, redrive: Option<DeadLetter>, max: nat): Taken
  {
    if max == 0 || visible == [] then Taken([], [], visible)
    else
      var s, rest := visible[0], visible[1..];
      if !Free(s, blocked) then
        var t := Scan(rest, blocked, redrive, max);
        t.(left := [s] + t.left)
      else if Spent(s, redrive) then
        var t := Scan(rest, blocked, redrive, max);
        t.(spent := [s] + t.spent)
      else
        var t := Scan(rest, blocked, redrive, max - 1);
        t.(handed := [Counted(s)] + t.handed)
  }

  function ScanOf(q: Queue, max: nat): Taken { Scan(q.visible, Blocked(q), q.redrive, max) }

  /** The in-flight entries of the messages handed over, under consecutive receipts. */
  function Flights(handed: seq<Stored>, first: nat, now: nat): map<nat, InFlight>
  {
    if handed == [] then map[]
    else
      var n := |handed| - 1;
      Flights(handed[..n], first, now)[first + n := InFlight(handed[n], now, 0)]
  }

  /** One more message handed over is one more entry in flight. */
  lemma FlightsOneMore(m: map<nat, InFlight>, handed: seq<Stored>, s: Stored, first: nat, now: nat)
    ensures m + Flights(handed + [s], first, now)
         == (m + Flights(handed, first, now))[first + |handed| := InFlight(s, now, 0)]
  {
    assert (handed + [s])[..|handed|] == handed;
  }

  /** Moves spent messages, one after the other, to the dead-letter queue. */
  function MoveSpent(a: Account, target: string, spent: seq<Stored>): Account
    decreases |spent|
  {
    if spent == [] then a
    else MoveSpent(Enqueue(a.(consumed := a.consumed + 1), target, spent[0]), target, spent[1..])
  }

  /** The queue after a receive took `t` from it. */
  function TakenFrom(q: Queue, t: Taken, first: nat, now: nat): Queue
  {
    q.(visible := t.left, inFlight := q.inFlight + Flights(t.handed, first, now))
  }

  function Receive(a: Account, key: string, max: nat, now: nat): Account
  {
    var q := QueueOf(a, key);
    var t := ScanOf(q, max);
    var taken := PutQueue(a, key, TakenFrom(q, t, a.nextId, now)).(nextId := a.nextId + |t.handed|);
    if q.redrive.Some? then MoveSpent(taken, q.redrive.value.queue, t.spent) else taken
  }

  /** The messages a receive returns. */
  function Deliveries(handed: seq<Stored>, first: nat, now: nat): seq<Received>
  {
    seq(|handed|, i requires 0 <= i < |handed| =>
      Received(WireMessage(handed[i].outbound, Some(first + i), Some(handed[i].receives)), first + i, now))
  }

  /** What a subscription asking for up to `max` messages would find free. */
  function Receivable(a: Account, key: string, max: nat): nat
  {
    var q := QueueOf(a, key);
    Min(|FreeOf(q.visible, Blocked(q))|, max)
  }

  // ---------------------------------------------------------------------------------------------
  // Settling

  function Ground(q: Queue, receipt: nat): Queue { q.(inFlight := q.inFlight - {receipt}) }

  function Delete(a: Account, key: string, receipt: nat): Account
  {
    var q := QueueOf(a, key);
    PutQueue(a, key, if receipt in q.inFlight then Ground(q, receipt).(wakes := q.wakes + 1) else q)
  }

  /** Takes a message out of flight and makes it visible again. */
  function Return(a: Account, key: string, receipt: nat): Account
    requires receipt in QueueOf(a, key).inFlight
  {
    var q := QueueOf(a, key);
    Enqueue(PutQueue(a, key, Ground(q, receipt)), key, q.inFlight[receipt].stored)
  }

  lemma CreatedThenReturned(a: Account, key: string, receipt: nat)
    requires receipt in QueueOf(a, key).inFlight
    ensures Return(PutQueue(a, key, QueueOf(a, key)), key, receipt) == Return(a, key, receipt)
  {
    hide Insert;
    var created := PutQueue(a, key, QueueOf(a, key));
    assert PutQueue(created, key, Ground(QueueOf(a, key), receipt)).queues
        == PutQueue(a, key, Ground(QueueOf(a, key), receipt)).queues;
    hide Enqueue;
  }

  lemma CreatedThenRearmed(a: Account, key: string, receipt: nat, visibility: nat, now: nat)
    requires receipt in QueueOf(a, key).inFlight
    ensures Rearm(PutQueue(a, key, QueueOf(a, key)), key, receipt, visibility, now) == Rearm(a, key, receipt, visibility, now)
  {
    var created := PutQueue(a, key, QueueOf(a, key));
    assert Rearm(created, key, receipt, visibility, now).queues == Rearm(a, key, receipt, visibility, now).queues;
  }

  /** Creating the queue first changes nothing for what is done to it afterwards. */
  lemma CreatedFirst(a: Account, key: string, receipt: nat, visibility: nat, now: nat)
    requires receipt in QueueOf(a, key).inFlight
    ensures var created := PutQueue(a, key, QueueOf(a, key));
            && receipt in QueueOf(created, key).inFlight
            && Return(created, key, receipt) == Return(a, key, receipt)
            && Rearm(created, key, receipt, visibility, now) == Rearm(a, key, receipt, visibility, now)
  {
    hide Return, Rearm;
    CreatedThenReturned(a, key, receipt);
    CreatedThenRearmed(a, key, receipt, visibility, now);
  }

  function ChangeRefusal(a: Account, key: string, receipt: nat, visibility: nat, now: nat): Option<Refusal>
  {
    var q := QueueOf(a, key);
    if visibility / V.SECOND > V.MAX_VISIBILITY_SECS then Some(VisibilityTooLong)
    else if receipt !in q.inFlight then Some(NotInFlight)
    else if visibility > 0 && SaturatingSub(now, q.inFlight[receipt].received) + visibility > V.WINDOW then
      Some(PastWindow)
    else None
  }

  /** Starts a new generation of a message in flight, with a timer of its own. */
  function Rearm(a: Account, key: string, receipt: nat, visibility: nat, now: nat): Account
    requires receipt in QueueOf(a, key).inFlight
  {
    var q := QueueOf(a, key);
    var entry := q.inFlight[receipt];
    var bumped := entry.(generation := entry.generation + 1);
    PutQueue(a, key, q.(inFlight := q.inFlight[receipt := bumped]))
      .(timers := a.timers + {Timer(key, receipt, bumped.generation, now + visibility)})
  }

  function ChangeVisibility(a: Account, key: string, receipt: nat, visibility: nat, now: nat): Account
  {
    var q := QueueOf(a, key);
    if ChangeRefusal(a, key, receipt, visibility, now).Some? then
      if visibility / V.SECOND > V.MAX_VISIBILITY_SECS then a else PutQueue(a, key, q)
    else if visibility == 0 then Return(a, key, receipt)
    else Rearm(a, key, receipt, visibility, now)
  }

  /** A timer that fires: stale ones change nothing. */
  function Lapse(a: Account, key: string, receipt: nat, generation: nat): Account
  {
    var q := QueueOf(a, key);
    if receipt in q.inFlight && q.inFlight[receipt].generation == generation then Return(a, key, receipt)
    else PutQueue(a, key, q)
  }

  /** A handle let go: the change an unsettled one asks for, and the delivery counted out. */
  function Release(a: Account, remaining: Option<nat>, key: string, receipt: nat, now: nat): Account
  {
    var changed := if remaining.Some? then ChangeVisibility(a, key, receipt, remaining.value, now) else a;
    changed.(consumed := changed.consumed + 1)
  }
}
