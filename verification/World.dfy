// The whole in-process system as a state machine: the account, the subscriptions reading it, the
// deliveries being handled, and the clock. Every locked call of the code is one step.
module World {
  import opened Basics
  import opened Wire
  import opened Account
  import V = Visibility

  /**
   * Where a subscription is in its receive loop: between receives; with interest registered at
   * the `ticket`-th wake of its queue; about to receive; or waiting to be woken.
   */
  datatype Phase = Idle | Armed(ticket: nat) | Ready | Parked(ticket: nat)

  /** A visibility timeout: the descriptor rounds it to whole seconds. */
  type WholeSpan = d: nat | d % V.SECOND == 0

  /** A subscription, with the visibility and the redrive cap its deliveries carry. */
  datatype Reader = Reader(queue: string, max: nat, visibility: WholeSpan, cap: Option<nat>, phase: Phase)

  /** A delivery not dropped yet. */
  datatype Handle = Handle(
    queue: string, visibility: WholeSpan, received: nat, receives: nat, cap: Option<nat>, settled: bool)

  /**
   * The system, and a history of it the proofs read: the receive that drew each receipt, by
   * number, and how often each message was handed over.
   */
  datatype World = World(
    account: Account,
    readers: map<nat, Reader>,
    handles: map<nat, Handle>,
    now: nat,
    rounds: nat,
    roundOf: map<nat, nat>,
    handovers: map<nat, nat>)

  datatype Outcome = Ack | Nack(requeue: bool) | NackAfter(delay: nat)

  /**
   * One atomic step. `drift` is how far the clock moved between the moment a settlement read it
   * and the moment the queue answered.
   */
  datatype Step =
    | Advance(ticks: nat)
    | SendTo(key: string, outbound: Outbound)
    | PublishTo(topic: string, outbound: Outbound)
    | Link(topic: string, queue: string)
    | Redrive(key: string, cap: nat, deadLetter: string)
    | OpenReader(id: nat, reader: Reader)
    | CloseReader(id: nat)
    | Register(id: nat)
    | Look(id: nat)
    | Wake(id: nat)
    | Take(id: nat)
    | Settle(receipt: nat, outcome: Outcome, drift: nat)
    | Drop(receipt: nat, drift: nat)
    | Fire(timer: Timer)

  function Start(): World { World(NewAccount(), map[], map[], 0, 0, map[], map[]) }

  predicate Timely(w: World, receipt: nat, drift: nat)
  {
    receipt in w.handles && w.handles[receipt].received + drift <= w.now
  }

  predicate Enabled(w: World, step: Step)
  {
    match step
    case Advance(_) => true
    case SendTo(_, _) => true
    case PublishTo(_, _) => true
    case Link(_, _) => true
    case Redrive(_, _, _) => true
    case OpenReader(id, r) =>
      id !in w.readers && r.max > 0 && r.phase == Idle
    case CloseReader(id) => id in w.readers
    case Register(id) => id in w.readers && w.readers[id].phase.Idle?
    case Look(id) => id in w.readers && w.readers[id].phase.Armed?
    case Wake(id) =>
      id in w.readers && w.readers[id].phase.Parked?
      && QueueOf(w.account, w.readers[id].queue).wakes != w.readers[id].phase.ticket
    case Take(id) => id in w.readers && w.readers[id].phase.Ready?
    case Settle(receipt, _, drift) => Timely(w, receipt, drift) && !w.handles[receipt].settled
    case Drop(receipt, drift) => Timely(w, receipt, drift)
    case Fire(timer) => timer in w.account.timers && timer.due <= w.now
  }

  function InPhase(w: World, id: nat, phase: Phase): World
    requires id in w.readers
  {
    w.(readers := w.readers[id := w.readers[id].(phase := phase)])
  }

  // ---------------------------------------------------------------------------------------------
  // Settling

  /** A delivery at its registration's cap, or past it. */
  predicate UsedUp(h: Handle) { h.cap.Some? && h.receives >= h.cap.value }

  /** The visibility a settlement asks for, or nothing where it deletes. */
  function Asked(h: Handle, outcome: Outcome, held: nat): Option<nat>
  {
    match outcome
    case Ack => None
    case Nack(requeue) => if requeue || UsedUp(h) then Some(0) else None
    case NackAfter(delay) => Some(V.RetrySeconds(delay, held) * V.SECOND)
  }

  function HeldFor(w: World, receipt: nat, drift: nat): nat
    requires Timely(w, receipt, drift)
  {
    w.now - drift - w.handles[receipt].received
  }

  function Settled(w: World, receipt: nat, outcome: Outcome, drift: nat): World
    requires Timely(w, receipt, drift)
  {
    var h := w.handles[receipt];
    match Asked(h, outcome, HeldFor(w, receipt, drift))
    case None =>
      w.(account := Delete(w.account, h.queue, receipt), handles := w.handles[receipt := h.(settled := true)])
    case Some(visibility) =>
      var refusal := ChangeRefusal(w.account, h.queue, receipt, visibility, w.now);
      w.(account := ChangeVisibility(w.account, h.queue, receipt, visibility, w.now),
         handles := w.handles[receipt := h.(settled := refusal.None?)])
  }

  /** What a handle let go asks for. */
  function LeftOver(w: World, receipt: nat, drift: nat): Option<nat>
    requires Timely(w, receipt, drift)
  {
    var h := w.handles[receipt];
    if h.settled then None
    else Some(V.RemainingVisibility(h.visibility, HeldFor(w, receipt, drift)))
  }

  function Dropped(w: World, receipt: nat, drift: nat): World
    requires Timely(w, receipt, drift)
  {
    var h := w.handles[receipt];
    w.(account := Release(w.account, LeftOver(w, receipt, drift), h.queue, receipt, w.now),
       handles := w.handles - {receipt})
  }

  // ---------------------------------------------------------------------------------------------
  // Receiving

  /** The handles of the messages a receive handed over, under consecutive receipts. */
  function NewHandles(reader: Reader, handed: seq<Stored>, first: nat, now: nat): map<nat, Handle>
  {
    if handed == [] then map[]
    else
      var n := |handed| - 1;
      NewHandles(reader, handed[..n], first, now)[first + n :=
        Handle(reader.queue, reader.visibility, now, handed[n].receives, reader.cap, false)]
  }

  function Tagged(tags: map<nat, nat>, first: nat, count: nat, tag: nat): map<nat, nat>
  {
    if count == 0 then tags else Tagged(tags, first, count - 1, tag)[first + count - 1 := tag]
  }

  function HandoversOf(handovers: map<nat, nat>, id: nat): nat
  {
    if id in handovers then handovers[id] else 0
  }

  function HandedOver(handovers: map<nat, nat>, handed: seq<Stored>): map<nat, nat>
  {
    if handed == [] then handovers
    else
      var before := HandedOver(handovers, handed[..|handed| - 1]);
      var id := handed[|handed| - 1].id;
      before[id := HandoversOf(before, id) + 1]
  }

  /** What the receive of a subscription takes off its queue. */
  function TakenBy(w: World, id: nat): Taken
    requires id in w.readers
  {
    ScanOf(QueueOf(w.account, w.readers[id].queue), w.readers[id].max)
  }

  function Took(w: World, id: nat): World
    requires id in w.readers
  {
    var reader := w.readers[id];
    var handed := TakenBy(w, id).handed;
    InPhase(w, id, Idle).(
      account := Receive(w.account, reader.queue, reader.max, w.now),
      handles := w.handles + NewHandles(reader, handed, w.account.nextId, w.now),
      rounds := w.rounds + 1,
      roundOf := Tagged(w.roundOf, w.account.nextId, |handed|, w.rounds),
      handovers := HandedOver(w.handovers, handed))
  }

  /** The wait loop reads the queue: with nothing to hand over it waits on what it registered. */
  function Looked(w: World, id: nat): World
    requires id in w.readers && w.readers[id].phase.Armed?
  {
    var reader := w.readers[id];
    var looked := w.(account := PutQueue(w.account, reader.queue, QueueOf(w.account, reader.queue)));
    InPhase(looked, id,
      if Receivable(w.account, reader.queue, reader.max) == 0 then Parked(reader.phase.ticket) else Ready)
  }

  ghost function Next(w: World, step: Step): World
    requires Enabled(w, step)
  {
    match step
    case Advance(ticks) => w.(now := w.now + ticks)
    case SendTo(key, outbound) => w.(account := Send(w.account, key, outbound, w.now))
    case PublishTo(topic, outbound) => w.(account := Publish(w.account, topic, outbound, w.now))
    case Link(topic, queue) => w.(account := SubscribeTopic(w.account, topic, queue))
    case Redrive(key, cap, deadLetter) => w.(account := SetRedrive(w.account, key, cap, deadLetter))
    case OpenReader(id, r) => w.(account := Open(w.account, r.queue), readers := w.readers[id := r])
    case CloseReader(id) =>
      w.(account := Close(w.account, w.readers[id].queue), readers := w.readers - {id})
    case Register(id) => InPhase(w, id, Armed(QueueOf(w.account, w.readers[id].queue).wakes))
    case Look(id) => Looked(w, id)
    case Wake(id) => InPhase(w, id, Idle)
    case Take(id) => Took(w, id)
    case Settle(receipt, outcome, drift) => Settled(w, receipt, outcome, drift)
    case Drop(receipt, drift) => Dropped(w, receipt, drift)
    case Fire(t) =>
      w.(account := Lapse(w.account.(timers := w.account.timers - {t}), t.key, t.receipt, t.generation))
  }

  /** Whether every step of a run is enabled where it is taken. */
  ghost predicate Legal(w: World, steps: seq<Step>)
    decreases |steps|, 0
  {
    steps == [] || (Legal(w, steps[..|steps| - 1]) && Enabled(After(w, steps[..|steps| - 1]), steps[|steps| - 1]))
  }

  /** The world after a run. */
  ghost function After(w: World, steps: seq<Step>): World
    requires Legal(w, steps)
    decreases |steps|, 1
  {
    if steps == [] then w else Next(After(w, steps[..|steps| - 1]), steps[|steps| - 1])
  }
}
