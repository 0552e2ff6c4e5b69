// The in-process account as the code keeps it: an object whose methods change it in place, and the
// receipt a delivery settles through. Each method does to the state what `Account` says.
module InProcess {
  import opened Basics
  import opened Names
  import opened Wire
  import opened Deduplication
  import A = Account
  import V = Visibility

  class Bus {
    var queues: map<string, A.Queue>
    var topics: map<string, seq<string>>
    var topicSeen: map<string, Seen>
    var nextId: nat
    var enqueued: nat
    var consumed: nat
    var timers: set<A.Timer>

    ghost function State(): A.Account
      reads this
    {
      A.Account(queues, topics, topicSeen, nextId, enqueued, consumed, timers)
    }

    constructor ()
      ensures State() == A.NewAccount()
    {
      queues, topics, topicSeen, nextId := map[], map[], map[], 1;
      enqueued, consumed, timers := 0, 0, {};
    }

    /** Looks a queue up, adding an empty one under a key not seen before. */
    method QueueOf(key: string) returns (q: A.Queue)
      modifies this`queues
      ensures q == A.QueueOf(old(State()), key)
      ensures State() == A.PutQueue(old(State()), key, q)
    {
      if key !in queues {
        queues := queues[key := A.NewQueue(IsFifo(key))];
      }
      q := queues[key];
      assert queues == old(queues)[key := q];
    }

    method Next() returns (id: nat)
      modifies this`nextId
      ensures id == old(nextId) && nextId == id + 1
    {
      id := nextId;
      nextId := nextId + 1;
    }

    method Open(key: string)
      modifies this
      ensures State() == A.Open(old(State()), key)
    {
      var q := QueueOf(key);
      queues := queues[key := q.(subscriptions := q.subscriptions + 1)];
    }

    method Close(key: string)
      modifies this
      ensures State() == A.Close(old(State()), key)
    {
      var q := QueueOf(key);
      var subscriptions := SaturatingSub(q.subscriptions, 1);
      var dropped := 0;
      if subscriptions == 0 {
        dropped := |q.visible|;
        queues := queues[key := q.(subscriptions := subscriptions, visible := [])];
      } else {
        queues := queues[key := q.(subscriptions := subscriptions)];
      }
      for i := 0 to dropped
        invariant consumed == old(consumed) + i
        invariant State() == A.Close(old(State()), key).(consumed := consumed)
      {
        consumed := consumed + 1;
      }
    }

    method SetRedrive(key: string, cap: nat, deadLetter: string) returns (refusal: Option<Refusal>)
      modifies this
      ensures refusal == A.RedriveRefusal(key, cap, deadLetter)
      ensures State() == A.SetRedrive(old(State()), key, cap, deadLetter)
    {
      hide QueueKey;
      var target := QueueKey(deadLetter);
      if target.None? {
        return Some(NameRefused);
      }
      if cap > A.MAX_RECEIVE_COUNT {
        return Some(CapRefused);
      }
      if IsFifo(key) != IsFifo(target.value) {
        return Some(KindMismatch);
      }
      var created := QueueOf(target.value);
      var q := QueueOf(key);
      queues := queues[key := q.(redrive := Some(A.DeadLetter(cap, target.value)))];
      return None;
    }

    /** Makes a message visible on a queue, unless the queue has no subscription. */
    method Enqueue(key: string, s: A.Stored)
      modifies this
      ensures State() == A.Enqueue(old(State()), key, s)
    {
      var q := QueueOf(key);
      if q.subscriptions == 0 {
        return;
      }
      enqueued := enqueued + 1;
      queues := queues[key := q.(visible := A.Insert(q.visible, s), wakes := q.wakes + 1)];
    }

    method Deliver(key: string, outbound: Outbound, now: nat)
      modifies this
      ensures State() == A.Deliver(old(State()), key, outbound, now)
    {
      hide SeenWithinWindow, A.Enqueue;
      var q := QueueOf(key);
      if outbound.fifo.Some? {
        var (repeat, seen) := SeenWithinWindow(q.deduplication, outbound.fifo.value.deduplication, now);
        queues := queues[key := q.(deduplication := seen)];
        assert queues == old(queues)[key := q.(deduplication := seen)];
        if repeat {
          return;
        }
      }
      ghost var noted := State();
      var id := Next();
      assert State() == noted.(nextId := noted.nextId + 1);
      Enqueue(key, A.Stored(id, outbound, 0));
    }

    /** The checks of a send to, or a publish on, a destination of the given kind. */
    method Refused(fifo: bool, outbound: Outbound, limit: nat) returns (refusal: Option<Refusal>)
      ensures refusal == A.SendRefusal(fifo, outbound, limit)
    {
      var accepted := CheckMessage(outbound, limit);
      if !accepted {
        return Some(MessageRefused);
      }
      if fifo && outbound.fifo.None? {
        return Some(GroupMissing);
      }
      if !fifo && outbound.fifo.Some? {
        return Some(GroupUnexpected);
      }
      return if FifoAccepted(outbound) then None else Some(IdRefused);
    }

    method Send(key: string, outbound: Outbound, now: nat) returns (refusal: Option<Refusal>)
      modifies this
      ensures refusal == A.SendRefusal(IsFifo(key), outbound, SQS_MAX_MESSAGE)
      ensures State() == A.Send(old(State()), key, outbound, now)
    {
      refusal := Refused(IsFifo(key), outbound, SQS_MAX_MESSAGE);
      if refusal.None? {
        Deliver(key, outbound, now);
      }
    }

    method Publish(topic: string, outbound: Outbound, now: nat) returns (refusal: Option<Refusal>)
      modifies this
      ensures refusal == A.SendRefusal(IsFifo(topic), outbound, SNS_MAX_MESSAGE)
      ensures State() == A.Publish(old(State()), topic, outbound, now)
    {
      refusal := Refused(IsFifo(topic), outbound, SNS_MAX_MESSAGE);
      if refusal.Some? {
        return;
      }
      if outbound.fifo.Some? {
        var seen := if topic in topicSeen then topicSeen[topic] else map[];
        var (repeat, after) := SeenWithinWindow(seen, outbound.fifo.value.deduplication, now);
        topicSeen := topicSeen[topic := after];
        if repeat {
          return;
        }
      }
      var endpoints := if topic in topics then topics[topic] else [];
      ghost var noted := State();
      for i := 0 to |endpoints|
        invariant A.FanOut(State(), endpoints[i..], outbound, now) == A.FanOut(noted, endpoints, outbound, now)
      {
        var copy := outbound;
        if !IsFifo(endpoints[i]) {
          copy := copy.(fifo := None);
        }
        assert endpoints[i..][1..] == endpoints[i + 1..];
        Deliver(endpoints[i], copy, now);
      }
    }

    method SubscribeTopic(topic: string, queue: string) returns (refusal: Option<Refusal>)
      modifies this
      ensures refusal.Some? <==> A.SubscribeRefused(topic, queue)
      ensures State() == A.SubscribeTopic(old(State()), topic, queue)
    {
      if !IsFifo(topic) && IsFifo(queue) {
        return Some(KindMismatch);
      }
      var endpoints := if topic in topics then topics[topic] else [];
      if queue !in endpoints {
        endpoints := endpoints + [queue];
      }
      topics := topics[topic := endpoints];
      return None;
    }

    /** Where the first message of no blocked group stands. */
    method NextReceivable(visible: seq<A.Stored>, blocked: set<Text>) returns (found: Option<nat>)
      ensures found.Some? ==> found.value < |visible| && A.Free(visible[found.value], blocked)
      ensures forall i :: 0 <= i < (if found.Some? then found.value else |visible|) ==> !A.Free(visible[i], blocked)
    {
      for i := 0 to |visible|
        invariant forall j :: 0 <= j < i ==> !A.Free(visible[j], blocked)
      {
        if A.Free(visible[i], blocked) {
          return Some(i);
        }
      }
      return None;
    }

    method Receivable(key: string, max: nat) returns (count: nat)
      modifies this`queues
      ensures count == A.Receivable(old(State()), key, max)
      ensures State() == A.PutQueue(old(State()), key, A.QueueOf(old(State()), key))
    {
      var q := QueueOf(key);
      var blocked := A.Blocked(q);
      count := 0;
      var i := 0;
      while i < |q.visible| && count < max
        invariant i <= |q.visible| && count <= max
        invariant count + |A.FreeOf(q.visible[i..], blocked)| == |A.FreeOf(q.visible, blocked)|
      {
        assert q.visible[i..][1..] == q.visible[i + 1..];
        if A.Free(q.visible[i], blocked) {
          count := count + 1;
        }
        i := i + 1;
      }
    }

    /**
     * The receive loop over queue `q`: takes the first message it may hand out, again and again,
     * until `max` are handed over or none is left. The account is locked throughout, so the
     * receipts it draws are consecutive from `first`.
     */
    method TakeFrom(q: A.Queue, max: nat, first: nat, now: nat)
      returns (received: seq<A.Received>, spent: seq<A.Stored>, visible: seq<A.Stored>,
               inFlight: map<nat, A.InFlight>)
      ensures var t := A.ScanOf(q, max);
              && received == A.Deliveries(t.handed, first, now) && spent == t.spent && visible == t.left
              && inFlight == q.inFlight + A.Flights(t.handed, first, now)
    {
      hide Taking, A.Scan, A.Flights, A.Deliveries, A.Free, A.Blocked;
      var blocked := A.Blocked(q);
      received, spent, visible, inFlight := [], [], q.visible, q.inFlight;
      ghost var handed: seq<A.Stored> := [];
      NothingTaken(q, max, first, now);
      while |received| < max
        invariant |received| <= max
        invariant Taking(q, max, first, now, handed, received, spent, visible, inFlight)
        decreases |visible|
      {
        var next := NextReceivable(visible, blocked);
        if next.None? {
          break;
        }
        var i := next.value;
        var s := visible[i];
        TakingOne(q, max, first, now, handed, received, spent, visible, inFlight, i);
        visible := visible[..i] + visible[i + 1..];
        if A.Spent(s, q.redrive) {
          spent := spent + [s];
          continue;
        }
        s := A.Counted(s);
        var receipt := first + |received|;
        received := received
          + [A.Received(WireMessage(s.outbound, Some(receipt), Some(s.receives)), receipt, now)];
        inFlight := inFlight[receipt := A.InFlight(s, now, 0)];
        handed := handed + [s];
      }
      AllTaken(q, max, first, now, handed, received, spent, visible, inFlight);
    }

    /** Receives up to `max` messages; those found spent move to the dead-letter queue afterwards. */
    method Receive(key: string, max: nat, now: nat) returns (received: seq<A.Received>)
      modifies this
      ensures State() == A.Receive(old(State()), key, max, now)
      ensures received == A.Deliveries(A.ScanOf(A.QueueOf(old(State()), key), max).handed, old(nextId), now)
    {
      hide A.ScanOf, A.Flights, A.MoveSpent;
      var q := QueueOf(key);
      var spent, visible, inFlight;
      received, spent, visible, inFlight := TakeFrom(q, max, nextId, now);
      queues := queues[key := q.(visible := visible, inFlight := inFlight)];
      nextId := nextId + |received|;
      assert queues == old(queues)[key := A.TakenFrom(q, A.ScanOf(q, max), old(nextId), now)];
      if q.redrive.Some? {
        MoveSpent(q.redrive.value.queue, spent);
      }
    }

    /** Counts the spent messages out and puts them on the dead-letter queue, one after the other. */
    method MoveSpent(target: string, spent: seq<A.Stored>)
      modifies this
      ensures State() == A.MoveSpent(old(State()), target, spent)
    {
      hide A.Enqueue;
      for i := 0 to |spent|
        invariant A.MoveSpent(State(), target, spent[i..]) == A.MoveSpent(old(State()), target, spent)
      {
        assert spent[i..][1..] == spent[i + 1..];
        ghost var before := State();
        consumed := consumed + 1;
        assert State() == before.(consumed := before.consumed + 1);
        Enqueue(target, spent[i]);
      }
    }

    method Delete(key: string, receipt: nat)
      modifies this
      ensures State() == A.Delete(old(State()), key, receipt)
    {
      var q := QueueOf(key);
      if receipt in q.inFlight {
        queues := queues[key := q.(inFlight := q.inFlight - {receipt}, wakes := q.wakes + 1)];
      }
    }

    /** Takes a message out of flight and makes it visible again. */
    method Return(key: string, receipt: nat)
      requires key in queues && receipt in queues[key].inFlight
      modifies this
      ensures State() == A.Return(old(State()), key, receipt)
    {
      var q := queues[key];
      queues := queues[key := q.(inFlight := q.inFlight - {receipt})];
      assert State() == A.PutQueue(old(State()), key, A.Ground(q, receipt));
      Enqueue(key, q.inFlight[receipt].stored);
    }

    method ChangeVisibility(key: string, receipt: nat, visibility: nat, now: nat)
      returns (refusal: Option<Refusal>)
      modifies this
      ensures refusal == A.ChangeRefusal(old(State()), key, receipt, visibility, now)
      ensures State() == A.ChangeVisibility(old(State()), key, receipt, visibility, now)
    {
      if visibility / V.SECOND > V.MAX_VISIBILITY_SECS {
        return Some(VisibilityTooLong);
      }
      var q := QueueOf(key);
      if receipt !in q.inFlight {
        return Some(NotInFlight);
      }
      var entry := q.inFlight[receipt];
      A.CreatedFirst(old(State()), key, receipt, visibility, now);
      if visibility == 0 {
        Return(key, receipt);
        return None;
      }
      if SaturatingSub(now, entry.received) + visibility > V.WINDOW {
        return Some(PastWindow);
      }
      Rearm(key, receipt, visibility, now);
      return None;
    }

    /** Bumps the generation of a message in flight and arms its timer under the new one. */
    method Rearm(key: string, receipt: nat, visibility: nat, now: nat)
      requires key in queues && receipt in queues[key].inFlight
      modifies this
      ensures State() == A.Rearm(old(State()), key, receipt, visibility, now)
    {
      var q := queues[key];
      var entry := q.inFlight[receipt];
      var bumped := entry.(generation := entry.generation + 1);
      queues := queues[key := q.(inFlight := q.inFlight[receipt := bumped])];
      timers := timers + {A.Timer(key, receipt, bumped.generation, now + visibility)};
    }

    method Lapse(key: string, receipt: nat, generation: nat)
      modifies this
      ensures State() == A.Lapse(old(State()), key, receipt, generation)
    {
      var q := QueueOf(key);
      if receipt in q.inFlight && q.inFlight[receipt].generation == generation {
        A.CreatedFirst(old(State()), key, receipt, 0, 0);
        Return(key, receipt);
      }
    }
  }

  /** `handed` and `spent` in front of what a scan takes. */
  ghost function Onto(handed: seq<A.Stored>, spent: seq<A.Stored>, t: A.Taken): A.Taken
  {
    A.Taken(handed + t.handed, spent + t.spent, t.left)
  }

  /** A receive under way: with what is left to scan, it takes what one pass takes. */
  ghost predicate Taking(
    q: A.Queue, max: nat, first: nat, now: nat, handed: seq<A.Stored>, received: seq<A.Received>,
    spent: seq<A.Stored>, visible: seq<A.Stored>, inFlight: map<nat, A.InFlight>)
  {
    && |received| == |handed| <= max
    && received == A.Deliveries(handed, first, now)
    && inFlight == q.inFlight + A.Flights(handed, first, now)
    && A.ScanOf(q, max) == Onto(handed, spent, A.Scan(visible, A.Blocked(q), q.redrive, max - |handed|))
  }

  lemma NothingTaken(q: A.Queue, max: nat, first: nat, now: nat)
    ensures Taking(q, max, first, now, [], [], [], q.visible, q.inFlight)
  {
    hide A.Blocked;
    assert q.inFlight + A.Flights([], first, now) == q.inFlight;
    assert A.Deliveries([], first, now) == [];
  }

  /** With no room or nothing free left, what was taken is what one pass takes. */
  lemma AllTaken(
    q: A.Queue, max: nat, first: nat, now: nat, handed: seq<A.Stored>, received: seq<A.Received>,
    spent: seq<A.Stored>, visible: seq<A.Stored>, inFlight: map<nat, A.InFlight>)
    requires Taking(q, max, first, now, handed, received, spent, visible, inFlight)
    requires |received| == max || forall i :: 0 <= i < |visible| ==> !A.Free(visible[i], A.Blocked(q))
    ensures var t := A.ScanOf(q, max);
            && received == A.Deliveries(t.handed, first, now) && spent == t.spent && visible == t.left
            && inFlight == q.inFlight + A.Flights(t.handed, first, now)
  {
    ScanDone(visible, A.Blocked(q), q.redrive, max - |received|);
    hide A.Scan, A.Blocked, A.Flights, A.Deliveries;
    assert handed + [] == handed && spent + [] == spent;
  }

  /** Taking the first free message keeps a receive under way. */
  lemma TakingOne(
    q: A.Queue, max: nat, first: nat, now: nat, handed: seq<A.Stored>, received: seq<A.Received>,
    spent: seq<A.Stored>, visible: seq<A.Stored>, inFlight: map<nat, A.InFlight>, i: nat)
    requires Taking(q, max, first, now, handed, received, spent, visible, inFlight) && |received| < max
    requires i < |visible| && A.Free(visible[i], A.Blocked(q))
    requires forall j :: 0 <= j < i ==> !A.Free(visible[j], A.Blocked(q))
    ensures var s, rest, receipt := visible[i], visible[..i] + visible[i + 1..], first + |received|;
            var c := A.Counted(s);
            && (A.Spent(s, q.redrive) ==> Taking(q, max, first, now, handed, received, spent + [s], rest, inFlight))
            && (!A.Spent(s, q.redrive) ==>
                  Taking(q, max, first, now, handed + [c],
                    received + [A.Received(WireMessage(c.outbound, Some(receipt), Some(c.receives)), receipt, now)],
                    spent, rest, inFlight[receipt := A.InFlight(c, now, 0)]))
  {
    var s, rest, blocked := visible[i], visible[..i] + visible[i + 1..], A.Blocked(q);
    var room := max - |handed|;
    ScanPastBlocked(visible, blocked, q.redrive, room, i);
    if A.Spent(s, q.redrive) {
      OntoOnto(handed, spent, [], [s], A.Scan(rest, blocked, q.redrive, room));
    } else {
      OntoOnto(handed, spent, [A.Counted(s)], [], A.Scan(rest, blocked, q.redrive, room - 1));
      OneMoreHanded(q.inFlight, handed, A.Counted(s), first, now);
    }
  }

  /** One more message handed over: one more entry in flight, one more delivery returned. */
  lemma OneMoreHanded(held: map<nat, A.InFlight>, handed: seq<A.Stored>, s: A.Stored, first: nat, now: nat)
    ensures var receipt := first + |handed|;
            && held + A.Flights(handed + [s], first, now)
               == (held + A.Flights(handed, first, now))[receipt := A.InFlight(s, now, 0)]
            && A.Deliveries(handed + [s], first, now) == A.Deliveries(handed, first, now)
               + [A.Received(WireMessage(s.outbound, Some(receipt), Some(s.receives)), receipt, now)]
  {
    A.FlightsOneMore(held, handed, s, first, now);
  }

  lemma OntoOnto(h: seq<A.Stored>, s: seq<A.Stored>, h': seq<A.Stored>, s': seq<A.Stored>, t: A.Taken)
    ensures Onto(h, s, Onto(h', s', t)) == Onto(h + h', s + s', t)
    ensures h + [] == h && s + [] == s
  {
    assert h + (h' + t.handed) == h + h' + t.handed;
    assert s + (s' + t.spent) == s + s' + t.spent;
  }

  /** The scan steps over the blocked messages in front of the first free one. */
  lemma {:induction false} ScanPastBlocked(
    visible: seq<A.Stored>, blocked: set<Text>, redrive: Option<A.DeadLetter>, max: nat, i: nat)
    requires i < |visible| && max > 0 && A.Free(visible[i], blocked)
    requires forall j :: 0 <= j < i ==> !A.Free(visible[j], blocked)
    ensures var s, rest := visible[i], visible[..i] + visible[i + 1..];
            A.Scan(visible, blocked, redrive, max)
            == if A.Spent(s, redrive) then Onto([], [s], A.Scan(rest, blocked, redrive, max))
               else Onto([A.Counted(s)], [], A.Scan(rest, blocked, redrive, max - 1))
  {
    var rest := visible[..i] + visible[i + 1..];
    if i == 0 {
      assert rest == visible[1..];
    } else {
      ScanPastBlocked(visible[1..], blocked, redrive, max, i - 1);
      assert rest[1..] == visible[1..][..i - 1] + visible[1..][i..];
      ScanSkips(rest, blocked, redrive, max - 1);
    }
  }

  /** A blocked message in front stays, even when nothing more is taken. */
  lemma ScanSkips(visible: seq<A.Stored>, blocked: set<Text>, redrive: Option<A.DeadLetter>, max: nat)
    requires visible != [] && !A.Free(visible[0], blocked)
    ensures var t := A.Scan(visible[1..], blocked, redrive, max);
            A.Scan(visible, blocked, redrive, max) == t.(left := [visible[0]] + t.left)
  {
    if max == 0 {
      assert visible == [visible[0]] + visible[1..];
    }
  }

  /** A scan with no free message, or no room, takes nothing. */
  lemma {:induction false} ScanDone(
    visible: seq<A.Stored>, blocked: set<Text>, redrive: Option<A.DeadLetter>, max: nat)
    requires max == 0 || forall i :: 0 <= i < |visible| ==> !A.Free(visible[i], blocked)
    ensures A.Scan(visible, blocked, redrive, max) == A.Taken([], [], visible)
  {
    if max > 0 && visible != [] {
      ScanDone(visible[1..], blocked, redrive, max);
    }
  }

  /** A delivery's claim on its queue, until it is settled or let go. */
  class Receipt {
    const bus: Bus
    const queue: string
    const receipt: nat
    const visibility: nat
    const received: nat
    var settled: bool

    constructor (bus: Bus, queue: string, receipt: nat, visibility: nat, received: nat)
      ensures this.bus == bus && this.queue == queue && this.receipt == receipt
      ensures this.visibility == visibility && this.received == received && !settled
    {
      this.bus, this.queue, this.receipt := bus, queue, receipt;
      this.visibility, this.received, settled := visibility, received, false;
    }

    method Delete()
      modifies this, bus
      ensures bus.State() == A.Delete(old(bus.State()), queue, receipt) && settled
    {
      bus.Delete(queue, receipt);
      settled := true;
    }

    /**
     * Asks for `seconds` of invisibility; the receipt is settled when the queue grants them. A
     * negative number is refused before the queue is asked.
     */
    method ChangeVisibility(seconds: int, now: nat) returns (refusal: Option<Refusal>)
      modifies this, bus
      ensures seconds < 0 ==> refusal == Some(NegativeTimeout) && bus.State() == old(bus.State())
      ensures seconds >= 0 ==>
                && refusal == A.ChangeRefusal(old(bus.State()), queue, receipt, seconds * V.SECOND, now)
                && bus.State() == A.ChangeVisibility(old(bus.State()), queue, receipt, seconds * V.SECOND, now)
      ensures settled == (old(settled) || refusal.None?)
    {
      if seconds < 0 {
        return Some(NegativeTimeout);
      }
      refusal := bus.ChangeVisibility(queue, receipt, seconds * V.SECOND, now);
      if refusal.None? {
        settled := true;
      }
    }

    /**
     * Releases the delivery: an unsettled one first asks for the visibility it has left, as read
     * at `read`, and the queue answers at `now`.
     */
    method Drop(read: nat, now: nat)
      requires visibility != 1
      modifies this, bus
      ensures var held := SaturatingSub(read, received);
              bus.State() == A.Release(old(bus.State()),
                if old(settled) then None else Some(V.RemainingVisibility(visibility, held)), queue, receipt, now)
    {
      if !settled {
        var remaining := V.RemainingVisibility(visibility, SaturatingSub(read, received));
        var refusal := bus.ChangeVisibility(queue, receipt, remaining, now);
      }
      bus.consumed := bus.consumed + 1;
    }
  }
}
