// Conservation: what every step does to the messages the account holds and to the harness
// counters. Messages are counted by their ids, as multisets over all queues.
module Ledger {
  import opened Basics
  import opened Wire
  import opened Sums
  import opened Account
  import opened Deduplication

  function Ids(v: seq<Stored>): (ids: seq<nat>)
    ensures |ids| == |v|
  {
    seq(|v|, i requires 0 <= i < |v| => v[i].id)
  }

  ghost function IdBag(v: seq<Stored>): multiset<nat> { multiset(Ids(v)) }

  lemma IdBagConcat(u: seq<Stored>, v: seq<Stored>)
    ensures IdBag(u + v) == IdBag(u) + IdBag(v) && |IdBag(u)| == |u|
  {
    assert Ids(u + v) == Ids(u) + Ids(v);
  }

  lemma IdBagSnoc(u: seq<Stored>, s: Stored)
    ensures IdBag(u + [s]) == IdBag(u) + multiset{s.id}
  {
    IdBagConcat(u, [s]);
    assert Ids([s]) == [s.id];
  }

  lemma IdBagCons(s: Stored, v: seq<Stored>)
    ensures IdBag([s] + v) == multiset{s.id} + IdBag(v)
  {
    IdBagConcat([s], v);
    assert Ids([s]) == [s.id];
  }

  lemma BagAssociative(a: multiset<nat>, b: multiset<nat>, c: multiset<nat>)
    ensures a + b + c == a + (b + c)
  {
  }

  lemma IdBagMember(v: seq<Stored>, i: nat)
    requires i < |v|
    ensures v[i].id in IdBag(v)
  {
    assert Ids(v)[i] == v[i].id;
  }

  lemma IdBagPosition(v: seq<Stored>, id: nat) returns (i: nat)
    requires id in IdBag(v)
    ensures i < |v| && v[i].id == id
  {
    i :| 0 <= i < |Ids(v)| && Ids(v)[i] == id;
  }

  ghost function FlightId(m: map<nat, InFlight>, r: nat): multiset<nat>
  {
    if r in m then multiset{m[r].stored.id} else multiset{}
  }

  ghost function FlightBag(m: map<nat, InFlight>): multiset<nat> { BagSum(m.Keys, r => FlightId(m, r)) }

  /** The ids each queue shows, and those it has in flight. */
  ghost function ShownBy(queues: Queues): string -> multiset<nat>
  {
    k => IdBag(QueueAt(queues, k).visible)
  }

  ghost function FlownBy(queues: Queues): string -> multiset<nat>
  {
    k => FlightBag(QueueAt(queues, k).inFlight)
  }

  /** The ids visible, and the ids in flight, over all queues. */
  ghost function Visible(queues: Queues): multiset<nat> { BagSum(queues.Keys, ShownBy(queues)) }

  ghost function Flying(queues: Queues): multiset<nat> { BagSum(queues.Keys, FlownBy(queues)) }

  ghost function Held(queues: Queues): multiset<nat> { Visible(queues) + Flying(queues) }

  predicate Sorted(v: seq<Stored>) { forall i, j :: 0 <= i < j < |v| ==> v[i].id < v[j].id }

  // ---------------------------------------------------------------------------------------------
  // Bags of one queue

  lemma {:induction false} InsertBag(v: seq<Stored>, s: Stored)
    requires s.id !in IdBag(v)
    ensures IdBag(Insert(v, s)) == IdBag(v) + multiset{s.id}
  {
    assert Ids([s]) == [s.id];
    if v == [] || s.id < v[0].id {
      IdBagConcat([s], v);
    } else {
      IdBagMember(v, 0);
      assert v == [v[0]] + v[1..];
      IdBagConcat([v[0]], v[1..]);
      InsertBag(v[1..], s);
      IdBagConcat([v[0]], Insert(v[1..], s));
    }
  }

  lemma {:induction false} InsertMembers(v: seq<Stored>, s: Stored)
    ensures forall x :: x in Insert(v, s) ==> x in v || x == s
    ensures s.id !in IdBag(v) ==> forall x :: x in v ==> x in Insert(v, s)
    ensures s in Insert(v, s)
  {
    if v != [] {
      IdBagConcat([v[0]], v[1..]);
      assert v == [v[0]] + v[1..];
      IdBagMember(v, 0);
      InsertMembers(v[1..], s);
    }
  }

  lemma {:induction false} InsertSorted(v: seq<Stored>, s: Stored)
    requires Sorted(v)
    ensures Sorted(Insert(v, s))
  {
    if v != [] && s.id > v[0].id {
      InsertSorted(v[1..], s);
      var rest := Insert(v[1..], s);
      InsertMembers(v[1..], s);
      assert forall j :: 0 <= j < |rest| ==> rest[j] in rest;
    }
  }

  lemma InsertLedger(v: seq<Stored>, s: Stored)
    requires Sorted(v) && s.id !in IdBag(v)
    ensures Sorted(Insert(v, s)) && IdBag(Insert(v, s)) == IdBag(v) + multiset{s.id}
    ensures forall x :: x in Insert(v, s) <==> x in v || x == s
  {
    InsertBag(v, s);
    InsertMembers(v, s);
    InsertSorted(v, s);
  }

  lemma FlightAdded(m: map<nat, InFlight>, r: nat, e: InFlight)
    requires r !in m
    ensures FlightBag(m[r := e]) == FlightBag(m) + multiset{e.stored.id}
  {
    var m' := m[r := e];
    BagSumWithout(m'.Keys, x => FlightId(m', x), r);
    assert m'.Keys - {r} == m.Keys;
    BagSumCongruent(m.Keys, x => FlightId(m', x), x => FlightId(m, x));
  }

  lemma FlightRemoved(m: map<nat, InFlight>, r: nat)
    requires r in m
    ensures FlightBag(m) == FlightBag(m - {r}) + multiset{m[r].stored.id}
  {
    var m' := m - {r};
    assert m == m'[r := m[r]];
    FlightAdded(m', r, m[r]);
  }

  lemma FlightChanged(m: map<nat, InFlight>, r: nat, e: InFlight)
    requires r in m && e.stored == m[r].stored
    ensures FlightBag(m[r := e]) == FlightBag(m)
  {
    assert m[r := e].Keys == m.Keys;
    BagSumCongruent(m.Keys, x => FlightId(m[r := e], x), x => FlightId(m, x));
  }

  lemma {:induction false} FlightsAre(handed: seq<Stored>, first: nat, now: nat)
    ensures forall r :: r in Flights(handed, first, now) <==> first <= r < first + |handed|
    ensures forall r :: r in Flights(handed, first, now) ==>
              Flights(handed, first, now)[r] == InFlight(handed[r - first], now, 0)
  {
    if handed != [] {
      FlightsAre(handed[..|handed| - 1], first, now);
    }
  }

  lemma {:induction false} FlightsLedger(m: map<nat, InFlight>, handed: seq<Stored>, first: nat, now: nat)
    requires forall r :: r in m ==> r < first
    ensures FlightBag(m + Flights(handed, first, now)) == FlightBag(m) + IdBag(handed)
  {
    hide FlightBag;
    if handed == [] {
      assert m + Flights(handed, first, now) == m;
      assert IdBag(handed) == multiset{};
    } else {
      hide IdBag;
      var rest, last := handed[..|handed| - 1], handed[|handed| - 1];
      FlightsLedger(m, rest, first, now);
      FlightsAre(rest, first, now);
      hide Flights;
      assert handed == rest + [last];
      FlightsOneMore(m, rest, last, first, now);
      FlightAdded(m + Flights(rest, first, now), first + |rest|, InFlight(last, now, 0));
      IdBagSnoc(rest, last);
      BagAssociative(FlightBag(m), IdBag(rest), multiset{last.id});
    }
  }

  /** A scan parts the visible messages into three, keeping their ids and the order of each part. */
  lemma {:induction false} ScanLedger(v: seq<Stored>, blocked: set<Text>, redrive: Option<DeadLetter>, max: nat)
    ensures var t := Scan(v, blocked, redrive, max);
            IdBag(v) == IdBag(t.handed) + IdBag(t.spent) + IdBag(t.left)
    ensures |Scan(v, blocked, redrive, max).handed| <= max
  {
    if max > 0 && v != [] {
      var s, rest := v[0], v[1..];
      assert v == [s] + rest;
      IdBagConcat([s], rest);
      var more := if Free(s, blocked) && !Spent(s, redrive) then max - 1 else max;
      ScanLedger(rest, blocked, redrive, more);
      var t := Scan(rest, blocked, redrive, more);
      assert Ids([Counted(s)]) == Ids([s]);
      hide IdBag, Ids;
      IdBagConcat([s], t.left);
      IdBagConcat([s], t.spent);
      IdBagConcat([Counted(s)], t.handed);
    }
  }

  /** What a scan leaves is a subsequence: order is kept and nothing is new. */
  lemma {:induction false} ScanLeaves(v: seq<Stored>, blocked: set<Text>, redrive: Option<DeadLetter>, max: nat)
    requires Sorted(v)
    ensures Sorted(Scan(v, blocked, redrive, max).left)
    ensures forall s :: s in Scan(v, blocked, redrive, max).left ==> s in v
  {
    if max > 0 && v != [] {
      var more := if Free(v[0], blocked) && !Spent(v[0], redrive) then max - 1 else max;
      ScanLeaves(v[1..], blocked, redrive, more);
      var left := Scan(v[1..], blocked, redrive, more).left;
      assert forall j :: 0 <= j < |left| ==> left[j] in left;
    }
  }

  // ---------------------------------------------------------------------------------------------
  // Bags of the account

  lemma PutQueueShows(queues: Queues, key: string, q: Queue)
    ensures Visible(queues[key := q]) + IdBag(QueueAt(queues, key).visible) == Visible(queues) + IdBag(q.visible)
  {
    hide IdBag;
    var after := queues[key := q];
    var others := after.Keys - {key};
    BagSumWithout(after.Keys, ShownBy(after), key);
    BagSumCongruent(others, ShownBy(after), ShownBy(queues));
    if key in queues {
      assert others == queues.Keys - {key};
      BagSumWithout(queues.Keys, ShownBy(queues), key);
    } else {
      assert others == queues.Keys;
      assert IdBag([]) == multiset{} by {
        NoIds();
      }
    }
  }

  lemma NoIds()
    ensures IdBag([]) == multiset{} && FlightBag(map[]) == multiset{}
  {
  }

  lemma PutQueueFlies(queues: Queues, key: string, q: Queue)
    ensures Flying(queues[key := q]) + FlightBag(QueueAt(queues, key).inFlight) == Flying(queues) + FlightBag(q.inFlight)
  {
    hide FlightBag;
    var after := queues[key := q];
    var others := after.Keys - {key};
    BagSumWithout(after.Keys, FlownBy(after), key);
    BagSumCongruent(others, FlownBy(after), FlownBy(queues));
    if key in queues {
      assert others == queues.Keys - {key};
      BagSumWithout(queues.Keys, FlownBy(queues), key);
    } else {
      assert others == queues.Keys;
      NoIds();
    }
  }

  /** What one queue shows and what it has in flight are inside what the account holds. */
  lemma QueueInside(queues: Queues, key: string)
    ensures IdBag(QueueAt(queues, key).visible) <= Visible(queues)
    ensures FlightBag(QueueAt(queues, key).inFlight) <= Flying(queues)
  {
    if key in queues {
      BagSumContains(queues.Keys, ShownBy(queues), key);
      BagSumContains(queues.Keys, FlownBy(queues), key);
    }
  }

  lemma FlightInside(queues: Queues, key: string, r: nat)
    requires r in QueueAt(queues, key).inFlight
    ensures QueueAt(queues, key).inFlight[r].stored.id in Flying(queues)
  {
    QueueInside(queues, key);
    FlightRemoved(QueueAt(queues, key).inFlight, r);
  }

  /** What the harness counters are owed beyond the visible messages: the deliveries not counted out. */
  ghost function Owed(a: Account): int { a.enqueued - a.consumed - |Visible(a.queues)| }

  /** From `a` to `b`, the ids in `out` leave, those in `into` arrive, and `net` more are owed. */
  ghost predicate Moves(a: Account, b: Account, out: multiset<nat>, into: multiset<nat>, net: int)
  {
    Held(b.queues) + out == Held(a.queues) + into && Owed(b) == Owed(a) + net && a.nextId <= b.nextId
  }

  lemma BagsThen(
    x: multiset<nat>, y: multiset<nat>, z: multiset<nat>, out: multiset<nat>, into: multiset<nat>,
    out': multiset<nat>, into': multiset<nat>)
    requires y + out == x + into && z + out' == y + into'
    ensures z + (out + out') == x + (into + into')
  {
    forall id ensures (z + (out + out'))[id] == (x + (into + into'))[id] {
      assert (y + out)[id] == (x + into)[id] && (z + out')[id] == (y + into')[id];
    }
  }

  lemma MovesThen(
    a: Account, b: Account, c: Account, out: multiset<nat>, into: multiset<nat>, net: int,
    out': multiset<nat>, into': multiset<nat>, net': int)
    requires Moves(a, b, out, into, net) && Moves(b, c, out', into', net')
    ensures Moves(a, c, out + out', into + into', net + net')
  {
    hide Visible, Flying;
    BagsThen(Held(a.queues), Held(b.queues), Held(c.queues), out, into, out', into');
  }

  ghost predicate Ordered(a: Account)
  {
    && (forall key :: Sorted(QueueOf(a, key).visible))
    && (forall key, r :: r in QueueOf(a, key).inFlight ==> r < a.nextId)
  }

  ghost predicate Distinct(b: multiset<nat>) { forall x :: b[x] <= 1 }

  ghost predicate Below(b: multiset<nat>, bound: nat) { forall x :: x in b ==> x < bound }

  /** The account's own part of the invariant: every held id is in one place and already issued. */
  ghost predicate Sound(a: Account)
  {
    Ordered(a) && Distinct(Held(a.queues)) && Below(Held(a.queues), a.nextId)
  }

  lemma Unmoved(x: multiset<nat>, y: multiset<nat>)
    requires x + multiset{} == y + multiset{}
    ensures x == y
  {
    assert x + multiset{} == x && y + multiset{} == y;
  }

  lemma SameQueuesOrdered(a: Account, b: Account)
    requires Ordered(a) && b.queues == a.queues && a.nextId <= b.nextId
    ensures Ordered(b)
  {
    assert forall k :: QueueOf(b, k) == QueueOf(a, k);
  }

  lemma PutQueueOrdered(a: Account, b: Account, key: string, q: Queue)
    requires Ordered(a) && b.queues == a.queues[key := q] && a.nextId <= b.nextId
    requires Sorted(q.visible) && forall r :: r in q.inFlight ==> r < b.nextId
    ensures Ordered(b)
  {
    assert forall k :: QueueOf(b, k) == if k == key then q else QueueOf(a, k);
  }

  /** Fresh arrivals keep the account sound. */
  lemma SoundAfter(a: Account, b: Account, out: multiset<nat>, into: multiset<nat>, net: int)
    requires Sound(a) && Ordered(b) && Moves(a, b, out, into, net)
    requires Distinct(into) && Below(into, b.nextId) && forall x :: x in into ==> x in out || x >= a.nextId
    requires out <= Held(a.queues)
    ensures Sound(b)
  {
    hide Visible, Flying, IdBag, FlightBag;
    var x, y := Held(a.queues), Held(b.queues);
    forall id ensures y[id] <= 1 && (id in y ==> id < b.nextId) {
      assert (y + out)[id] == (x + into)[id];
      if id in into && id !in out {
        assert id !in x;
      }
    }
  }

  lemma PutQueueMoves(a: Account, key: string, q: Queue, out: multiset<nat>, into: multiset<nat>)
    requires IdBag(q.visible) + FlightBag(q.inFlight) + out
          == IdBag(QueueOf(a, key).visible) + FlightBag(QueueOf(a, key).inFlight) + into
    ensures Moves(a, PutQueue(a, key, q), out, into, |QueueOf(a, key).visible| - |q.visible|)
  {
    hide Visible, Flying, FlightBag, IdBag;
    var old_ := QueueOf(a, key);
    var b := PutQueue(a, key, q);
    PutQueueShows(a.queues, key, q);
    PutQueueFlies(a.queues, key, q);
    IdBagConcat(q.visible, []);
    IdBagConcat(old_.visible, []);
    var v, f, v', f' := IdBag(old_.visible), FlightBag(old_.inFlight), IdBag(q.visible), FlightBag(q.inFlight);
    assert |Visible(b.queues)| + |v| == |Visible(b.queues) + v| == |Visible(a.queues) + v'|;
    PutQueueBalance(Visible(a.queues), Flying(a.queues), Visible(b.queues), Flying(b.queues), v, f, v', f', out, into);
  }

  lemma PutQueueBalance(
    va: multiset<nat>, fa: multiset<nat>, vb: multiset<nat>, fb: multiset<nat>, v: multiset<nat>, f: multiset<nat>,
    v': multiset<nat>, f': multiset<nat>, out: multiset<nat>, into: multiset<nat>)
    requires vb + v == va + v' && fb + f == fa + f' && v' + f' + out == v + f + into
    ensures vb + fb + out == va + fa + into
  {
    forall id ensures (vb + fb + out)[id] == (va + fa + into)[id] {
      assert (vb + v)[id] == (va + v')[id] && (fb + f)[id] == (fa + f')[id];
      assert (v' + f' + out)[id] == (v + f + into)[id];
    }
  }

  // ---------------------------------------------------------------------------------------------
  // What each account operation moves

  /** What enqueueing `ids` on a queue adds: nothing where no subscription is open. */
  ghost function Entering(a: Account, key: string, ids: multiset<nat>): multiset<nat>
  {
    if QueueOf(a, key).subscriptions == 0 then multiset{} else ids
  }

  lemma EnqueueMoves(a: Account, key: string, s: Stored)
    requires Ordered(a) && s.id !in Held(a.queues)
    ensures Moves(a, Enqueue(a, key, s), multiset{}, Entering(a, key, multiset{s.id}), 0)
    ensures Ordered(Enqueue(a, key, s))
    ensures forall k :: QueueOf(Enqueue(a, key, s), k).subscriptions == QueueOf(a, k).subscriptions
  {
    hide Visible, Flying, FlightBag, IdBag;
    var q := QueueOf(a, key);
    if q.subscriptions == 0 {
      PutQueueMoves(a, key, q, multiset{}, multiset{});
      PutQueueOrdered(a, Enqueue(a, key, s), key, q);
    } else {
      QueueInside(a.queues, key);
      InsertLedger(q.visible, s);
      var q' := q.(visible := Insert(q.visible, s), wakes := q.wakes + 1);
      PutQueueMoves(a, key, q', multiset{}, multiset{s.id});
      IdBagConcat(q.visible, []);
      IdBagConcat(q'.visible, []);
      assert |q'.visible| == |q.visible| + 1;
      var b := Enqueue(a, key, s);
      assert b.queues == PutQueue(a, key, q').queues;
      assert Owed(b) == Owed(PutQueue(a, key, q')) + 1;
      PutQueueOrdered(a, b, key, q');
    }
  }

  /** What delivering one message adds: a fresh id, unless it is a repeat or nobody reads the queue. */
  ghost function DeliverAdds(a: Account, key: string, outbound: Outbound, now: nat): multiset<nat>
  {
    var q := QueueOf(a, key);
    if outbound.fifo.Some? && SeenWithinWindow(q.deduplication, outbound.fifo.value.deduplication, now).0 then
      multiset{}
    else Entering(a, key, multiset{a.nextId})
  }

  /** What a queue has seen, and the numbers issued, are no part of the ledger. */
  lemma NotedMoves(a: Account, key: string, seen: Seen, nextId: nat)
    requires Sound(a) && a.nextId <= nextId
    ensures var b := PutQueue(a, key, QueueOf(a, key).(deduplication := seen)).(nextId := nextId);
            && Moves(a, b, multiset{}, multiset{}, 0) && Ordered(b) && Held(b.queues) == Held(a.queues)
            && QueueOf(b, key).subscriptions == QueueOf(a, key).subscriptions
  {
    hide Visible, Flying, FlightBag, IdBag;
    var q := QueueOf(a, key).(deduplication := seen);
    var b := PutQueue(a, key, q).(nextId := nextId);
    PutQueueMoves(a, key, q, multiset{}, multiset{});
    PutQueueOrdered(a, b, key, q);
    Unmoved(Held(b.queues), Held(a.queues));
  }

  lemma DeliverMoves(a: Account, key: string, outbound: Outbound, now: nat)
    requires Sound(a)
    ensures Moves(a, Deliver(a, key, outbound, now), multiset{}, DeliverAdds(a, key, outbound, now), 0)
    ensures Sound(Deliver(a, key, outbound, now))
    ensures forall id :: id in DeliverAdds(a, key, outbound, now) ==>
              a.nextId <= id < Deliver(a, key, outbound, now).nextId
  {
    hide Held, Owed, Ordered, SeenWithinWindow, Insert;
    var q := QueueOf(a, key);
    var seen := if outbound.fifo.Some?
      then SeenWithinWindow(q.deduplication, outbound.fifo.value.deduplication, now).1 else q.deduplication;
    NotedMoves(a, key, seen, a.nextId);
    NotedMoves(a, key, seen, a.nextId + 1);
    var b := Deliver(a, key, outbound, now);
    if b.nextId != a.nextId {
      var issued := PutQueue(a, key, q.(deduplication := seen)).(nextId := a.nextId + 1);
      EnqueueMoves(issued, key, Stored(a.nextId, outbound, 0));
      MovesThen(a, issued, b, multiset{}, multiset{}, 0, multiset{}, Entering(issued, key, multiset{a.nextId}), 0);
    }
    hide Moves;
    SoundAfter(a, b, multiset{}, DeliverAdds(a, key, outbound, now), 0);
  }

  ghost function FanOutAdds(a: Account, endpoints: seq<string>, outbound: Outbound, now: nat): multiset<nat>
    decreases |endpoints|
  {
    if endpoints == [] then multiset{}
    else
      var copy := CopyFor(endpoints[0], outbound);
      DeliverAdds(a, endpoints[0], copy, now)
      + FanOutAdds(Deliver(a, endpoints[0], copy, now), endpoints[1..], outbound, now)
  }

  lemma {:induction false} FanOutMoves(a: Account, endpoints: seq<string>, outbound: Outbound, now: nat)
    requires Sound(a)
    ensures Moves(a, FanOut(a, endpoints, outbound, now), multiset{}, FanOutAdds(a, endpoints, outbound, now), 0)
    ensures Sound(FanOut(a, endpoints, outbound, now))
    ensures forall id :: id in FanOutAdds(a, endpoints, outbound, now) ==>
              a.nextId <= id < FanOut(a, endpoints, outbound, now).nextId
    decreases |endpoints|
  {
    hide Held, Owed, Sound, DeliverAdds, Deliver;
    if endpoints != [] {
      var copy := CopyFor(endpoints[0], outbound);
      var b, c := Deliver(a, endpoints[0], copy, now), FanOut(a, endpoints, outbound, now);
      DeliverMoves(a, endpoints[0], copy, now);
      FanOutMoves(b, endpoints[1..], outbound, now);
      MovesThen(a, b, c, multiset{}, DeliverAdds(a, endpoints[0], copy, now), 0,
        multiset{}, FanOutAdds(b, endpoints[1..], outbound, now), 0);
    }
  }

  lemma {:induction false} MoveSpentMoves(a: Account, target: string, spent: seq<Stored>)
    requires Ordered(a) && Distinct(Held(a.queues) + IdBag(spent))
    ensures Moves(a, MoveSpent(a, target, spent), multiset{}, Entering(a, target, IdBag(spent)), -|spent|)
    ensures Ordered(MoveSpent(a, target, spent))
    decreases |spent|
  {
    hide Visible, Flying, IdBag, Enqueue;
    IdBagConcat(spent, []);
    if spent != [] {
      var s, rest := spent[0], spent[1..];
      assert spent == [s] + rest;
      IdBagCons(s, rest);
      var counted := a.(consumed := a.consumed + 1);
      assert (Held(a.queues) + IdBag(spent))[s.id] <= 1 && IdBag(spent)[s.id] >= 1;
      SameQueuesOrdered(a, counted);
      EnqueueMoves(counted, target, s);
      var b, into := Enqueue(counted, target, s), Entering(a, target, multiset{s.id});
      assert Moves(a, b, multiset{}, into, -1);
      forall id ensures (Held(b.queues) + IdBag(rest))[id] <= 1 {
        assert (Held(b.queues) + multiset{})[id] == (Held(a.queues) + into)[id];
        assert (Held(a.queues) + IdBag(spent))[id] <= 1;
      }
      MoveSpentMoves(b, target, rest);
      MovesThen(a, b, MoveSpent(b, target, rest), multiset{}, into, -1,
        multiset{}, Entering(b, target, IdBag(rest)), -|rest|);
    }
  }

  /** What a receive drops: the spent messages, when nobody reads the dead-letter queue. */
  ghost function ReceiveDrops(a: Account, key: string, max: nat): multiset<nat>
  {
    var q := QueueOf(a, key);
    if q.redrive.Some? && QueueOf(a, q.redrive.value.queue).subscriptions == 0 then IdBag(ScanOf(q, max).spent)
    else multiset{}
  }

  /** The account after the receive loop, before the spent messages move. */
  function AfterLoop(a: Account, key: string, max: nat, now: nat): Account
  {
    var q := QueueOf(a, key);
    var t := ScanOf(q, max);
    PutQueue(a, key, TakenFrom(q, t, a.nextId, now)).(nextId := a.nextId + |t.handed|)
  }

  lemma TakenFromOrdered(a: Account, key: string, max: nat, now: nat)
    requires Ordered(a)
    ensures Ordered(AfterLoop(a, key, max, now))
    ensures forall k :: QueueOf(AfterLoop(a, key, max, now), k).subscriptions == QueueOf(a, k).subscriptions
  {
    hide Scan, Sorted;
    var q := QueueOf(a, key);
    var t := ScanOf(q, max);
    ScanLeaves(q.visible, Blocked(q), q.redrive, max);
    FlightsAre(t.handed, a.nextId, now);
    PutQueueOrdered(a, AfterLoop(a, key, max, now), key, TakenFrom(q, t, a.nextId, now));
  }

  lemma TakenFromMoves(a: Account, key: string, max: nat, now: nat)
    requires Sound(a)
    ensures var t := ScanOf(QueueOf(a, key), max);
            && Moves(a, AfterLoop(a, key, max, now), IdBag(t.spent), multiset{}, |t.handed| + |t.spent|)
            && IdBag(t.spent) <= Held(a.queues)
  {
    hide Visible, Flying, FlightBag, IdBag, Scan;
    var q := QueueOf(a, key);
    var t := ScanOf(q, max);
    ScanLedger(q.visible, Blocked(q), q.redrive, max);
    FlightsLedger(q.inFlight, t.handed, a.nextId, now);
    TakenBags(IdBag(t.handed), IdBag(t.spent), IdBag(t.left), FlightBag(q.inFlight));
    var q' := TakenFrom(q, t, a.nextId, now);
    PutQueueMoves(a, key, q', IdBag(t.spent), multiset{});
    QueueInside(a.queues, key);
    IdBagConcat(t.handed, []);
    IdBagConcat(t.spent, []);
    IdBagConcat(t.left, []);
    IdBagConcat(q.visible, []);
    assert |q.visible| == |t.handed| + |t.spent| + |t.left|;
    assert AfterLoop(a, key, max, now).queues == PutQueue(a, key, q').queues;
  }

  lemma TakenBags(handed: multiset<nat>, spent: multiset<nat>, left: multiset<nat>, flying: multiset<nat>)
    ensures left + (flying + handed) + spent == handed + spent + left + flying
  {
  }

  lemma ReceiveMoves(a: Account, key: string, max: nat, now: nat)
    requires Sound(a)
    ensures Moves(a, Receive(a, key, max, now), ReceiveDrops(a, key, max), multiset{},
              |ScanOf(QueueOf(a, key), max).handed|)
    ensures Sound(Receive(a, key, max, now))
  {
    hide Visible, Flying, FlightBag, IdBag, Scan, MoveSpent;
    var q := QueueOf(a, key);
    var t := ScanOf(q, max);
    var b := AfterLoop(a, key, max, now);
    var c, spent := Receive(a, key, max, now), IdBag(t.spent);
    TakenFromMoves(a, key, max, now);
    TakenFromOrdered(a, key, max, now);
    if q.redrive.Some? {
      var target := q.redrive.value.queue;
      assert Held(b.queues) + spent == Held(a.queues);
      MoveSpentMoves(b, target, t.spent);
      var into := Entering(b, target, spent);
      assert Held(c.queues) == Held(b.queues) + into;
      assert Held(c.queues) + ReceiveDrops(a, key, max) == Held(a.queues);
    } else {
      NothingSpent(q.visible, Blocked(q), max);
      IdBagConcat(t.spent, []);
      assert spent == multiset{};
      Unmoved(Held(b.queues), Held(a.queues));
    }
    SoundAfter(a, c, ReceiveDrops(a, key, max), multiset{}, |t.handed|);
  }

  lemma {:induction false} NothingSpent(v: seq<Stored>, blocked: set<Text>, max: nat)
    ensures Scan(v, blocked, None, max).spent == []
  {
    if max > 0 && v != [] {
      NothingSpent(v[1..], blocked, if Free(v[0], blocked) then max - 1 else max);
    }
  }

  lemma CloseMoves(a: Account, key: string)
    requires Sound(a)
    ensures var out := if QueueOf(a, key).subscriptions <= 1 then IdBag(QueueOf(a, key).visible) else multiset{};
            Moves(a, Close(a, key), out, multiset{}, 0)
    ensures Sound(Close(a, key))
  {
    hide Visible, Flying, FlightBag;
    var q := QueueOf(a, key);
    var out := if q.subscriptions <= 1 then IdBag(q.visible) else multiset{};
    var left := if q.subscriptions <= 1 then [] else q.visible;
    var q' := q.(subscriptions := SaturatingSub(q.subscriptions, 1), visible := left);
    assert IdBag([]) == multiset{};
    PutQueueMoves(a, key, q', out, multiset{});
    var b := Close(a, key);
    assert b.queues == PutQueue(a, key, q').queues;
    assert Owed(b) == Owed(a);
    PutQueueOrdered(a, b, key, q');
    QueueInside(a.queues, key);
    SoundAfter(a, b, out, multiset{}, 0);
  }

  /** The message in flight under a receipt. */
  ghost function FlightOf(a: Account, key: string, receipt: nat): multiset<nat>
  {
    FlightId(QueueOf(a, key).inFlight, receipt)
  }

  lemma DeleteMoves(a: Account, key: string, receipt: nat)
    requires Sound(a)
    ensures Moves(a, Delete(a, key, receipt), FlightOf(a, key, receipt), multiset{}, 0)
    ensures Sound(Delete(a, key, receipt))
  {
    hide Visible, Flying, FlightBag, IdBag;
    var q := QueueOf(a, key);
    var q' := if receipt in q.inFlight then Ground(q, receipt).(wakes := q.wakes + 1) else q;
    if receipt in q.inFlight {
      FlightRemoved(q.inFlight, receipt);
      FlightInside(a.queues, key, receipt);
    }
    PutQueueMoves(a, key, q', FlightOf(a, key, receipt), multiset{});
    PutQueueOrdered(a, Delete(a, key, receipt), key, q');
    SoundAfter(a, Delete(a, key, receipt), FlightOf(a, key, receipt), multiset{}, 0);
  }

  /** What returning a message drops: the message itself, when nobody reads its queue. */
  ghost function ReturnDrops(a: Account, key: string, receipt: nat): multiset<nat>
  {
    if QueueOf(a, key).subscriptions == 0 then FlightOf(a, key, receipt) else multiset{}
  }

  lemma ReturnMoves(a: Account, key: string, receipt: nat)
    requires Sound(a) && receipt in QueueOf(a, key).inFlight
    ensures Moves(a, Return(a, key, receipt), ReturnDrops(a, key, receipt), multiset{}, 0)
    ensures Sound(Return(a, key, receipt))
  {
    hide Visible, Flying, FlightBag, IdBag, Enqueue;
    var q := QueueOf(a, key);
    var s, one := q.inFlight[receipt].stored, FlightOf(a, key, receipt);
    assert one == multiset{s.id};
    var b, c := PutQueue(a, key, Ground(q, receipt)), Return(a, key, receipt);
    FlightRemoved(q.inFlight, receipt);
    FlightInside(a.queues, key, receipt);
    PutQueueMoves(a, key, Ground(q, receipt), one, multiset{});
    PutQueueOrdered(a, b, key, Ground(q, receipt));
    assert (Held(b.queues) + one)[s.id] == Held(a.queues)[s.id];
    EnqueueMoves(b, key, s);
    assert Held(b.queues) + one == Held(a.queues);
    if q.subscriptions == 0 {
      Unmoved(Held(c.queues), Held(b.queues));
    } else {
      Unmoved(Held(c.queues), Held(b.queues) + one);
    }
    assert Held(c.queues) + ReturnDrops(a, key, receipt) == Held(a.queues);
    SoundAfter(a, c, ReturnDrops(a, key, receipt), multiset{}, 0);
  }

  /** What a visibility change drops: a message made visible at once where nobody reads. */
  ghost function AppliedDrops(a: Account, key: string, receipt: nat, visibility: nat, now: nat): multiset<nat>
  {
    if visibility == 0 && ChangeRefusal(a, key, receipt, visibility, now).None? then ReturnDrops(a, key, receipt)
    else multiset{}
  }

  lemma ChangeMoves(a: Account, key: string, receipt: nat, visibility: nat, now: nat)
    requires Sound(a)
    ensures Moves(a, ChangeVisibility(a, key, receipt, visibility, now),
              AppliedDrops(a, key, receipt, visibility, now), multiset{}, 0)
    ensures Sound(ChangeVisibility(a, key, receipt, visibility, now))
  {
    hide Visible, Flying, FlightBag, IdBag, Return;
    var q := QueueOf(a, key);
    var b := ChangeVisibility(a, key, receipt, visibility, now);
    if ChangeRefusal(a, key, receipt, visibility, now).Some? {
      PutQueueMoves(a, key, q, multiset{}, multiset{});
      assert a.queues == b.queues || b.queues == a.queues[key := q];
      PutQueueOrdered(a, PutQueue(a, key, q), key, q);
      SoundAfter(a, b, multiset{}, multiset{}, 0);
    } else if visibility == 0 {
      ReturnMoves(a, key, receipt);
    } else {
      var entry := q.inFlight[receipt];
      var q' := q.(inFlight := q.inFlight[receipt := entry.(generation := entry.generation + 1)]);
      FlightChanged(q.inFlight, receipt, entry.(generation := entry.generation + 1));
      PutQueueMoves(a, key, q', multiset{}, multiset{});
      assert b.queues == PutQueue(a, key, q').queues;
      PutQueueOrdered(a, b, key, q');
      SoundAfter(a, b, multiset{}, multiset{}, 0);
    }
  }

  ghost function LapseDrops(a: Account, t: Timer): multiset<nat>
  {
    var q := QueueOf(a, t.key);
    if t.receipt in q.inFlight && q.inFlight[t.receipt].generation == t.generation then
      ReturnDrops(a, t.key, t.receipt)
    else multiset{}
  }

  lemma LapseMoves(a: Account, t: Timer)
    requires Sound(a)
    ensures Moves(a, Lapse(a, t.key, t.receipt, t.generation), LapseDrops(a, t), multiset{}, 0)
    ensures Sound(Lapse(a, t.key, t.receipt, t.generation))
  {
    hide Visible, Flying, FlightBag, IdBag, Return;
    var q := QueueOf(a, t.key);
    if t.receipt in q.inFlight && q.inFlight[t.receipt].generation == t.generation {
      ReturnMoves(a, t.key, t.receipt);
    } else {
      PutQueueMoves(a, t.key, q, multiset{}, multiset{});
      PutQueueOrdered(a, PutQueue(a, t.key, q), t.key, q);
      SoundAfter(a, Lapse(a, t.key, t.receipt, t.generation), multiset{}, multiset{}, 0);
    }
  }

  /** Settings of a queue that touch no message. */
  lemma SettingMoves(a: Account, key: string, q: Queue)
    requires Sound(a) && q.visible == QueueOf(a, key).visible && q.inFlight == QueueOf(a, key).inFlight
    ensures Moves(a, PutQueue(a, key, q), multiset{}, multiset{}, 0) && Sound(PutQueue(a, key, q))
  {
    hide Visible, Flying, FlightBag, IdBag;
    PutQueueMoves(a, key, q, multiset{}, multiset{});
    PutQueueOrdered(a, PutQueue(a, key, q), key, q);
    SoundAfter(a, PutQueue(a, key, q), multiset{}, multiset{}, 0);
  }
}
