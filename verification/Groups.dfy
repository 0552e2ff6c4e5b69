// Kinds over runs: a message carries a group exactly on a FIFO queue, and only queues and topics of
// fitting kinds are ever linked.
module Groups {
  import opened Basics
  import opened Names
  import opened Wire
  import opened Account
  import opened World
  import Ledger

  /** A message of the kind its queue is. */
  predicate OfKind(s: Stored, key: string) { s.outbound.fifo.Some? == IsFifo(key) }

  predicate AllOfKind(v: seq<Stored>, key: string) { forall i :: 0 <= i < |v| ==> OfKind(v[i], key) }

  /** A queue of its key's kind, holding only messages of that kind, under a policy it accepts. */
  predicate QueueOfKind(q: Queue, key: string)
  {
    && q.fifo == IsFifo(key)
    && (q.redrive.Some? ==>
          IsFifo(q.redrive.value.queue) == IsFifo(key) && q.redrive.value.cap <= MAX_RECEIVE_COUNT)
    && AllOfKind(q.visible, key)
    && (forall r :: r in q.inFlight ==> OfKind(q.inFlight[r].stored, key))
  }

  /** No FIFO queue is subscribed to a standard topic. */
  predicate TopicsOfKind(a: Account)
  {
    forall t, i :: t in a.topics && 0 <= i < |a.topics[t]| && IsFifo(a.topics[t][i]) ==> IsFifo(t)
  }

  ghost predicate Kinds(a: Account)
  {
    TopicsOfKind(a) && forall key :: QueueOfKind(QueueOf(a, key), key)
  }

  lemma PutOfKind(a: Account, key: string, q: Queue)
    requires Kinds(a) && QueueOfKind(q, key)
    ensures Kinds(PutQueue(a, key, q))
  {
    assert forall k :: QueueOf(PutQueue(a, key, q), k) == if k == key then q else QueueOf(a, k);
  }

  lemma SameKinds(a: Account, b: Account)
    requires Kinds(a) && b.queues == a.queues && b.topics == a.topics
    ensures Kinds(b)
  {
    assert forall k :: QueueOf(b, k) == QueueOf(a, k);
  }

  lemma EnqueueOfKind(a: Account, key: string, s: Stored)
    requires Kinds(a) && OfKind(s, key)
    ensures Kinds(Enqueue(a, key, s))
  {
    hide Insert, IsFifo;
    var q := QueueOf(a, key);
    Ledger.InsertMembers(q.visible, s);
    var inserted := Insert(q.visible, s);
    forall i | 0 <= i < |inserted| ensures OfKind(inserted[i], key) {
      assert inserted[i] in inserted;
    }
    PutOfKind(a, key, q);
    var put := PutQueue(a, key, q.(visible := inserted, wakes := q.wakes + 1));
    PutOfKind(a, key, q.(visible := inserted, wakes := q.wakes + 1));
    SameKinds(put, put.(enqueued := a.enqueued + 1));
  }

  lemma DeliverOfKind(a: Account, key: string, outbound: Outbound, now: nat)
    requires Kinds(a) && outbound.fifo.Some? == IsFifo(key)
    ensures Kinds(Deliver(a, key, outbound, now))
  {
    hide Insert, IsFifo, Deduplication.SeenWithinWindow;
    var q := QueueOf(a, key);
    var seen := if outbound.fifo.Some?
      then Deduplication.SeenWithinWindow(q.deduplication, outbound.fifo.value.deduplication, now).1
      else q.deduplication;
    var noted := PutQueue(a, key, q.(deduplication := seen));
    PutOfKind(a, key, q.(deduplication := seen));
    SameKinds(noted, noted.(nextId := a.nextId + 1));
    EnqueueOfKind(noted.(nextId := a.nextId + 1), key, Stored(a.nextId, outbound, 0));
  }

  lemma {:induction false} FanOutOfKind(a: Account, endpoints: seq<string>, outbound: Outbound, now: nat)
    requires Kinds(a)
    requires forall i :: 0 <= i < |endpoints| && IsFifo(endpoints[i]) ==> outbound.fifo.Some?
    ensures Kinds(FanOut(a, endpoints, outbound, now))
    decreases |endpoints|
  {
    hide Deliver, Kinds, IsFifo;
    if endpoints != [] {
      var copy := CopyFor(endpoints[0], outbound);
      DeliverOfKind(a, endpoints[0], copy, now);
      FanOutOfKind(Deliver(a, endpoints[0], copy, now), endpoints[1..], outbound, now);
    }
  }

  lemma {:induction false} MoveSpentOfKind(a: Account, target: string, spent: seq<Stored>)
    requires Kinds(a) && AllOfKind(spent, target)
    ensures Kinds(MoveSpent(a, target, spent))
    decreases |spent|
  {
    hide Enqueue, IsFifo, Kinds;
    if spent != [] {
      var counted := a.(consumed := a.consumed + 1);
      SameKinds(a, counted);
      EnqueueOfKind(counted, target, spent[0]);
      MoveSpentOfKind(Enqueue(counted, target, spent[0]), target, spent[1..]);
    }
  }

  lemma OneMoreOfKind(s: Stored, v: seq<Stored>, key: string)
    requires OfKind(s, key) && AllOfKind(v, key)
    ensures AllOfKind([s] + v, key) && AllOfKind([Counted(s)] + v, key)
  {
  }

  /** A scan hands over, moves and leaves messages of the kind it read. */
  lemma {:induction false} ScanOfKind(v: seq<Stored>, blocked: set<Text>, redrive: Option<DeadLetter>, max: nat, key: string)
    requires AllOfKind(v, key)
    ensures var t := Scan(v, blocked, redrive, max);
            AllOfKind(t.handed, key) && AllOfKind(t.spent, key) && AllOfKind(t.left, key)
  {
    hide IsFifo;
    if max > 0 && v != [] {
      var more := if Free(v[0], blocked) && !Spent(v[0], redrive) then max - 1 else max;
      ScanOfKind(v[1..], blocked, redrive, more, key);
      var t := Scan(v[1..], blocked, redrive, more);
      OneMoreOfKind(v[0], t.handed, key);
      OneMoreOfKind(v[0], t.spent, key);
      OneMoreOfKind(v[0], t.left, key);
    }
  }

  lemma ReceiveOfKind(a: Account, key: string, max: nat, now: nat)
    requires Kinds(a)
    ensures Kinds(Receive(a, key, max, now))
  {
    hide Scan, IsFifo, Flights, MoveSpent;
    var q := QueueOf(a, key);
    var t := ScanOf(q, max);
    assert QueueOfKind(q, key);
    ScanOfKind(q.visible, Blocked(q), q.redrive, max, key);
    Ledger.FlightsAre(t.handed, a.nextId, now);
    PutOfKind(a, key, TakenFrom(q, t, a.nextId, now));
    var loop := Ledger.AfterLoop(a, key, max, now);
    SameKinds(PutQueue(a, key, TakenFrom(q, t, a.nextId, now)), loop);
    if q.redrive.Some? {
      MoveSpentOfKind(loop, q.redrive.value.queue, t.spent);
    }
  }

  lemma ReturnOfKind(a: Account, key: string, receipt: nat)
    requires Kinds(a) && receipt in QueueOf(a, key).inFlight
    ensures Kinds(Return(a, key, receipt))
  {
    hide Enqueue, IsFifo;
    var q := QueueOf(a, key);
    assert QueueOfKind(q, key);
    PutOfKind(a, key, Ground(q, receipt));
    EnqueueOfKind(PutQueue(a, key, Ground(q, receipt)), key, q.inFlight[receipt].stored);
  }

  lemma ChangeOfKind(a: Account, key: string, receipt: nat, visibility: nat, now: nat)
    requires Kinds(a)
    ensures Kinds(ChangeVisibility(a, key, receipt, visibility, now))
  {
    hide Return, IsFifo;
    var q := QueueOf(a, key);
    var b := ChangeVisibility(a, key, receipt, visibility, now);
    assert QueueOfKind(q, key);
    if ChangeRefusal(a, key, receipt, visibility, now).Some? {
      PutOfKind(a, key, q);
    } else if visibility == 0 {
      ReturnOfKind(a, key, receipt);
    } else {
      var entry := q.inFlight[receipt];
      var q' := q.(inFlight := q.inFlight[receipt := entry.(generation := entry.generation + 1)]);
      PutOfKind(a, key, q');
      SameKinds(PutQueue(a, key, q'), b);
    }
  }

  lemma SetRedriveOfKind(a: Account, key: string, cap: nat, deadLetter: string)
    requires Kinds(a)
    ensures Kinds(SetRedrive(a, key, cap, deadLetter))
  {
    hide QueueKey, IsFifo;
    if RedriveRefusal(key, cap, deadLetter).None? {
      var target := QueueKey(deadLetter).value;
      var b := PutQueue(a, target, QueueOf(a, target));
      assert QueueOfKind(QueueOf(a, target), target);
      PutOfKind(a, target, QueueOf(a, target));
      assert QueueOfKind(QueueOf(b, key), key);
      PutOfKind(b, key, QueueOf(b, key).(redrive := Some(DeadLetter(cap, target))));
    }
  }

  lemma SubscribeOfKind(a: Account, topic: string, queue: string)
    requires Kinds(a)
    ensures Kinds(SubscribeTopic(a, topic, queue))
  {
    hide IsFifo;
    var b := SubscribeTopic(a, topic, queue);
    assert forall k :: QueueOf(b, k) == QueueOf(a, k);
  }

  /** Every step keeps every message on a queue of its kind. */
  lemma StepKeepsKinds(w: World, step: Step)
    requires Kinds(w.account) && Enabled(w, step)
    ensures Kinds(Next(w, step).account)
  {
    hide Kinds, IsFifo, Scan, FanOut, MessageAccepted, Deduplication.SeenWithinWindow, Deliver, Receive, ChangeVisibility,
      SetRedrive, Return;
    var a := w.account;
    match step
    case SendTo(key, outbound) =>
      if SendRefusal(IsFifo(key), outbound, SQS_MAX_MESSAGE).None? {
        DeliverOfKind(a, key, outbound, w.now);
      }
    case PublishTo(topic, outbound) => PublishOfKind(a, topic, outbound, w.now);
    case Link(topic, queue) => SubscribeOfKind(a, topic, queue);
    case Redrive(key, cap, deadLetter) => SetRedriveOfKind(a, key, cap, deadLetter);
    case OpenReader(id, r) => SettingOfKind(a, r.queue, QueueOf(a, r.queue).subscriptions + 1);
    case CloseReader(id) => CloseOfKind(a, w.readers[id].queue);
    case Look(id) => SettingOfKind(a, w.readers[id].queue, QueueOf(a, w.readers[id].queue).subscriptions);
    case Take(id) => ReceiveOfKind(a, w.readers[id].queue, w.readers[id].max, w.now);
    case Settle(receipt, outcome, drift) => SettleOfKind(w, receipt, outcome, drift);
    case Drop(receipt, drift) => DropOfKind(w, receipt, drift);
    case Fire(t) => LapseOfKind(a, t);
    case _ => SameKinds(a, Next(w, step).account);
  }

  lemma PublishOfKind(a: Account, topic: string, outbound: Outbound, now: nat)
    requires Kinds(a)
    ensures Kinds(Publish(a, topic, outbound, now))
  {
    hide IsFifo, FanOut, MessageAccepted, Deduplication.SeenWithinWindow;
    if SendRefusal(IsFifo(topic), outbound, SNS_MAX_MESSAGE).None? {
      assert forall i :: 0 <= i < |EndpointsOf(a, topic)| && IsFifo(EndpointsOf(a, topic)[i]) ==> IsFifo(topic);
      FanOutOfKind(a, EndpointsOf(a, topic), outbound, now);
      if outbound.fifo.Some? {
        var seen := Deduplication.SeenWithinWindow(TopicSeen(a, topic), outbound.fifo.value.deduplication, now).1;
        var noted := a.(topicSeen := a.topicSeen[topic := seen]);
        SameKinds(a, noted);
        FanOutOfKind(noted, EndpointsOf(noted, topic), outbound, now);
      }
    }
  }

  lemma SettingOfKind(a: Account, key: string, subscriptions: nat)
    requires Kinds(a)
    ensures Kinds(PutQueue(a, key, QueueOf(a, key).(subscriptions := subscriptions)))
  {
    hide IsFifo;
    assert QueueOfKind(QueueOf(a, key), key);
    PutOfKind(a, key, QueueOf(a, key).(subscriptions := subscriptions));
  }

  lemma CloseOfKind(a: Account, key: string)
    requires Kinds(a)
    ensures Kinds(Close(a, key))
  {
    hide IsFifo;
    var q := QueueOf(a, key);
    assert QueueOfKind(q, key);
    SettingOfKind(a, key, SaturatingSub(q.subscriptions, 1));
    PutOfKind(a, key, q.(subscriptions := 0, visible := []));
    SameKinds(PutQueue(a, key, q.(subscriptions := 0, visible := [])),
      PutQueue(a, key, q.(subscriptions := 0, visible := [])).(consumed := a.consumed + |q.visible|));
  }

  lemma LapseOfKind(a: Account, t: Timer)
    requires Kinds(a)
    ensures Kinds(Lapse(a.(timers := a.timers - {t}), t.key, t.receipt, t.generation))
  {
    hide IsFifo, Return, Kinds;
    var b := a.(timers := a.timers - {t});
    SameKinds(a, b);
    SettingOfKind(b, t.key, QueueOf(b, t.key).subscriptions);
    if t.receipt in QueueOf(b, t.key).inFlight {
      ReturnOfKind(b, t.key, t.receipt);
    }
  }

  lemma SettleOfKind(w: World, receipt: nat, outcome: Outcome, drift: nat)
    requires Kinds(w.account) && Enabled(w, Settle(receipt, outcome, drift))
    ensures Kinds(Settled(w, receipt, outcome, drift).account)
  {
    hide IsFifo, ChangeVisibility, V.RetrySeconds, ChangeRefusal;
    var h := w.handles[receipt];
    var q := QueueOf(w.account, h.queue);
    match Asked(h, outcome, HeldFor(w, receipt, drift))
    case None =>
      assert QueueOfKind(q, h.queue);
      PutOfKind(w.account, h.queue,
        if receipt in q.inFlight then Ground(q, receipt).(wakes := q.wakes + 1) else q);
    case Some(visibility) => ChangeOfKind(w.account, h.queue, receipt, visibility, w.now);
  }

  lemma DropOfKind(w: World, receipt: nat, drift: nat)
    requires Kinds(w.account) && Enabled(w, Drop(receipt, drift))
    ensures Kinds(Dropped(w, receipt, drift).account)
  {
    hide IsFifo, ChangeVisibility, LeftOver, Kinds;
    var h := w.handles[receipt];
    var left := LeftOver(w, receipt, drift);
    var changed := if left.Some? then ChangeVisibility(w.account, h.queue, receipt, left.value, w.now) else w.account;
    if left.Some? {
      ChangeOfKind(w.account, h.queue, receipt, left.value, w.now);
    }
    SameKinds(changed, changed.(consumed := changed.consumed + 1));
  }

  /** After every run, messages carry a group exactly on FIFO queues, visible or in flight. */
  lemma {:induction false} RunKeepsKinds(steps: seq<Step>)
    requires Legal(Start(), steps)
    ensures Kinds(After(Start(), steps).account)
  {
    hide Next;
    if steps != [] {
      RunKeepsKinds(steps[..|steps| - 1]);
      StepKeepsKinds(After(Start(), steps[..|steps| - 1]), steps[|steps| - 1]);
    }
  }

  /** A message of one byte. */
  function Tiny(): Outbound { Outbound([97], map[], None) }

  lemma TinyIsAccepted()
    ensures MessageAccepted(Tiny(), SNS_MAX_MESSAGE)
  {
    EncodedBodyIsServiceText([97]);
    assert IsServiceText([97]);
  }

  /**
   * A subscription of a queue to a topic is refused exactly when the topic takes some message whose
   * copy would not be of the queue's kind.
   */
  lemma LinkRefusedExactly(topic: string, queue: string)
    ensures SubscribeRefused(topic, queue) <==>
              exists outbound :: SendRefusal(IsFifo(topic), outbound, SNS_MAX_MESSAGE).None?
                && CopyFor(queue, outbound).fifo.Some? != IsFifo(queue)
  {
    hide IsFifo, MessageAccepted, FifoAccepted;
    if SubscribeRefused(topic, queue) {
      TinyIsAccepted();
      NoIdsAccepted(Tiny());
      assert SendRefusal(IsFifo(topic), Tiny(), SNS_MAX_MESSAGE).None?;
    }
  }

  lemma NoIdsAccepted(outbound: Outbound)
    requires outbound.fifo.None?
    ensures FifoAccepted(outbound)
  {
  }

  /** A framed message meets neither kind refusal of the queue or topic it was framed for. */
  lemma FramedMeetsItsKind(
    key: string, payload: seq<byte>, headers: Headers, options: Option<PublishOptions>, mounted: Option<Text>,
    crateId: Text, limit: nat)
    requires Framed(IsFifo(key), payload, headers, options, mounted, crateId).Success?
    ensures var outbound := Framed(IsFifo(key), payload, headers, options, mounted, crateId).value;
            SendRefusal(IsFifo(key), outbound, limit) !in {Some(GroupMissing), Some(GroupUnexpected)}
  {
  }

  lemma {:induction false} ShortByteLength(s: string)
    ensures ByteLength(s) <= 4 * |s|
  {
    if s != "" {
      ShortByteLength(s[1..]);
    }
  }

  predicate Plain(name: string) { forall i :: 0 <= i < |name| ==> 'a' <= name[i] <= 'z' || name[i] == '-' }

  /** Lower-case letters and hyphens make an attribute name the service takes. */
  lemma PlainNameAccepted(name: string)
    requires Plain(name) && 1 <= |name| <= 64
    ensures AttributeNameAccepted(name)
  {
    ShortByteLength(name);
    assert ToLower(name) == name;
    assert name[..1][0] == name[0] && name[|name| - 1..][0] == name[|name| - 1];
    assert |name| >= 4 ==> name[..4][3] == name[3];
    assert |name| >= 7 ==> name[..7][6] == name[6];
    hide ToLower, ByteLength;
    forall i | 0 <= i <= |name| - 2 ensures name[i..][..2] != ".." {
      assert name[i..][..2][0] == name[i];
    }
  }

  /** The crate's own marker is an attribute the service takes. */
  lemma MarkerIsAccepted()
    ensures AttributeNameAccepted(ENCODING) && BASE64_MARK.Bytes() != []
  {
    assert Plain("ruststream-payload-encoding");
    PlainNameAccepted(ENCODING);
    hide AttributeNameAccepted;
  }

  lemma AttributesAreTheHeaders(headers: Headers, mark: bool, fifo: bool)
    requires ENCODING !in headers
    ensures var attributes := AttributesOf(headers, mark, fifo);
            && (forall name :: name in Carried(headers, fifo) ==>
                  name in attributes && attributes[name].Bytes() == headers[name])
            && (forall name :: name in attributes && name !in Carried(headers, fifo) ==>
                  name == ENCODING && attributes[name] == BASE64_MARK)
  {
    hide IsServiceText;
  }

  /** Whether a name and value are ones the service takes. */
  predicate Presentable(name: string, value: seq<byte>) { AttributeNameAccepted(name) && value != [] }

  lemma AttributesAccepted(headers: Headers, mark: bool, fifo: bool)
    requires ENCODING !in headers
    ensures var attributes := AttributesOf(headers, mark, fifo);
            (forall name :: name in attributes ==> Presentable(name, attributes[name].Bytes()))
            <==> (forall name :: name in Carried(headers, fifo) ==> Presentable(name, headers[name]))
  {
    var attributes := AttributesOf(headers, mark, fifo);
    MarkerIsAccepted();
    assert Presentable(ENCODING, BASE64_MARK.Bytes());
    AttributesAreTheHeaders(headers, mark, fifo);
    hide AttributesOf, Presentable, Carried;
    forall name | name in attributes
      ensures name in Carried(headers, fifo) || Presentable(name, attributes[name].Bytes())
    {
    }
  }

  /**
   * A framed message is refused neither for its body's text nor for its kind nor for the marker the
   * crate added: what decides is the payload, the headers it carries, the size and the FIFO ids.
   */
  lemma FramedAcceptedExactly(
    key: string, payload: seq<byte>, headers: Headers, options: Option<PublishOptions>, mounted: Option<Text>,
    crateId: Text, limit: nat)
    requires Framed(IsFifo(key), payload, headers, options, mounted, crateId).Success?
    ensures var outbound := Framed(IsFifo(key), payload, headers, options, mounted, crateId).value;
            SendRefusal(IsFifo(key), outbound, limit).None? <==>
              (&& payload != []
               && (forall name :: name in Carried(headers, IsFifo(key)) ==> Presentable(name, headers[name]))
               && MessageSize(outbound) <= limit && FifoAccepted(outbound))
  {
    hide AttributeNameAccepted, IsFifo, IsServiceText, MessageSize, FifoAccepted, AttributesOf, EncodeBody, Carried;
    EncodedBodyIsServiceText(payload);
    assert ENCODING !in headers;
    AttributesAccepted(headers, EncodeBody(payload).1, IsFifo(key));
    FramedMeetsItsKind(key, payload, headers, options, mounted, crateId, limit);
  }
}
