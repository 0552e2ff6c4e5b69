// What the harness is told a publish reaches: the record of topic subscriptions kept beside the
// account, the turns that tell a queue from a topic of the same name, and the routes themselves.
module Routing {
  import opened Basics
  import opened Names
  import opened Wire
  import opened InProcess
  import A = Account

  // ---------------------------------------------------------------------------------------------
  // Turns

  datatype Surface = ToQueue | ToTopic

  /** One destination: how often it was published to through each surface, and asked about. */
  datatype Tally = Tally(queue: nat, topic: nat, asked: nat)

  type Publishes = map<string, Tally>

  function TallyOf(p: Publishes, destination: string): Tally
  {
    if destination in p then p[destination] else Tally(0, 0, 0)
  }

  function Published(p: Publishes, destination: string, surface: Surface): Publishes
  {
    var t := TallyOf(p, destination);
    p[destination := if surface == ToQueue then t.(queue := t.queue + 1) else t.(topic := t.topic + 1)]
  }

  /** Where a count stands when it goes round and round a cycle of `total`. */
  function Round(n: nat, total: nat): (at: nat)
    requires total > 0
    ensures at < total
  {
    if n < total then n else Round(n - total, total)
  }

  /** It is the remainder. */
  lemma {:induction false} RoundIsRemainder(n: nat, total: nat)
    requires total > 0
    ensures Round(n, total) == n % total
  {
    if n < total {
      Remainder(n, 0, n, total);
    } else {
      RoundIsRemainder(n - total, total);
      var k := (n - total) / total;
      assert n == (k + 1) * total + (n - total) % total;
      Remainder(n, k + 1, (n - total) % total, total);
    }
  }

  lemma Remainder(x: nat, k: nat, r: nat, total: nat)
    requires r < total && x == k * total + r
    ensures x % total == r
  {
    var q := x / total;
    assert x == q * total + x % total;
    assert (q - k) * total == q * total - k * total;
    if q > k {
      AtLeastOne(q - k, total);
    } else if q < k {
      AtLeastOne(k - q, total);
    }
  }

  lemma AtLeastOne(n: nat, total: nat)
    requires n > 0
    ensures n * total >= total
  {
  }

  /** What a tally answers next. */
  function Turn(t: Tally): Option<Surface>
  {
    if t.queue == 0 && t.topic == 0 then None
    else if Round(t.asked, t.queue + t.topic) < t.queue then Some(ToQueue) else Some(ToTopic)
  }

  /** The next count of questions, as a 64-bit counter that wraps. */
  function Counted(asked: nat): (n: nat)
    ensures n < U64_SPAN && (asked + 1 < U64_SPAN ==> n == asked + 1)
  {
    if asked + 1 < U64_SPAN then asked + 1 else 0
  }

  function Asked(p: Publishes, destination: string): Publishes
  {
    if Turn(TallyOf(p, destination)).None? then p
    else p[destination := p[destination].(asked := Counted(p[destination].asked))]
  }

  // ---------------------------------------------------------------------------------------------
  // The record

  type Record = map<string, seq<string>>

  function RecordedFor(record: Record, topic: string): seq<string>
  {
    if topic in record then record[topic] else []
  }

  function Recorded(record: Record, topic: string, queue: string): Record
  {
    var queues := RecordedFor(record, topic);
    record[topic := if queue in queues then queues else queues + [queue]]
  }

  class Notes {
    var topics: Record
    var publishes: Publishes

    constructor ()
      ensures topics == map[] && publishes == map[]
    {
      topics, publishes := map[], map[];
    }

    method Subscribe(topic: string, queue: string)
      modifies this`topics
      ensures topics == Recorded(old(topics), topic, queue)
    {
      var queues := if topic in topics then topics[topic] else [];
      if queue !in queues {
        queues := queues + [queue];
      }
      topics := topics[topic := queues];
    }

    /** The queues subscribed to a topic, when it has any. */
    method FannedOut(topic: string) returns (queues: Option<seq<string>>)
      ensures queues == if RecordedFor(topics, topic) == [] then None else Some(RecordedFor(topics, topic))
    {
      if topic in topics && topics[topic] != [] {
        return Some(topics[topic]);
      }
      return None;
    }

    method Publish(destination: string, surface: Surface)
      modifies this`publishes
      ensures publishes == Published(old(publishes), destination, surface)
    {
      var tally := if destination in publishes then publishes[destination] else Tally(0, 0, 0);
      match surface {
        case ToQueue => tally := tally.(queue := tally.queue + 1);
        case ToTopic => tally := tally.(topic := tally.topic + 1);
      }
      publishes := publishes[destination := tally];
    }

    /** The surface the next question about a destination is about. */
    method NextSurface(destination: string) returns (surface: Option<Surface>)
      modifies this`publishes
      ensures surface == Turn(TallyOf(old(publishes), destination))
      ensures publishes == Asked(old(publishes), destination)
    {
      if destination !in publishes {
        return None;
      }
      var tally := publishes[destination];
      var total := tally.queue + tally.topic;
      if total == 0 {
        return None;
      }
      var turn := tally.asked % total;
      RoundIsRemainder(tally.asked, total);
      publishes := publishes[destination := tally.(asked := Counted(tally.asked))];
      return Some(if turn < tally.queue then ToQueue else ToTopic);
    }
  }

  // ---------------------------------------------------------------------------------------------
  // Fair turns

  datatype Event = Sent(destination: string, surface: Surface) | Question(destination: string)

  function AfterEvents(events: seq<Event>): Publishes
  {
    if events == [] then map[]
    else
      var before := AfterEvents(events[..|events| - 1]);
      match events[|events| - 1]
      case Sent(destination, surface) => Published(before, destination, surface)
      case Question(destination) => Asked(before, destination)
  }

  /** Every tally counts the publishes of the history, whatever was asked in between. */
  lemma {:induction false} TalliesCount(events: seq<Event>, destination: string)
    ensures var t := TallyOf(AfterEvents(events), destination);
            && t.queue == multiset(events)[Sent(destination, ToQueue)]
            && t.topic == multiset(events)[Sent(destination, ToTopic)]
            && t.asked <= |events| && t.asked < U64_SPAN
  {
    hide Counted;
    if events != [] {
      var before, last := events[..|events| - 1], events[|events| - 1];
      TalliesCount(before, destination);
      assert events == before + [last];
    }
  }

  function AskedTimes(p: Publishes, destination: string, n: nat): Publishes
  {
    if n == 0 then p else Asked(AskedTimes(p, destination, n - 1), destination)
  }

  /** The answers to `n` questions in a row. */
  function Answers(p: Publishes, destination: string, n: nat): seq<Option<Surface>>
  {
    if n == 0 then []
    else Answers(p, destination, n - 1) + [Turn(TallyOf(AskedTimes(p, destination, n - 1), destination))]
  }

  lemma {:induction false} QuestionsOnlyCount(p: Publishes, destination: string, n: nat)
    requires Total(TallyOf(p, destination)) > 0 && TallyOf(p, destination).asked + n < U64_SPAN
    ensures var t := TallyOf(p, destination);
            TallyOf(AskedTimes(p, destination, n), destination) == t.(asked := t.asked + n)
  {
    hide Counted;
    if n > 0 {
      QuestionsOnlyCount(p, destination, n - 1);
    }
  }

  /** How many questions make a round. */
  function Total(t: Tally): nat { t.queue + t.topic }

  /** Whether a number falls among the first `queue` of each `total`. */
  predicate Hit(x: nat, queue: nat, total: nat)
    requires total > 0
  {
    Round(x, total) < queue
  }

  /** The answer to the next question is a hit of the questions asked so far. */
  lemma TurnIsHit(t: Tally)
    requires Total(t) > 0
    ensures Turn(t) == if Hit(t.asked, t.queue, Total(t)) then Some(ToQueue) else Some(ToTopic)
  {
  }

  lemma HitBelow(x: nat, queue: nat, total: nat)
    requires x < total
    ensures Hit(x, queue, total) <==> x < queue
  {
  }

  lemma HitAgain(x: nat, queue: nat, total: nat)
    requires total > 0
    ensures Hit(x + total, queue, total) <==> Hit(x, queue, total)
  {
  }

  /** How many of `n` numbers from `start` on are hits. */
  function Hits(start: nat, n: nat, queue: nat, total: nat): nat
    requires total > 0
  {
    if n == 0 then 0 else Hits(start, n - 1, queue, total) + (if Hit(start + n - 1, queue, total) then 1 else 0)
  }

  lemma {:induction false} HitsFromZero(n: nat, queue: nat, total: nat)
    requires total > 0 && n <= total
    ensures Hits(0, n, queue, total) == Min(n, queue)
  {
    hide Hit;
    if n > 0 {
      HitsFromZero(n - 1, queue, total);
      HitBelow(n - 1, queue, total);
    }
  }

  lemma {:induction false} HitsSplit(start: nat, n: nat, queue: nat, total: nat)
    requires total > 0 && n > 0
    ensures Hits(start, n, queue, total)
         == (if Hit(start, queue, total) then 1 else 0) + Hits(start + 1, n - 1, queue, total)
  {
    hide Hit;
    if n > 1 {
      HitsSplit(start, n - 1, queue, total);
    }
  }

  /** A window of `total` numbers meets each turn once, wherever it starts. */
  lemma {:induction false} WindowHits(start: nat, queue: nat, total: nat)
    requires total > 0 && queue <= total
    ensures Hits(start, total, queue, total) == queue
  {
    hide Hit;
    if start == 0 {
      HitsFromZero(total, queue, total);
    } else {
      WindowHits(start - 1, queue, total);
      HitsSplit(start - 1, total, queue, total);
      HitAgain(start - 1, queue, total);
    }
  }

  lemma SameTotal(t: Tally, asked: nat)
    ensures Total(t.(asked := asked)) == Total(t)
  {
  }

  lemma NextAnswer(p: Publishes, destination: string, n: nat)
    requires Total(TallyOf(p, destination)) > 0 && TallyOf(p, destination).asked + n < U64_SPAN
    ensures var t := TallyOf(p, destination);
            Answers(p, destination, n + 1) == Answers(p, destination, n)
            + [if Hit(t.asked + n, t.queue, Total(t)) then Some(ToQueue) else Some(ToTopic)]
  {
    hide TallyOf, Hit, AskedTimes, Turn, Total;
    var t := TallyOf(p, destination);
    QuestionsOnlyCount(p, destination, n);
    SameTotal(t, t.asked + n);
    TurnIsHit(t.(asked := t.asked + n));
  }

  /** How often an answer was given. */
  function TimesGiven(answers: seq<Option<Surface>>, x: Option<Surface>): nat { multiset(answers)[x] }

  lemma OneMore(answers: seq<Option<Surface>>, last: Option<Surface>, x: Option<Surface>)
    ensures TimesGiven(answers + [last], x) == TimesGiven(answers, x) + (if x == last then 1 else 0)
  {
  }

  lemma NoneGiven(x: Option<Surface>)
    ensures TimesGiven([], x) == 0
  {
  }

  lemma HitsMore(start: nat, n: nat, queue: nat, total: nat)
    requires total > 0 && n > 0
    ensures Hits(start, n, queue, total)
         == Hits(start, n - 1, queue, total) + (if Hit(start + n - 1, queue, total) then 1 else 0)
  {
  }

  lemma {:induction false} AnswersAreHits(p: Publishes, destination: string, n: nat, t: Tally)
    requires t == TallyOf(p, destination) && Total(t) > 0 && t.asked + n <= U64_SPAN
    ensures TimesGiven(Answers(p, destination, n), Some(ToQueue)) == Hits(t.asked, n, t.queue, Total(t))
    ensures TimesGiven(Answers(p, destination, n), Some(ToTopic)) == n - Hits(t.asked, n, t.queue, Total(t))
  {
    hide Hit, TallyOf, AskedTimes, Turn, Total, TimesGiven;
    if n == 0 {
      NoneGiven(Some(ToQueue));
      NoneGiven(Some(ToTopic));
    } else {
      AnswersAreHits(p, destination, n - 1, t);
      NextAnswer(p, destination, n - 1);
      HitsMore(t.asked, n, t.queue, Total(t));
      var before := Answers(p, destination, n - 1);
      var last := if Hit(t.asked + n - 1, t.queue, Total(t)) then Some(ToQueue) else Some(ToTopic);
      hide Answers, Hits;
      OneMore(before, last, Some(ToQueue));
      OneMore(before, last, Some(ToTopic));
    }
  }

  /**
   * After any publishes and questions, as many questions in a row as a destination was published to
   * are answered with each surface exactly as often as it was published to through it.
   */
  lemma PassIsFair(events: seq<Event>, destination: string)
    requires var sent := multiset(events)[Sent(destination, ToQueue)] + multiset(events)[Sent(destination, ToTopic)];
             sent > 0 && |events| + sent <= U64_SPAN
    ensures var queue, topic := multiset(events)[Sent(destination, ToQueue)], multiset(events)[Sent(destination, ToTopic)];
            var answers := Answers(AfterEvents(events), destination, queue + topic);
            TimesGiven(answers, Some(ToQueue)) == queue && TimesGiven(answers, Some(ToTopic)) == topic
  {
    hide TallyOf, AfterEvents, Answers, Hits, Hit, TimesGiven;
    TalliesCount(events, destination);
    var p := AfterEvents(events);
    var t := TallyOf(p, destination);
    AnswersAreHits(p, destination, Total(t), t);
    WindowHits(t.asked, t.queue, Total(t));
  }

  // ---------------------------------------------------------------------------------------------
  // The record and the account

  /** The account, and the record kept beside it. */
  datatype Links = Links(account: A.Account, record: Record)

  function LinkRefusal(topic: string, queue: string): Option<Refusal>
  {
    if TopicKey(topic).None? || QueueKey(queue).None? then Some(NameRefused)
    else if A.SubscribeRefused(TopicKey(topic).value, QueueKey(queue).value) then Some(KindMismatch)
    else None
  }

  function Linked(l: Links, topic: string, queue: string): Links
  {
    if LinkRefusal(topic, queue).Some? then l
    else
      var t, q := TopicKey(topic).value, QueueKey(queue).value;
      Links(A.SubscribeTopic(l.account, t, q), Recorded(l.record, t, q))
  }

  /** How many queues of a declaration come before the first one refused. */
  function Accepted(topic: string, queues: seq<string>): (n: nat)
    ensures n <= |queues|
  {
    if queues == [] || LinkRefusal(topic, queues[0]).Some? then 0 else 1 + Accepted(topic, queues[1..])
  }

  lemma {:induction false} AcceptedAre(topic: string, queues: seq<string>)
    ensures var n := Accepted(topic, queues);
            && (forall i :: 0 <= i < n ==> LinkRefusal(topic, queues[i]).None?)
            && (n < |queues| ==> LinkRefusal(topic, queues[n]).Some?)
  {
    hide LinkRefusal;
    if queues != [] && LinkRefusal(topic, queues[0]).None? {
      AcceptedAre(topic, queues[1..]);
    }
  }

  function LinkedAll(l: Links, topic: string, queues: seq<string>): Links
  {
    if queues == [] then l
    else Linked(LinkedAll(l, topic, queues[..|queues| - 1]), topic, queues[|queues| - 1])
  }

  class Core {
    const bus: Bus
    const notes: Notes

    constructor (bus: Bus, notes: Notes)
      ensures this.bus == bus && this.notes == notes
    {
      this.bus, this.notes := bus, notes;
    }

    ghost function State(): Links
      reads bus, notes
    {
      Links(bus.State(), notes.topics)
    }

    method RecordTopicQueue(topic: string, queue: string)
      modifies notes`topics
      ensures notes.topics == if TopicKey(topic).Some? && QueueKey(queue).Some?
        then Recorded(old(notes.topics), TopicKey(topic).value, QueueKey(queue).value) else old(notes.topics)
    {
      var t, q := TopicKey(topic), QueueKey(queue);
      if t.Some? && q.Some? {
        notes.Subscribe(t.value, q.value);
      }
    }

    /** Subscribes a queue to a topic on the account, and notes it once it is. */
    method SubscribeQueueToTopic(topic: string, queue: string) returns (refusal: Option<Refusal>)
      modifies bus, notes`topics
      ensures refusal.Some? <==> LinkRefusal(topic, queue).Some?
      ensures refusal.Some? ==> State() == old(State())
      ensures State() == Linked(old(State()), topic, queue)
    {
      var t := TopicKey(topic);
      if t.None? {
        return Some(NameRefused);
      }
      var q := QueueKey(queue);
      if q.None? {
        return Some(NameRefused);
      }
      refusal := bus.SubscribeTopic(t.value, q.value);
      if refusal.None? {
        RecordTopicQueue(topic, queue);
      }
    }

    /** Subscribes and notes the queues a publish policy names, up to the first one refused. */
    method DeclareFanOut(topic: string, queues: seq<string>) returns (refusal: Option<Refusal>)
      modifies bus, notes`topics
      ensures refusal.Some? <==> Accepted(topic, queues) < |queues|
      ensures State() == LinkedAll(old(State()), topic, queues[..Accepted(topic, queues)])
    {
      hide Linked, LinkRefusal, A.SubscribeTopic, Recorded;
      AcceptedAre(topic, queues);
      var i := 0;
      while i < |queues|
        invariant 0 <= i <= Accepted(topic, queues)
        invariant State() == LinkedAll(old(State()), topic, queues[..i])
      {
        refusal := SubscribeQueueToTopic(topic, queues[i]);
        if refusal.Some? {
          return;
        }
        assert queues[..i + 1][..i] == queues[..i];
        i := i + 1;
      }
      return None;
    }

    /** The queues a publish to a destination reaches. */
    method ReachedQueues(destination: string) returns (queues: seq<string>)
      modifies notes`publishes
      ensures queues == Reached(notes.topics, old(notes.publishes), destination)
      ensures notes.publishes == Asked(old(notes.publishes), destination)
    {
      var fanned: Option<seq<string>> := None;
      var topic := TopicKey(destination);
      if topic.Some? {
        fanned := notes.FannedOut(topic.value);
      }
      var surface := notes.NextSurface(destination);
      if surface == Some(ToTopic) {
        return if fanned.Some? then fanned.value else [];
      }
      if surface == None && fanned.Some? {
        return fanned.value;
      }
      var key := QueueKey(destination);
      return if key.Some? then [key.value] else [];
    }

    /** The subscriptions a publish to a destination is owed to, by position. */
    method Routes(destination: string, subscriptions: seq<string>) returns (positions: seq<nat>)
      modifies notes`publishes
      ensures positions == RoutesTo(Reached(notes.topics, old(notes.publishes), destination), subscriptions)
      ensures notes.publishes == Asked(old(notes.publishes), destination)
    {
      hide Reached, Asked, FirstReading;
      var queues := ReachedQueues(destination);
      positions := [];
      for i := 0 to |queues|
        invariant positions == Positions(queues[..i], subscriptions)
      {
        var at := FirstReading(subscriptions, queues[i]);
        assert queues[..i + 1][..i] == queues[..i];
        if at.Some? {
          positions := positions + [at.value];
        }
      }
      assert queues[..|queues|] == queues;
      positions := Dedup(Sort(positions));
    }
  }

  datatype Call = Subscribe(topic: string, queue: string) | Declare(topic: string, queues: seq<string>)

  function Called(l: Links, call: Call): Links
  {
    match call
    case Subscribe(topic, queue) => Linked(l, topic, queue)
    case Declare(topic, queues) => LinkedAll(l, topic, queues[..Accepted(topic, queues)])
  }

  function AfterCalls(calls: seq<Call>): Links
  {
    if calls == [] then Links(A.NewAccount(), map[])
    else Called(AfterCalls(calls[..|calls| - 1]), calls[|calls| - 1])
  }

  predicate NoRepeats(queues: seq<string>) { forall i, j :: 0 <= i < j < |queues| ==> queues[i] != queues[j] }

  /** Each topic's recorded queues are the endpoints the account delivers to, in order, once each. */
  ghost predicate Agrees(l: Links)
  {
    forall topic :: A.EndpointsOf(l.account, topic) == RecordedFor(l.record, topic) && NoRepeats(RecordedFor(l.record, topic))
  }

  lemma LinkedAgrees(l: Links, topic: string, queue: string)
    requires Agrees(l)
    ensures Agrees(Linked(l, topic, queue))
  {
    hide TopicKey, QueueKey;
    forall t ensures A.EndpointsOf(Linked(l, topic, queue).account, t) == RecordedFor(Linked(l, topic, queue).record, t)
                     && NoRepeats(RecordedFor(Linked(l, topic, queue).record, t))
    {
      assert A.EndpointsOf(l.account, t) == RecordedFor(l.record, t) && NoRepeats(RecordedFor(l.record, t));
    }
  }

  lemma {:induction false} LinkedAllAgrees(l: Links, topic: string, queues: seq<string>)
    requires Agrees(l)
    ensures Agrees(LinkedAll(l, topic, queues))
  {
    hide Agrees, Linked;
    if queues != [] {
      LinkedAllAgrees(l, topic, queues[..|queues| - 1]);
      LinkedAgrees(LinkedAll(l, topic, queues[..|queues| - 1]), topic, queues[|queues| - 1]);
    }
  }

  /** After any subscriptions and declarations, refused ones included, the record agrees with the account. */
  lemma {:induction false} RecordAgrees(calls: seq<Call>)
    ensures Agrees(AfterCalls(calls))
  {
    hide Linked;
    if calls != [] {
      var before, last := calls[..|calls| - 1], calls[|calls| - 1];
      RecordAgrees(before);
      match last
      case Subscribe(topic, queue) => LinkedAgrees(AfterCalls(before), topic, queue);
      case Declare(topic, queues) =>
        LinkedAllAgrees(AfterCalls(before), topic, queues[..Accepted(topic, queues)]);
    }
  }

  // ---------------------------------------------------------------------------------------------
  // Routes

  function Reached(record: Record, publishes: Publishes, destination: string): seq<string>
  {
    var fanned := if TopicKey(destination).Some? then RecordedFor(record, TopicKey(destination).value) else [];
    var own := if QueueKey(destination).Some? then [QueueKey(destination).value] else [];
    match Turn(TallyOf(publishes, destination))
    case Some(ToTopic) => fanned
    case Some(ToQueue) => own
    case None => if fanned != [] then fanned else own
  }

  predicate Reads(subscription: string, queue: string) { QueueKey(subscription) == Some(queue) }

  /** The first subscription that reads a queue. */
  function FirstReading(subscriptions: seq<string>, queue: string): Option<nat>
  {
    if subscriptions == [] then None
    else if Reads(subscriptions[0], queue) then Some(0)
    else match FirstReading(subscriptions[1..], queue)
      case None => None
      case Some(i) => Some(i + 1)
  }

  lemma {:induction false} FirstReadingIs(subscriptions: seq<string>, queue: string)
    ensures var at := FirstReading(subscriptions, queue);
            && (at.Some? ==> at.value < |subscriptions| && Reads(subscriptions[at.value], queue))
            && forall i :: 0 <= i < (if at.Some? then at.value else |subscriptions|) ==> !Reads(subscriptions[i], queue)
  {
    hide Reads;
    if subscriptions != [] {
      FirstReadingIs(subscriptions[1..], queue);
      var rest := FirstReading(subscriptions[1..], queue);
      forall i | 0 < i < |subscriptions| ensures subscriptions[i] == subscriptions[1..][i - 1] {
      }
    }
  }

  function Positions(queues: seq<string>, subscriptions: seq<string>): seq<nat>
  {
    if queues == [] then []
    else
      var at := FirstReading(subscriptions, queues[|queues| - 1]);
      Positions(queues[..|queues| - 1], subscriptions) + if at.Some? then [at.value] else []
  }

  function PutInOrder(s: seq<nat>, x: nat): seq<nat>
  {
    if s == [] || x <= s[0] then [x] + s else [s[0]] + PutInOrder(s[1..], x)
  }

  function Sort(s: seq<nat>): seq<nat>
  {
    if s == [] then [] else PutInOrder(Sort(s[1..]), s[0])
  }

  /** Drops what repeats the element before it. */
  function Dedup(s: seq<nat>): seq<nat>
  {
    if |s| <= 1 then s else if s[0] == s[1] then Dedup(s[1..]) else [s[0]] + Dedup(s[1..])
  }

  function RoutesTo(queues: seq<string>, subscriptions: seq<string>): seq<nat>
  {
    Dedup(Sort(Positions(queues, subscriptions)))
  }

  predicate Ascending(s: seq<nat>) { forall i, j :: 0 <= i < j < |s| ==> s[i] <= s[j] }

  predicate Increasing(s: seq<nat>) { forall i, j :: 0 <= i < j < |s| ==> s[i] < s[j] }

  lemma {:induction false} PutInOrderKeeps(s: seq<nat>, x: nat)
    ensures Ascending(s) ==> Ascending(PutInOrder(s, x))
    ensures forall y :: y in PutInOrder(s, x) <==> y in s || y == x
  {
    if s != [] && x > s[0] {
      PutInOrderKeeps(s[1..], x);
      var rest := PutInOrder(s[1..], x);
      assert s == [s[0]] + s[1..];
      assert forall j :: 0 <= j < |rest| ==> rest[j] in rest;
    }
  }

  lemma {:induction false} SortSorts(s: seq<nat>)
    ensures Ascending(Sort(s)) && forall y :: y in Sort(s) <==> y in s
  {
    if s != [] {
      SortSorts(s[1..]);
      PutInOrderKeeps(Sort(s[1..]), s[0]);
      assert s == [s[0]] + s[1..];
    }
  }

  lemma {:induction false} DedupKeeps(s: seq<nat>)
    requires Ascending(s)
    ensures Increasing(Dedup(s)) && (forall y :: y in Dedup(s) <==> y in s) && (s != [] ==> Dedup(s) != [] && Dedup(s)[0] == s[0])
  {
    if |s| > 1 {
      DedupKeeps(s[1..]);
      assert s == [s[0]] + s[1..];
    }
  }

  lemma {:induction false} PositionsAre(queues: seq<string>, subscriptions: seq<string>, p: nat)
    ensures p in Positions(queues, subscriptions) <==>
            exists i :: 0 <= i < |queues| && FirstReading(subscriptions, queues[i]) == Some(p)
  {
    hide FirstReading;
    if queues != [] {
      var before, last := queues[..|queues| - 1], queues[|queues| - 1];
      PositionsAre(before, subscriptions, p);
      if p in Positions(before, subscriptions) {
        var i :| 0 <= i < |before| && FirstReading(subscriptions, before[i]) == Some(p);
        assert queues[i] == before[i];
      } else if FirstReading(subscriptions, last) != Some(p) {
        forall i | 0 <= i < |queues| ensures FirstReading(subscriptions, queues[i]) != Some(p) {
          assert i < |before| ==> before[i] == queues[i];
        }
      }
    }
  }

  /** The first subscription on one of the queues. */
  predicate FirstFor(subscriptions: seq<string>, queues: seq<string>, p: nat)
  {
    && p < |subscriptions|
    && (exists queue :: queue in queues && Reads(subscriptions[p], queue))
    && forall i :: 0 <= i < p ==> QueueKey(subscriptions[i]) != QueueKey(subscriptions[p])
  }

  /** The routes are, in strictly increasing order, the first subscription of each reached queue that has one. */
  lemma RoutesAre(queues: seq<string>, subscriptions: seq<string>, p: nat)
    ensures Increasing(RoutesTo(queues, subscriptions))
    ensures p in RoutesTo(queues, subscriptions) <==> FirstFor(subscriptions, queues, p)
  {
    hide QueueKey, FirstReading;
    var positions := Positions(queues, subscriptions);
    SortSorts(positions);
    DedupKeeps(Sort(positions));
    PositionsAre(queues, subscriptions, p);
    forall queue | queue in queues
      ensures FirstReading(subscriptions, queue) == Some(p) <==>
              && p < |subscriptions| && Reads(subscriptions[p], queue)
              && forall i :: 0 <= i < p ==> !Reads(subscriptions[i], queue)
    {
      FirstReadingIs(subscriptions, queue);
    }
  }

  // ---------------------------------------------------------------------------------------------
  // What a topic's record holds, from the calls alone

  /** A subscription the account takes: both names have keys, and no FIFO queue goes on a standard topic. */
  predicate Acceptable(topic: string, queue: string)
  {
    && TopicKey(topic).Some? && QueueKey(queue).Some?
    && (IsFifo(QueueKey(queue).value) ==> IsFifo(TopicKey(topic).value))
  }

  predicate Fits(topic: string, queue: string, t: string, q: string)
  {
    Acceptable(topic, queue) && TopicKey(topic) == Some(t) && QueueKey(queue) == Some(q)
  }

  /** Whether a call subscribes the queue keyed `q` to the topic keyed `t`. */
  ghost predicate Subscribes(call: Call, t: string, q: string)
  {
    match call
    case Subscribe(topic, queue) => Fits(topic, queue, t, q)
    case Declare(topic, queues) =>
      exists i :: 0 <= i < |queues| && Fits(topic, queues[i], t, q)
        && forall j :: 0 <= j < i ==> Acceptable(topic, queues[j])
  }

  lemma LinkedHolds(l: Links, topic: string, queue: string, t: string, q: string)
    ensures q in A.EndpointsOf(Linked(l, topic, queue).account, t)
       <==> q in A.EndpointsOf(l.account, t) || Fits(topic, queue, t, q)
    ensures A.EndpointsOf(l.account, t) <= A.EndpointsOf(Linked(l, topic, queue).account, t)
    ensures Acceptable(topic, queue) <==> LinkRefusal(topic, queue).None?
  {
    hide TopicKey, QueueKey, IsFifo;
  }

  lemma {:induction false} LinkedAllHolds(l: Links, topic: string, queues: seq<string>, t: string, q: string)
    ensures q in A.EndpointsOf(LinkedAll(l, topic, queues).account, t)
       <==> q in A.EndpointsOf(l.account, t) || exists i :: 0 <= i < |queues| && Fits(topic, queues[i], t, q)
    ensures A.EndpointsOf(l.account, t) <= A.EndpointsOf(LinkedAll(l, topic, queues).account, t)
  {
    hide Linked, Fits, A.EndpointsOf;
    if queues != [] {
      var before, last := queues[..|queues| - 1], queues[|queues| - 1];
      LinkedAllHolds(l, topic, before, t, q);
      LinkedHolds(LinkedAll(l, topic, before), topic, last, t, q);
      assert forall i :: 0 <= i < |before| ==> before[i] == queues[i];
      if i :| 0 <= i < |queues| && Fits(topic, queues[i], t, q) {
        assert i < |before| ==> Fits(topic, before[i], t, q);
      }
    }
  }

  lemma AcceptedAcceptable(topic: string, queues: seq<string>)
    ensures var n := Accepted(topic, queues);
            && (forall i :: 0 <= i < n ==> Acceptable(topic, queues[i]))
            && (n < |queues| ==> !Acceptable(topic, queues[n]))
  {
    hide LinkRefusal, Acceptable;
    AcceptedAre(topic, queues);
    forall i | 0 <= i < |queues| ensures Acceptable(topic, queues[i]) <==> LinkRefusal(topic, queues[i]).None? {
      LinkedHolds(Links(A.NewAccount(), map[]), topic, queues[i], "", "");
    }
  }

  lemma DeclareHolds(l: Links, topic: string, queues: seq<string>, t: string, q: string)
    ensures var l' := LinkedAll(l, topic, queues[..Accepted(topic, queues)]);
            && (q in A.EndpointsOf(l'.account, t)
                <==> q in A.EndpointsOf(l.account, t) || Subscribes(Declare(topic, queues), t, q))
            && A.EndpointsOf(l.account, t) <= A.EndpointsOf(l'.account, t)
  {
    hide Linked, LinkedAll, Fits, A.EndpointsOf, Acceptable, Accepted;
    var taken := queues[..Accepted(topic, queues)];
    LinkedAllHolds(l, topic, taken, t, q);
    AcceptedAcceptable(topic, queues);
    FitsIsAcceptable(topic, t, q);
    if i :| 0 <= i < |taken| && Fits(topic, taken[i], t, q) {
      assert Fits(topic, queues[i], t, q);
    }
    if i :| 0 <= i < |queues| && Fits(topic, queues[i], t, q) && forall j :: 0 <= j < i ==> Acceptable(topic, queues[j]) {
      assert i < |taken|;
      assert Fits(topic, taken[i], t, q);
    }
  }

  lemma CallHolds(l: Links, call: Call, t: string, q: string)
    ensures q in A.EndpointsOf(Called(l, call).account, t) <==> q in A.EndpointsOf(l.account, t) || Subscribes(call, t, q)
    ensures A.EndpointsOf(l.account, t) <= A.EndpointsOf(Called(l, call).account, t)
  {
    hide Linked, LinkedAll, A.EndpointsOf, Acceptable, Accepted;
    match call
    case Subscribe(topic, queue) => LinkedHolds(l, topic, queue, t, q);
    case Declare(topic, queues) =>
      hide Subscribes;
      DeclareHolds(l, topic, queues, t, q);
  }

  lemma FitsIsAcceptable(topic: string, t: string, q: string)
    ensures forall queue :: Fits(topic, queue, t, q) ==> Acceptable(topic, queue)
  {
  }

  lemma LastCall(calls: seq<Call>, t: string, q: string)
    requires calls != []
    ensures var before, after := AfterCalls(calls[..|calls| - 1]).account, AfterCalls(calls).account;
            && (q in A.EndpointsOf(after, t) <==> q in A.EndpointsOf(before, t) || Subscribes(calls[|calls| - 1], t, q))
            && A.EndpointsOf(before, t) <= A.EndpointsOf(after, t)
  {
    hide Called, Subscribes, A.EndpointsOf;
    CallHolds(AfterCalls(calls[..|calls| - 1]), calls[|calls| - 1], t, q);
  }

  /** After any calls, a topic's endpoints are exactly the queues some call subscribed to it. */
  lemma {:induction false} EndpointsExactly(calls: seq<Call>, t: string, q: string)
    ensures q in A.EndpointsOf(AfterCalls(calls).account, t) <==> exists i :: 0 <= i < |calls| && Subscribes(calls[i], t, q)
  {
    hide Subscribes;
    if calls != [] {
      var before := calls[..|calls| - 1];
      EndpointsExactly(before, t, q);
      LastCall(calls, t, q);
      hide AfterCalls;
      assert forall i :: 0 <= i < |before| ==> before[i] == calls[i];
      if i :| 0 <= i < |calls| && Subscribes(calls[i], t, q) {
        assert i < |before| ==> Subscribes(before[i], t, q);
      }
    }
  }

  /** More calls only add endpoints at the end. */
  lemma {:induction false} EndpointsGrow(calls: seq<Call>, n: nat, t: string)
    requires n <= |calls|
    ensures A.EndpointsOf(AfterCalls(calls[..n]).account, t) <= A.EndpointsOf(AfterCalls(calls).account, t)
  {
    if n == |calls| {
      assert calls[..n] == calls;
    } else {
      var before := calls[..|calls| - 1];
      assert before[..n] == calls[..n];
      EndpointsGrow(before, n, t);
      LastCall(calls, t, "");
      hide AfterCalls;
    }
  }

  // ---------------------------------------------------------------------------------------------
  // What a pass of questions is answered, from the calls and the publishes

  /** The endpoints of the topic a name stands for, and the queue it stands for. */
  function TopicQueues(a: A.Account, destination: string): seq<string>
  {
    if TopicKey(destination).Some? then A.EndpointsOf(a, TopicKey(destination).value) else []
  }

  function OwnQueue(destination: string): seq<string>
  {
    if QueueKey(destination).Some? then [QueueKey(destination).value] else []
  }

  /** The queues answered to `n` questions in a row. */
  function QueuesAnswered(record: Record, p: Publishes, destination: string, n: nat): seq<seq<string>>
  {
    if n == 0 then []
    else QueuesAnswered(record, p, destination, n - 1) + [Reached(record, AskedTimes(p, destination, n - 1), destination)]
  }

  /** The routes answered to `n` questions in a row. */
  function RoutesAnswered(record: Record, p: Publishes, destination: string, subscriptions: seq<string>, n: nat)
    : seq<seq<nat>>
  {
    if n == 0 then []
    else
      var reached := Reached(record, AskedTimes(p, destination, n - 1), destination);
      RoutesAnswered(record, p, destination, subscriptions, n - 1) + [RoutesTo(reached, subscriptions)]
  }

  function Copies<T(==)>(x: T, n: nat): multiset<T> { multiset{}[x := n] }

  /** The answers, whatever their order. */
  function InAnyOrder(answers: seq<seq<string>>): multiset<seq<string>> { multiset(answers) }

  /** What is answered by each surface, and where nothing was published. */
  function ByTurn(turn: Option<Surface>, endpoints: seq<string>, own: seq<string>): seq<string>
  {
    match turn
    case Some(ToTopic) => endpoints
    case Some(ToQueue) => own
    case None => if endpoints != [] then endpoints else own
  }

  lemma ReachedByTurn(l: Links, p: Publishes, destination: string)
    requires Agrees(l)
    ensures Reached(l.record, p, destination)
         == ByTurn(Turn(TallyOf(p, destination)), TopicQueues(l.account, destination), OwnQueue(destination))
  {
    hide TopicKey, QueueKey, Turn, TallyOf;
  }

  /** How often a turn comes up. */
  function One(turn: Option<Surface>, x: Option<Surface>): nat { if x == turn then 1 else 0 }

  /** The queues answered, `t` times for the topic's turn, `q` for the queue's, `n` for neither. */
  predicate Turns(answered: multiset<seq<string>>, endpoints: seq<string>, own: seq<string>, t: nat, q: nat, n: nat)
  {
    answered == Copies(endpoints, t) + Copies(own, q) + Copies(ByTurn(None, endpoints, own), n)
  }

  lemma OneMoreTurn(
    answered: multiset<seq<string>>, endpoints: seq<string>, own: seq<string>, t: nat, q: nat, n: nat, turn: Option<Surface>)
    requires Turns(answered, endpoints, own, t, q, n)
    ensures Turns(answered + multiset{ByTurn(turn, endpoints, own)}, endpoints, own,
              t + One(turn, Some(ToTopic)), q + One(turn, Some(ToQueue)), n + One(turn, None))
  {
  }

  lemma NoTurns(record: Record, p: Publishes, destination: string, endpoints: seq<string>, own: seq<string>)
    ensures Turns(InAnyOrder(QueuesAnswered(record, p, destination, 0)), endpoints, own, 0, 0, 0)
  {
  }

  /** The answers to one question more. */
  lemma NextTurn(p: Publishes, destination: string, n: nat, turn: Option<Surface>, x: Option<Surface>)
    requires n > 0 && turn == Turn(TallyOf(AskedTimes(p, destination, n - 1), destination))
    ensures TimesGiven(Answers(p, destination, n), x) == TimesGiven(Answers(p, destination, n - 1), x) + One(turn, x)
  {
    hide Turn, TallyOf, AskedTimes, TimesGiven;
    OneMore(Answers(p, destination, n - 1), turn, x);
  }

  lemma NoAnswers(p: Publishes, destination: string, x: Option<Surface>)
    ensures TimesGiven(Answers(p, destination, 0), x) == 0
  {
  }

  lemma NextQueues(record: Record, p: Publishes, destination: string, n: nat)
    requires n > 0
    ensures InAnyOrder(QueuesAnswered(record, p, destination, n))
         == InAnyOrder(QueuesAnswered(record, p, destination, n - 1))
            + multiset{Reached(record, AskedTimes(p, destination, n - 1), destination)}
  {
    hide Reached, AskedTimes;
  }

  /** Each answer is what its turn says. */
  lemma {:induction false} AnsweredByTurns(l: Links, p: Publishes, destination: string, n: nat)
    requires Agrees(l)
    ensures var answers := Answers(p, destination, n);
            var endpoints, own := TopicQueues(l.account, destination), OwnQueue(destination);
            Turns(InAnyOrder(QueuesAnswered(l.record, p, destination, n)), endpoints, own,
              TimesGiven(answers, Some(ToTopic)), TimesGiven(answers, Some(ToQueue)), TimesGiven(answers, None))
  {
    hide *;
    var endpoints, own := TopicQueues(l.account, destination), OwnQueue(destination);
    NoAnswers(p, destination, Some(ToTopic));
    NoAnswers(p, destination, Some(ToQueue));
    NoAnswers(p, destination, None);
    NoTurns(l.record, p, destination, endpoints, own);
    if n > 0 {
      AnsweredByTurns(l, p, destination, n - 1);
      var before, turn := Answers(p, destination, n - 1), Turn(TallyOf(AskedTimes(p, destination, n - 1), destination));
      ReachedByTurn(l, AskedTimes(p, destination, n - 1), destination);
      NextQueues(l.record, p, destination, n);
      NextTurn(p, destination, n, turn, Some(ToTopic));
      NextTurn(p, destination, n, turn, Some(ToQueue));
      NextTurn(p, destination, n, turn, None);
      OneMoreTurn(InAnyOrder(QueuesAnswered(l.record, p, destination, n - 1)), endpoints, own,
        TimesGiven(before, Some(ToTopic)), TimesGiven(before, Some(ToQueue)), TimesGiven(before, None), turn);
    }
  }

  lemma OneOfThree(turn: Option<Surface>)
    ensures One(turn, Some(ToTopic)) + One(turn, Some(ToQueue)) + One(turn, None) == 1
  {
    assert turn.None? || turn.value == ToTopic || turn.value == ToQueue;
  }

  /** Every answer is a surface or none. */
  lemma {:induction false} AnswersCounted(p: Publishes, destination: string, n: nat)
    ensures var answers := Answers(p, destination, n);
            TimesGiven(answers, Some(ToTopic)) + TimesGiven(answers, Some(ToQueue)) + TimesGiven(answers, None) == n
  {
    hide Turn, TallyOf, AskedTimes, TimesGiven, Answers;
    if n == 0 {
      NoAnswers(p, destination, Some(ToTopic));
      NoAnswers(p, destination, Some(ToQueue));
      NoAnswers(p, destination, None);
    } else {
      AnswersCounted(p, destination, n - 1);
      var turn := Turn(TallyOf(AskedTimes(p, destination, n - 1), destination));
      NextTurn(p, destination, n, turn, Some(ToTopic));
      NextTurn(p, destination, n, turn, Some(ToQueue));
      NextTurn(p, destination, n, turn, None);
      OneOfThree(turn);
    }
  }

  /**
   * After any subscriptions, declarations, publishes and questions, one pass of questions about a
   * name is answered with the account's endpoints of its topic as often as it was published to
   * through the topic, and with the name's own queue as often as through the queue.
   */
  lemma PassReaches(calls: seq<Call>, events: seq<Event>, destination: string)
    requires var sent := multiset(events)[Sent(destination, ToQueue)] + multiset(events)[Sent(destination, ToTopic)];
             sent > 0 && |events| + sent <= U64_SPAN
    ensures var queue, topic := multiset(events)[Sent(destination, ToQueue)], multiset(events)[Sent(destination, ToTopic)];
            var l := AfterCalls(calls);
            InAnyOrder(QueuesAnswered(l.record, AfterEvents(events), destination, queue + topic))
            == Copies(TopicQueues(l.account, destination), topic) + Copies(OwnQueue(destination), queue)
  {
    hide Agrees, AfterCalls, AfterEvents, QueuesAnswered, Answers, TopicQueues, OwnQueue, TimesGiven;
    var queue, topic := multiset(events)[Sent(destination, ToQueue)], multiset(events)[Sent(destination, ToTopic)];
    RecordAgrees(calls);
    PassIsFair(events, destination);
    AnswersCounted(AfterEvents(events), destination, queue + topic);
    AnsweredByTurns(AfterCalls(calls), AfterEvents(events), destination, queue + topic);
  }

  /** A name never published to is answered by its topic's endpoints, where it has any, and else its own queue. */
  lemma NeverPublished(calls: seq<Call>, events: seq<Event>, destination: string, n: nat)
    requires Sent(destination, ToQueue) !in events && Sent(destination, ToTopic) !in events
    ensures var l := AfterCalls(calls);
            var endpoints := TopicQueues(l.account, destination);
            && AskedTimes(AfterEvents(events), destination, n) == AfterEvents(events)
            && Reached(l.record, AfterEvents(events), destination)
               == if endpoints != [] then endpoints else OwnQueue(destination)
  {
    TalliesCount(events, destination);
    NoTurnNoCount(AfterEvents(events), destination, n);
    hide Agrees, AfterCalls, AfterEvents, TopicQueues, OwnQueue, Reached, AskedTimes;
    RecordAgrees(calls);
    ReachedByTurn(AfterCalls(calls), AfterEvents(events), destination);
  }

  lemma {:induction false} NoTurnNoCount(p: Publishes, destination: string, n: nat)
    requires Turn(TallyOf(p, destination)).None?
    ensures AskedTimes(p, destination, n) == p
  {
    hide Turn, TallyOf;
    if n > 0 {
      NoTurnNoCount(p, destination, n - 1);
    }
  }

  /** How many of the answers list a position. */
  function Listings(routes: seq<seq<nat>>, position: nat): nat
  {
    if routes == [] then 0
    else Listings(routes[..|routes| - 1], position) + if position in routes[|routes| - 1] then 1 else 0
  }

  /** `n` where a subscription is the first on one of the queues. */
  function Owed(n: nat, subscriptions: seq<string>, queues: seq<string>, position: nat): nat
  {
    if FirstFor(subscriptions, queues, position) then n else 0
  }

  lemma NextRoutes(record: Record, p: Publishes, destination: string, subscriptions: seq<string>, n: nat, position: nat)
    requires n > 0
    ensures Listings(RoutesAnswered(record, p, destination, subscriptions, n), position)
         == Listings(RoutesAnswered(record, p, destination, subscriptions, n - 1), position)
            + Owed(1, subscriptions, Reached(record, AskedTimes(p, destination, n - 1), destination), position)
  {
    hide Reached, AskedTimes, RoutesTo, FirstFor;
    var before := RoutesAnswered(record, p, destination, subscriptions, n - 1);
    var all := RoutesAnswered(record, p, destination, subscriptions, n);
    assert all[..|all| - 1] == before;
    RoutesAre(Reached(record, AskedTimes(p, destination, n - 1), destination), subscriptions, position);
  }

  lemma NoRoutes(record: Record, p: Publishes, destination: string, subscriptions: seq<string>, position: nat)
    ensures Listings(RoutesAnswered(record, p, destination, subscriptions, 0), position) == 0
  {
  }

  /** What is owed by turns. */
  function OwedByTurns(
    subscriptions: seq<string>, endpoints: seq<string>, own: seq<string>, position: nat, t: nat, q: nat, n: nat): nat
  {
    Owed(t, subscriptions, endpoints, position) + Owed(q, subscriptions, own, position)
    + Owed(n, subscriptions, ByTurn(None, endpoints, own), position)
  }

  lemma OneMoreOwed(
    subscriptions: seq<string>, endpoints: seq<string>, own: seq<string>, position: nat, t: nat, q: nat, n: nat,
    turn: Option<Surface>)
    ensures OwedByTurns(subscriptions, endpoints, own, position, t + One(turn, Some(ToTopic)), q + One(turn, Some(ToQueue)), n + One(turn, None))
         == OwedByTurns(subscriptions, endpoints, own, position, t, q, n)
            + Owed(1, subscriptions, ByTurn(turn, endpoints, own), position)
    ensures OwedByTurns(subscriptions, endpoints, own, position, 0, 0, 0) == 0
  {
    hide FirstFor;
    OneOfThree(turn);
  }

  lemma {:induction false} ListedByTurns(
    l: Links, p: Publishes, destination: string, subscriptions: seq<string>, n: nat, position: nat)
    requires Agrees(l)
    ensures var answers := Answers(p, destination, n);
            Listings(RoutesAnswered(l.record, p, destination, subscriptions, n), position)
            == OwedByTurns(subscriptions, TopicQueues(l.account, destination), OwnQueue(destination), position,
                 TimesGiven(answers, Some(ToTopic)), TimesGiven(answers, Some(ToQueue)), TimesGiven(answers, None))
  {
    hide *;
    NoRoutes(l.record, p, destination, subscriptions, position);
    var endpoints, own := TopicQueues(l.account, destination), OwnQueue(destination);
    NoAnswers(p, destination, Some(ToTopic));
    NoAnswers(p, destination, Some(ToQueue));
    NoAnswers(p, destination, None);
    OneMoreOwed(subscriptions, endpoints, own, position, 0, 0, 0, None);
    if n > 0 {
      ListedByTurns(l, p, destination, subscriptions, n - 1, position);
      var before, turn := Answers(p, destination, n - 1), Turn(TallyOf(AskedTimes(p, destination, n - 1), destination));
      ReachedByTurn(l, AskedTimes(p, destination, n - 1), destination);
      NextRoutes(l.record, p, destination, subscriptions, n, position);
      NextTurn(p, destination, n, turn, Some(ToTopic));
      NextTurn(p, destination, n, turn, Some(ToQueue));
      NextTurn(p, destination, n, turn, None);
      OneMoreOwed(subscriptions, endpoints, own, position, TimesGiven(before, Some(ToTopic)),
        TimesGiven(before, Some(ToQueue)), TimesGiven(before, None), turn);
    }
  }

  /**
   * So over one pass a subscription is owed a publish once for each publish through the topic, where
   * it is the first on one of the topic's endpoints, and once for each through the queue, where it is
   * the first on the name's own queue.
   */
  lemma PassOwes(calls: seq<Call>, events: seq<Event>, destination: string, subscriptions: seq<string>, position: nat)
    requires var sent := multiset(events)[Sent(destination, ToQueue)] + multiset(events)[Sent(destination, ToTopic)];
             sent > 0 && |events| + sent <= U64_SPAN
    ensures var queue, topic := multiset(events)[Sent(destination, ToQueue)], multiset(events)[Sent(destination, ToTopic)];
            var l := AfterCalls(calls);
            Listings(RoutesAnswered(l.record, AfterEvents(events), destination, subscriptions, queue + topic), position)
            == Owed(topic, subscriptions, TopicQueues(l.account, destination), position)
               + Owed(queue, subscriptions, OwnQueue(destination), position)
  {
    hide Agrees, AfterCalls, AfterEvents, RoutesAnswered, Answers, TopicQueues, OwnQueue, TimesGiven, FirstFor;
    var queue, topic := multiset(events)[Sent(destination, ToQueue)], multiset(events)[Sent(destination, ToTopic)];
    RecordAgrees(calls);
    PassIsFair(events, destination);
    AnswersCounted(AfterEvents(events), destination, queue + topic);
    ListedByTurns(AfterCalls(calls), AfterEvents(events), destination, subscriptions, queue + topic, position);
  }

  /** The questions about a name asked since it was first published to. */
  function Questions(events: seq<Event>, destination: string): nat
  {
    if events == [] then 0
    else
      var before, last := events[..|events| - 1], events[|events| - 1];
      Questions(before, destination)
      + if last == Question(destination) && (Sent(destination, ToQueue) in before || Sent(destination, ToTopic) in before)
        then 1 else 0
  }

  lemma {:induction false} QuestionsCount(events: seq<Event>, destination: string)
    requires |events| < U64_SPAN
    ensures TallyOf(AfterEvents(events), destination).asked == Questions(events, destination) <= |events|
  {
    hide Counted;
    if events != [] {
      var before, last := events[..|events| - 1], events[|events| - 1];
      QuestionsCount(before, destination);
      TalliesCount(before, destination);
    }
  }

  /** The turns of a pass: those of the queue first, then those of the topic. */
  lemma TurnByHistory(events: seq<Event>, destination: string)
    requires |events| < U64_SPAN
    ensures var queue, topic := multiset(events)[Sent(destination, ToQueue)], multiset(events)[Sent(destination, ToTopic)];
            Turn(TallyOf(AfterEvents(events), destination)) ==
              if queue + topic == 0 then None
              else if Round(Questions(events, destination), queue + topic) < queue then Some(ToQueue) else Some(ToTopic)
  {
    hide AfterEvents, TallyOf;
    TalliesCount(events, destination);
    QuestionsCount(events, destination);
  }
}
