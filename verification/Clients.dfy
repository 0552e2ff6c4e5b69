// The client sets a thread sends requests through: which one it picks for a broker on its first
// request, and the entries it keeps the choice in. Brokers are told apart by address only, and an
// address is free for a new broker once nothing holds the old one.
module Clients {
  import opened Basics

  /** A broker: where its clients live, the how-manieth broker it is, and the runtime it connected on. */
  datatype Broker = Broker(address: nat, serial: nat, runtime: nat)

  /** A choice a thread made: the set the broker connected with, or the `number`-th one built since. */
  datatype Placement = Home | Own(number: nat)

  datatype Entry = Entry(owner: Broker, placement: Placement)

  datatype ClientSet = HomeOf(broker: Broker) | Built(number: nat)

  function SetFor(broker: Broker, placement: Placement): ClientSet
  {
    match placement
    case Home => HomeOf(broker)
    case Own(number) => Built(number)
  }

  /** What a first request decides, `built` sets having been built before it. */
  function Decide(broker: Broker, runtime: nat, built: nat): Placement
  {
    if runtime == broker.runtime then Home else Own(built)
  }

  /** The first entry kept under an address. */
  function Find(entries: seq<Entry>, address: nat): (at: Option<nat>)
    ensures at.Some? ==> at.value < |entries| && entries[at.value].owner.address == address
    ensures forall i :: 0 <= i < (if at.Some? then at.value else |entries|) ==> entries[i].owner.address != address
  {
    if entries == [] then None
    else if entries[0].owner.address == address then Some(0)
    else match Find(entries[1..], address)
      case None => None
      case Some(i) => Some(i + 1)
  }

  /** The entries of live brokers, in order. */
  function Retained(entries: seq<Entry>, live: set<Broker>): seq<Entry>
  {
    if entries == [] then []
    else Retained(entries[..|entries| - 1], live)
         + if entries[|entries| - 1].owner in live then [entries[|entries| - 1]] else []
  }

  /** What a request picks, whether it records that, and the entries it leaves. */
  datatype Choice = Choice(placement: Placement, recorded: bool, entries: seq<Entry>)

  function Choose(entries: seq<Entry>, broker: Broker, current: Option<nat>, live: set<Broker>, built: nat): Choice
  {
    match Find(entries, broker.address)
    case Some(i) => Choice(entries[i].placement, false, entries)
    case None =>
      if current.None? then Choice(Home, false, entries)
      else
        var placement := Decide(broker, current.value, built);
        Choice(placement, true, Retained(entries, live) + [Entry(broker, placement)])
  }

  /** The thread's list of entries. */
  class Thread {
    var entries: seq<Entry>

    constructor ()
      ensures entries == []
    {
      entries := [];
    }

    /**
     * Picks the set a request of `broker` goes through on this thread, which runs `current` if it
     * runs any runtime; `built` numbers the set it may have to build.
     */
    method WithPlaced(broker: Broker, current: Option<nat>, live: set<Broker>, built: nat) returns (used: ClientSet)
      modifies this
      ensures var choice := Choose(old(entries), broker, current, live, built);
              used == SetFor(broker, choice.placement) && entries == choice.entries
    {
      var found := Find(entries, broker.address);
      if found.Some? {
        return SetFor(broker, entries[found.value].placement);
      }
      if current.None? {
        return HomeOf(broker);
      }
      var placement := if current.value == broker.runtime then Home else Own(built);
      var kept := [];
      for i := 0 to |entries|
        invariant entries == old(entries)
        invariant kept == Retained(entries[..i], live)
      {
        assert entries[..i + 1][..i] == entries[..i];
        if entries[i].owner in live {
          kept := kept + [entries[i]];
        }
      }
      assert entries[..|entries|] == entries;
      entries := kept + [Entry(broker, placement)];
      return SetFor(broker, entries[|entries| - 1].placement);
    }
  }

  // ---------------------------------------------------------------------------------------------
  // Runs, against a memo that is never pruned and tells brokers apart

  /**
   * The threads of a process and its live brokers, with the counts of brokers connected and sets
   * built so far; and beside it the memo: the first choice recorded for a broker on a thread.
   */
  datatype Process = Process(
    threads: map<nat, seq<Entry>>,
    live: set<Broker>,
    connected: nat,
    built: nat,
    memo: map<(nat, Broker), Placement>)

  datatype Event =
    | Connect(address: nat, runtime: nat)
    | Request(thread: nat, broker: Broker, current: Option<nat>)
    | Gone(broker: Broker)

  function EntriesOf(p: Process, thread: nat): seq<Entry>
  {
    if thread in p.threads then p.threads[thread] else []
  }

  /** An address is taken while a broker there is live or an entry keeps its allocation. */
  ghost predicate Taken(p: Process, address: nat)
  {
    || (exists b :: b in p.live && b.address == address)
    || (exists t, i :: 0 <= i < |EntriesOf(p, t)| && EntriesOf(p, t)[i].owner.address == address)
  }

  ghost predicate Enabled(p: Process, event: Event)
  {
    match event
    case Connect(address, _) => !Taken(p, address)
    case Request(_, broker, _) => broker in p.live
    case Gone(broker) => broker in p.live
  }

  function Chosen(p: Process, thread: nat, broker: Broker, current: Option<nat>): Choice
  {
    Choose(EntriesOf(p, thread), broker, current, p.live, p.built)
  }

  /** What the memo answers a request: the choice recorded first, or one made now. */
  function Remembered(p: Process, thread: nat, broker: Broker, current: Option<nat>): Placement
  {
    if (thread, broker) in p.memo then p.memo[(thread, broker)]
    else if current.None? then Home else Decide(broker, current.value, p.built)
  }

  function Next(p: Process, event: Event): Process
  {
    match event
    case Connect(address, runtime) =>
      p.(live := p.live + {Broker(address, p.connected, runtime)}, connected := p.connected + 1)
    case Request(thread, broker, current) =>
      var choice := Chosen(p, thread, broker, current);
      var remembered := Remembered(p, thread, broker, current);
      p.(threads := p.threads[thread := choice.entries],
         built := if choice.recorded && choice.placement.Own? then p.built + 1 else p.built,
         memo := if current.Some? then p.memo[(thread, broker) := remembered] else p.memo)
    case Gone(broker) => p.(live := p.live - {broker})
  }

  ghost predicate Legal(p: Process, events: seq<Event>)
    decreases |events|, 0
  {
    events == [] || (Legal(p, events[..|events| - 1]) && Enabled(After(p, events[..|events| - 1]), events[|events| - 1]))
  }

  function After(p: Process, events: seq<Event>): Process
    decreases |events|, 1
  {
    if events == [] then p else Next(After(p, events[..|events| - 1]), events[|events| - 1])
  }

  function Start(): Process { Process(map[], {}, 0, 0, map[]) }

  predicate OnePerBroker(entries: seq<Entry>)
  {
    forall i, j :: 0 <= i < j < |entries| ==> entries[i].owner.address != entries[j].owner.address
  }

  /** An entry under a live broker's address is that broker's. */
  predicate Owned(entries: seq<Entry>, live: set<Broker>)
  {
    forall i, b :: 0 <= i < |entries| && b in live && entries[i].owner.address == b.address ==> entries[i].owner == b
  }

  ghost predicate Numbered(p: Process)
  {
    && (forall b :: b in p.live ==> b.serial < p.connected)
    && (forall t: nat, b: Broker :: (t, b) in p.memo ==> b.serial < p.connected)
    && (forall b, c :: b in p.live && c in p.live && b.address == c.address ==> b == c)
  }

  /** A thread's entries answer for a live broker what the memo does. */
  ghost predicate AgreesFor(p: Process, t: nat, b: Broker)
  {
    var found := Find(EntriesOf(p, t), b.address);
    if found.Some? then (t, b) in p.memo && p.memo[(t, b)] == EntriesOf(p, t)[found.value].placement
    else (t, b) !in p.memo
  }

  ghost predicate Tidy(p: Process)
  {
    && Numbered(p)
    && (forall t :: OnePerBroker(EntriesOf(p, t)) && Owned(EntriesOf(p, t), p.live))
    && (forall t, b :: b in p.live ==> AgreesFor(p, t, b))
  }

  lemma {:induction false} RetainedAre(entries: seq<Entry>, live: set<Broker>)
    ensures forall e :: e in Retained(entries, live) <==> e in entries && e.owner in live
    ensures OnePerBroker(entries) ==> OnePerBroker(Retained(entries, live))
  {
    if entries != [] {
      var before, last := entries[..|entries| - 1], entries[|entries| - 1];
      RetainedAre(before, live);
      assert entries == before + [last];
      var kept := Retained(before, live);
      assert forall i :: 0 <= i < |kept| ==> kept[i] in before;
    }
  }

  /** Among entries of different brokers, what is found under an address is the entry there. */
  lemma FindIs(entries: seq<Entry>, e: Entry)
    requires OnePerBroker(entries) && e in entries
    ensures Find(entries, e.owner.address).Some? && entries[Find(entries, e.owner.address).value] == e
  {
  }

  lemma FindNothing(entries: seq<Entry>, address: nat)
    requires forall e :: e in entries ==> e.owner.address != address
    ensures Find(entries, address).None?
  {
  }

  lemma ConnectTidy(p: Process, address: nat, runtime: nat)
    requires Tidy(p) && !Taken(p, address)
    ensures Tidy(Next(p, Connect(address, runtime)))
  {
    var p' := Next(p, Connect(address, runtime));
    forall t ensures OnePerBroker(EntriesOf(p', t)) && Owned(EntriesOf(p', t), p'.live) {
      assert EntriesOf(p', t) == EntriesOf(p, t);
      assert OnePerBroker(EntriesOf(p, t)) && Owned(EntriesOf(p, t), p.live);
    }
    forall t, b | b in p'.live ensures AgreesFor(p', t, b) {
      assert EntriesOf(p', t) == EntriesOf(p, t);
      if b in p.live {
        assert AgreesFor(p, t, b);
      }
    }
  }

  /** A request of a live broker leaves the thread's entries in order, and records no other broker. */
  lemma ChosenEntries(p: Process, t: nat, broker: Broker, current: Option<nat>)
    requires Tidy(p) && broker in p.live
    ensures var after := Chosen(p, t, broker, current).entries;
            && OnePerBroker(after) && Owned(after, p.live)
            && (forall b :: b in p.live && b != broker ==>
                  var found, found' := Find(EntriesOf(p, t), b.address), Find(after, b.address);
                  found.Some? == found'.Some?
                  && (found.Some? ==> after[found'.value].placement == EntriesOf(p, t)[found.value].placement))
  {
    var entries, choice := EntriesOf(p, t), Chosen(p, t, broker, current);
    assert OnePerBroker(entries) && Owned(entries, p.live);
    if choice.recorded {
      var kept := Retained(entries, p.live);
      var mine := Entry(broker, choice.placement);
      RetainedAre(entries, p.live);
      assert forall i :: 0 <= i < |kept| ==> kept[i] in entries;
      assert OnePerBroker(choice.entries);
      hide Find, Retained;
      forall b | b in p.live && b != broker
        ensures var found, found' := Find(entries, b.address), Find(choice.entries, b.address);
                found.Some? == found'.Some?
                && (found.Some? ==> choice.entries[found'.value].placement == entries[found.value].placement)
      {
        OtherFound(entries, p.live, mine, b);
      }
    }
  }

  /** Pruning and recording a broker changes nothing that is found for another live one. */
  lemma OtherFound(entries: seq<Entry>, live: set<Broker>, mine: Entry, b: Broker)
    requires OnePerBroker(entries) && Owned(entries, live) && OnePerBroker(Retained(entries, live) + [mine])
    requires b in live && mine.owner.address != b.address
    ensures var after := Retained(entries, live) + [mine];
            var found, found' := Find(entries, b.address), Find(after, b.address);
            found.Some? == found'.Some? && (found.Some? ==> after[found'.value] == entries[found.value])
  {
    RetainedAre(entries, live);
    var found := Find(entries, b.address);
    var after := Retained(entries, live) + [mine];
    if found.Some? {
      var e := entries[found.value];
      assert e in Retained(entries, live);
      assert e in after;
      FindIs(after, e);
    } else {
      forall e | e in after ensures e.owner.address != b.address {
        assert e in Retained(entries, live) || e == mine;
      }
      FindNothing(after, b.address);
    }
  }

  lemma RequestTidy(p: Process, t: nat, broker: Broker, current: Option<nat>)
    requires Tidy(p) && broker in p.live
    ensures Tidy(Next(p, Request(t, broker, current)))
  {
    hide Retained;
    var p' := Next(p, Request(t, broker, current));
    ChosenEntries(p, t, broker, current);
    forall u ensures OnePerBroker(EntriesOf(p', u)) && Owned(EntriesOf(p', u), p'.live) {
      if u != t {
        assert EntriesOf(p', u) == EntriesOf(p, u);
        assert OnePerBroker(EntriesOf(p, u)) && Owned(EntriesOf(p, u), p.live);
      }
    }
    forall u, b | b in p'.live ensures AgreesFor(p', u, b) {
      assert AgreesFor(p, u, b);
      if u != t {
        assert EntriesOf(p', u) == EntriesOf(p, u);
      } else if b == broker {
        OwnAgrees(p, t, broker, current);
      }
    }
  }

  lemma OwnAgrees(p: Process, t: nat, broker: Broker, current: Option<nat>)
    requires Tidy(p) && broker in p.live
    ensures AgreesFor(Next(p, Request(t, broker, current)), t, broker)
  {
    assert AgreesFor(p, t, broker);
    var choice := Chosen(p, t, broker, current);
    ChosenEntries(p, t, broker, current);
    if choice.recorded {
      assert Entry(broker, choice.placement) in choice.entries;
      FindIs(choice.entries, Entry(broker, choice.placement));
    }
  }

  lemma {:induction false} RunTidy(events: seq<Event>)
    requires Legal(Start(), events)
    ensures Tidy(After(Start(), events))
  {
    hide Tidy, Next;
    if events == [] {
      StartTidy();
    } else {
      var before, last := events[..|events| - 1], events[|events| - 1];
      RunTidy(before);
      StepTidy(After(Start(), before), last);
    }
  }

  lemma StartTidy()
    ensures Tidy(Start())
  {
  }

  lemma StepTidy(p: Process, event: Event)
    requires Tidy(p) && Enabled(p, event)
    ensures Tidy(Next(p, event))
  {
    match event
    case Connect(address, runtime) => ConnectTidy(p, address, runtime);
    case Request(t, broker, current) => RequestTidy(p, t, broker, current);
    case Gone(broker) =>
      var p' := Next(p, event);
      forall t ensures OnePerBroker(EntriesOf(p', t)) && Owned(EntriesOf(p', t), p'.live) {
        assert OnePerBroker(EntriesOf(p, t)) && Owned(EntriesOf(p, t), p.live);
      }
      forall t, b | b in p'.live ensures AgreesFor(p', t, b) {
        assert AgreesFor(p, t, b);
      }
  }

  // ---------------------------------------------------------------------------------------------
  // What runs guarantee

  /** After every run a thread holds at most one entry per broker, live or gone. */
  lemma AtMostOneEntry(events: seq<Event>, t: nat)
    requires Legal(Start(), events)
    ensures OnePerBroker(EntriesOf(After(Start(), events), t))
  {
    RunTidy(events);
  }

  /**
   * After every run, a request is answered as it would be had no entry ever been pruned and no
   * address been used twice, and it builds a set exactly where that would.
   */
  lemma PruningIsInvisible(events: seq<Event>, t: nat, broker: Broker, current: Option<nat>)
    requires Legal(Start(), events) && Enabled(After(Start(), events), Request(t, broker, current))
    ensures var p := After(Start(), events);
            && Chosen(p, t, broker, current).placement == Remembered(p, t, broker, current)
            && (Chosen(p, t, broker, current).recorded <==> (t, broker) !in p.memo && current.Some?)
  {
    RunTidy(events);
    assert AgreesFor(After(Start(), events), t, broker);
  }

  /** While a broker lives, what a thread first recorded for it answers every later request. */
  lemma {:induction false} FirstChoiceStays(
    events: seq<Event>, more: seq<Event>, t: nat, broker: Broker, now: Option<nat>, later: Option<nat>)
    requires Legal(Start(), events) && Enabled(After(Start(), events), Request(t, broker, now)) && now.Some?
    requires var p := Next(After(Start(), events), Request(t, broker, now));
             Legal(p, more) && broker in After(p, more).live
    ensures var p := After(Start(), events);
            var p' := After(Next(p, Request(t, broker, now)), more);
            Chosen(p', t, broker, later).placement == Chosen(p, t, broker, now).placement
  {
    hide Next;
    var p := After(Start(), events);
    RunTidy(events);
    StepTidy(p, Request(t, broker, now));
    var chosen := RequestRemembers(p, t, broker, now);
    MemoStays(Next(p, Request(t, broker, now)), more, t, broker);
    assert AgreesFor(After(Next(p, Request(t, broker, now)), more), t, broker);
  }

  lemma RequestRemembers(p: Process, t: nat, broker: Broker, current: Option<nat>) returns (chosen: Placement)
    requires Tidy(p) && broker in p.live && current.Some?
    ensures chosen == Chosen(p, t, broker, current).placement
    ensures var memo := Next(p, Request(t, broker, current)).memo;
            (t, broker) in memo && memo[(t, broker)] == chosen
  {
    assert AgreesFor(p, t, broker);
    chosen := Chosen(p, t, broker, current).placement;
  }

  lemma {:induction false} MemoStays(p: Process, more: seq<Event>, t: nat, broker: Broker)
    requires Tidy(p) && Legal(p, more) && (t, broker) in p.memo
    ensures Tidy(After(p, more))
    ensures (t, broker) in After(p, more).memo && After(p, more).memo[(t, broker)] == p.memo[(t, broker)]
  {
    hide Tidy;
    if more != [] {
      var before, last := more[..|more| - 1], more[|more| - 1];
      MemoStays(p, before, t, broker);
      StepTidy(After(p, before), last);
    }
  }

  /** A request that records a choice leaves entries of live brokers only. */
  lemma RecordingPrunes(p: Process, t: nat, broker: Broker, current: Option<nat>)
    requires broker in p.live && Chosen(p, t, broker, current).recorded
    ensures forall e :: e in Chosen(p, t, broker, current).entries ==> e.owner in p.live
  {
    RetainedAre(EntriesOf(p, t), p.live);
  }

  // ---------------------------------------------------------------------------------------------
  // Which set a request goes through, from the requests alone

  function Answer(p: Process, t: nat, broker: Broker, current: Option<nat>): ClientSet
  {
    SetFor(broker, Chosen(p, t, broker, current).placement)
  }

  /** The runtime of the first request of a broker a thread made from within a runtime. */
  function FirstRuntime(events: seq<Event>, t: nat, broker: Broker): Option<nat>
  {
    if events == [] then None
    else
      var earlier := FirstRuntime(events[..|events| - 1], t, broker);
      if earlier.Some? then earlier
      else match events[|events| - 1]
        case Request(u, b, current) => if u == t && b == broker then current else None
        case _ => None
  }

  /** The memo holds the brokers requested from within a runtime: home where that was the broker's own. */
  ghost predicate FirstsKept(p: Process, events: seq<Event>)
  {
    forall t: nat, b ::
      && ((t, b) in p.memo <==> FirstRuntime(events, t, b).Some?)
      && ((t, b) in p.memo ==> (p.memo[(t, b)] == Home <==> FirstRuntime(events, t, b).value == b.runtime))
  }

  /** Each set built since is one thread's, for one broker. */
  ghost predicate OwnApart(p: Process)
  {
    && (forall k :: k in p.memo && p.memo[k].Own? ==> p.memo[k].number < p.built)
    && (forall j, k :: j in p.memo && k in p.memo && p.memo[j].Own? && p.memo[j] == p.memo[k] ==> j == k)
  }

  lemma RequestKeepsFirsts(p: Process, events: seq<Event>, t: nat, broker: Broker, current: Option<nat>)
    requires FirstsKept(p, events)
    ensures FirstsKept(Next(p, Request(t, broker, current)), events + [Request(t, broker, current)])
  {
    hide Chosen;
    var p', more := Next(p, Request(t, broker, current)), events + [Request(t, broker, current)];
    assert more[..|events|] == events;
    forall u: nat, b
      ensures (u, b) in p'.memo <==> FirstRuntime(more, u, b).Some?
      ensures (u, b) in p'.memo ==> (p'.memo[(u, b)] == Home <==> FirstRuntime(more, u, b).value == b.runtime)
    {
      assert (u, b) in p.memo <==> FirstRuntime(events, u, b).Some?;
    }
  }

  lemma RequestKeepsApart(p: Process, t: nat, broker: Broker, current: Option<nat>)
    requires OwnApart(p) && Tidy(p) && broker in p.live
    ensures OwnApart(Next(p, Request(t, broker, current)))
  {
    assert AgreesFor(p, t, broker);
    var choice := Chosen(p, t, broker, current);
    assert choice.placement == Remembered(p, t, broker, current);
    hide Tidy, Find, Retained;
  }

  lemma {:induction false} RunKeepsFirsts(events: seq<Event>)
    requires Legal(Start(), events)
    ensures FirstsKept(After(Start(), events), events) && OwnApart(After(Start(), events))
  {
    hide FirstsKept, OwnApart, Next;
    if events == [] {
      NoFirsts();
    } else {
      var before, last := events[..|events| - 1], events[|events| - 1];
      var p := After(Start(), before);
      RunKeepsFirsts(before);
      RunTidy(before);
      assert events == before + [last];
      if last.Request? {
        RequestKeepsFirsts(p, before, last.thread, last.broker, last.current);
        RequestKeepsApart(p, last.thread, last.broker, last.current);
      } else {
        OtherKeepsFirsts(p, before, last);
      }
    }
  }

  lemma NoFirsts()
    ensures FirstsKept(Start(), []) && OwnApart(Start())
  {
  }

  lemma OtherKeepsFirsts(p: Process, events: seq<Event>, event: Event)
    requires FirstsKept(p, events) && OwnApart(p) && !event.Request?
    ensures FirstsKept(Next(p, event), events + [event]) && OwnApart(Next(p, event))
  {
    assert (events + [event])[..|events|] == events;
    assert forall t, b :: FirstRuntime(events + [event], t, b) == FirstRuntime(events, t, b);
  }

  /**
   * After every run, a request goes through the broker's own set exactly when the first request of
   * that broker this thread made from within a runtime, this one included, ran on the runtime the
   * broker connected on, or there was none. It never goes through another broker's set.
   */
  lemma HomeExactly(events: seq<Event>, t: nat, broker: Broker, current: Option<nat>)
    requires Legal(Start(), events) && Enabled(After(Start(), events), Request(t, broker, current))
    ensures var first := FirstRuntime(events + [Request(t, broker, current)], t, broker);
            var answer := Answer(After(Start(), events), t, broker, current);
            && (answer.HomeOf? ==> answer == HomeOf(broker))
            && (answer == HomeOf(broker) <==> first.None? || first.value == broker.runtime)
  {
    var p, more := After(Start(), events), events + [Request(t, broker, current)];
    assert more[..|events|] == events;
    RunKeepsFirsts(events);
    PruningIsInvisible(events, t, broker, current);
    assert (t, broker) in p.memo <==> FirstRuntime(events, t, broker).Some?;
    hide Legal, After, Enabled, Chosen;
  }

  /** What the `i`-th event of a run, a request, is answered. */
  function AnswerTo(events: seq<Event>, i: nat): ClientSet
    requires i < |events| && events[i].Request?
  {
    Answer(After(Start(), events[..i]), events[i].thread, events[i].broker, events[i].current)
  }

  lemma {:induction false} LegalUpTo(events: seq<Event>, n: nat)
    requires Legal(Start(), events) && n <= |events|
    ensures Legal(Start(), events[..n])
    ensures n < |events| ==> Enabled(After(Start(), events[..n]), events[n])
  {
    if n < |events| {
      var before := events[..|events| - 1];
      LegalUpTo(before, n);
      assert before[..n] == events[..n];
    } else {
      assert events[..n] == events;
    }
  }

  lemma {:induction false} MemoKept(events: seq<Event>, i: nat, n: nat, key: (nat, Broker))
    requires i <= n <= |events| && key in After(Start(), events[..i]).memo
    ensures key in After(Start(), events[..n]).memo
    ensures After(Start(), events[..n]).memo[key] == After(Start(), events[..i]).memo[key]
  {
    hide Chosen;
    if i < n {
      MemoKept(events, i, n - 1, key);
      assert events[..n][..n - 1] == events[..n - 1];
    }
  }

  /** A request answered with a set built since has that set on the memo after it. */
  lemma BuiltIsKept(events: seq<Event>, i: nat)
    requires Legal(Start(), events) && i < |events| && events[i].Request? && AnswerTo(events, i).Built?
    ensures var key, memo := (events[i].thread, events[i].broker), After(Start(), events[..i + 1]).memo;
            key in memo && memo[key] == Own(AnswerTo(events, i).number)
  {
    LegalUpTo(events, i);
    PruningIsInvisible(events[..i], events[i].thread, events[i].broker, events[i].current);
    assert events[..i + 1][..i] == events[..i];
    hide Chosen, Legal;
  }

  /** Two requests answered with sets built since share one exactly when they are one thread's, of one broker. */
  lemma SetsAreOwn(events: seq<Event>, i: nat, j: nat)
    requires Legal(Start(), events) && i < j < |events| && events[i].Request? && events[j].Request?
    requires AnswerTo(events, i).Built? && AnswerTo(events, j).Built?
    ensures AnswerTo(events, i) == AnswerTo(events, j)
       <==> events[i].thread == events[j].thread && events[i].broker == events[j].broker
  {
    hide Legal, After, Answer;
    BuiltIsKept(events, i);
    BuiltIsKept(events, j);
    MemoKept(events, i + 1, j + 1, (events[i].thread, events[i].broker));
    LegalUpTo(events, j + 1);
    RunKeepsFirsts(events[..j + 1]);
  }
}
