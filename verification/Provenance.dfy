// Where messages come from: whatever a run did with it in between, a message held or handed over is
// one that a step of the run sent, unchanged, and it reads as it was framed.
module Provenance {
  import opened Basics
  import opened Wire
  import opened Account
  import opened World
  import opened Runs
  import Conservation
  import Fifo
  import Ledger
  import Redrives
  import Settlements

  /** Step `i` of a run sent or published this message and drew its number. */
  ghost predicate BroughtIn(run: seq<Step>, i: nat, s: Stored)
    requires Legal(Start(), run) && i < |run|
  {
    && Redrives.Brings(run[i], s.outbound)
    && At(run, i).account.nextId <= s.id < At(run, i + 1).account.nextId
  }

  ghost function SentIn(run: seq<Step>): Stored -> bool
    requires Legal(Start(), run)
  {
    (s: Stored) => exists i :: 0 <= i < |run| && BroughtIn(run, i, s)
  }

  /** Sent before this step, or brought in by it. */
  ghost function SentBy(before: seq<Step>, last: Step): Stored -> bool
    requires Legal(Start(), before)
  {
    (s: Stored) => SentIn(before)(s)
                   || (Redrives.Brings(last, s.outbound) && After(Start(), before).account.nextId <= s.id)
  }

  /** How often a message was handed over says nothing of where it came from. */
  lemma CountedIsSent(before: seq<Step>, last: Step, s: Stored)
    requires Legal(Start(), before) && SentBy(before, last)(s)
    ensures SentBy(before, last)(Counted(s))
  {
    hide At;
    if SentIn(before)(s) {
      var i :| 0 <= i < |before| && BroughtIn(before, i, s);
      assert BroughtIn(before, i, Counted(s));
      assert SentIn(before)(Counted(s));
    }
  }

  lemma HandedIsSent(before: seq<Step>, id: nat)
    requires Legal(Start(), before) && id in After(Start(), before).readers
    requires Redrives.Everywhere(After(Start(), before).account, SentBy(before, Take(id)))
    ensures forall y :: y in TakenBy(After(Start(), before), id).handed ==> SentBy(before, Take(id))(y)
  {
    hide Scan, SentBy, After, Legal, Blocked, Free;
    var w := After(Start(), before);
    var q := QueueOf(w.account, w.readers[id].queue);
    assert Redrives.Throughout(q, SentBy(before, Take(id)));
    Fifo.ScanTakesFree(q.visible, Blocked(q), q.redrive, w.readers[id].max);
    forall y | y in TakenBy(w, id).handed ensures SentBy(before, Take(id))(y) {
      var s :| s in q.visible && y == Counted(s);
      CountedIsSent(before, Take(id), s);
    }
  }

  /** What the last step of a run leaves was sent before it, or by it. */
  lemma LastSent(before: seq<Step>, last: Step)
    requires Legal(Start(), before) && Enabled(After(Start(), before), last)
    requires Redrives.Everywhere(After(Start(), before).account, SentIn(before))
    ensures Redrives.Everywhere(Next(After(Start(), before), last).account, SentBy(before, last))
  {
    hide Next, After, Legal, SentIn, Redrives.Everywhere, Redrives.Brings;
    var w, P := After(Start(), before), SentBy(before, last);
    Redrives.Weaker(w.account, SentIn(before), P);
    assert Redrives.NewMeets(w.account, last, P);
    if last.Take? {
      hide SentBy;
      HandedIsSent(before, last.id);
    }
    Redrives.StepThroughout(w, last, P);
  }

  function Numbered(nextId: nat): Stored -> bool { (s: Stored) => s.id < nextId }

  /** Every message held has an issued number. */
  lemma HeldIsIssued(a: Account, k: string)
    requires Ledger.Sound(a)
    ensures Redrives.Throughout(QueueOf(a, k), Numbered(a.nextId))
  {
    hide Ledger.Visible, Ledger.Flying, Ledger.IdBag;
    var q := QueueOf(a, k);
    Ledger.QueueInside(a.queues, k);
    forall i | 0 <= i < |q.visible| ensures q.visible[i].id < a.nextId {
      Ledger.IdBagMember(q.visible, i);
      assert q.visible[i].id in Ledger.Held(a.queues);
    }
    forall r | r in q.inFlight ensures q.inFlight[r].stored.id < a.nextId {
      Ledger.FlightInside(a.queues, k, r);
      assert q.inFlight[r].stored.id in Ledger.Held(a.queues);
    }
  }

  /** Sent before the last step or by it, under an issued number, is sent in the run. */
  lemma SentByIsSentIn(run: seq<Step>, s: Stored)
    requires Legal(Start(), run) && run != [] && Legal(Start(), run[..|run| - 1])
    requires SentBy(run[..|run| - 1], run[|run| - 1])(s) && s.id < After(Start(), run).account.nextId
    ensures SentIn(run)(s)
  {
    hide At, After, Legal;
    var before := run[..|run| - 1];
    LastOf(run);
    AtWhole(run);
    if SentIn(before)(s) {
      var i :| 0 <= i < |before| && BroughtIn(before, i, s);
      AtPrefix(run, i);
      AtPrefix(run, i + 1);
      assert BroughtIn(run, i, s);
    } else {
      assert BroughtIn(run, |run| - 1, s);
    }
  }

  /** After every run, each message held, visible or in flight, was sent as it is by the step that drew its number. */
  lemma {:induction false} EveryMessageWasSent(run: seq<Step>)
    requires Legal(Start(), run)
    ensures Redrives.Everywhere(After(Start(), run).account, SentIn(run))
  {
    hide Next, At, SentIn, SentBy, Ledger.Sound;
    if run != [] {
      var before, last := run[..|run| - 1], run[|run| - 1];
      EveryMessageWasSent(before);
      LastSent(before, last);
      Conservation.RunBalanced(run);
      var a := After(Start(), run).account;
      hide After, Legal;
      forall k ensures Redrives.Throughout(QueueOf(a, k), SentIn(run)) {
        assert Redrives.Throughout(QueueOf(a, k), SentBy(before, last));
        HeldIsIssued(a, k);
        QueueWasSent(run, QueueOf(a, k));
      }
    }
  }

  lemma QueueWasSent(run: seq<Step>, q: Queue)
    requires Legal(Start(), run) && run != [] && Legal(Start(), run[..|run| - 1])
    requires Redrives.Throughout(q, SentBy(run[..|run| - 1], run[|run| - 1]))
    requires Redrives.Throughout(q, Numbered(After(Start(), run).account.nextId))
    ensures Redrives.Throughout(q, SentIn(run))
  {
    hide SentIn, SentBy, After, Legal;
    forall i | 0 <= i < |q.visible| ensures SentIn(run)(q.visible[i]) {
      SentByIsSentIn(run, q.visible[i]);
    }
    forall r | r in q.inFlight ensures SentIn(run)(q.inFlight[r].stored) {
      SentByIsSentIn(run, q.inFlight[r].stored);
    }
  }

  // ---------------------------------------------------------------------------------------------
  // What a subscription reads

  /** The delivery a run's receive returned, and the headers its message was read with if framed from these. */
  ghost function DeliveryOf(run: seq<Step>, n: nat, i: nat): Received
    requires Settlements.Receives(run, n, i)
  {
    Settlements.ReceiveIsTake(run, n, i);
    Deliveries(TakenBy(At(run, n), run[n].id).handed, At(run, n).account.nextId, At(run, n).now)[i]
  }

  /** The headers a message keeps: a copy without a group has lost what became one. */
  function KeptHeaders(headers: Headers, sent: Outbound, copy: Outbound): Headers
  {
    if sent.fifo.Some? && copy.fifo.None? then headers - {PARTITION_KEY} else headers
  }

  lemma DeliveryIs(run: seq<Step>, n: nat, i: nat)
    requires Settlements.Receives(run, n, i)
    ensures var receipt, y := Settlements.ReceiptOf(run, n, i), Settlements.MessageOf(run, n, i);
            && Legal(Start(), run) && n < |run|
            && DeliveryOf(run, n, i)
               == Received(WireMessage(y.outbound, Some(receipt), Some(y.receives)), receipt, At(run, n).now)
  {
    hide Settlements.Receives, At, TakenBy, Legal, After, Deliveries, WireMessage, Next, Enabled;
    Settlements.ReceiveIsTake(run, n, i);
    DeliveryAt(TakenBy(At(run, n), run[n].id).handed, At(run, n).account.nextId, At(run, n).now, i);
  }

  lemma DeliveryAt(handed: seq<Stored>, first: nat, now: nat, i: nat)
    requires i < |handed|
    ensures |Deliveries(handed, first, now)| == |handed|
    ensures Deliveries(handed, first, now)[i]
         == Received(WireMessage(handed[i].outbound, Some(first + i), Some(handed[i].receives)), first + i, now)
  {
    hide WireMessage;
  }

  /** The step that sent what a run's receive handed over, earlier in the run. */
  lemma SentBefore(run: seq<Step>, n: nat, i: nat) returns (j: nat)
    requires Settlements.Receives(run, n, i)
    ensures Legal(Start(), run) && j < n <= |run|
    ensures BroughtIn(run, j, Settlements.MessageOf(run, n, i))
  {
    Settlements.ReceiveIsTake(run, n, i);
    hide Settlements.Receives, TakenBy, Next, Redrives.Everywhere, SentIn, BroughtIn, Legal, After;
    LegalPrefix(Start(), run, n);
    EveryMessageWasSent(run[..n]);
    HandedWasSent(run[..n], run[n].id, Settlements.MessageOf(run, n, i));
    j := SentInRun(run, n, Settlements.MessageOf(run, n, i));
  }

  lemma SentInRun(run: seq<Step>, n: nat, y: Stored) returns (j: nat)
    requires Legal(Start(), run) && n <= |run| && Legal(Start(), run[..n]) && SentIn(run[..n])(y)
    ensures j < n && BroughtIn(run, j, y)
  {
    hide Legal, After, Next, Enabled;
    var before := run[..n];
    j :| 0 <= j < |before| && BroughtIn(before, j, y);
    assert before[j] == run[j] && before[..j] == run[..j] && before[..j + 1] == run[..j + 1];
  }

  lemma HandedWasSent(before: seq<Step>, id: nat, y: Stored)
    requires Legal(Start(), before) && id in After(Start(), before).readers
    requires Redrives.Everywhere(After(Start(), before).account, SentIn(before))
    requires y in TakenBy(After(Start(), before), id).handed
    ensures SentIn(before)(y)
  {
    hide Scan, SentIn, After, Legal, Blocked, Free;
    var w := After(Start(), before);
    var q := QueueOf(w.account, w.readers[id].queue);
    assert Redrives.Throughout(q, SentIn(before));
    Fifo.ScanTakesFree(q.visible, Blocked(q), q.redrive, w.readers[id].max);
    var s :| s in q.visible && y == Counted(s);
    SameOrigin(before, s);
  }

  lemma SameOrigin(before: seq<Step>, s: Stored)
    requires Legal(Start(), before) && SentIn(before)(s)
    ensures SentIn(before)(Counted(s))
  {
    hide At;
    var i :| 0 <= i < |before| && BroughtIn(before, i, s);
    assert BroughtIn(before, i, Counted(s));
  }

  /** A copy of a framed message is read as the payload and the headers it was framed from. */
  lemma CopyIsRead(
    step: Step, copy: Outbound, receipt: nat, count: nat, fifo: bool, payload: seq<byte>, headers: Headers,
    options: Option<PublishOptions>, mounted: Option<Text>, crateId: Text)
    requires (step.SendTo? || step.PublishTo?) && Redrives.Brings(step, copy)
    requires Framed(fifo, payload, headers, options, mounted, crateId) == Success(step.outbound)
    ensures var m := WireMessage(copy, Some(receipt), Some(count));
            && DecodeBody(m.body, Marked(m)) == payload
            && DecodedHeaders(m) == HeadersRead(KeptHeaders(headers, step.outbound, copy), copy, Some(count))
  {
    hide Framed, WireMessage, HeadersRead, DecodeBody, DecodedHeaders, Marked;
    RoundTrip(fifo, payload, headers, options, mounted, crateId, Some(receipt), Some(count));
    if copy != step.outbound {
      StandardCopyRoundTrip(payload, headers, options, mounted, crateId, Some(receipt), Some(count));
    }
  }

  /**
   * Whatever a run did with a message, by retries, lapses and dead-letter moves, a delivery of it is
   * of a message an earlier step sent; it reports how often it was handed over by then, and whatever
   * that message was framed from is what a handler reads, on a standard queue fed by a FIFO topic
   * without the partition key.
   */
  lemma DeliveredAsFramed(run: seq<Step>, n: nat, i: nat) returns (j: nat)
    requires Settlements.Receives(run, n, i)
    ensures Legal(Start(), run) && j < n < |run| && (run[j].SendTo? || run[j].PublishTo?)
    ensures BroughtIn(run, j, Settlements.MessageOf(run, n, i))
    ensures var d, count := DeliveryOf(run, n, i), Min(Settlements.TimesByThen(run, n, i), U32_MAX);
            var copy := Settlements.MessageOf(run, n, i).outbound;
            && d.receipt == Settlements.ReceiptOf(run, n, i) && d.at == At(run, n).now
            && ReceivesOf(d.message) == Some(count)
            && forall fifo, payload, headers, options, mounted, crateId ::
                 Framed(fifo, payload, headers, options, mounted, crateId) == Success(run[j].outbound) ==>
                   && DecodeBody(d.message.body, Marked(d.message)) == payload
                   && DecodedHeaders(d.message) == HeadersRead(KeptHeaders(headers, run[j].outbound, copy), copy, Some(count))
  {
    Settlements.ReceiveIsTake(run, n, i);
    j := SentBefore(run, n, i);
    assert Redrives.Brings(run[j], Settlements.MessageOf(run, n, i).outbound);
    assert run[j].SendTo? || run[j].PublishTo?;
    hide *;
    Settlements.CountsByThen(run, n, i);
    DeliveryIs(run, n, i);
    var y, receipt := Settlements.MessageOf(run, n, i), Settlements.ReceiptOf(run, n, i);
    CountFits(Settlements.TimesByThen(run, n, i));
    ReceiveCountRoundTrip(y.outbound, Some(receipt), y.receives);
    forall fifo, payload, headers, options, mounted, crateId
      | Framed(fifo, payload, headers, options, mounted, crateId) == Success(run[j].outbound)
      ensures var m := WireMessage(y.outbound, Some(receipt), Some(y.receives));
              && DecodeBody(m.body, Marked(m)) == payload
              && DecodedHeaders(m) == HeadersRead(KeptHeaders(headers, run[j].outbound, y.outbound), y.outbound, Some(y.receives))
    {
      CopyIsRead(run[j], y.outbound, receipt, y.receives, fifo, payload, headers, options, mounted, crateId);
    }
  }

  lemma CountFits(n: nat)
    ensures Min(n, U32_MAX) <= U32_MAX
  {
  }
}
