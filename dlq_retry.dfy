/**
  DLQRetryScheduler: one sweep over the pending dead-letter records. Delivery channels and
  database failures are oracles, one per listed record; the row order of the pending
  query is a parameter.
*/
module DlqRetry {
  import opened Wrappers
  import opened DeadLetter
  import opened EventDispatch

  /**
    What happens around one record's retry: the delivery attempt, whether markAsProcessed
    throws (and with which message), and whether incrementRetryCount throws.
  */
  datatype RetryOracle = RetryOracle(send: SendOutcome, markFails: bool, markErrorMessage: Option<string>, incrementFails: bool)

  /** A notice handed to a channel. */
  datatype Sent = Sent(notice: Notice, channel: Channel)

  /** The events rebuilt from a stored record carry its booking facts (and, for a failure, its reason). */
  function SuccessNoticeOf(e: FailedEvent): Notice {
    SuccessNotice(e.bookingId, e.userId, e.showId, e.amountCents)
  }

  function FailureNoticeOf(e: FailedEvent): Notice {
    FailureNotice(e.bookingId, e.userId, e.showId, e.amountCents, e.reason)
  }

  /** retryBooking*Event for one record: what was sent, or the error that escapes. */
  function Redeliver(e: FailedEvent, o: SendOutcome): (r: Result<seq<Sent>, Option<string>>)
    ensures r.Failure? <==> e.eventType == BookingSuccess && !o.kafkaOk && !o.restOk
    ensures r.Success? && |r.value| == 1 ==>
      (r.value[0].notice == SuccessNoticeOf(e) || r.value[0].notice == FailureNoticeOf(e))
      && (r.value[0].channel == Kafka <==> o.kafkaOk)
    ensures e.eventType == OtherType ==> r == Success([])
  {
    match e.eventType
    case BookingSuccess =>
      (match SendSuccess(o)
       case Success(c) => Success([Sent(SuccessNoticeOf(e), c)])
       case Failure(m) => Failure(m))
    case BookingFailed =>
      (match SendFailure(o)
       case Some(c) => Success([Sent(FailureNoticeOf(e), c)])
       case None => Success([]))
    case OtherType => Success([])
  }

  /** retryEvent for the listed record `e` with id `id`: the new table and what was sent. */
  function RetryStep(table: map<int, FailedEvent>, id: int, e: FailedEvent, o: RetryOracle, now: int): (map<int, FailedEvent>, seq<Sent>) {
    match Redeliver(e, o.send)
    case Success(sent) =>
      if !o.markFails then (MarkProcessed(table, id, now), sent)
      else if o.incrementFails then (table, sent)
      else (IncrementRetry(table, id, o.markErrorMessage, now), sent)
    case Failure(m) =>
      if o.incrementFails then (table, [])
      else (IncrementRetry(table, id, m, now), [])
  }

  /** markAsProcessed on the table. */
  function MarkProcessed(table: map<int, FailedEvent>, id: int, now: int): map<int, FailedEvent> {
    if id in table then table[id := AsProcessed(table[id], now)] else table
  }

  /** incrementRetryCount on the table. */
  function IncrementRetry(table: map<int, FailedEvent>, id: int, error: Option<string>, now: int): map<int, FailedEvent> {
    if id in table then table[id := AfterFailedRetry(table[id], error, now)] else table
  }

  /** The sweep over the first |events| listed records, in list order. */
  function Sweep(table: map<int, FailedEvent>, events: seq<(int, FailedEvent)>, oracles: seq<RetryOracle>, now: int): (map<int, FailedEvent>, seq<Sent>)
    requires |events| <= |oracles|
    decreases |events|
  {
    if |events| == 0 then (table, [])
    else
      var n := |events| - 1;
      var before := Sweep(table, events[..n], oracles, now);
      var after := RetryStep(before.0, events[n].0, events[n].1, oracles[n], now);
      (after.0, before.1 + after.1)
  }

  /** A retry step touches only its own record. */
  lemma RetryStepFrame(table: map<int, FailedEvent>, id: int, e: FailedEvent, o: RetryOracle, now: int, other: int)
    requires other != id
    ensures var t := RetryStep(table, id, e, o, now).0;
      (other in t <==> other in table) && (other in table ==> t[other] == table[other])
  {
  }

  /** Records the sweep has not reached yet are unchanged. */
  lemma {:induction false} SweepFrame(table: map<int, FailedEvent>, events: seq<(int, FailedEvent)>, oracles: seq<RetryOracle>, now: int, other: int)
    requires |events| <= |oracles|
    requires forall k :: 0 <= k < |events| ==> events[k].0 != other
    ensures var t := Sweep(table, events, oracles, now).0;
      (other in t <==> other in table) && (other in table ==> t[other] == table[other])
    decreases |events|
  {
    if |events| > 0 {
      var n := |events| - 1;
      SweepFrame(table, events[..n], oracles, now, other);
      RetryStepFrame(Sweep(table, events[..n], oracles, now).0, events[n].0, events[n].1, oracles[n], now, other);
    }
  }

  /**
    Each listed record is retried exactly once and independently of the others: its final
    state is the outcome of its own retry applied to the record it had before the sweep.
  */
  lemma {:induction false} SweepIsolates(table: map<int, FailedEvent>, events: seq<(int, FailedEvent)>, oracles: seq<RetryOracle>, now: int, k: nat)
    requires |events| <= |oracles| && k < |events| && DistinctIds(events)
    ensures var id := events[k].0;
      var t := Sweep(table, events, oracles, now).0;
      (id in t <==> id in table)
      && (id in table ==> t[id] == RetryStep(table, id, events[k].1, oracles[k], now).0[id])
    decreases |events|
  {
    var n := |events| - 1;
    var prefix := events[..n];
    assert DistinctIds(prefix);
    var id := events[k].0;
    var mid := Sweep(table, prefix, oracles, now).0;
    if k < n {
      assert prefix[k] == events[k];
      SweepIsolates(table, prefix, oracles, now, k);
      RetryStepFrame(mid, events[n].0, events[n].1, oracles[n], now, id);
    } else {
      assert forall j :: 0 <= j < |prefix| ==> prefix[j].0 != id;
      SweepFrame(table, prefix, oracles, now, id);
    }
  }

  /** A retry of a pending record keeps the record invariant of every record in the table. */
  lemma RetryStepKeepsInv(table: map<int, FailedEvent>, id: int, e: FailedEvent, o: RetryOracle, now: int)
    requires TableInv(table) && id in PendingIds(table)
    ensures TableInv(RetryStep(table, id, e, o, now).0)
  {
    var r := Redeliver(e, o.send);
    if r.Success? && !o.markFails {
      ProcessedKeepsInv(table, id, now);
    } else if r.Success? && !o.incrementFails {
      RetriedKeepsInv(table, id, o.markErrorMessage, now);
    } else if r.Failure? && !o.incrementFails {
      RetriedKeepsInv(table, id, r.error, now);
    }
  }

  /**
    Sweeps keep every record within the budget of 3: a count is only raised on a record
    that is pending with fewer than 3 retries, and the third failed retry marks it FAILED.
  */
  lemma {:induction false} SweepKeepsInv(table: map<int, FailedEvent>, events: seq<(int, FailedEvent)>, oracles: seq<RetryOracle>, now: int)
    requires |events| <= |oracles| && TableInv(table) && DistinctIds(events)
    requires forall k :: 0 <= k < |events| ==> events[k].0 in PendingIds(table)
    ensures TableInv(Sweep(table, events, oracles, now).0)
    decreases |events|
  {
    if |events| > 0 {
      var n := |events| - 1;
      var prefix := events[..n];
      assert DistinctIds(prefix);
      assert forall k :: 0 <= k < |prefix| ==> prefix[k].0 in PendingIds(table);
      SweepKeepsInv(table, prefix, oracles, now);
      var mid := Sweep(table, prefix, oracles, now).0;
      var id := events[n].0;
      assert forall j :: 0 <= j < |prefix| ==> prefix[j].0 != id;
      SweepFrame(table, prefix, oracles, now, id);
      assert id in PendingIds(mid);
      RetryStepKeepsInv(mid, id, events[n].1, oracles[n], now);
    }
  }

  /** A record of an unknown type is marked processed without any delivery (unless the mark itself fails). */
  lemma OtherTypeMarkedWithoutDelivery(table: map<int, FailedEvent>, id: int, e: FailedEvent, o: RetryOracle, now: int)
    requires e.eventType == OtherType && id in table && !o.markFails
    ensures RetryStep(table, id, e, o, now) == (table[id := AsProcessed(table[id], now)], [])
  {
  }

  /** A failure event whose delivery is lost on both channels is still marked processed. */
  lemma LostFailureEventMarkedProcessed(table: map<int, FailedEvent>, id: int, e: FailedEvent, o: RetryOracle, now: int)
    requires e.eventType == BookingFailed && id in table && !o.markFails
    requires !o.send.kafkaOk && !o.send.restOk
    ensures RetryStep(table, id, e, o, now) == (table[id := AsProcessed(table[id], now)], [])
  {
  }

  /** A success or failure event that either channel delivers is sent once, on that channel, and marked processed. */
  lemma DeliveredMarkedProcessed(table: map<int, FailedEvent>, id: int, e: FailedEvent, o: RetryOracle, now: int)
    requires e.eventType != OtherType && id in table && !o.markFails
    requires o.send.kafkaOk || o.send.restOk
    ensures var r := RetryStep(table, id, e, o, now);
      && r.0 == table[id := AsProcessed(table[id], now)]
      && r.1 == [Sent(if e.eventType == BookingSuccess then SuccessNoticeOf(e) else FailureNoticeOf(e),
                      if o.send.kafkaOk then Kafka else Rest)]
  {
  }

  /** A success event that fails on both channels has its retry count raised with the REST error. */
  lemma FailedRedeliveryCounted(table: map<int, FailedEvent>, id: int, e: FailedEvent, o: RetryOracle, now: int)
    requires e.eventType == BookingSuccess && id in table && !o.incrementFails
    requires !o.send.kafkaOk && !o.send.restOk
    ensures RetryStep(table, id, e, o, now) == (table[id := AfterFailedRetry(table[id], o.send.restErrorMessage, now)], [])
  {
  }

  class DLQRetryScheduler {
    const dlq: DeadLetterQueueService

    constructor (dlq: DeadLetterQueueService)
      ensures this.dlq == dlq
    {
      this.dlq := dlq;
    }

    /** retryEvent: delivery, then markAsProcessed; any error leads to incrementRetryCount. */
    method RetryEvent(id: int, e: FailedEvent, o: RetryOracle, now: int) returns (sent: seq<Sent>)
      requires dlq.Valid()
      modifies dlq
      ensures dlq.Valid() && dlq.nextId == old(dlq.nextId)
      ensures (dlq.table, sent) == RetryStep(old(dlq.table), id, e, o, now)
    {
      sent := [];
      var delivery := Redeliver(e, o.send);
      if delivery.Success? {
        sent := delivery.value;
        if !o.markFails {
          dlq.MarkAsProcessed(id, now);
          return;
        }
      }
      // the catch block; an error of incrementRetryCount escapes to the sweep, which logs it
      var error := if delivery.Failure? then delivery.error else o.markErrorMessage;
      if !o.incrementFails {
        dlq.IncrementRetryCount(id, error, now);
      }
    }

    /** retryFailedEvents: reads the pending list once and retries each listed record in order. */
    method RetryFailedEvents(order: seq<int>, oracles: seq<RetryOracle>, now: int)
      returns (pendingEvents: seq<(int, FailedEvent)>, sent: seq<Sent>)
      requires dlq.Valid() && |order| <= |oracles|
      requires Enumerates(order, PendingIds(dlq.table))
      modifies dlq
      ensures dlq.Valid()
      ensures IsSnapshot(old(dlq.table), PendingIds(old(dlq.table)), pendingEvents) && |pendingEvents| == |order|
      ensures (dlq.table, sent) == Sweep(old(dlq.table), pendingEvents, oracles, now)
    {
      pendingEvents := dlq.GetPendingEvents(order);
      sent := [];
      if |pendingEvents| == 0 {
        return;
      }
      ghost var before := dlq.table;
      var i := 0;
      while i < |pendingEvents|
        invariant 0 <= i <= |pendingEvents| && dlq.Valid()
        invariant (dlq.table, sent) == Sweep(before, pendingEvents[..i], oracles, now)
      {
        assert pendingEvents[..i + 1][..i] == pendingEvents[..i];
        var s := RetryEvent(pendingEvents[i].0, pendingEvents[i].1, oracles[i], now);
        sent := sent + s;
        i := i + 1;
      }
      assert pendingEvents[..i] == pendingEvents;
    }
  }
}
