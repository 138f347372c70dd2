/**
  DLQAdminController: the counting behind the statistics endpoints, and the manual
  mark-as-processed action. HTTP routing and responses are not modelled.
*/
module DlqAdmin {
  import opened DeadLetter

  /** BookingDLQStats without its event list. */
  datatype BookingStats = BookingStats(bookingId: int, pendingCount: nat, retryingCount: nat, failedCount: nat, processedCount: nat)

  /** DLQStats. */
  datatype Stats = Stats(pendingCount: nat, failedCount: nat, totalCount: nat)

  /** The number of events with the given status (a stream filter and count). */
  function Count(events: seq<FailedEvent>, status: EventStatus): nat
    decreases |events|
  {
    if |events| == 0 then 0
    else Count(events[..|events| - 1], status) + (if events[|events| - 1].status == status then 1 else 0)
  }

  /** The positions of the events with the given status. */
  function Positions(events: seq<FailedEvent>, status: EventStatus): set<nat> {
    set k: nat | k < |events| && events[k].status == status
  }

  /** Each count is the number of the booking's events with that status. */
  lemma {:induction false} CountIsNumberWithStatus(events: seq<FailedEvent>, status: EventStatus)
    ensures Count(events, status) == |Positions(events, status)|
    decreases |events|
  {
    if |events| > 0 {
      var n := |events| - 1;
      var prefix := events[..n];
      CountIsNumberWithStatus(prefix, status);
      if events[n].status == status {
        assert Positions(events, status) == Positions(prefix, status) + {n};
      } else {
        assert Positions(events, status) == Positions(prefix, status);
      }
    }
  }

  /** getStatsByBookingId, over the booking's events in row order. */
  function StatsByBookingId(bookingId: int, events: seq<FailedEvent>): BookingStats {
    if |events| == 0 then BookingStats(bookingId, 0, 0, 0, 0)
    else BookingStats(bookingId, Count(events, Pending), Count(events, Retrying), Count(events, Failed), Count(events, Processed))
  }

  /** The four counts add up to the number of events, since every event has one of the four statuses. */
  lemma {:induction false} CountsPartition(events: seq<FailedEvent>)
    ensures Count(events, Pending) + Count(events, Retrying) + Count(events, Failed) + Count(events, Processed) == |events|
    decreases |events|
  {
    if |events| > 0 {
      CountsPartition(events[..|events| - 1]);
    }
  }

  lemma StatsByBookingIdSpec(bookingId: int, events: seq<FailedEvent>)
    ensures var s := StatsByBookingId(bookingId, events);
      && s.bookingId == bookingId
      && s.pendingCount + s.retryingCount + s.failedCount + s.processedCount == |events|
      && s.pendingCount == |Positions(events, Pending)|
      && s.retryingCount == |Positions(events, Retrying)|
      && s.failedCount == |Positions(events, Failed)|
      && s.processedCount == |Positions(events, Processed)|
  {
    CountsPartition(events);
    CountIsNumberWithStatus(events, Pending);
    CountIsNumberWithStatus(events, Retrying);
    CountIsNumberWithStatus(events, Failed);
    CountIsNumberWithStatus(events, Processed);
  }

  /** getStats: the sizes of the pending and failed lists, and their sum. */
  function OverallStats(table: map<int, FailedEvent>): Stats {
    var pending := |PendingIds(table)|;
    var failed := |FailedIds(table)|;
    Stats(pending, failed, pending + failed)
  }

  /** The total counts the records listed as pending or failed, each once; it never exceeds the table size. */
  lemma OverallTotalCountsEachRecordOnce(table: map<int, FailedEvent>)
    ensures OverallStats(table).totalCount == |PendingIds(table) + FailedIds(table)|
    ensures OverallStats(table).totalCount <= |table|
  {
    PendingFailedDisjoint(table);
    var listed := PendingIds(table) + FailedIds(table);
    assert listed <= table.Keys;
    SubsetCard(listed, table.Keys);
  }

  lemma {:induction false} SubsetCard<T>(a: set<T>, b: set<T>)
    requires a <= b
    ensures |a| <= |b|
    decreases |b|
  {
    if a != {} {
      var x :| x in a;
      SubsetCard(a - {x}, b - {x});
    }
  }

  class DLQAdminController {
    const dlq: DeadLetterQueueService

    constructor (dlq: DeadLetterQueueService)
      ensures this.dlq == dlq
    {
      this.dlq := dlq;
    }

    /** markAsProcessed: delegates to the service and always answers with the same text. */
    method MarkAsProcessed(eventId: int, now: int) returns (body: string)
      requires dlq.Valid()
      modifies dlq
      ensures dlq.Valid() && dlq.nextId == old(dlq.nextId)
      ensures eventId in old(dlq.table) ==> dlq.table == old(dlq.table)[eventId := AsProcessed(old(dlq.table)[eventId], now)]
      ensures eventId !in old(dlq.table) ==> dlq.table == old(dlq.table)
      ensures body == "Event marked as processed"
    {
      dlq.MarkAsProcessed(eventId, now);
      body := "Event marked as processed";
    }
  }
}
