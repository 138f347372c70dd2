/**
  The dead-letter queue: FailedEvent records and DeadLetterQueueService over the
  failed_events table, keyed by the generated record id. Timestamps are integer
  parameters; a failing save is an oracle.
*/
module DeadLetter {
  import opened Wrappers

  datatype EventType = BookingSuccess | BookingFailed | OtherType

  datatype EventStatus = Pending | Retrying | Failed | Processed

  /** Retry budget given to every new record. */
  const DefaultMaxRetries: int := 3
  /** Column length of lastError, and the truncation limit of truncateError. */
  const ErrorLimit: nat := 2000
  /** Retry bound used by getPendingEvents, written there as a literal. */
  const PendingRetryLimit: int := 3

  /** The replay payload: the booking facts, and for a failure event the quote-escaped reason. */
  datatype Payload =
    | SuccessPayload(bookingId: int, userId: int, showId: int, amountCents: int)
    | FailurePayload(bookingId: int, userId: int, showId: int, amountCents: int, reasonText: string)

  datatype FailedEvent = FailedEvent(
    eventType: EventType,
    bookingId: int,
    userId: int,
    showId: int,
    amountCents: int,
    reason: Option<string>,
    payload: Payload,
    status: EventStatus,
    retryCount: int,
    maxRetries: int,
    lastError: Option<string>,
    createdAt: Option<int>,
    lastRetryAt: Option<int>,
    processedAt: Option<int>)

  /** A freshly constructed record: the field defaults, before anything is set. */
  function NewFailedEvent(eventType: EventType, bookingId: int, userId: int, showId: int, amountCents: int, payload: Payload): (e: FailedEvent)
    ensures e.status == Pending && e.retryCount == 0 && e.maxRetries == DefaultMaxRetries
    ensures e.createdAt.None? && e.lastRetryAt.None? && e.processedAt.None?
  {
    FailedEvent(eventType, bookingId, userId, showId, amountCents, None, payload,
                Pending, 0, DefaultMaxRetries, None, None, None, None)
  }

  /** The persist hook: stamps createdAt when the record is first saved. */
  function OnCreate(e: FailedEvent, now: int): (r: FailedEvent)
    ensures r.createdAt == Some(now)
    ensures r.(createdAt := e.createdAt) == e
  {
    e.(createdAt := Some(now))
  }

  /** truncateError: null stays null; longer messages keep their first 2000 characters. */
  function TruncateError(error: Option<string>): (r: Option<string>)
    ensures r.Some? <==> error.Some?
    ensures r.Some? ==> |r.value| <= ErrorLimit && r.value <= error.value
    ensures r.Some? && |error.value| <= ErrorLimit ==> r == error
    ensures r.Some? && |error.value| > ErrorLimit ==> |r.value| == ErrorLimit
  {
    match error
    case None => None
    case Some(s) => if |s| > ErrorLimit then Some(s[..ErrorLimit]) else Some(s)
  }

  lemma TruncateIdempotent(error: Option<string>)
    ensures TruncateError(TruncateError(error)) == TruncateError(error)
  {
  }

  /** reason.replace("\"", "\\\""): every double quote gets a backslash in front of it. */
  function EscapeQuotes(s: string): (t: string)
    ensures |t| >= |s|
    ensures |s| > 0 ==> |t| > 0 && t[0] == (if s[0] == '"' then '\\' else s[0])
    decreases |s|
  {
    if |s| == 0 then ""
    else (if s[0] == '"' then "\\\"" else [s[0]]) + EscapeQuotes(s[1..])
  }

  /** Drops the backslash in front of each double quote. */
  function UnescapeQuotes(t: string): string
    decreases |t|
  {
    if |t| == 0 then ""
    else if |t| >= 2 && t[0] == '\\' && t[1] == '"' then "\"" + UnescapeQuotes(t[2..])
    else [t[0]] + UnescapeQuotes(t[1..])
  }

  /** The escaping loses nothing: the reason can be read back from the payload text. */
  lemma {:induction false} EscapeRoundTrip(s: string)
    ensures UnescapeQuotes(EscapeQuotes(s)) == s
    decreases |s|
  {
    if |s| > 0 {
      var t := EscapeQuotes(s);
      var rest := EscapeQuotes(s[1..]);
      EscapeRoundTrip(s[1..]);
      if s[0] == '"' {
        assert t == "\\\"" + rest;
        assert t[2..] == rest;
      } else {
        assert t == [s[0]] + rest;
        assert t[1..] == rest;
        if |t| >= 2 && t[0] == '\\' {
          // the character after a kept backslash is the escape of s[1], never a bare quote
          assert |s| > 1 && t[1] == rest[0];
        }
      }
    }
  }

  /** The escaped text has no double quote without a backslash in front of it. */
  lemma {:induction false} EscapedQuotesGuarded(s: string, i: nat)
    requires i < |EscapeQuotes(s)| && EscapeQuotes(s)[i] == '"'
    ensures i > 0 && EscapeQuotes(s)[i - 1] == '\\'
    decreases |s|
  {
    var head: string := if s[0] == '"' then "\\\"" else [s[0]];
    assert EscapeQuotes(s) == head + EscapeQuotes(s[1..]);
    if i >= |head| {
      EscapedQuotesGuarded(s[1..], i - |head|);
    }
  }

  /** The reason as it appears in the payload: escaped, and "" for a null reason. */
  function PayloadReason(reason: Option<string>): string {
    match reason
    case None => ""
    case Some(r) => EscapeQuotes(r)
  }

  /** The record storeFailedSuccessEvent saves. */
  function SuccessRecord(bookingId: int, userId: int, showId: int, amountCents: int, errorMessage: Option<string>, now: int): FailedEvent {
    OnCreate(NewFailedEvent(BookingSuccess, bookingId, userId, showId, amountCents,
                            SuccessPayload(bookingId, userId, showId, amountCents))
               .(lastError := TruncateError(errorMessage)), now)
  }

  /** The record storeFailedFailureEvent saves. */
  function FailureRecord(bookingId: int, userId: int, showId: int, amountCents: int, reason: Option<string>, errorMessage: Option<string>, now: int): FailedEvent {
    OnCreate(NewFailedEvent(BookingFailed, bookingId, userId, showId, amountCents,
                            FailurePayload(bookingId, userId, showId, amountCents, PayloadReason(reason)))
               .(reason := reason, lastError := TruncateError(errorMessage)), now)
  }

  /**
    The record invariant the retry machinery relies on: the default budget of 3, a count
    within it, a count of 3 only on a record that is no longer pending, a lastError that
    fits its column, and a creation stamp.
  */
  predicate RecordInv(e: FailedEvent) {
    && e.maxRetries == DefaultMaxRetries
    && 0 <= e.retryCount <= DefaultMaxRetries
    && (e.retryCount == DefaultMaxRetries ==> e.status != Pending)
    && (e.lastError.Some? ==> |e.lastError.value| <= ErrorLimit)
    && e.createdAt.Some?
  }

  predicate TableInv(table: map<int, FailedEvent>) {
    forall id :: id in table ==> RecordInv(table[id])
  }

  /** Both stored records start PENDING with no retries, carry the booking facts, and satisfy the record invariant. */
  lemma NewRecordsValid(bookingId: int, userId: int, showId: int, amountCents: int, reason: Option<string>, errorMessage: Option<string>, now: int)
    ensures var s := SuccessRecord(bookingId, userId, showId, amountCents, errorMessage, now);
      && RecordInv(s) && s.eventType == BookingSuccess && s.status == Pending && s.retryCount == 0
      && s.bookingId == bookingId && s.userId == userId && s.showId == showId && s.amountCents == amountCents
      && s.lastError == TruncateError(errorMessage) && s.createdAt == Some(now)
    ensures var f := FailureRecord(bookingId, userId, showId, amountCents, reason, errorMessage, now);
      && RecordInv(f) && f.eventType == BookingFailed && f.status == Pending && f.retryCount == 0
      && f.bookingId == bookingId && f.userId == userId && f.showId == showId && f.amountCents == amountCents
      && f.reason == reason && f.payload.reasonText == PayloadReason(reason)
      && f.lastError == TruncateError(errorMessage) && f.createdAt == Some(now)
  {
  }

  /** getPendingEvents: PENDING records with fewer than 3 retries. */
  function PendingIds(table: map<int, FailedEvent>): set<int> {
    set id | id in table && table[id].status == Pending && table[id].retryCount < PendingRetryLimit
  }

  /** getFailedEvents: FAILED records. */
  function FailedIds(table: map<int, FailedEvent>): set<int> {
    set id | id in table && table[id].status == Failed
  }

  /** getFailedEventsByBookingId: every record of one booking. */
  function BookingEventIds(table: map<int, FailedEvent>, bookingId: int): set<int> {
    set id | id in table && table[id].bookingId == bookingId
  }

  /** Under the record invariant, a record is pending-for-retry exactly when its status is PENDING. */
  lemma PendingMeansStatusPending(table: map<int, FailedEvent>, id: int)
    requires TableInv(table)
    ensures id in PendingIds(table) <==> id in table && table[id].status == Pending
  {
  }

  /** The pending list and the failed list never share a record. */
  lemma PendingFailedDisjoint(table: map<int, FailedEvent>)
    ensures PendingIds(table) !! FailedIds(table)
  {
  }

  /**
    The pending query ignores a record's own retry budget: changing maxRetries never changes
    the pending list, and a record retried 3 times is not listed whatever budget it has.
  */
  lemma PendingIgnoresOwnBudget(table: map<int, FailedEvent>, id: int, m: int)
    requires id in table
    ensures PendingIds(table[id := table[id].(maxRetries := m)]) == PendingIds(table)
    ensures table[id].retryCount >= PendingRetryLimit ==> id !in PendingIds(table)
  {
  }

  /** markAsProcessed applied to one record. */
  function AsProcessed(e: FailedEvent, now: int): FailedEvent {
    e.(status := Processed, processedAt := Some(now))
  }

  /** incrementRetryCount applied to one record: FAILED once the count reaches the record's budget. */
  function AfterFailedRetry(e: FailedEvent, errorMessage: Option<string>, now: int): FailedEvent {
    var count := e.retryCount + 1;
    e.(retryCount := count, lastRetryAt := Some(now), lastError := TruncateError(errorMessage),
       status := if count >= e.maxRetries then Failed else e.status)
  }

  /** markAsProcessed keeps the record invariant and leaves the record out of both the pending and the failed lists. */
  lemma ProcessedKeepsInv(table: map<int, FailedEvent>, id: int, now: int)
    requires TableInv(table) && id in table
    ensures TableInv(table[id := AsProcessed(table[id], now)])
    ensures id !in PendingIds(table[id := AsProcessed(table[id], now)])
    ensures id !in FailedIds(table[id := AsProcessed(table[id], now)])
  {
  }

  /**
    A failed retry of a record that is pending for retry keeps the record invariant: its
    count grows by one, and the third failure makes it FAILED, so it is never listed again.
  */
  lemma RetriedKeepsInv(table: map<int, FailedEvent>, id: int, errorMessage: Option<string>, now: int)
    requires TableInv(table) && id in PendingIds(table)
    ensures var t := table[id := AfterFailedRetry(table[id], errorMessage, now)];
      && TableInv(t)
      && t[id].retryCount == table[id].retryCount + 1
      && (t[id].retryCount == DefaultMaxRetries <==> t[id].status == Failed)
      && (t[id].status == Failed <==> id !in PendingIds(t))
  {
  }

  /** A record that is FAILED or PROCESSED is not pending for retry and stays so: neither update makes it PENDING again. */
  lemma UpdatesNeverRevive(e: FailedEvent, errorMessage: Option<string>, now: int)
    requires e.status != Pending
    ensures AsProcessed(e, now).status != Pending
    ensures AfterFailedRetry(e, errorMessage, now).status != Pending
  {
  }

  /** `order` lists every id of `ids` exactly once: a row order of a query result. */
  predicate Enumerates(order: seq<int>, ids: set<int>) {
    && (forall j, k :: 0 <= j < k < |order| ==> order[j] != order[k])
    && (forall k :: 0 <= k < |order| ==> order[k] in ids)
    && (forall id :: id in ids ==> exists k :: 0 <= k < |order| && order[k] == id)
  }

  predicate DistinctIds(events: seq<(int, FailedEvent)>) {
    forall j, k :: 0 <= j < k < |events| ==> events[j].0 != events[k].0
  }

  /** A query's result: every record of `ids` once, each with its id and its state at query time. */
  predicate IsSnapshot(table: map<int, FailedEvent>, ids: set<int>, events: seq<(int, FailedEvent)>) {
    && DistinctIds(events)
    && (forall k :: 0 <= k < |events| ==> events[k].0 in ids && events[k].0 in table && table[events[k].0] == events[k].1)
    && (forall id :: id in ids ==> exists k :: 0 <= k < |events| && events[k].0 == id)
  }

  class DeadLetterQueueService {
    /** The failed_events table. */
    var table: map<int, FailedEvent>
    /** The next identity value the database hands out. */
    var nextId: int

    ghost predicate Valid()
      reads this
    {
      forall id :: id in table ==> id < nextId
    }

    constructor ()
      ensures Valid() && table == map[] && nextId == 1
    {
      table := map[];
      nextId := 1;
    }

    /** Saves a new record under a fresh id; a failing save leaves the table as it was. */
    method Save(e: FailedEvent, saveFails: bool)
      requires Valid()
      modifies this
      ensures Valid()
      ensures saveFails ==> table == old(table) && nextId == old(nextId)
      ensures !saveFails ==> old(nextId) !in old(table) && table == old(table)[old(nextId) := e] && nextId == old(nextId) + 1
    {
      if !saveFails {
        table := table[nextId := e];
        nextId := nextId + 1;
      }
    }

    /** storeFailedSuccessEvent: storage errors are logged, never thrown. */
    method StoreFailedSuccessEvent(bookingId: int, userId: int, showId: int, amountCents: int, errorMessage: Option<string>, now: int, saveFails: bool)
      requires Valid()
      modifies this
      ensures Valid()
      ensures saveFails ==> table == old(table)
      ensures !saveFails ==>
        old(nextId) !in old(table)
        && table == old(table)[old(nextId) := SuccessRecord(bookingId, userId, showId, amountCents, errorMessage, now)]
    {
      var e := NewFailedEvent(BookingSuccess, bookingId, userId, showId, amountCents,
                              SuccessPayload(bookingId, userId, showId, amountCents));
      e := e.(lastError := TruncateError(errorMessage));
      Save(OnCreate(e, now), saveFails);
    }

    /** storeFailedFailureEvent: storage errors are logged, never thrown. */
    method StoreFailedFailureEvent(bookingId: int, userId: int, showId: int, amountCents: int, reason: Option<string>, errorMessage: Option<string>, now: int, saveFails: bool)
      requires Valid()
      modifies this
      ensures Valid()
      ensures saveFails ==> table == old(table)
      ensures !saveFails ==>
        old(nextId) !in old(table)
        && table == old(table)[old(nextId) := FailureRecord(bookingId, userId, showId, amountCents, reason, errorMessage, now)]
    {
      var e := NewFailedEvent(BookingFailed, bookingId, userId, showId, amountCents,
                              FailurePayload(bookingId, userId, showId, amountCents, PayloadReason(reason)));
      e := e.(reason := reason, lastError := TruncateError(errorMessage));
      Save(OnCreate(e, now), saveFails);
    }

    /** The rows of the given ids, in the given order, each with its current state. */
    method Rows(order: seq<int>) returns (events: seq<(int, FailedEvent)>)
      requires forall k :: 0 <= k < |order| ==> order[k] in table
      ensures |events| == |order|
      ensures forall k :: 0 <= k < |order| ==> events[k] == (order[k], table[order[k]])
    {
      events := [];
      var i := 0;
      while i < |order|
        invariant 0 <= i <= |order| && |events| == i
        invariant forall k :: 0 <= k < i ==> events[k] == (order[k], table[order[k]])
      {
        events := events + [(order[i], table[order[i]])];
        i := i + 1;
      }
    }

    /** getPendingEvents, with the rows in the given order. */
    method GetPendingEvents(order: seq<int>) returns (events: seq<(int, FailedEvent)>)
      requires Enumerates(order, PendingIds(table))
      ensures IsSnapshot(table, PendingIds(table), events)
      ensures |events| == |order| && forall k :: 0 <= k < |order| ==> events[k].0 == order[k]
    {
      events := Rows(order);
    }

    /** getFailedEvents, with the rows in the given order. */
    method GetFailedEvents(order: seq<int>) returns (events: seq<(int, FailedEvent)>)
      requires Enumerates(order, FailedIds(table))
      ensures IsSnapshot(table, FailedIds(table), events)
      ensures |events| == |order| && forall k :: 0 <= k < |order| ==> events[k].0 == order[k]
    {
      events := Rows(order);
    }

    /** getFailedEventsByBookingId, with the rows in the given order. */
    method GetFailedEventsByBookingId(bookingId: int, order: seq<int>) returns (events: seq<(int, FailedEvent)>)
      requires Enumerates(order, BookingEventIds(table, bookingId))
      ensures IsSnapshot(table, BookingEventIds(table, bookingId), events)
      ensures |events| == |order| && forall k :: 0 <= k < |order| ==> events[k].0 == order[k]
    {
      events := Rows(order);
    }

    /** markAsProcessed: whatever the previous status; an unknown id is a no-op. */
    method MarkAsProcessed(eventId: int, now: int)
      requires Valid()
      modifies this
      ensures Valid() && nextId == old(nextId)
      ensures eventId in old(table) ==> table == old(table)[eventId := AsProcessed(old(table)[eventId], now)]
      ensures eventId !in old(table) ==> table == old(table)
    {
      if eventId in table {
        var event := table[eventId];
        event := event.(status := Processed);
        event := event.(processedAt := Some(now));
        table := table[eventId := event];
      }
    }

    /** incrementRetryCount: an unknown id is a no-op. */
    method IncrementRetryCount(eventId: int, errorMessage: Option<string>, now: int)
      requires Valid()
      modifies this
      ensures Valid() && nextId == old(nextId)
      ensures eventId in old(table) ==> table == old(table)[eventId := AfterFailedRetry(old(table)[eventId], errorMessage, now)]
      ensures eventId !in old(table) ==> table == old(table)
    {
      if eventId in table {
        var event := table[eventId];
        event := event.(retryCount := event.retryCount + 1);
        event := event.(lastRetryAt := Some(now));
        event := event.(lastError := TruncateError(errorMessage));
        if event.retryCount >= event.maxRetries {
          event := event.(status := Failed);
        }
        table := table[eventId := event];
      }
    }
  }

  /** Storing a record keeps the table invariant and adds one pending record. */
  lemma StoreKeepsInv(table: map<int, FailedEvent>, id: int, e: FailedEvent)
    requires TableInv(table) && id !in table && RecordInv(e) && e.status == Pending && e.retryCount == 0
    ensures TableInv(table[id := e])
    ensures PendingIds(table[id := e]) == PendingIds(table) + {id}
  {
  }
}
