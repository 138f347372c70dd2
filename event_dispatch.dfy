/**
  Delivery of booking events: Kafka first, the notification service's REST endpoint as
  fallback. Both channels are oracles. Two call paths exist: the declared contract of the
  @Retryable/@Recover pair (three attempts, then the dead-letter queue), and the direct
  in-class call the booking flow actually makes, which is a single synchronous attempt.
*/
module EventDispatch {
  import opened Wrappers
  import DeadLetter

  datatype Channel = Kafka | Rest

  /** The booking facts an event carries. */
  datatype Notice =
    | SuccessNotice(bookingId: int, userId: int, showId: int, amountCents: int)
    | FailureNotice(bookingId: int, userId: int, showId: int, amountCents: int, reason: Option<string>)

  /** How one send attempt goes: whether Kafka accepts it, whether the REST call succeeds, and the REST error's message. */
  datatype SendOutcome = SendOutcome(kafkaOk: bool, restOk: bool, restErrorMessage: Option<string>)

  /**
    One attempt at a success event: Kafka, else REST; the REST client rethrows its error,
    so the attempt fails exactly when both channels fail.
  */
  function SendSuccess(o: SendOutcome): (r: Result<Channel, Option<string>>)
    ensures r.Success? <==> o.kafkaOk || o.restOk
    ensures r == Success(Kafka) <==> o.kafkaOk
    ensures r.Failure? ==> r.error == o.restErrorMessage
  {
    if o.kafkaOk then Success(Kafka)
    else if o.restOk then Success(Rest)
    else Failure(o.restErrorMessage)
  }

  /**
    One attempt at a failure event: Kafka, else REST; the REST client swallows its error,
    so the attempt never fails, and None means the event was dropped.
  */
  function SendFailure(o: SendOutcome): (r: Option<Channel>)
    ensures r.Some? <==> o.kafkaOk || o.restOk
    ensures r == Some(Kafka) <==> o.kafkaOk
  {
    if o.kafkaOk then Some(Kafka)
    else if o.restOk then Some(Rest)
    else None
  }

  /** maxAttempts of the @Retryable senders. */
  const MaxSendAttempts: nat := 3

  datatype Dispatch =
    | Delivered(attempt: nat, channel: Channel)
    | Dropped(attempt: nat)
    | DeadLettered(error: Option<string>)

  /** Attempts from index k on, under the retry proxy. */
  function RetrySuccessFrom(attempts: seq<SendOutcome>, k: nat): Dispatch
    requires k < |attempts|
    decreases |attempts| - k
  {
    match SendSuccess(attempts[k])
    case Success(c) => Delivered(k + 1, c)
    case Failure(m) => if k + 1 == |attempts| then DeadLettered(m) else RetrySuccessFrom(attempts, k + 1)
  }

  /** The declared contract of sendBookingSuccessEvent: up to three attempts, then recovery. */
  function DeclaredSendSuccess(attempts: seq<SendOutcome>): Dispatch
    requires |attempts| == MaxSendAttempts
  {
    RetrySuccessFrom(attempts, 0)
  }

  /** The declared contract of sendBookingFailedEvent: the first attempt never throws, so it is the only one. */
  function DeclaredSendFailure(attempts: seq<SendOutcome>): Dispatch
    requires |attempts| == MaxSendAttempts
  {
    match SendFailure(attempts[0])
    case Some(c) => Delivered(1, c)
    case None => Dropped(1)
  }

  /**
    A success event is delivered at the first attempt whose Kafka or REST call succeeds, and
    is dead-lettered exactly when every attempt fails, with the last attempt's error.
  */
  lemma {:induction false} RetrySuccessFromSpec(attempts: seq<SendOutcome>, k: nat)
    requires k < |attempts|
    ensures var d := RetrySuccessFrom(attempts, k);
      && (d.DeadLettered? <==> forall j :: k <= j < |attempts| ==> SendSuccess(attempts[j]).Failure?)
      && (d.DeadLettered? ==> d.error == attempts[|attempts| - 1].restErrorMessage)
      && (d.Delivered? ==>
            && k < d.attempt <= |attempts|
            && SendSuccess(attempts[d.attempt - 1]) == Success(d.channel)
            && forall j :: k <= j < d.attempt - 1 ==> SendSuccess(attempts[j]).Failure?)
      && !d.Dropped?
    decreases |attempts| - k
  {
    if SendSuccess(attempts[k]).Failure? && k + 1 < |attempts| {
      RetrySuccessFromSpec(attempts, k + 1);
    }
  }

  lemma DeclaredSendSuccessSpec(attempts: seq<SendOutcome>)
    requires |attempts| == MaxSendAttempts
    ensures var d := DeclaredSendSuccess(attempts);
      && (d.DeadLettered? <==> forall j :: 0 <= j < MaxSendAttempts ==> !attempts[j].kafkaOk && !attempts[j].restOk)
      && (d.DeadLettered? ==> d.error == attempts[2].restErrorMessage)
      && (d.Delivered? ==> 1 <= d.attempt <= MaxSendAttempts)
  {
    RetrySuccessFromSpec(attempts, 0);
  }

  /** A failure event never reaches the dead-letter queue, even when neither channel delivers it. */
  lemma FailureNeverDeadLettered(attempts: seq<SendOutcome>)
    requires |attempts| == MaxSendAttempts
    ensures !DeclaredSendFailure(attempts).DeadLettered?
    ensures DeclaredSendFailure(attempts).Dropped? <==> !attempts[0].kafkaOk && !attempts[0].restOk
  {
  }

  /**
    The declared path for a success event, with recovery: when the retries are exhausted
    the event is stored in the dead-letter queue with the last error.
  */
  method SendBookingSuccessEventDeclared(dlq: DeadLetter.DeadLetterQueueService, notice: Notice,
                                         attempts: seq<SendOutcome>, now: int, saveFails: bool)
    returns (d: Dispatch)
    requires notice.SuccessNotice? && |attempts| == MaxSendAttempts && dlq.Valid()
    modifies dlq
    ensures dlq.Valid()
    ensures d == DeclaredSendSuccess(attempts)
    ensures !d.DeadLettered? ==> dlq.table == old(dlq.table)
    ensures d.DeadLettered? && !saveFails ==>
      dlq.table == old(dlq.table)[old(dlq.nextId) :=
        DeadLetter.SuccessRecord(notice.bookingId, notice.userId, notice.showId, notice.amountCents, d.error, now)]
    ensures d.DeadLettered? && saveFails ==> dlq.table == old(dlq.table)
  {
    d := DeclaredSendSuccess(attempts);
    if d.DeadLettered? {
      dlq.StoreFailedSuccessEvent(notice.bookingId, notice.userId, notice.showId, notice.amountCents, d.error, now, saveFails);
    }
  }
}
