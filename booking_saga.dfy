/**
  The booking saga of BookingService as pure functions over the service's state: the
  bookings and booking-seat tables, the seat-lock store, and a log of the outside
  effects in the order they happen (theater calls, booking saves, lock releases, events).
  Every remote call is an oracle. The compensation code runs exactly as nested in the
  service, including the paths where it runs twice.
*/
module BookingSaga {
  import opened Wrappers
  import opened Bookings
  import LockKeys
  import SeatLocks
  import Payments
  import opened EventDispatch

  datatype TheaterAction = VerifySeats | LockSeats | ReleaseSeats | BookSeats

  /** An outside effect, in the order the service performs it. */
  datatype Action =
    | TheaterCall(action: TheaterAction, showId: int, seatIds: seq<int>, ok: bool)
    | SaveBooking(bookingId: int, status: BookingStatus)
    | SaveSeats(bookingId: int, count: nat)
    | LockRelease(keys: seq<string>)
    | EventSent(notice: Notice, channel: Option<Channel>)

  datatype SagaState = SagaState(
    bookings: map<int, Booking>,
    bookingSeats: map<int, seq<BookingSeat>>,
    nextBookingId: int,
    store: map<string, string>,
    log: seq<Action>)

  /**
    The database's id sequence is ahead of every stored row: the id the next save hands
    out belongs to no booking and to no booking-seat row yet.
  */
  ghost predicate FreshIds(s: SagaState) {
    && (forall id :: id in s.bookings ==> id < s.nextBookingId)
    && (forall id :: id in s.bookingSeats ==> id < s.nextBookingId)
  }

  /** The exception the caller receives. */
  datatype Thrown =
    | SeatLockError(message: string)
    | RuntimeError(message: string)
    | PaymentFailedError(message: string, paymentStatus: string, transactionId: Option<string>)

  datatype CheckoutSession = CheckoutSession(sessionId: string, paymentUrl: string, expiresAt: int)

  datatype CreateBookingResponse = CreateBookingResponse(
    bookingId: int, userId: int, showId: int, totalCents: int, status: BookingStatus,
    seats: seq<SeatResponse>, sessionId: string, paymentUrl: string, expiresAt: int)

  datatype BookingStatusResponse = BookingStatusResponse(
    bookingId: int, userId: int, showId: int, totalCents: int, status: BookingStatus, seats: seq<SeatResponse>)

  /**
    The answers of the outside world to one createBooking call. A theater or checkout
    failure carries its exception message; theater releases are answered in call order.
  */
  datatype CreateOracle = CreateOracle(
    verifyReply: Result<seq<ValidSeat>, string>,
    lockFaultAt: Option<nat>,
    deleteFails: bool,
    theaterLock: Option<string>,
    theaterRelease1: Option<string>,
    theaterRelease2: Option<string>,
    checkout: Result<CheckoutSession, string>,
    failureSend1: SendOutcome,
    failureSend2: SendOutcome)

  /** The answers of the outside world to one verifyAndCompleteBooking call. */
  datatype VerifyOracle = VerifyOracle(
    pollSteps: seq<Payments.PollStep>,
    theaterBook: Option<string>,
    theaterRelease1: Option<string>,
    theaterRelease2: Option<string>,
    deleteFails: bool,
    successSend: SendOutcome,
    failureSend1: SendOutcome,
    failureSend2: SendOutcome)

  const SystemErrorMessage: string := "Failed to create booking due to system error"

  /** verifySeats: an empty list is refused like an error. */
  function VerifiedSeats(reply: Result<seq<ValidSeat>, string>): (r: Result<seq<ValidSeat>, string>)
    ensures r.Success? <==> reply.Success? && |reply.value| > 0
    ensures r.Success? ==> r == reply
  {
    match reply
    case Failure(m) => Failure(m)
    case Success(seats) => if |seats| == 0 then Failure("No Valid Seats Found") else Success(seats)
  }

  function Record(s: SagaState, a: Action): SagaState {
    s.(log := s.log + [a])
  }

  /** setStatus followed by save. */
  function SetStatus(s: SagaState, id: int, status: BookingStatus): SagaState {
    var bookings := if id in s.bookings then s.bookings[id := s.bookings[id].(status := status)] else s.bookings;
    s.(bookings := bookings, log := s.log + [SaveBooking(id, status)])
  }

  /** releaseSeatsLock. */
  function ReleaseKeys(s: SagaState, keys: seq<string>, deleteFails: bool): SagaState {
    s.(store := SeatLocks.Release(s.store, keys, deleteFails), log := s.log + [LockRelease(keys)])
  }

  function Theater(s: SagaState, action: TheaterAction, showId: int, seatIds: seq<int>, failure: Option<string>): SagaState {
    Record(s, TheaterCall(action, showId, seatIds, failure.None?))
  }

  function FailureNoticeFor(id: int, b: Booking, reason: Option<string>): Notice {
    FailureNotice(id, b.userId, b.showId, b.totalCents, reason)
  }

  /** sendBookingFailedEvent called directly: one attempt whose errors are swallowed. */
  function SendFailureEvent(s: SagaState, id: int, b: Booking, reason: Option<string>, o: SendOutcome): SagaState {
    Record(s, EventSent(FailureNoticeFor(id, b, reason), SendFailure(o)))
  }

  /** The last part of the outer `catch (Exception e)` of createBooking: FAILED, failure event, generic error. */
  function FailAndReport(s: SagaState, id: int, b: Booking, reason: Option<string>, send: SendOutcome): (SagaState, Result<CreateBookingResponse, Thrown>) {
    var s1 := SetStatus(s, id, Failed);
    (SendFailureEvent(s1, id, b, reason, send), Failure(RuntimeError(SystemErrorMessage)))
  }

  /**
    The outer `catch (Exception e)` of createBooking: with locks held, releases them and
    the theater seats (a failing theater release escapes this catch block); then FAILED,
    a failure event with e's message as reason, and the generic error.
  */
  function OuterCatch(s: SagaState, id: int, b: Booking, seatIds: seq<int>, keys: seq<string>, reason: Option<string>,
                      release: Option<string>, send: SendOutcome, deleteFails: bool): (SagaState, Result<CreateBookingResponse, Thrown>)
  {
    if |keys| > 0 then
      var s1 := ReleaseKeys(s, keys, deleteFails);
      var s2 := Theater(s1, ReleaseSeats, b.showId, seatIds, release);
      if release.Some? then (s2, Failure(RuntimeError(release.value)))
      else FailAndReport(s2, id, b, reason, send)
    else FailAndReport(s, id, b, reason, send)
  }

  /**
    The inner catch around checkout creation: FAILED, release of locks and theater seats,
    a failure event, and a RuntimeException that the outer catch handles again.
  */
  function CheckoutFailed(s: SagaState, id: int, b: Booking, seatIds: seq<int>, keys: seq<string>, message: string, o: CreateOracle): (SagaState, Result<CreateBookingResponse, Thrown>)
  {
    var s1 := SetStatus(s, id, Failed);
    var s2 := ReleaseKeys(s1, keys, o.deleteFails);
    var s3 := Theater(s2, ReleaseSeats, b.showId, seatIds, o.theaterRelease1);
    if o.theaterRelease1.Some? then
      OuterCatch(s3, id, b, seatIds, keys, o.theaterRelease1, o.theaterRelease2, o.failureSend1, o.deleteFails)
    else
      var s4 := SendFailureEvent(s3, id, b, Some("Failed to create payment session"), o.failureSend1);
      OuterCatch(s4, id, b, seatIds, keys, Some("Failed to create payment session: " + message), o.theaterRelease2, o.failureSend2, o.deleteFails)
  }

  /** createBooking after the locks are taken: theater lock, booking seats, checkout session. */
  function AfterLocks(s: SagaState, id: int, b: Booking, seats: seq<ValidSeat>, keys: seq<string>, o: CreateOracle): (SagaState, Result<CreateBookingResponse, Thrown>)
  {
    var seatIds := SeatIdsOf(seats);
    var s1 := Theater(s, LockSeats, b.showId, seatIds, o.theaterLock);
    if o.theaterLock.Some? then
      OuterCatch(s1, id, b, seatIds, keys, o.theaterLock, o.theaterRelease1, o.failureSend1, o.deleteFails)
    else
      var rows := BookingSeatsFor(id, seats);
      var s2 := s1.(bookingSeats := s1.bookingSeats[id := rows], log := s1.log + [SaveSeats(id, |rows|)]);
      match o.checkout
      case Failure(cm) => CheckoutFailed(s2, id, b, seatIds, keys, "Failed to create checkout session: " + cm, o)
      case Success(session) =>
        match MapToSeatResponses(rows, seats)
        case Failure(m) => CheckoutFailed(s2, id, b, seatIds, keys, m, o)
        case Success(responses) =>
          (s2, Success(CreateBookingResponse(id, b.userId, b.showId, b.totalCents, Pending, responses,
                                             session.sessionId, session.paymentUrl, session.expiresAt)))
  }

  /** createBooking. */
  function CreateSpec(s: SagaState, cfg: LockKeys.LockConfig, userId: int, showId: int, requested: seq<int>, o: CreateOracle): (SagaState, Result<CreateBookingResponse, Thrown>)
  {
    var verified := VerifiedSeats(o.verifyReply);
    var s0 := Theater(s, VerifySeats, showId, requested, if verified.Failure? then Some(verified.error) else None);
    match verified
    case Failure(m) => (s0, Failure(RuntimeError(m)))
    case Success(seats) =>
      var id := s.nextBookingId;
      var b := Booking(userId, showId, TotalAmount(seats), Pending);
      var s1 := s0.(bookings := s0.bookings[id := b], nextBookingId := id + 1, log := s0.log + [SaveBooking(id, Pending)]);
      LockedOrFailed(s1, id, b, seats, SeatLocks.Acquire(s1.store, cfg, showId, SeatIdsOf(seats), id, o.lockFaultAt, o.deleteFails), o)
  }

  /** createBooking once the lock acquisition has answered. */
  function LockedOrFailed(s: SagaState, id: int, b: Booking, seats: seq<ValidSeat>, acquisition: SeatLocks.Acquisition, o: CreateOracle): (SagaState, Result<CreateBookingResponse, Thrown>)
  {
    var s1 := s.(store := acquisition.store);
    match acquisition.result
    case Failure(e) =>
      var s2 := SetStatus(s1, id, Failed);
      (SendFailureEvent(s2, id, b, Some("Seats no longer available"), o.failureSend1), Failure(SeatLockError(e.Message())))
    case Success(keys) => AfterLocks(s1, id, b, seats, keys, o)
  }

  /** The message a Java string concatenation shows for a possibly null message. */
  function JavaText(message: Option<string>): string {
    message.GetOr("null")
  }

  function StatusResponse(id: int, b: Booking, rows: seq<BookingSeat>): BookingStatusResponse {
    BookingStatusResponse(id, b.userId, b.showId, b.totalCents, b.status, StoredSeatResponses(rows))
  }

  /** The COMPLETED branch of verifyAndCompleteBooking. */
  function Completed(s: SagaState, cfg: LockKeys.LockConfig, id: int, b: Booking, rows: seq<BookingSeat>, o: VerifyOracle): (SagaState, Result<BookingStatusResponse, Thrown>)
  {
    var seatIds := RowSeatIds(rows);
    var s1 := SetStatus(s, id, Confirmed);
    var s2 := Theater(s1, BookSeats, b.showId, seatIds, o.theaterBook);
    if o.theaterBook.Some? then (s2, Failure(RuntimeError("Failed to verify payment: " + o.theaterBook.value)))
    else
      var s3 := ReleaseKeys(s2, SeatLocks.Keys(cfg, b.showId, seatIds), o.deleteFails);
      var sent := SendSuccess(o.successSend);
      var s4 := Record(s3, EventSent(SuccessNotice(id, b.userId, b.showId, b.totalCents),
                                     if sent.Success? then Some(sent.value) else None));
      if sent.Failure? then (s4, Failure(RuntimeError("Failed to verify payment: " + JavaText(sent.error))))
      else (s4, Success(StatusResponse(id, b.(status := Confirmed), rows)))
  }

  /**
    The branch for any other terminal status: FAILED, lock and theater release, a failure
    event, and a PaymentFailedException that the following catch handles again.
  */
  function PaymentRejected(s: SagaState, cfg: LockKeys.LockConfig, id: int, b: Booking, rows: seq<BookingSeat>,
                           response: Payments.PaymentResponse, o: VerifyOracle): (SagaState, Result<BookingStatusResponse, Thrown>)
  {
    var seatIds := RowSeatIds(rows);
    var keys := SeatLocks.Keys(cfg, b.showId, seatIds);
    var s1 := SetStatus(s, id, Failed);
    var s2 := ReleaseKeys(s1, keys, o.deleteFails);
    var s3 := Theater(s2, ReleaseSeats, b.showId, seatIds, o.theaterRelease1);
    if o.theaterRelease1.Some? then (s3, Failure(RuntimeError("Failed to verify payment: " + o.theaterRelease1.value)))
    else
      var s4 := SendFailureEvent(s3, id, b, response.message, o.failureSend1);
      var message := response.message.GetOr("Payment failed");
      var s5 := SetStatus(s4, id, Failed);
      var s6 := ReleaseKeys(s5, keys, o.deleteFails);
      var s7 := Theater(s6, ReleaseSeats, b.showId, seatIds, o.theaterRelease2);
      if o.theaterRelease2.Some? then (s7, Failure(RuntimeError(o.theaterRelease2.value)))
      else
        (SendFailureEvent(s7, id, b, Some(message), o.failureSend2),
         Failure(PaymentFailedError(message, response.paymentStatus, response.transactionId)))
  }

  /** verifyAndCompleteBooking. */
  function VerifySpec(s: SagaState, cfg: LockKeys.LockConfig, pollCfg: Payments.PollingConfig, bookingId: int, o: VerifyOracle): (SagaState, Result<BookingStatusResponse, Thrown>)
    requires pollCfg.maxAttempts <= |o.pollSteps|
  {
    if bookingId !in s.bookings then (s, Failure(RuntimeError("Booking not found: " + LockKeys.Decimal(bookingId))))
    else
      var b := s.bookings[bookingId];
      var rows := if bookingId in s.bookingSeats then s.bookingSeats[bookingId] else [];
      if b.status != Pending then (s, Success(StatusResponse(bookingId, b, rows)))
      else
        match Payments.Poll(pollCfg, o.pollSteps).result
        case Failure(e) => (s, Failure(RuntimeError("Failed to verify payment: " + e.Message())))
        case Success(response) =>
          if Payments.IsCompleted(response.paymentStatus) then Completed(s, cfg, bookingId, b, rows, o)
          else PaymentRejected(s, cfg, bookingId, b, rows, response, o)
  }
}
