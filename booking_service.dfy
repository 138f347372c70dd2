/**
  BookingService as a stateful object: the booking and booking-seat tables, the id the
  next saved booking receives, the log of outside effects, and the lock service whose
  store it shares. Each method runs the saga step by step and is proved to end in the
  state and answer the specification functions of BookingSaga give.
*/
module Service {
  import opened Wrappers
  import opened Bookings
  import LockKeys
  import SeatLocks
  import Payments
  import opened EventDispatch
  import opened BookingSaga
  import SagaProperties
  import VerifyProperties

  class BookingService {
    var bookings: map<int, Booking>
    var bookingSeats: map<int, seq<BookingSeat>>
    var nextBookingId: int
    var log: seq<Action>
    const locks: SeatLocks.RedisLockService
    const pollCfg: Payments.PollingConfig

    /** The service's state as the specification functions see it. */
    function State(): SagaState
      reads this, locks
    {
      SagaState(bookings, bookingSeats, nextBookingId, locks.store, log)
    }

    /** The database's id sequence is ahead of every stored booking and booking-seat row. */
    ghost predicate Valid()
      reads this
    {
      && (forall id :: id in bookings ==> id < nextBookingId)
      && (forall id :: id in bookingSeats ==> id < nextBookingId)
    }

    /** Empty tables; the database hands out ids from 1. */
    constructor (locks: SeatLocks.RedisLockService, pollCfg: Payments.PollingConfig)
      ensures this.locks == locks && this.pollCfg == pollCfg
      ensures bookings == map[] && bookingSeats == map[] && nextBookingId == 1 && log == []
      ensures Valid()
    {
      this.locks := locks;
      this.pollCfg := pollCfg;
      bookings := map[];
      bookingSeats := map[];
      nextBookingId := 1;
      log := [];
    }

    /** booking.setStatus followed by bookingRepository.save. */
    method SaveStatus(id: int, status: BookingStatus)
      modifies this
      ensures State() == SetStatus(old(State()), id, status)
    {
      if id in bookings {
        bookings := bookings[id := bookings[id].(status := status)];
      }
      log := log + [SaveBooking(id, status)];
    }

    /** redisLockService.releaseSeatsLock. */
    method ReleaseLocks(keys: seq<string>, deleteFails: bool)
      modifies this, locks
      ensures State() == ReleaseKeys(old(State()), keys, deleteFails)
    {
      locks.ReleaseSeatsLock(keys, deleteFails);
      log := log + [LockRelease(keys)];
    }

    /** One call to the theater service; a failure is the exception's message. */
    method CallTheater(action: TheaterAction, showId: int, seatIds: seq<int>, failure: Option<string>)
      modifies this
      ensures State() == Theater(old(State()), action, showId, seatIds, failure)
    {
      log := log + [TheaterCall(action, showId, seatIds, failure.None?)];
    }

    /** sendBookingFailedEvent, called directly: never throws. */
    method SendBookingFailedEvent(id: int, b: Booking, reason: Option<string>, outcome: SendOutcome)
      modifies this
      ensures State() == SendFailureEvent(old(State()), id, b, reason, outcome)
    {
      var channel := SendFailure(outcome);
      log := log + [EventSent(FailureNoticeFor(id, b, reason), channel)];
    }

    /** The end of the outer catch of createBooking. */
    method MarkFailedAndReport(id: int, b: Booking, reason: Option<string>, send: SendOutcome)
      returns (r: Result<CreateBookingResponse, Thrown>)
      modifies this
      ensures (State(), r) == FailAndReport(old(State()), id, b, reason, send)
    {
      SaveStatus(id, Failed);
      SendBookingFailedEvent(id, b, reason, send);
      r := Failure(RuntimeError(SystemErrorMessage));
    }

    /** The outer `catch (Exception e)` of createBooking. */
    method HandleUnexpected(id: int, b: Booking, seatIds: seq<int>, keys: seq<string>, reason: Option<string>,
                            release: Option<string>, send: SendOutcome, deleteFails: bool)
      returns (r: Result<CreateBookingResponse, Thrown>)
      modifies this, locks
      ensures (State(), r) == OuterCatch(old(State()), id, b, seatIds, keys, reason, release, send, deleteFails)
    {
      if |keys| > 0 {
        ReleaseLocks(keys, deleteFails);
        CallTheater(ReleaseSeats, b.showId, seatIds, release);
        if release.Some? {
          return Failure(RuntimeError(release.value));
        }
      }
      r := MarkFailedAndReport(id, b, reason, send);
    }

    /** The inner catch around checkout creation, which rethrows into the outer catch. */
    method HandleCheckoutFailure(id: int, b: Booking, seatIds: seq<int>, keys: seq<string>, message: string, o: CreateOracle)
      returns (r: Result<CreateBookingResponse, Thrown>)
      modifies this, locks
      ensures (State(), r) == CheckoutFailed(old(State()), id, b, seatIds, keys, message, o)
    {
      SaveStatus(id, Failed);
      ReleaseLocks(keys, o.deleteFails);
      CallTheater(ReleaseSeats, b.showId, seatIds, o.theaterRelease1);
      if o.theaterRelease1.Some? {
        r := HandleUnexpected(id, b, seatIds, keys, o.theaterRelease1, o.theaterRelease2, o.failureSend1, o.deleteFails);
      } else {
        SendBookingFailedEvent(id, b, Some("Failed to create payment session"), o.failureSend1);
        r := HandleUnexpected(id, b, seatIds, keys, Some("Failed to create payment session: " + message),
                              o.theaterRelease2, o.failureSend2, o.deleteFails);
      }
    }

    /** createBooking once the locks are held: theater lock, booking-seat rows, checkout session. */
    method LockTheaterAndCheckout(id: int, b: Booking, seats: seq<ValidSeat>, keys: seq<string>, o: CreateOracle)
      returns (r: Result<CreateBookingResponse, Thrown>)
      modifies this, locks
      ensures (State(), r) == AfterLocks(old(State()), id, b, seats, keys, o)
    {
      var seatIds := SeatIdsOf(seats);
      CallTheater(LockSeats, b.showId, seatIds, o.theaterLock);
      if o.theaterLock.Some? {
        r := HandleUnexpected(id, b, seatIds, keys, o.theaterLock, o.theaterRelease1, o.failureSend1, o.deleteFails);
        return;
      }
      var rows := BookingSeatsFor(id, seats);
      bookingSeats := bookingSeats[id := rows];
      log := log + [SaveSeats(id, |rows|)];
      if o.checkout.Failure? {
        r := HandleCheckoutFailure(id, b, seatIds, keys, "Failed to create checkout session: " + o.checkout.error, o);
        return;
      }
      var session := o.checkout.value;
      var responses := MapToSeatResponses(rows, seats);
      if responses.Failure? {
        r := HandleCheckoutFailure(id, b, seatIds, keys, responses.error, o);
      } else {
        r := Success(CreateBookingResponse(id, b.userId, b.showId, b.totalCents, Pending, responses.value,
                                           session.sessionId, session.paymentUrl, session.expiresAt));
      }
    }

    /** createBooking once acquireSeatsLock has answered (its store change already made). */
    method ContinueAfterAcquire(id: int, b: Booking, seats: seq<ValidSeat>, acquired: Result<seq<string>, SeatLocks.LockError>, o: CreateOracle)
      returns (r: Result<CreateBookingResponse, Thrown>)
      modifies this, locks
      ensures (State(), r) == LockedOrFailed(old(State()), id, b, seats, SeatLocks.Acquisition(old(locks.store), acquired), o)
    {
      if acquired.Failure? {
        SaveStatus(id, Failed);
        SendBookingFailedEvent(id, b, Some("Seats no longer available"), o.failureSend1);
        r := Failure(SeatLockError(acquired.error.Message()));
      } else {
        r := LockTheaterAndCheckout(id, b, seats, acquired.value, o);
      }
    }

    /**
      createBooking: verify the seats, save the booking PENDING, lock the seats, lock them in
      the theater, save the booking-seat rows and create the checkout session, compensating
      on every failure as the service does.
    */
    method CreateBooking(userId: int, showId: int, requested: seq<int>, o: CreateOracle)
      returns (r: Result<CreateBookingResponse, Thrown>)
      requires Valid()
      modifies this, locks
      ensures (State(), r) == CreateSpec(old(State()), locks.cfg, userId, showId, requested, o)
      ensures Valid()
    {
      ghost var before := State();
      var verified := VerifiedSeats(o.verifyReply);
      CallTheater(VerifySeats, showId, requested, if verified.Failure? then Some(verified.error) else None);
      if verified.Failure? {
        return Failure(RuntimeError(verified.error));
      }
      var seats := verified.value;
      var id := nextBookingId;
      var b := Booking(userId, showId, TotalAmount(seats), Pending);
      bookings := bookings[id := b];
      nextBookingId := id + 1;
      log := log + [SaveBooking(id, Pending)];
      ghost var saved := State();
      assert saved == SagaProperties.Saved(before, userId, showId, requested, seats);
      var acquired := locks.AcquireSeatsLock(showId, SeatIdsOf(seats), id, o.lockFaultAt, o.deleteFails);
      ghost var a := SeatLocks.Acquire(saved.store, locks.cfg, showId, SeatIdsOf(seats), id, o.lockFaultAt, o.deleteFails);
      assert State() == saved.(store := a.store);
      r := ContinueAfterAcquire(id, b, seats, acquired, o);
      SagaProperties.CreateSavesThenLocks(before, locks.cfg, userId, showId, requested, o);
      SagaProperties.CreateKeepsOtherBookings(before, locks.cfg, userId, showId, requested, o);
    }

    /** sendBookingSuccessEvent, called directly: Kafka, then REST; a REST failure escapes. */
    method SendBookingSuccessEvent(id: int, b: Booking, outcome: SendOutcome) returns (sent: Result<Channel, Option<string>>)
      modifies this
      ensures sent == SendSuccess(outcome)
      ensures State() == old(State()).(log := old(log) + [EventSent(SuccessNotice(id, b.userId, b.showId, b.totalCents),
                                                                     if sent.Success? then Some(sent.value) else None)])
    {
      sent := SendSuccess(outcome);
      log := log + [EventSent(SuccessNotice(id, b.userId, b.showId, b.totalCents), if sent.Success? then Some(sent.value) else None)];
    }

    /** The COMPLETED branch of verifyAndCompleteBooking. */
    method ConfirmBooking(id: int, b: Booking, rows: seq<BookingSeat>, o: VerifyOracle)
      returns (r: Result<BookingStatusResponse, Thrown>)
      modifies this, locks
      ensures (State(), r) == Completed(old(State()), locks.cfg, id, b, rows, o)
    {
      var seatIds := RowSeatIds(rows);
      SaveStatus(id, Confirmed);
      CallTheater(BookSeats, b.showId, seatIds, o.theaterBook);
      if o.theaterBook.Some? {
        return Failure(RuntimeError("Failed to verify payment: " + o.theaterBook.value));
      }
      locks.ReleaseSeatsLockByIds(b.showId, seatIds, o.deleteFails);
      log := log + [LockRelease(SeatLocks.Keys(locks.cfg, b.showId, seatIds))];
      var sent := SendBookingSuccessEvent(id, b, o.successSend);
      if sent.Failure? {
        return Failure(RuntimeError("Failed to verify payment: " + JavaText(sent.error)));
      }
      r := Success(StatusResponse(id, b.(status := Confirmed), rows));
    }

    /** Any other terminal status, then the catch of PaymentFailedException that compensates again. */
    method RejectBooking(id: int, b: Booking, rows: seq<BookingSeat>, response: Payments.PaymentResponse, o: VerifyOracle)
      returns (r: Result<BookingStatusResponse, Thrown>)
      modifies this, locks
      ensures (State(), r) == PaymentRejected(old(State()), locks.cfg, id, b, rows, response, o)
    {
      var seatIds := RowSeatIds(rows);
      var keys := SeatLocks.Keys(locks.cfg, b.showId, seatIds);
      SaveStatus(id, Failed);
      ReleaseLocks(keys, o.deleteFails);
      CallTheater(ReleaseSeats, b.showId, seatIds, o.theaterRelease1);
      if o.theaterRelease1.Some? {
        return Failure(RuntimeError("Failed to verify payment: " + o.theaterRelease1.value));
      }
      SendBookingFailedEvent(id, b, response.message, o.failureSend1);
      var message := response.message.GetOr("Payment failed");
      SaveStatus(id, Failed);
      ReleaseLocks(keys, o.deleteFails);
      CallTheater(ReleaseSeats, b.showId, seatIds, o.theaterRelease2);
      if o.theaterRelease2.Some? {
        return Failure(RuntimeError(o.theaterRelease2.value));
      }
      SendBookingFailedEvent(id, b, Some(message), o.failureSend2);
      r := Failure(PaymentFailedError(message, response.paymentStatus, response.transactionId));
    }

    /**
      verifyAndCompleteBooking: an unknown booking is an error, a booking no longer PENDING
      is answered as it is, otherwise the payment is polled to a terminal status and the
      booking confirmed or failed.
    */
    method VerifyAndCompleteBooking(bookingId: int, o: VerifyOracle)
      returns (r: Result<BookingStatusResponse, Thrown>)
      requires pollCfg.maxAttempts <= |o.pollSteps|
      requires Valid()
      modifies this, locks
      ensures (State(), r) == VerifySpec(old(State()), locks.cfg, pollCfg, bookingId, o)
      ensures Valid()
    {
      VerifyProperties.VerifyKeepsIdsFresh(State(), locks.cfg, pollCfg, bookingId, o);
      if bookingId !in bookings {
        return Failure(RuntimeError("Booking not found: " + LockKeys.Decimal(bookingId)));
      }
      var b := bookings[bookingId];
      var rows := if bookingId in bookingSeats then bookingSeats[bookingId] else [];
      if b.status != Pending {
        return Success(StatusResponse(bookingId, b, rows));
      }
      var polled, calls, elapsedMs := Payments.PollPaymentStatus(pollCfg, o.pollSteps);
      if polled.Failure? {
        return Failure(RuntimeError("Failed to verify payment: " + polled.error.Message()));
      }
      if Payments.IsCompleted(polled.value.paymentStatus) {
        r := ConfirmBooking(bookingId, b, rows, o);
      } else {
        r := RejectBooking(bookingId, b, rows, polled.value, o);
      }
    }
  }
}
