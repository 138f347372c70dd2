/**
  What verifyAndCompleteBooking guarantees, stated over its specification function: an
  unknown or already processed booking is never touched, a polling error changes nothing,
  a COMPLETED payment confirms the booking and releases its locks, any other terminal
  status compensates twice, and the booking only ever leaves PENDING.
*/
module VerifyProperties {
  import opened Wrappers
  import opened Bookings
  import LockKeys
  import SeatLocks
  import Payments
  import opened EventDispatch
  import opened BookingSaga
  import SagaProperties

  /** An unknown booking id is reported and nothing changes. */
  lemma UnknownBookingIsReported(s: SagaState, cfg: LockKeys.LockConfig, pollCfg: Payments.PollingConfig, id: int, o: VerifyOracle)
    requires pollCfg.maxAttempts <= |o.pollSteps|
    requires id !in s.bookings
    ensures VerifySpec(s, cfg, pollCfg, id, o) == (s, Failure(RuntimeError("Booking not found: " + LockKeys.Decimal(id))))
  {
  }

  /**
    A booking that is no longer PENDING is answered from the tables as they are: no poll,
    no save, no release, no event, and the same answer whatever the outside world says.
  */
  lemma NotPendingIsReadOnly(s: SagaState, cfg: LockKeys.LockConfig, pollCfg: Payments.PollingConfig, id: int, o1: VerifyOracle, o2: VerifyOracle)
    requires pollCfg.maxAttempts <= |o1.pollSteps| && pollCfg.maxAttempts <= |o2.pollSteps|
    requires id in s.bookings && s.bookings[id].status != Pending
    ensures var r := VerifySpec(s, cfg, pollCfg, id, o1);
      && r.0 == s
      && r.1.Success? && r.1.value.bookingId == id && r.1.value.status == s.bookings[id].status
      && r == VerifySpec(s, cfg, pollCfg, id, o2)
  {
  }

  /** When polling ends in an error (timeout, repeated call failures, no attempt left), nothing changes and the booking stays PENDING. */
  lemma PollErrorKeepsPending(s: SagaState, cfg: LockKeys.LockConfig, pollCfg: Payments.PollingConfig, id: int, o: VerifyOracle)
    requires pollCfg.maxAttempts <= |o.pollSteps|
    requires id in s.bookings && s.bookings[id].status == Pending
    requires Payments.Poll(pollCfg, o.pollSteps).result.Failure?
    ensures VerifySpec(s, cfg, pollCfg, id, o)
      == (s, Failure(RuntimeError("Failed to verify payment: " + Payments.Poll(pollCfg, o.pollSteps).result.error.Message())))
  {
  }

  /**
    A COMPLETED payment: the booking is saved CONFIRMED, the theater books the seats, the
    locks regenerated from the booking-seat rows are released and one success event is
    delivered; the answer shows the booking CONFIRMED with its seats.
  */
  lemma CompletedConfirmsAndReleases(s: SagaState, cfg: LockKeys.LockConfig, id: int, b: Booking, rows: seq<BookingSeat>, o: VerifyOracle)
    requires id in s.bookings && o.theaterBook.None? && SendSuccess(o.successSend).Success?
    ensures var r := Completed(s, cfg, id, b, rows, o);
      var keys := SeatLocks.Keys(cfg, b.showId, RowSeatIds(rows));
      && s.log <= r.0.log
      && SagaProperties.Appended(s, r.0) == [
           SaveBooking(id, Confirmed),
           TheaterCall(BookSeats, b.showId, RowSeatIds(rows), true),
           LockRelease(keys),
           EventSent(SuccessNotice(id, b.userId, b.showId, b.totalCents), Some(SendSuccess(o.successSend).value))]
      && r.0.bookings == s.bookings[id := s.bookings[id].(status := Confirmed)]
      && r.0.store == SeatLocks.Release(s.store, keys, o.deleteFails)
      && r.0.bookingSeats == s.bookingSeats
      && r.1 == Success(BookingStatusResponse(id, b.userId, b.showId, b.totalCents, Confirmed, StoredSeatResponses(rows)))
  {
  }

  /**
    When the success event can be neither published nor sent by REST, the booking stays
    CONFIRMED and its locks are released, but the caller gets an error.
  */
  lemma CompletedButNotifyFails(s: SagaState, cfg: LockKeys.LockConfig, id: int, b: Booking, rows: seq<BookingSeat>, o: VerifyOracle)
    requires id in s.bookings && o.theaterBook.None? && SendSuccess(o.successSend).Failure?
    ensures var r := Completed(s, cfg, id, b, rows, o);
      && r.0.bookings == s.bookings[id := s.bookings[id].(status := Confirmed)]
      && r.0.store == SeatLocks.Release(s.store, SeatLocks.Keys(cfg, b.showId, RowSeatIds(rows)), o.deleteFails)
      && r.1 == Failure(RuntimeError("Failed to verify payment: " + JavaText(SendSuccess(o.successSend).error)))
  {
  }

  /** When the theater refuses to book the seats, the booking has been saved CONFIRMED but its locks are kept and no event is sent. */
  lemma BookFailureKeepsLocks(s: SagaState, cfg: LockKeys.LockConfig, id: int, b: Booking, rows: seq<BookingSeat>, o: VerifyOracle)
    requires id in s.bookings && o.theaterBook.Some?
    ensures var r := Completed(s, cfg, id, b, rows, o);
      && s.log <= r.0.log
      && SagaProperties.Appended(s, r.0) == [SaveBooking(id, Confirmed), TheaterCall(BookSeats, b.showId, RowSeatIds(rows), false)]
      && r.0.store == s.store
      && r.0.bookings == s.bookings[id := s.bookings[id].(status := Confirmed)]
      && r.1 == Failure(RuntimeError("Failed to verify payment: " + o.theaterBook.value))
  {
  }

  /**
    Any other terminal status is compensated twice: once in the branch itself (with the
    payment's message as the event reason) and again in the catch of PaymentFailedException
    (with the exception's message). The caller gets that exception, whose message falls back
    to "Payment failed"; the store ends as after one release.
  */
  lemma PaymentRejectedCompensatesTwice(s: SagaState, cfg: LockKeys.LockConfig, id: int, b: Booking, rows: seq<BookingSeat>,
                                        response: Payments.PaymentResponse, o: VerifyOracle)
    requires id in s.bookings && o.theaterRelease1.None? && o.theaterRelease2.None?
    ensures var r := PaymentRejected(s, cfg, id, b, rows, response, o);
      var seatIds := RowSeatIds(rows);
      var keys := SeatLocks.Keys(cfg, b.showId, seatIds);
      var message := response.message.GetOr("Payment failed");
      && s.log <= r.0.log
      && SagaProperties.Appended(s, r.0)[..4] == [
           SaveBooking(id, Failed),
           LockRelease(keys),
           TheaterCall(ReleaseSeats, b.showId, seatIds, true),
           EventSent(FailureNoticeFor(id, b, response.message), SendFailure(o.failureSend1))]
      && SagaProperties.Appended(s, r.0)[4..] == [
           SaveBooking(id, Failed),
           LockRelease(keys),
           TheaterCall(ReleaseSeats, b.showId, seatIds, true),
           EventSent(FailureNoticeFor(id, b, Some(message)), SendFailure(o.failureSend2))]
      && r.0.bookings == s.bookings[id := s.bookings[id].(status := Failed)]
      && r.0.store == SeatLocks.Release(s.store, keys, o.deleteFails)
      && r.1 == Failure(PaymentFailedError(message, response.paymentStatus, response.transactionId))
  {
    var seatIds := RowSeatIds(rows);
    var keys := SeatLocks.Keys(cfg, b.showId, seatIds);
    var s1 := SetStatus(s, id, Failed);
    var s2 := ReleaseKeys(s1, keys, o.deleteFails);
    var s3 := Theater(s2, ReleaseSeats, b.showId, seatIds, o.theaterRelease1);
    var s4 := SendFailureEvent(s3, id, b, response.message, o.failureSend1);
    var s5 := SetStatus(s4, id, Failed);
    var s6 := ReleaseKeys(s5, keys, o.deleteFails);
    SeatLocks.ReleaseTwice(s.store, keys, o.deleteFails);
    assert s6.store == s2.store;
  }

  /** A payment that is polled to a terminal status other than COMPLETED is FAILED, ignoring case: only those two statuses end the polling. */
  lemma RejectedMeansFailedStatus(pollCfg: Payments.PollingConfig, steps: seq<Payments.PollStep>)
    requires pollCfg.maxAttempts <= |steps|
    requires Payments.Poll(pollCfg, steps).result.Success?
    requires !Payments.IsCompleted(Payments.Poll(pollCfg, steps).result.value.paymentStatus)
    ensures Payments.EqualsIgnoreCase("FAILED", Payments.Poll(pollCfg, steps).result.value.paymentStatus)
  {
    Payments.PollReturnsTerminal(pollCfg, steps, 0, 0);
  }

  /** The status a verification may leave a PENDING booking in. */
  predicate MovedFromPending(before: map<int, Booking>, after: map<int, Booking>, id: int) {
    && id in before && before[id].status == Pending
    && (after == before[id := before[id].(status := Confirmed)] || after == before[id := before[id].(status := Failed)])
  }

  /**
    The booking status machine on the verification side: a call changes at most the one
    booking it names, only from PENDING, and only to CONFIRMED or FAILED; it never adds or
    removes a booking or a booking-seat row and never hands out a new id.
  */
  lemma VerifyStatusMachine(s: SagaState, cfg: LockKeys.LockConfig, pollCfg: Payments.PollingConfig, id: int, o: VerifyOracle)
    requires pollCfg.maxAttempts <= |o.pollSteps|
    ensures var r := VerifySpec(s, cfg, pollCfg, id, o);
      && (r.0.bookings == s.bookings || MovedFromPending(s.bookings, r.0.bookings, id))
      && r.0.bookingSeats == s.bookingSeats
      && r.0.nextBookingId == s.nextBookingId
  {
    if id in s.bookings && s.bookings[id].status == Pending {
      var b := s.bookings[id];
      var rows := if id in s.bookingSeats then s.bookingSeats[id] else [];
      var poll := Payments.Poll(pollCfg, o.pollSteps).result;
      if poll.Success? {
        if Payments.IsCompleted(poll.value.paymentStatus) {
          assert VerifySpec(s, cfg, pollCfg, id, o) == Completed(s, cfg, id, b, rows, o);
          CompletedConfirms(s, cfg, id, b, rows, o);
        } else {
          assert VerifySpec(s, cfg, pollCfg, id, o) == PaymentRejected(s, cfg, id, b, rows, poll.value, o);
          RejectedFails(s, cfg, id, b, rows, poll.value, o);
        }
      }
    }
  }

  /** verifyAndCompleteBooking keeps the id sequence ahead of every stored row. */
  lemma VerifyKeepsIdsFresh(s: SagaState, cfg: LockKeys.LockConfig, pollCfg: Payments.PollingConfig, id: int, o: VerifyOracle)
    requires pollCfg.maxAttempts <= |o.pollSteps|
    requires FreshIds(s)
    ensures var r := VerifySpec(s, cfg, pollCfg, id, o);
      && FreshIds(r.0)
      && r.0.bookings.Keys == s.bookings.Keys
  {
    VerifyStatusMachine(s, cfg, pollCfg, id, o);
  }

  /** Every exit of the COMPLETED branch has saved the booking CONFIRMED. */
  lemma CompletedConfirms(s: SagaState, cfg: LockKeys.LockConfig, id: int, b: Booking, rows: seq<BookingSeat>, o: VerifyOracle)
    requires id in s.bookings
    ensures var r := Completed(s, cfg, id, b, rows, o);
      && r.0.bookings == s.bookings[id := s.bookings[id].(status := Confirmed)]
      && r.0.bookingSeats == s.bookingSeats && r.0.nextBookingId == s.nextBookingId
  {
  }

  /** Every exit of the rejected branch has saved the booking FAILED. */
  lemma RejectedFails(s: SagaState, cfg: LockKeys.LockConfig, id: int, b: Booking, rows: seq<BookingSeat>,
                      response: Payments.PaymentResponse, o: VerifyOracle)
    requires id in s.bookings
    ensures var r := PaymentRejected(s, cfg, id, b, rows, response, o);
      && r.0.bookings == s.bookings[id := s.bookings[id].(status := Failed)]
      && r.0.bookingSeats == s.bookingSeats && r.0.nextBookingId == s.nextBookingId
  {
    var s1 := SetStatus(s, id, Failed);
    assert s1.bookings[id := s1.bookings[id].(status := Failed)] == s1.bookings;
  }

  /**
    Verification is idempotent once it has decided: a second call after the first moved the
    booking out of PENDING changes nothing and answers from the tables.
  */
  lemma SecondVerifyChangesNothing(s: SagaState, cfg: LockKeys.LockConfig, pollCfg: Payments.PollingConfig, id: int, o1: VerifyOracle, o2: VerifyOracle)
    requires pollCfg.maxAttempts <= |o1.pollSteps| && pollCfg.maxAttempts <= |o2.pollSteps|
    requires VerifySpec(s, cfg, pollCfg, id, o1).0.bookings != s.bookings
    ensures var t := VerifySpec(s, cfg, pollCfg, id, o1).0;
      VerifySpec(t, cfg, pollCfg, id, o2).0 == t
  {
    var t := VerifySpec(s, cfg, pollCfg, id, o1).0;
    VerifyStatusMachine(s, cfg, pollCfg, id, o1);
    assert id in t.bookings && t.bookings[id].status != Pending;
    NotPendingIsReadOnly(t, cfg, pollCfg, id, o2, o2);
  }
}
