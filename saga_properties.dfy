/**
  What the booking saga guarantees, stated over the specification functions: the effects
  of each exit path of createBooking and verifyAndCompleteBooking, in order, and the
  booking status machine PENDING -> CONFIRMED | FAILED.
*/
module SagaProperties {
  import opened Wrappers
  import opened Bookings
  import LockKeys
  import SeatLocks
  import Payments
  import opened EventDispatch
  import opened BookingSaga

  /** The effects a call appended to the log. */
  function Appended(before: SagaState, after: SagaState): seq<Action>
    requires before.log <= after.log
  {
    after.log[|before.log|..]
  }

  /**
    Seat verification comes first: when it fails (or finds no seat) the only effect is the
    verification call itself; no booking is saved and no lock is touched.
  */
  lemma VerifyFailureTouchesNothing(s: SagaState, cfg: LockKeys.LockConfig, userId: int, showId: int, requested: seq<int>, o: CreateOracle)
    requires VerifiedSeats(o.verifyReply).Failure?
    ensures var r := CreateSpec(s, cfg, userId, showId, requested, o);
      && r.0 == s.(log := s.log + [TheaterCall(VerifySeats, showId, requested, false)])
      && r.1 == Failure(RuntimeError(VerifiedSeats(o.verifyReply).error))
  {
  }

  /** The state after the seats are verified and the new booking is saved PENDING. */
  function Saved(s: SagaState, userId: int, showId: int, requested: seq<int>, seats: seq<ValidSeat>): SagaState {
    var id := s.nextBookingId;
    s.(bookings := s.bookings[id := Booking(userId, showId, TotalAmount(seats), Pending)],
       nextBookingId := id + 1,
       log := s.log + [TheaterCall(VerifySeats, showId, requested, true), SaveBooking(id, Pending)])
  }

  /** With verified seats, createBooking saves the booking PENDING with the seats' total, then asks for their locks in order, owned by the new booking. */
  lemma CreateSavesThenLocks(s: SagaState, cfg: LockKeys.LockConfig, userId: int, showId: int, requested: seq<int>, o: CreateOracle)
    requires VerifiedSeats(o.verifyReply).Success?
    ensures var seats := o.verifyReply.value;
      var id := s.nextBookingId;
      CreateSpec(s, cfg, userId, showId, requested, o)
        == LockedOrFailed(Saved(s, userId, showId, requested, seats), id, Booking(userId, showId, TotalAmount(seats), Pending), seats,
                          SeatLocks.Acquire(s.store, cfg, showId, SeatIdsOf(seats), id, o.lockFaultAt, o.deleteFails), o)
  {
    var id := s.nextBookingId;
    assert s.log + [TheaterCall(VerifySeats, showId, requested, true)] + [SaveBooking(id, Pending)]
        == s.log + [TheaterCall(VerifySeats, showId, requested, true), SaveBooking(id, Pending)];
  }

  /**
    On a lock conflict (or a lock-store failure) the booking becomes FAILED, one failure
    event "Seats no longer available" is sent and the SeatLockException reaches the caller;
    neither the locks nor the theater seats are released.
  */
  lemma LockFailureOnlyFails(s: SagaState, id: int, b: Booking, seats: seq<ValidSeat>, a: SeatLocks.Acquisition, o: CreateOracle)
    requires a.result.Failure? && id in s.bookings
    ensures var r := LockedOrFailed(s, id, b, seats, a, o);
      && s.log <= r.0.log
      && Appended(s, r.0) == [SaveBooking(id, Failed), EventSent(FailureNoticeFor(id, b, Some("Seats no longer available")), SendFailure(o.failureSend1))]
      && r.0.bookings == s.bookings[id := s.bookings[id].(status := Failed)]
      && r.0.store == a.store
      && r.1 == Failure(SeatLockError(a.result.error.Message()))
  {
  }

  /** Once every lock is taken, the saga goes on to the theater lock with the acquired keys. */
  lemma LockSuccessGoesOn(s: SagaState, id: int, b: Booking, seats: seq<ValidSeat>, a: SeatLocks.Acquisition, o: CreateOracle)
    requires a.result.Success?
    ensures LockedOrFailed(s, id, b, seats, a, o) == AfterLocks(s.(store := a.store), id, b, seats, a.result.value, o)
  {
  }

  /** So with a working delete, a createBooking that meets a lock conflict leaves the lock store exactly as it found it. */
  lemma LockConflictKeepsStore(s: SagaState, cfg: LockKeys.LockConfig, userId: int, showId: int, requested: seq<int>, o: CreateOracle)
    requires VerifiedSeats(o.verifyReply).Success? && !o.deleteFails
    requires SeatLocks.Acquire(s.store, cfg, showId, SeatIdsOf(o.verifyReply.value), s.nextBookingId, o.lockFaultAt, false).result.Failure?
    ensures var r := CreateSpec(s, cfg, userId, showId, requested, o);
      r.0.store == s.store && r.0.bookings[s.nextBookingId].status == Failed && r.1.Failure? && r.1.error.SeatLockError?
  {
    var seats := o.verifyReply.value;
    var a := SeatLocks.Acquire(s.store, cfg, showId, SeatIdsOf(seats), s.nextBookingId, o.lockFaultAt, false);
    CreateSavesThenLocks(s, cfg, userId, showId, requested, o);
    SeatLocks.AcquireRollsBack(s.store, cfg, showId, SeatIdsOf(seats), s.nextBookingId, o.lockFaultAt, false);
    LockFailureOnlyFails(Saved(s, userId, showId, requested, seats), s.nextBookingId, Booking(userId, showId, TotalAmount(seats), Pending), seats, a, o);
  }

  /**
    When the theater locks the seats and the checkout session is created, the booking stays
    PENDING with its locks held, the booking-seat rows are saved, and the response carries
    the session, the booking's total and one seat response per verified seat.
  */
  lemma CheckoutCreatedKeepsLocks(s: SagaState, id: int, b: Booking, seats: seq<ValidSeat>, keys: seq<string>, o: CreateOracle)
    requires o.theaterLock.None? && o.checkout.Success?
    ensures var r := AfterLocks(s, id, b, seats, keys, o);
      && s.log <= r.0.log
      && Appended(s, r.0) == [TheaterCall(LockSeats, b.showId, SeatIdsOf(seats), true), SaveSeats(id, |seats|)]
      && r.0.store == s.store && r.0.bookings == s.bookings && r.0.nextBookingId == s.nextBookingId
      && r.0.bookingSeats == s.bookingSeats[id := BookingSeatsFor(id, seats)]
      && r.1.Success?
      && r.1.value.bookingId == id && r.1.value.status == Pending && r.1.value.totalCents == b.totalCents
      && r.1.value.sessionId == o.checkout.value.sessionId && r.1.value.paymentUrl == o.checkout.value.paymentUrl
      && r.1.value.expiresAt == o.checkout.value.expiresAt
      && |r.1.value.seats| == |seats|
      && forall k :: 0 <= k < |seats| ==> r.1.value.seats[k].seatId == seats[k].seatId
  {
    SeatResponsesOfCreatedRowsSucceed(id, seats);
  }

  /**
    A theater lock failure is handled by the outer catch: locks and theater seats are
    released once, the booking becomes FAILED, one failure event carries the theater's
    message, and the caller gets the generic system error.
  */
  lemma TheaterLockFailureCompensatesOnce(s: SagaState, id: int, b: Booking, seats: seq<ValidSeat>, keys: seq<string>, o: CreateOracle)
    requires o.theaterLock.Some? && o.theaterRelease1.None? && |keys| > 0 && id in s.bookings
    ensures var r := AfterLocks(s, id, b, seats, keys, o);
      var seatIds := SeatIdsOf(seats);
      && s.log <= r.0.log
      && Appended(s, r.0) == [
           TheaterCall(LockSeats, b.showId, seatIds, false),
           LockRelease(keys),
           TheaterCall(ReleaseSeats, b.showId, seatIds, true),
           SaveBooking(id, Failed),
           EventSent(FailureNoticeFor(id, b, o.theaterLock), SendFailure(o.failureSend1))]
      && r.0.store == SeatLocks.Release(s.store, keys, o.deleteFails)
      && r.0.bookings == s.bookings[id := s.bookings[id].(status := Failed)]
      && r.1 == Failure(RuntimeError(SystemErrorMessage))
  {
  }

  /** The inner catch for checkout creation, with every theater release answered: both compensations run. */
  lemma CheckoutFailedCompensatesTwice(s: SagaState, id: int, b: Booking, seatIds: seq<int>, keys: seq<string>, message: string, o: CreateOracle)
    requires o.theaterRelease1.None? && o.theaterRelease2.None? && |keys| > 0 && id in s.bookings
    ensures var r := CheckoutFailed(s, id, b, seatIds, keys, message, o);
      && s.log <= r.0.log
      && Appended(s, r.0) == [
           SaveBooking(id, Failed),
           LockRelease(keys),
           TheaterCall(ReleaseSeats, b.showId, seatIds, true),
           EventSent(FailureNoticeFor(id, b, Some("Failed to create payment session")), SendFailure(o.failureSend1)),
           LockRelease(keys),
           TheaterCall(ReleaseSeats, b.showId, seatIds, true),
           SaveBooking(id, Failed),
           EventSent(FailureNoticeFor(id, b, Some("Failed to create payment session: " + message)), SendFailure(o.failureSend2))]
      && r.0.store == SeatLocks.Release(s.store, keys, o.deleteFails)
      && r.0.bookings == s.bookings[id := s.bookings[id].(status := Failed)]
      && r.1 == Failure(RuntimeError(SystemErrorMessage))
  {
    var s1 := SetStatus(s, id, Failed);
    var s2 := ReleaseKeys(s1, keys, o.deleteFails);
    var s3 := Theater(s2, ReleaseSeats, b.showId, seatIds, None);
    var s4 := SendFailureEvent(s3, id, b, Some("Failed to create payment session"), o.failureSend1);
    var s5 := ReleaseKeys(s4, keys, o.deleteFails);
    var s6 := Theater(s5, ReleaseSeats, b.showId, seatIds, None);
    var s7 := SetStatus(s6, id, Failed);
    var r := CheckoutFailed(s, id, b, seatIds, keys, message, o);
    assert r.0 == SendFailureEvent(s7, id, b, Some("Failed to create payment session: " + message), o.failureSend2);
    SeatLocks.ReleaseTwice(s.store, keys, o.deleteFails);
    assert r.0.store == SeatLocks.Release(s.store, keys, o.deleteFails);
    assert s7.bookings == s1.bookings;
  }

  /** The state once the theater has locked the seats and the booking-seat rows are saved. */
  function SeatsSaved(s: SagaState, id: int, b: Booking, seats: seq<ValidSeat>): SagaState {
    s.(bookingSeats := s.bookingSeats[id := BookingSeatsFor(id, seats)],
       log := s.log + [TheaterCall(LockSeats, b.showId, SeatIdsOf(seats), true), SaveSeats(id, |seats|)])
  }

  /**
    A failed checkout goes to the inner catch with the wrapped message "Failed to create
    checkout session: ...", after the theater lock and the booking-seat rows; the inner catch
    then compensates twice (CheckoutFailedCompensatesTwice).
  */
  lemma CheckoutFailureGoesToInnerCatch(s: SagaState, id: int, b: Booking, seats: seq<ValidSeat>, keys: seq<string>, o: CreateOracle)
    requires o.theaterLock.None? && o.checkout.Failure?
    ensures AfterLocks(s, id, b, seats, keys, o)
      == CheckoutFailed(SeatsSaved(s, id, b, seats), id, b, SeatIdsOf(seats), keys, "Failed to create checkout session: " + o.checkout.error, o)
  {
    var s1 := Theater(s, LockSeats, b.showId, SeatIdsOf(seats), None);
    assert s1.log + [SaveSeats(id, |seats|)] == SeatsSaved(s, id, b, seats).log;
  }

  /**
    When the theater release fails inside the inner catch, the "Failed to create payment
    session" event is never sent: the outer catch takes over, and if the theater fails
    again the caller gets the raw theater error and no failure event is sent at all, though
    the booking is FAILED.
  */
  lemma ReleaseFailureSkipsEvents(s: SagaState, id: int, b: Booking, seats: seq<ValidSeat>, keys: seq<string>, o: CreateOracle)
    requires o.theaterLock.None? && o.checkout.Failure?
    requires o.theaterRelease1.Some? && o.theaterRelease2.Some? && |keys| > 0 && id in s.bookings
    ensures var r := AfterLocks(s, id, b, seats, keys, o);
      && s.log <= r.0.log
      && (forall k :: 0 <= k < |Appended(s, r.0)| ==> !Appended(s, r.0)[k].EventSent?)
      && r.0.bookings == s.bookings[id := s.bookings[id].(status := Failed)]
      && r.1 == Failure(RuntimeError(o.theaterRelease2.value))
  {
  }

  /** The bookings table after the given booking is saved FAILED. */
  function FailedAt(bookings: map<int, Booking>, id: int): map<int, Booking>
    requires id in bookings
  {
    bookings[id := bookings[id].(status := Failed)]
  }

  lemma OuterCatchFailsAtMost(s: SagaState, id: int, b: Booking, seatIds: seq<int>, keys: seq<string>, reason: Option<string>,
                              release: Option<string>, send: SendOutcome, deleteFails: bool)
    requires id in s.bookings
    ensures var r := OuterCatch(s, id, b, seatIds, keys, reason, release, send, deleteFails);
      && (r.0.bookings == s.bookings || r.0.bookings == FailedAt(s.bookings, id))
      && r.0.bookingSeats == s.bookingSeats && r.0.nextBookingId == s.nextBookingId
  {
  }

  lemma CheckoutFailedFails(s: SagaState, id: int, b: Booking, seatIds: seq<int>, keys: seq<string>, message: string, o: CreateOracle)
    requires id in s.bookings
    ensures var r := CheckoutFailed(s, id, b, seatIds, keys, message, o);
      && r.0.bookings == FailedAt(s.bookings, id)
      && r.0.bookingSeats == s.bookingSeats && r.0.nextBookingId == s.nextBookingId
  {
    var s1 := SetStatus(s, id, Failed);
    var s2 := ReleaseKeys(s1, keys, o.deleteFails);
    var s3 := Theater(s2, ReleaseSeats, b.showId, seatIds, o.theaterRelease1);
    var s4 := SendFailureEvent(s3, id, b, Some("Failed to create payment session"), o.failureSend1);
    assert s3.bookings == s4.bookings == FailedAt(s.bookings, id);
    assert FailedAt(FailedAt(s.bookings, id), id) == FailedAt(s.bookings, id);
    if o.theaterRelease1.Some? {
      OuterCatchFailsAtMost(s3, id, b, seatIds, keys, o.theaterRelease1, o.theaterRelease2, o.failureSend1, o.deleteFails);
    } else {
      OuterCatchFailsAtMost(s4, id, b, seatIds, keys, Some("Failed to create payment session: " + message), o.theaterRelease2, o.failureSend2, o.deleteFails);
    }
  }

  /**
    Once the booking is saved, createBooking only touches its own booking: every other
    booking is unchanged, and this one ends PENDING (checkout created, or an error escaped
    before any status change) or FAILED; a successful call leaves it PENDING. Only its own
    booking-seat rows can be added, and no further id is handed out.
  */
  lemma CreateStatusMachine(s: SagaState, id: int, b: Booking, seats: seq<ValidSeat>, a: SeatLocks.Acquisition, o: CreateOracle)
    requires id in s.bookings && s.bookings[id].status == Pending
    ensures var r := LockedOrFailed(s, id, b, seats, a, o);
      && (r.0.bookings == s.bookings || r.0.bookings == FailedAt(s.bookings, id))
      && (r.1.Success? ==> r.0.bookings == s.bookings)
      && (r.0.bookingSeats == s.bookingSeats || r.0.bookingSeats == s.bookingSeats[id := BookingSeatsFor(id, seats)])
      && r.0.nextBookingId == s.nextBookingId
  {
    if a.result.Success? {
      var keys := a.result.value;
      var s1 := s.(store := a.store);
      var seatIds := SeatIdsOf(seats);
      var s2 := Theater(s1, LockSeats, b.showId, seatIds, o.theaterLock);
      if o.theaterLock.Some? {
        OuterCatchFailsAtMost(s2, id, b, seatIds, keys, o.theaterLock, o.theaterRelease1, o.failureSend1, o.deleteFails);
      } else {
        var rows := BookingSeatsFor(id, seats);
        var s3 := s2.(bookingSeats := s2.bookingSeats[id := rows], log := s2.log + [SaveSeats(id, |rows|)]);
        CheckoutFailedFails(s3, id, b, seatIds, keys, "Failed to create checkout session: " + (if o.checkout.Failure? then o.checkout.error else ""), o);
        if o.checkout.Success? {
          var m := MapToSeatResponses(rows, seats);
          if m.Failure? {
            CheckoutFailedFails(s3, id, b, seatIds, keys, m.error, o);
          }
        }
      }
    }
  }

  /**
    With the id sequence ahead of the stored rows, createBooking never overwrites a booking:
    every booking already stored keeps its value; the new id is stored exactly when the seats
    were verified, and then ends PENDING or FAILED (PENDING when the call succeeds); the id
    sequence advances by one per saved booking and stays ahead of every row.
  */
  lemma CreateKeepsOtherBookings(s: SagaState, cfg: LockKeys.LockConfig, userId: int, showId: int, requested: seq<int>, o: CreateOracle)
    requires FreshIds(s)
    ensures var r := CreateSpec(s, cfg, userId, showId, requested, o);
      var id := s.nextBookingId;
      && id !in s.bookings
      && FreshIds(r.0)
      && (forall k :: k in s.bookings ==> k in r.0.bookings && r.0.bookings[k] == s.bookings[k])
      && r.0.bookings.Keys == (if VerifiedSeats(o.verifyReply).Success? then s.bookings.Keys + {id} else s.bookings.Keys)
      && r.0.nextBookingId == (if VerifiedSeats(o.verifyReply).Success? then id + 1 else id)
      && (id in r.0.bookings ==> r.0.bookings[id].status == Pending || r.0.bookings[id].status == Failed)
      && (r.1.Success? ==> id in r.0.bookings && r.0.bookings[id].status == Pending)
  {
    var id := s.nextBookingId;
    if VerifiedSeats(o.verifyReply).Success? {
      var seats := o.verifyReply.value;
      var saved := Saved(s, userId, showId, requested, seats);
      var b := Booking(userId, showId, TotalAmount(seats), Pending);
      var a := SeatLocks.Acquire(s.store, cfg, showId, SeatIdsOf(seats), id, o.lockFaultAt, o.deleteFails);
      CreateSavesThenLocks(s, cfg, userId, showId, requested, o);
      CreateStatusMachine(saved, id, b, seats, a, o);
    }
  }

  /** A successful createBooking leaves the new booking PENDING with its rows saved and the store as the acquisition left it. */
  lemma CreateSucceeds(s: SagaState, cfg: LockKeys.LockConfig, userId: int, showId: int, requested: seq<int>, o: CreateOracle)
    requires VerifiedSeats(o.verifyReply).Success? && o.theaterLock.None? && o.checkout.Success?
    requires SeatLocks.Acquire(s.store, cfg, showId, SeatIdsOf(o.verifyReply.value), s.nextBookingId, o.lockFaultAt, o.deleteFails).result.Success?
    ensures var seats := o.verifyReply.value;
      var r := CreateSpec(s, cfg, userId, showId, requested, o);
      && r.1.Success?
      && r.0.store == SeatLocks.Acquire(s.store, cfg, showId, SeatIdsOf(seats), s.nextBookingId, o.lockFaultAt, o.deleteFails).store
      && r.0.bookings == s.bookings[s.nextBookingId := Booking(userId, showId, TotalAmount(seats), Pending)]
      && r.0.bookingSeats == s.bookingSeats[s.nextBookingId := BookingSeatsFor(s.nextBookingId, seats)]
      && r.0.nextBookingId == s.nextBookingId + 1
  {
    var seats := o.verifyReply.value;
    var id := s.nextBookingId;
    var a := SeatLocks.Acquire(s.store, cfg, showId, SeatIdsOf(seats), id, o.lockFaultAt, o.deleteFails);
    var saved := Saved(s, userId, showId, requested, seats);
    var b := Booking(userId, showId, TotalAmount(seats), Pending);
    var locked := saved.(store := a.store);
    assert CreateSpec(s, cfg, userId, showId, requested, o) == AfterLocks(locked, id, b, seats, a.result.value, o) by {
      CreateSavesThenLocks(s, cfg, userId, showId, requested, o);
      LockSuccessGoesOn(saved, id, b, seats, a, o);
    }
    CheckoutCreatedKeepsLocks(locked, id, b, seats, a.result.value, o);
  }

  /** A COMPLETED payment with the seats booked confirms the booking and releases the keys regenerated from its rows. */
  lemma CompletedReleasesRowKeys(t: SagaState, cfg: LockKeys.LockConfig, pollCfg: Payments.PollingConfig, id: int, o: VerifyOracle)
    requires pollCfg.maxAttempts <= |o.pollSteps|
    requires id in t.bookings && t.bookings[id].status == Pending && id in t.bookingSeats
    requires Payments.Poll(pollCfg, o.pollSteps).result.Success?
    requires Payments.IsCompleted(Payments.Poll(pollCfg, o.pollSteps).result.value.paymentStatus)
    requires o.theaterBook.None?
    ensures var r := VerifySpec(t, cfg, pollCfg, id, o);
      && r.0.store == SeatLocks.Release(t.store, SeatLocks.Keys(cfg, t.bookings[id].showId, RowSeatIds(t.bookingSeats[id])), o.deleteFails)
      && r.0.bookings == t.bookings[id := t.bookings[id].(status := Confirmed)]
  {
  }

  /**
    Regenerating the keys from the stored booking-seat rows gives exactly the keys taken at
    creation, so a successful createBooking followed by a COMPLETED payment (with a working
    delete) gives the lock store back as it was before the booking.
  */
  lemma CreateThenCompleteRestoresStore(s: SagaState, cfg: LockKeys.LockConfig, userId: int, showId: int, requested: seq<int>,
                                        co: CreateOracle, pollCfg: Payments.PollingConfig, vo: VerifyOracle)
    requires VerifiedSeats(co.verifyReply).Success? && co.theaterLock.None? && co.checkout.Success?
    requires SeatLocks.Acquire(s.store, cfg, showId, SeatIdsOf(co.verifyReply.value), s.nextBookingId, co.lockFaultAt, co.deleteFails).result.Success?
    requires pollCfg.maxAttempts <= |vo.pollSteps|
    requires Payments.Poll(pollCfg, vo.pollSteps).result.Success?
    requires Payments.IsCompleted(Payments.Poll(pollCfg, vo.pollSteps).result.value.paymentStatus)
    requires vo.theaterBook.None? && !vo.deleteFails
    ensures var created := CreateSpec(s, cfg, userId, showId, requested, co);
      created.1.Success? &&
      var verified := VerifySpec(created.0, cfg, pollCfg, s.nextBookingId, vo);
      verified.0.store == s.store && verified.0.bookings[s.nextBookingId].status == Confirmed
  {
    var seats := co.verifyReply.value;
    var id := s.nextBookingId;
    CreateSucceeds(s, cfg, userId, showId, requested, co);
    var created := CreateSpec(s, cfg, userId, showId, requested, co);
    CompletedReleasesRowKeys(created.0, cfg, pollCfg, id, vo);
    RowSeatIdsOfBookingSeats(id, seats);
    SeatLocks.AcquireThenReleaseRestores(s.store, cfg, showId, SeatIdsOf(seats), id, co.lockFaultAt, co.deleteFails);
  }
}
