# Booking service saga, seat locks and dead-letter queue

A Dafny model of the core of the `bookticket` booking service:

- **Seat locks.** A Redis-backed all-or-nothing lock per seat (`RedisLockService`), with its
  key and owner-value formats (`RedisLockProperties`).
- **Booking saga.** `createBooking` verifies the seats and saves a PENDING booking. It then
  locks the seats in the store and at the theater, saves the booking-seat rows and opens a
  checkout session. `verifyAndCompleteBooking` polls the payment until it reaches a terminal
  status and then confirms or fails the booking. Every failure runs the service's own
  compensation: lock release, theater release, FAILED status and a failure event. Where
  the Java try/catch nesting runs that compensation twice, the model runs it twice too.
- **Payment polling.** A bounded loop with an attempt counter and a timeout checked on a
  logical clock (`PaymentService.pollPaymentStatus`), plus the status classification of
  `processPayment`.
- **Dead-letter queue.** The failed-event table and its record defaults (`FailedEvent`,
  `DeadLetterQueueService`), the scheduled retry sweep (`DLQRetryScheduler`) and the
  statistics of `DLQAdminController`.

Stateful parts are classes over maps, and each method is proved equal to a pure
specification function:

- the lock store is `SeatLocks.RedisLockService`;
- the booking tables, the outside-effect log and the lock service are `Service.BookingService`;
- the failed-event table is `DeadLetter.DeadLetterQueueService`.

The properties the service promises are lemmas about those functions.

Every remote answer is an oracle parameter fixed before the call:
- the theater's verify, lock, release and book calls;
- the checkout session;
- each status check of the poll, with its duration;
- Kafka and REST delivery;
- a failing store call and a failing database save.

Amounts are integer cents. Timestamps are an integer `now`.

Modules, by file:
- `wrappers.dfy`: `Option` and `Result`.
- `lock_keys.dfy`: key formats and the decimal rendering of ids.
- `seat_locks.dfy`: the lock manager.
- `payments.dfy`: polling and payment classification.
- `bookings.dfy`: booking entities, totals, seat rows and responses.
- `event_dispatch.dfy`: the booking events, both the direct one-shot call and the declared
  three attempts followed by the dead-letter queue.
- `booking_saga.dfy`: the saga specification.
- `booking_service.dfy`: the service class.
- `saga_properties.dfy` and `verify_properties.dfy`: saga lemmas.
- `dead_letter.dfy`, `dlq_retry.dfy` and `dlq_admin.dfy`: the dead-letter queue.

## Model

| member | source | states |
|---|---|---|
| LockKeys.NatDecimal | src/main/java/com/bookticket/booking_service/configuration/RedisLockProperties.java:27-29 | the `%d` rendering of a natural number is non-empty and has two or more digits exactly from 10 upwards |
| LockKeys.NatDecimalDigits | src/main/java/com/bookticket/booking_service/configuration/RedisLockProperties.java:27-29 | every character of a natural number's decimal rendering is a digit |
| LockKeys.DecimalShape | src/main/java/com/bookticket/booking_service/configuration/RedisLockProperties.java:27-29 | a rendered id never contains ':' and starts with '-' exactly when negative |
| LockKeys.DecimalInjective | src/main/java/com/bookticket/booking_service/configuration/RedisLockProperties.java:27-29 | distinct ids render differently |
| LockKeys.SeatLockKeyInjective | src/main/java/com/bookticket/booking_service/configuration/RedisLockProperties.java:27-29 | for one key prefix, equal seat keys mean the same show and the same seat |
| LockKeys.BookingLockValueInjective | src/main/java/com/bookticket/booking_service/configuration/RedisLockProperties.java:35-37 | equal lock values mean the same owning booking |
| LockKeys.SeatLockKey | src/main/java/com/bookticket/booking_service/configuration/RedisLockProperties.java:27-29 | specification function: prefix, show id and seat id joined by colons; SeatLockKeyInjective states its meaning |
| LockKeys.BookingLockValue | src/main/java/com/bookticket/booking_service/configuration/RedisLockProperties.java:35-37 | specification function: the booking prefix followed by the booking id; BookingLockValueInjective states its meaning |
| SeatLocks.Keys | src/main/java/com/bookticket/booking_service/service/RedisLockService.java:116-118 | one key per requested seat |
| SeatLocks.KeysAt | src/main/java/com/bookticket/booking_service/service/RedisLockService.java:116-118 | the i-th key is the seat key of the i-th seat id, so keys regenerated from the same ids are the ones acquired |
| SeatLocks.FirstBlocked | src/main/java/com/bookticket/booking_service/service/RedisLockService.java:43-71 | the first seat whose key is held before the call or earlier in the same request; no seat before it is blocked |
| SeatLocks.NoneBlocked | src/main/java/com/bookticket/booking_service/service/RedisLockService.java:43-71 | the scan runs to the end exactly when no seat from the start position on is blocked |
| SeatLocks.Release | src/main/java/com/bookticket/booking_service/service/RedisLockService.java:94-107 | specification function: an empty list or a failing delete leaves the store, otherwise every listed key is deleted; ReleaseIgnoresOwner and ReleaseTwice state its meaning |
| SeatLocks.AcquireKeys | src/main/java/com/bookticket/booking_service/service/RedisLockService.java:42-86 | specification function: the acquisition loop stops at the first fault or blocked seat and rolls back what it took; AcquireSuccess and AcquireRollsBack state its meaning |
| SeatLocks.Acquire | src/main/java/com/bookticket/booking_service/service/RedisLockService.java:35-87 | specification function: acquireSeatsLock with the seat keys and the booking's lock value; AcquireSuccess, AcquireRollsBack and DuplicateSeatFails state its meaning |
| SeatLocks.AcquireSuccess | src/main/java/com/bookticket/booking_service/service/RedisLockService.java:39-76 | acquisition succeeds exactly when no key is blocked and no store call fails; then it returns the keys in request order, each absent before and now owned by the booking's lock value |
| SeatLocks.AcquireKeysSucceeds | src/main/java/com/bookticket/booking_service/service/RedisLockService.java:42-86 | the acquisition loop over given keys succeeds exactly when no key is blocked and no store call fails |
| SeatLocks.AcquireKeysTakesAll | src/main/java/com/bookticket/booking_service/service/RedisLockService.java:42-76 | a successful loop returns its keys, each absent before and now holding the booking's lock value |
| SeatLocks.AcquireRollsBack | src/main/java/com/bookticket/booking_service/service/RedisLockService.java:59-86 | keys held before the call keep their values; with a working delete, a failed acquisition leaves the store exactly as it was |
| SeatLocks.DuplicateSeatFails | src/main/java/com/bookticket/booking_service/service/RedisLockService.java:43-71 | a request naming one seat twice fails and, with a working delete, leaves no key behind |
| SeatLocks.RollbackRestores | src/main/java/com/bookticket/booking_service/service/RedisLockService.java:64-65 | deleting the keys taken in this call restores the earlier store |
| SeatLocks.ReleaseIgnoresOwner | src/main/java/com/bookticket/booking_service/service/RedisLockService.java:115-121 | with a working delete, every listed seat key is removed whichever booking owns it, and every unlisted key keeps its value |
| SeatLocks.AcquireThenReleaseRestores | src/main/java/com/bookticket/booking_service/service/RedisLockService.java:35-121 | releasing by the same show and seat ids undoes a successful acquisition |
| SeatLocks.ReleaseTwice | src/main/java/com/bookticket/booking_service/service/RedisLockService.java:94-107 | a second release of the same keys changes nothing more |
| SeatLocks.RedisLockService.SetIfAbsent | src/main/java/com/bookticket/booking_service/service/RedisLockService.java:47-53 | SET NX: sets the key and reports success exactly when it was absent |
| SeatLocks.RedisLockService.ReleaseSeatsLock | src/main/java/com/bookticket/booking_service/service/RedisLockService.java:94-107 | the store after release: unchanged for an empty list or a failing delete, else every listed key gone |
| SeatLocks.RedisLockService.ReleaseSeatsLockByIds | src/main/java/com/bookticket/booking_service/service/RedisLockService.java:115-121 | release of the keys generated from the show and seat ids |
| SeatLocks.RedisLockService.AcquireSeatsLock | src/main/java/com/bookticket/booking_service/service/RedisLockService.java:35-87 | the new store and the result are those of the acquisition specification |
| SeatLocks.RedisLockService.AcquireInOrder | src/main/java/com/bookticket/booking_service/service/RedisLockService.java:42-86 | the SET NX loop, with rollback at the first refusal or store error, matches the acquisition specification |
| SeatLocks.RedisLockService.IsSeatLocked | src/main/java/com/bookticket/booking_service/service/RedisLockService.java:130-134 | true exactly when the seat's key is present |
| SeatLocks.RedisLockService.GetSeatLockOwner | src/main/java/com/bookticket/booking_service/service/RedisLockService.java:143-146 | the stored owner value, or nothing for an absent key |
| Payments.PollPaymentStatus | src/main/java/com/bookticket/booking_service/service/PaymentService.java:194-264 | the loop's result, number of status checks and elapsed time are those of the poll specification |
| Payments.PollFrom | src/main/java/com/bookticket/booking_service/service/PaymentService.java:200-263 | specification function: the poll loop from a given attempt count and elapsed time; the Poll* lemmas state its meaning |
| Payments.Poll | src/main/java/com/bookticket/booking_service/service/PaymentService.java:194-264 | specification function: pollPaymentStatus from zero attempts and zero elapsed time; PollPaymentStatus is proved equal to it |
| Payments.EqualsIgnoreCase | src/main/java/com/bookticket/booking_service/service/PaymentService.java:219 | specification predicate: equal length and equal letters after ASCII upper-casing |
| Payments.PollCallsBounded | src/main/java/com/bookticket/booking_service/service/PaymentService.java:197-215 | the payment service is asked at most maxAttempts times |
| Payments.PollReturnsTerminal | src/main/java/com/bookticket/booking_service/service/PaymentService.java:219-229 | a returned response is COMPLETED or FAILED, ignoring case |
| Payments.PollCallErrorOnlyLast | src/main/java/com/bookticket/booking_service/service/PaymentService.java:241-256 | "failed after N attempts" happens only when the last allowed check throws, with N the number of attempts |
| Payments.PollNonTerminalExhausts | src/main/java/com/bookticket/booking_service/service/PaymentService.java:231-263 | when every check answers a non-terminal status, polling ends at the attempt limit or the timeout |
| Payments.PollTimeBounded | src/main/java/com/bookticket/booking_service/service/PaymentService.java:203-235 | elapsed time never passes the timeout by more than one check and one sleep |
| Payments.NoAttemptsConfigured | src/main/java/com/bookticket/booking_service/service/PaymentService.java:200-263 | with maxAttempts of 0 or less, no check is made and the result is "max polling attempts reached" |
| Payments.TimeoutBeforeCall | src/main/java/com/bookticket/booking_service/service/PaymentService.java:203-209 | once the elapsed time exceeds timeoutMs, the next attempt fails with a timeout without a call |
| Payments.ProcessPayment | src/main/java/com/bookticket/booking_service/service/PaymentService.java:37-105 | success exactly for a SUCCESS body (ignoring case), returning it; a null body fails with status FAILED; another status fails with its message or "Payment failed" |
| Bookings.TotalAmountAppend | src/main/java/com/bookticket/booking_service/service/BookingService.java:215-219 | the total is additive over concatenation |
| Bookings.TotalAmountBounds | src/main/java/com/bookticket/booking_service/service/BookingService.java:215-219 | n seats priced within [lo, hi] total within [n*lo, n*hi] |
| Bookings.TotalAmount | src/main/java/com/bookticket/booking_service/service/BookingService.java:215-219 | specification function: the sum of the verified seat prices; TotalAmountAppend and TotalAmountBounds state its meaning |
| Bookings.CreateBookingSeat | src/main/java/com/bookticket/booking_service/service/BookingService.java:183-192 | specification function: a row copying the verified seat's id, number, type and price under the booking id |
| Bookings.MapToSeatResponses | src/main/java/com/bookticket/booking_service/service/BookingService.java:194-213 | specification function: each row looked up by seat id among the verified seats, failing on a missing one; SeatResponsesOfOwnRows and SeatResponsesOfCreatedRows state its meaning |
| Bookings.SeatIdsOfAt | src/main/java/com/bookticket/booking_service/service/BookingService.java:72-74 | the k-th id of the verified seats is the k-th seat's id |
| Bookings.BookingSeatsFor | src/main/java/com/bookticket/booking_service/service/BookingService.java:183-192 | specification function: one row per verified seat, in order, carrying the booking id and the seat's id, number, type and price; its meaning is stated by RowSeatIdsOfBookingSeats and SeatResponsesOfCreatedRows |
| Bookings.RowSeatIds | src/main/java/com/bookticket/booking_service/service/BookingService.java:236-240 | specification function: the seat ids of stored rows, in row order; RowSeatIdsOfBookingSeats shows they are the verified seat ids |
| Bookings.RowSeatIdsOfBookingSeats | src/main/java/com/bookticket/booking_service/service/BookingService.java:236-240 | the ids read back from saved rows are the ids that were locked |
| Bookings.FindFirst | src/main/java/com/bookticket/booking_service/service/BookingService.java:200-203 | the index of the first verified seat with that id, or none when no seat has it |
| Bookings.SeatResponsesOfOwnRows | src/main/java/com/bookticket/booking_service/service/BookingService.java:194-213 | when every row's seat is found, one response per row carrying the first matching seat's number, type and price |
| Bookings.SeatResponsesOfCreatedRowsSucceed | src/main/java/com/bookticket/booking_service/service/BookingService.java:194-213 | mapping the rows created from the verified seats never hits "Seat not found" |
| Bookings.SeatResponsesOfCreatedRows | src/main/java/com/bookticket/booking_service/service/BookingService.java:194-213 | with distinct verified seat ids, the create response's seats are exactly the verified seats in order, and equal the seats a later status query rebuilds from the stored rows |
| Bookings.StoredSeatResponses | src/main/java/com/bookticket/booking_service/service/BookingService.java:247-255 | specification function: the status response's seats, rebuilt from stored rows; SeatResponsesOfCreatedRows shows they equal the seats createBooking answered with |
| BookingSaga.VerifiedSeats | src/main/java/com/bookticket/booking_service/service/TheaterService.java:22-42 | verification succeeds exactly with a non-empty seat list |
| SagaProperties.VerifyFailureTouchesNothing | src/main/java/com/bookticket/booking_service/service/BookingService.java:61 | a failed verification only logs the verify call: no booking, no lock |
| SagaProperties.CreateSavesThenLocks | src/main/java/com/bookticket/booking_service/service/BookingService.java:61-85 | after verification the booking is saved PENDING with the seats' total, then locks are requested for the verified ids, owned by the new booking |
| BookingSaga.CreateSpec | src/main/java/com/bookticket/booking_service/service/BookingService.java:55-181 | specification function of createBooking; the SagaProperties lemmas and Service.BookingService.CreateBooking state its meaning |
| BookingSaga.LockedOrFailed | src/main/java/com/bookticket/booking_service/service/BookingService.java:81-160 | specification function: the branch on the store acquisition result; LockFailureOnlyFails and LockSuccessGoesOn state its meaning |
| BookingSaga.AfterLocks | src/main/java/com/bookticket/booking_service/service/BookingService.java:88-128 | specification function: theater lock, seat rows and checkout after the store locks; CheckoutCreatedKeepsLocks and CheckoutFailureGoesToInnerCatch state its meaning |
| BookingSaga.CheckoutFailed | src/main/java/com/bookticket/booking_service/service/BookingService.java:130-147 | specification function: the inner catch; CheckoutFailedFails and ReleaseFailureSkipsEvents state its meaning |
| BookingSaga.OuterCatch | src/main/java/com/bookticket/booking_service/service/BookingService.java:162-179 | specification function: the outer catch; OuterCatchFailsAtMost and TheaterLockFailureCompensatesOnce state its meaning |
| BookingSaga.SetStatus | src/main/java/com/bookticket/booking_service/service/BookingService.java:134-135 | specification function of setStatus followed by save; Service.BookingService.SaveStatus is proved equal to it, and CheckoutFailedFails and RejectedFails state its effect on the table |
| BookingSaga.ReleaseKeys | src/main/java/com/bookticket/booking_service/service/BookingService.java:140 | specification function of releaseSeatsLock; Service.BookingService.ReleaseLocks is proved equal to it, and the SeatLocks release lemmas state what it deletes |
| BookingSaga.Theater | src/main/java/com/bookticket/booking_service/service/BookingService.java:61 | specification function of one theater-service call; Service.BookingService.CallTheater is proved equal to it, and VerifyFailureTouchesNothing shows it changes only the log |
| BookingSaga.SendFailureEvent | src/main/java/com/bookticket/booking_service/service/BookingService.java:426-451 | specification function of sendBookingFailedEvent called directly; Service.BookingService.SendBookingFailedEvent is proved equal to it, and ReleaseFailureSkipsEvents shows which exits send it |
| BookingSaga.FailAndReport | src/main/java/com/bookticket/booking_service/service/BookingService.java:172-179 | specification function: FAILED status and the failure event |
| BookingSaga.VerifySpec | src/main/java/com/bookticket/booking_service/service/BookingService.java:229-355 | specification function of verifyAndCompleteBooking; the VerifyProperties lemmas and Service.BookingService.VerifyAndCompleteBooking state its meaning |
| BookingSaga.Completed | src/main/java/com/bookticket/booking_service/service/BookingService.java:275-309 | specification function: the COMPLETED branch; CompletedConfirmsAndReleases and BookFailureKeepsLocks state its meaning |
| BookingSaga.PaymentRejected | src/main/java/com/bookticket/booking_service/service/BookingService.java:311-348 | specification function: the non-completed branch; PaymentRejectedCompensatesTwice and RejectedMeansFailedStatus state its meaning |
| SagaProperties.LockFailureOnlyFails | src/main/java/com/bookticket/booking_service/service/BookingService.java:149-160 | a lock conflict gives FAILED, one "Seats no longer available" event and the SeatLockException, with no lock or theater release |
| SagaProperties.LockSuccessGoesOn | src/main/java/com/bookticket/booking_service/service/BookingService.java:81-88 | with every lock taken, the saga goes on with the acquired keys |
| SagaProperties.LockConflictKeepsStore | src/main/java/com/bookticket/booking_service/service/BookingService.java:149-160 | with a working delete, a create that meets a conflict leaves the lock store as it found it |
| SagaProperties.CheckoutCreatedKeepsLocks | src/main/java/com/bookticket/booking_service/service/BookingService.java:88-128 | a created checkout session answers PENDING with the session, the total and one response per seat; the locks stay held |
| SagaProperties.TheaterLockFailureCompensatesOnce | src/main/java/com/bookticket/booking_service/service/BookingService.java:162-179 | a theater lock failure releases the locks and the theater seats once, then sets FAILED, sends one event with the theater's message and returns the generic error |
| SagaProperties.CheckoutFailedCompensatesTwice | src/main/java/com/bookticket/booking_service/service/BookingService.java:130-179 | a failed checkout runs the compensation twice: FAILED, release, theater release, event; then release, theater release, FAILED, event; the store ends as after one release |
| SagaProperties.CheckoutFailureGoesToInnerCatch | src/main/java/com/bookticket/booking_service/service/BookingService.java:107-147 | a checkout error enters the inner catch wrapped as "Failed to create checkout session: ..." after the theater lock and the rows are saved |
| SagaProperties.ReleaseFailureSkipsEvents | src/main/java/com/bookticket/booking_service/service/BookingService.java:140-171 | when both theater releases fail, no failure event is sent, the booking is FAILED and the raw theater error escapes |
| SagaProperties.OuterCatchFailsAtMost | src/main/java/com/bookticket/booking_service/service/BookingService.java:162-179 | the outer catch leaves the booking as it was or FAILED |
| SagaProperties.CheckoutFailedFails | src/main/java/com/bookticket/booking_service/service/BookingService.java:130-147 | every exit of the inner catch leaves the booking FAILED |
| SagaProperties.CreateStatusMachine | src/main/java/com/bookticket/booking_service/service/BookingService.java:55-181 | once the booking is saved, create touches only its own booking, which ends PENDING or FAILED (PENDING on success); only its own booking-seat rows can be added; no further id is handed out |
| SagaProperties.CreateKeepsOtherBookings | src/main/java/com/bookticket/booking_service/service/BookingService.java:55-181 | with the id sequence ahead of every row, create overwrites no booking: each stored booking keeps its value, the new id is stored exactly when the seats were verified and ends PENDING or FAILED (PENDING on success), the sequence advances by one per saved booking and stays ahead of every row |
| SagaProperties.CreateSucceeds | src/main/java/com/bookticket/booking_service/service/BookingService.java:55-128 | a successful create leaves the booking PENDING, its rows saved, the ids advanced and the store as acquisition left it |
| SagaProperties.CompletedReleasesRowKeys | src/main/java/com/bookticket/booking_service/service/BookingService.java:275-289 | a COMPLETED payment confirms the booking and releases the keys regenerated from its rows |
| SagaProperties.CreateThenCompleteRestoresStore | src/main/java/com/bookticket/booking_service/service/BookingService.java:81-289 | create followed by a COMPLETED verification (working delete) returns the lock store to its state before the create |
| VerifyProperties.UnknownBookingIsReported | src/main/java/com/bookticket/booking_service/service/BookingService.java:234-235 | an unknown id gives "Booking not found: id" and changes nothing |
| VerifyProperties.NotPendingIsReadOnly | src/main/java/com/bookticket/booking_service/service/BookingService.java:243-265 | a booking no longer PENDING is answered as it is, changes nothing, and gives the same answer whatever the oracles say |
| VerifyProperties.PollErrorKeepsPending | src/main/java/com/bookticket/booking_service/service/BookingService.java:349-354 | a polling error is wrapped as "Failed to verify payment: ..." and leaves the state unchanged, the booking PENDING |
| VerifyProperties.CompletedConfirmsAndReleases | src/main/java/com/bookticket/booking_service/service/BookingService.java:275-309 | COMPLETED: saved CONFIRMED, seats booked, row keys released, one success event, CONFIRMED answer with the seats |
| VerifyProperties.CompletedButNotifyFails | src/main/java/com/bookticket/booking_service/service/BookingService.java:289-354 | if the success event cannot be sent, the booking stays CONFIRMED with locks released and an error is returned |
| VerifyProperties.BookFailureKeepsLocks | src/main/java/com/bookticket/booking_service/service/BookingService.java:277-282 | a theater booking failure leaves the booking CONFIRMED, its locks held, no event sent |
| VerifyProperties.PaymentRejectedCompensatesTwice | src/main/java/com/bookticket/booking_service/service/BookingService.java:311-348 | another terminal status is compensated in the branch and again in the PaymentFailedException catch, the second event carrying the message or "Payment failed"; that exception reaches the caller |
| VerifyProperties.RejectedMeansFailedStatus | src/main/java/com/bookticket/booking_service/service/BookingService.java:270-275 | the rejected branch is only ever reached with status FAILED, ignoring case |
| VerifyProperties.VerifyKeepsIdsFresh | src/main/java/com/bookticket/booking_service/service/BookingService.java:229-355 | verification adds and removes no booking and keeps the id sequence ahead of every row |
| VerifyProperties.VerifyStatusMachine | src/main/java/com/bookticket/booking_service/service/BookingService.java:229-355 | verification changes at most the named booking, only from PENDING, only to CONFIRMED or FAILED |
| VerifyProperties.CompletedConfirms | src/main/java/com/bookticket/booking_service/service/BookingService.java:275-278 | every exit of the COMPLETED branch has saved CONFIRMED |
| VerifyProperties.RejectedFails | src/main/java/com/bookticket/booking_service/service/BookingService.java:311-336 | every exit of the rejected branch has saved FAILED |
| VerifyProperties.SecondVerifyChangesNothing | src/main/java/com/bookticket/booking_service/service/BookingService.java:243-265 | once a verification has moved the booking out of PENDING, another call changes nothing |
| Service.BookingService.SaveStatus | src/main/java/com/bookticket/booking_service/service/BookingService.java:134-135 | setStatus and save, as the saga specification states |
| Service.BookingService.ReleaseLocks | src/main/java/com/bookticket/booking_service/service/BookingService.java:140 | releases the keys and logs the release |
| Service.BookingService.CallTheater | src/main/java/com/bookticket/booking_service/service/BookingService.java:88 | logs one theater call and whether it succeeded |
| Service.BookingService.SendBookingFailedEvent | src/main/java/com/bookticket/booking_service/service/BookingService.java:143 | one failure event whose delivery failures are swallowed |
| Service.BookingService.SendBookingSuccessEvent | src/main/java/com/bookticket/booking_service/service/BookingService.java:362-392 | Kafka, then REST; the result and the logged event are those of the one-shot specification |
| Service.BookingService.MarkFailedAndReport | src/main/java/com/bookticket/booking_service/service/BookingService.java:172-179 | FAILED, failure event, generic error |
| Service.BookingService.HandleUnexpected | src/main/java/com/bookticket/booking_service/service/BookingService.java:162-180 | the outer catch, as specified |
| Service.BookingService.HandleCheckoutFailure | src/main/java/com/bookticket/booking_service/service/BookingService.java:130-147 | the inner catch, as specified |
| Service.BookingService.LockTheaterAndCheckout | src/main/java/com/bookticket/booking_service/service/BookingService.java:88-128 | theater lock, rows, checkout, as specified |
| Service.BookingService.ContinueAfterAcquire | src/main/java/com/bookticket/booking_service/service/BookingService.java:81-160 | the continuation after the lock acquisition, as specified |
| Service.BookingService.CreateBooking | src/main/java/com/bookticket/booking_service/service/BookingService.java:55-181 | the new tables, lock store, effect log and answer are those of the createBooking specification, and the id sequence stays ahead of every stored row (so CreateKeepsOtherBookings applies to every call) |
| Service.BookingService.ConfirmBooking | src/main/java/com/bookticket/booking_service/service/BookingService.java:275-309 | the COMPLETED branch, as specified |
| Service.BookingService.RejectBooking | src/main/java/com/bookticket/booking_service/service/BookingService.java:311-348 | the rejected branch and its catch, as specified |
| Service.BookingService.VerifyAndCompleteBooking | src/main/java/com/bookticket/booking_service/service/BookingService.java:229-355 | the new state and answer are those of the verifyAndCompleteBooking specification, and the id sequence stays ahead of every stored row |
| EventDispatch.SendSuccess | src/main/java/com/bookticket/booking_service/service/BookingService.java:362-392 | delivered exactly when Kafka or REST accepts, by Kafka exactly when Kafka accepts; otherwise the REST error escapes |
| EventDispatch.SendFailure | src/main/java/com/bookticket/booking_service/service/BookingService.java:420-451 | delivered exactly when Kafka or REST accepts; never throws |
| EventDispatch.RetrySuccessFromSpec | src/main/java/com/bookticket/booking_service/service/BookingService.java:362-413 | the declared retries dead-letter exactly when every remaining attempt fails; otherwise the first successful attempt delivers |
| EventDispatch.DeclaredSendSuccessSpec | src/main/java/com/bookticket/booking_service/service/BookingService.java:362-413 | three attempts; dead-lettered, with the last REST error, exactly when all three fail on both channels |
| EventDispatch.RetrySuccessFrom | src/main/java/com/bookticket/booking_service/service/BookingService.java:362-413 | the retry proxy from one attempt on; RetrySuccessFromSpec states its meaning |
| EventDispatch.DeclaredSendSuccess | src/main/java/com/bookticket/booking_service/service/BookingService.java:362-413 | the declared dispatch of the success event; DeclaredSendSuccessSpec and SendBookingSuccessEventDeclared state its meaning |
| EventDispatch.DeclaredSendFailure | src/main/java/com/bookticket/booking_service/service/BookingService.java:420-473 | the declared dispatch of the failure event; FailureNeverDeadLettered states its meaning |
| EventDispatch.FailureNeverDeadLettered | src/main/java/com/bookticket/booking_service/service/BookingService.java:420-473 | the failure event never reaches its recover method, and is dropped exactly when the first attempt fails on both channels |
| EventDispatch.SendBookingSuccessEventDeclared | src/main/java/com/bookticket/booking_service/service/BookingService.java:362-413 | the dispatch is that of the declared contract; a dead-lettered event adds its success record to the table, and a failing save leaves the table unchanged |
| DeadLetter.NewFailedEvent | src/main/java/com/bookticket/booking_service/entity/FailedEvent.java:51-63 | a new record is PENDING, with retry count 0, maxRetries 3 and no timestamps |
| DeadLetter.OnCreate | src/main/java/com/bookticket/booking_service/entity/FailedEvent.java:71-74 | sets createdAt to now and nothing else |
| DeadLetter.TruncateError | src/main/java/com/bookticket/booking_service/service/DeadLetterQueueService.java:145-148 | null stays null; the result is a prefix of at most 2000 characters, the input itself when short enough, else exactly 2000 characters |
| DeadLetter.TruncateIdempotent | src/main/java/com/bookticket/booking_service/service/DeadLetterQueueService.java:145-148 | truncating twice equals truncating once |
| DeadLetter.EscapeQuotes | src/main/java/com/bookticket/booking_service/service/DeadLetterQueueService.java:81-84 | escaping never shortens, and a leading quote becomes a backslash |
| DeadLetter.EscapeRoundTrip | src/main/java/com/bookticket/booking_service/service/DeadLetterQueueService.java:81-84 | unescaping the escaped reason gives the reason back |
| DeadLetter.EscapedQuotesGuarded | src/main/java/com/bookticket/booking_service/service/DeadLetterQueueService.java:81-84 | every quote in an escaped reason is preceded by a backslash |
| DeadLetter.NewRecordsValid | src/main/java/com/bookticket/booking_service/service/DeadLetterQueueService.java:36-87 | both stored records are PENDING with no retries and carry the booking facts, the truncated error, the creation time and (failure) the reason; they satisfy the record invariant |
| DeadLetter.SuccessRecord | src/main/java/com/bookticket/booking_service/service/DeadLetterQueueService.java:36-61 | the record storeFailedSuccessEvent saves; NewRecordsValid and StoreFailedSuccessEvent state its meaning |
| DeadLetter.FailureRecord | src/main/java/com/bookticket/booking_service/service/DeadLetterQueueService.java:67-87 | the record storeFailedFailureEvent saves; NewRecordsValid and StoreFailedFailureEvent state its meaning |
| DeadLetter.PendingMeansStatusPending | src/main/java/com/bookticket/booking_service/service/DeadLetterQueueService.java:98-100 | under the invariant, pending-for-retry is exactly status PENDING |
| DeadLetter.PendingIds | src/main/java/com/bookticket/booking_service/service/DeadLetterQueueService.java:98-100 | specification function: PENDING records with fewer than 3 retries; PendingMeansStatusPending and PendingIgnoresOwnBudget state its meaning |
| DeadLetter.FailedIds | src/main/java/com/bookticket/booking_service/service/DeadLetterQueueService.java:105-107 | specification function: FAILED records; PendingFailedDisjoint states its meaning |
| DeadLetter.PendingFailedDisjoint | src/main/java/com/bookticket/booking_service/service/DeadLetterQueueService.java:98-107 | no record is both pending and failed |
| DeadLetter.PendingIgnoresOwnBudget | src/main/java/com/bookticket/booking_service/service/DeadLetterQueueService.java:98-100 | changing a record's maxRetries never changes the pending list, and a record with 3 or more retries is not pending whatever its budget |
| DeadLetter.ProcessedKeepsInv | src/main/java/com/bookticket/booking_service/service/DeadLetterQueueService.java:113-120 | markAsProcessed keeps the invariant and takes the record out of both lists |
| DeadLetter.RetriedKeepsInv | src/main/java/com/bookticket/booking_service/service/DeadLetterQueueService.java:126-140 | a failed retry adds one to the count, keeps the invariant, and makes the record FAILED exactly when the count reaches 3 |
| DeadLetter.UpdatesNeverRevive | src/main/java/com/bookticket/booking_service/service/DeadLetterQueueService.java:113-140 | neither update brings a record back to PENDING |
| DeadLetter.AsProcessed | src/main/java/com/bookticket/booking_service/service/DeadLetterQueueService.java:113-120 | markAsProcessed on one record; ProcessedKeepsInv, UpdatesNeverRevive and DeadLetterQueueService.MarkAsProcessed state its meaning |
| DeadLetter.AfterFailedRetry | src/main/java/com/bookticket/booking_service/service/DeadLetterQueueService.java:126-140 | incrementRetryCount on one record; RetriedKeepsInv, UpdatesNeverRevive and DeadLetterQueueService.IncrementRetryCount state its meaning |
| DeadLetter.StoreKeepsInv | src/main/java/com/bookticket/booking_service/service/DeadLetterQueueService.java:36-61 | adding a new record keeps the invariant and adds exactly it to the pending list |
| DeadLetter.DeadLetterQueueService.Save | src/main/java/com/bookticket/booking_service/service/DeadLetterQueueService.java:55-60 | the save adds one record under a fresh id, or nothing when it fails |
| DeadLetter.DeadLetterQueueService.StoreFailedSuccessEvent | src/main/java/com/bookticket/booking_service/service/DeadLetterQueueService.java:36-61 | adds the success record under a fresh id; a failing save is swallowed |
| DeadLetter.DeadLetterQueueService.StoreFailedFailureEvent | src/main/java/com/bookticket/booking_service/service/DeadLetterQueueService.java:67-93 | adds the failure record under a fresh id; a failing save is swallowed |
| DeadLetter.DeadLetterQueueService.GetPendingEvents | src/main/java/com/bookticket/booking_service/service/DeadLetterQueueService.java:98-100 | every pending record once, in the repository's order, with its state |
| DeadLetter.DeadLetterQueueService.Rows | src/main/java/com/bookticket/booking_service/service/DeadLetterQueueService.java:98-107 | the listed ids' records in the given order, each with its current state |
| DeadLetter.DeadLetterQueueService.GetFailedEvents | src/main/java/com/bookticket/booking_service/service/DeadLetterQueueService.java:105-107 | every FAILED record once, in the repository's order, with its state |
| DeadLetter.DeadLetterQueueService.GetFailedEventsByBookingId | src/main/java/com/bookticket/booking_service/service/DeadLetterQueueService.java:153-155 | every record of the booking once, in the repository's order, with its state |
| DeadLetter.DeadLetterQueueService.MarkAsProcessed | src/main/java/com/bookticket/booking_service/service/DeadLetterQueueService.java:113-120 | PROCESSED with processedAt whatever the status; an unknown id changes nothing; no other record changes |
| DeadLetter.DeadLetterQueueService.IncrementRetryCount | src/main/java/com/bookticket/booking_service/service/DeadLetterQueueService.java:126-140 | count + 1, new lastError, FAILED at maxRetries; an unknown id changes nothing |
| DlqRetry.Redeliver | src/main/java/com/bookticket/booking_service/service/DLQRetryScheduler.java:99-141 | only a success event whose Kafka and REST both fail is a delivery error; the rebuilt event carries the stored facts and the Kafka channel is chosen exactly when Kafka accepts; another type sends nothing |
| DlqRetry.RetryStepFrame | src/main/java/com/bookticket/booking_service/service/DLQRetryScheduler.java:73-94 | a retry changes only its own record |
| DlqRetry.RetryStep | src/main/java/com/bookticket/booking_service/service/DLQRetryScheduler.java:73-94 | specification function of retrying one event; RetryStepFrame, RetryStepKeepsInv and the redelivery lemmas state its meaning |
| DlqRetry.Sweep | src/main/java/com/bookticket/booking_service/service/DLQRetryScheduler.java:46-68 | specification function of the sweep; SweepFrame, SweepIsolates and SweepKeepsInv state its meaning |
| DlqRetry.SweepFrame | src/main/java/com/bookticket/booking_service/service/DLQRetryScheduler.java:59-65 | records not in the listed batch are unchanged by the sweep |
| DlqRetry.SweepIsolates | src/main/java/com/bookticket/booking_service/service/DLQRetryScheduler.java:59-65 | each listed record ends as its own retry alone would leave it, whatever happened to the others |
| DlqRetry.RetryStepKeepsInv | src/main/java/com/bookticket/booking_service/service/DLQRetryScheduler.java:73-94 | one retry of a pending record keeps the record invariant |
| DlqRetry.SweepKeepsInv | src/main/java/com/bookticket/booking_service/service/DLQRetryScheduler.java:46-68 | sweeps keep the invariant, so a count never exceeds 3 and a count of 3 is never pending again |
| DlqRetry.OtherTypeMarkedWithoutDelivery | src/main/java/com/bookticket/booking_service/service/DLQRetryScheduler.java:79-86 | an event of another type is marked processed with nothing sent |
| DlqRetry.DeliveredMarkedProcessed | src/main/java/com/bookticket/booking_service/service/DLQRetryScheduler.java:79-86 | an event delivered on either channel is sent once, on that channel, and its record marked processed |
| DlqRetry.LostFailureEventMarkedProcessed | src/main/java/com/bookticket/booking_service/service/DLQRetryScheduler.java:122-141 | a failure event whose Kafka and REST both fail is still marked processed |
| DlqRetry.FailedRedeliveryCounted | src/main/java/com/bookticket/booking_service/service/DLQRetryScheduler.java:99-117 | a success event that cannot be delivered has its count incremented with the REST error |
| DlqRetry.DLQRetryScheduler.RetryEvent | src/main/java/com/bookticket/booking_service/service/DLQRetryScheduler.java:73-94 | the table and the sent events are those of one retry step |
| DlqRetry.DLQRetryScheduler.RetryFailedEvents | src/main/java/com/bookticket/booking_service/service/DLQRetryScheduler.java:46-68 | reads the pending list once and sweeps it in order, one attempt per event, as the sweep specification states (an empty list changes nothing) |
| DlqAdmin.CountIsNumberWithStatus | src/main/java/com/bookticket/booking_service/controller/DLQAdminController.java:111-125 | each count is the number of events with that status |
| DlqAdmin.CountsPartition | src/main/java/com/bookticket/booking_service/controller/DLQAdminController.java:111-134 | the four counts sum to the number of events |
| DlqAdmin.StatsByBookingIdSpec | src/main/java/com/bookticket/booking_service/controller/DLQAdminController.java:92-137 | the booking's stats: its id, the four counts by status, summing to the number of events (all zero when there are none) |
| DlqAdmin.StatsByBookingId | src/main/java/com/bookticket/booking_service/controller/DLQAdminController.java:92-137 | specification function of the per-booking statistics; StatsByBookingIdSpec and CountsPartition state its meaning |
| DlqAdmin.OverallStats | src/main/java/com/bookticket/booking_service/controller/DLQAdminController.java:176-189 | specification function of the overall statistics; OverallTotalCountsEachRecordOnce states its meaning |
| DlqAdmin.OverallTotalCountsEachRecordOnce | src/main/java/com/bookticket/booking_service/controller/DLQAdminController.java:176-189 | total = pending + failed counts each listed record once and never exceeds the table size |
| DlqAdmin.DLQAdminController.MarkAsProcessed | src/main/java/com/bookticket/booking_service/controller/DLQAdminController.java:153-160 | delegates to the service's markAsProcessed and answers "Event marked as processed" |

## Left out

- Redis key TTL and its `toMinutes` truncation are not modelled: locks never expire in the model.
- A `null` result of SET NX counts as a refusal in the source; the model has only set or refused.
- Key generation happens once, before the acquisition loop, instead of once per iteration. It is pure, so the keys are the same.
- Spring proxy behaviour is not modelled:
  - `@Transactional` rollback of the booking tables when an exception escapes (the model shows the saves as made);
  - `@Async`, and the `@Retryable` backoff and `@Scheduled` timings.
- Calls from inside the class bypass the proxy, so the saga sends each event as one synchronous attempt. The declared contract (three attempts, then `recover*` writes to the dead-letter queue) is modelled on its own as an explicit function.
- Thread sleeps and interrupts are not modelled: the clock is logical, and sleeping advances it.
- A negative polling interval is not modelled: `intervalMs` is a natural number. In the source, `Thread.sleep` rejects a negative value with `IllegalArgumentException`. After a pending status that exception is caught like a failed status call; in the retry branch after a failed call it escapes the poll.
- The remote services are oracles: the theater, checkout creation and verification, `getPaymentStatus`, Kafka and the notification REST client. Only their success or failure and their messages are modelled.
- The database's id sequence is a counter field, `nextBookingId`. `Service.BookingService.Valid` states that it is ahead of every stored booking and booking-seat row. The constructor establishes this, and `CreateBooking` and `VerifyAndCompleteBooking` keep it.
- In the saga, every database save succeeds. In the dead-letter service, a failing save is a parameter.
- Amounts are integer cents, not `double`. The `%.2f` formatting is not modelled.
- The dead-letter payload is a datatype rather than JSON text. Only the quote escaping of the reason is modelled.
- `Payments.EqualsIgnoreCase` folds ASCII letters only; Java's full Unicode case folding is not modelled.
- Null statuses, ids and seat lists are not modelled.
- A `null` message is an absent `Option`.
- Creation and processing timestamps are an integer `now` supplied by the caller.
- `EventType.java` is not part of this model. Event types are BOOKING_SUCCESS, BOOKING_FAILED and one value standing for any other.
- Booking-seat row ids are not modelled. Seat responses carry the seat id, number, type and price.
- `FailedEvent` is a value replaced in the table, not an entity updated by setters.
- The 1000-character limit of the reason column is not enforced.
- `DeadLetter.TruncateError` counts characters. Java's `substring` counts UTF-16 code units and can split a surrogate pair; the model has no character encoding.
- The admin statistics counts are unbounded integers. The source narrows each `long` count with an `(int)` cast, which would wrap past 2^31 - 1 records.
- Repository row order is a parameter (`order`), since the database gives no order.
- HTTP routing, the exception handler and logging are not modelled.
- The admin controller's `/pending` and `/failed` endpoints are not modelled as controller members: they return `getPendingEvents()` and `getFailedEvents()` unchanged, which `DeadLetter.DeadLetterQueueService.GetPendingEvents` and `GetFailedEvents` model.
- `DlqAdmin.BookingStats` drops the `events` list of `BookingDLQStats`: the per-booking endpoint's event list is `GetFailedEventsByBookingId`, and only the counts are modelled.
- SagaProperties.CreateThenCompleteRestoresStore: stated only for a release whose delete succeeds. A failing delete is swallowed and its keys stay until they expire.
