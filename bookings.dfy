/**
  Booking entities and the pure helpers of BookingService: the total amount, the
  booking-seat rows built from the verified seats, and the seat responses. Prices and
  totals are integer cents.
*/
module Bookings {
  import opened Wrappers
  import LockKeys

  datatype BookingStatus = Pending | Confirmed | Failed | Cancelled

  datatype Booking = Booking(userId: int, showId: int, totalCents: int, status: BookingStatus)

  /** ValidSeatResponse as returned by the theater service; isAvailable is carried but never read. */
  datatype ValidSeat = ValidSeat(seatId: int, isAvailable: bool, priceCents: int, seatNumber: string, seatType: string)

  /** A booking_seats row. */
  datatype BookingSeat = BookingSeat(bookingId: int, seatId: int, seatNumber: string, seatType: string, priceCents: int)

  /** BookingSeatResponse without the generated row id. */
  datatype SeatResponse = SeatResponse(seatId: int, seatNumber: string, seatType: string, priceCents: int)

  /** calculateTotalAmount: the sum of the verified seats' prices. */
  function TotalAmount(seats: seq<ValidSeat>): int
    decreases |seats|
  {
    if |seats| == 0 then 0 else TotalAmount(seats[..|seats| - 1]) + seats[|seats| - 1].priceCents
  }

  /** The total of two seat lists together is the sum of their totals. */
  lemma {:induction false} TotalAmountAppend(a: seq<ValidSeat>, b: seq<ValidSeat>)
    ensures TotalAmount(a + b) == TotalAmount(a) + TotalAmount(b)
    decreases |b|
  {
    if |b| == 0 {
      assert a + b == a;
    } else {
      var n := |b| - 1;
      assert (a + b)[..|a + b| - 1] == a + b[..n];
      assert (a + b)[|a + b| - 1] == b[n];
      TotalAmountAppend(a, b[..n]);
    }
  }

  /** With prices within [lo, hi], the total lies within [|seats| * lo, |seats| * hi]. */
  lemma {:induction false} TotalAmountBounds(seats: seq<ValidSeat>, lo: int, hi: int)
    requires forall k :: 0 <= k < |seats| ==> lo <= seats[k].priceCents <= hi
    ensures |seats| * lo <= TotalAmount(seats) <= |seats| * hi
    decreases |seats|
  {
    if |seats| > 0 {
      TotalAmountBounds(seats[..|seats| - 1], lo, hi);
    }
  }

  /** The seat ids of the verified seats, in order. */
  function SeatIdsOf(seats: seq<ValidSeat>): (ids: seq<int>)
    ensures |ids| == |seats|
    decreases |seats|
  {
    if |seats| == 0 then [] else SeatIdsOf(seats[..|seats| - 1]) + [seats[|seats| - 1].seatId]
  }

  lemma {:induction false} SeatIdsOfAt(seats: seq<ValidSeat>, k: nat)
    requires k < |seats|
    ensures SeatIdsOf(seats)[k] == seats[k].seatId
    decreases |seats|
  {
    if k < |seats| - 1 {
      SeatIdsOfAt(seats[..|seats| - 1], k);
    }
  }

  /** createBookingSeat. */
  function CreateBookingSeat(bookingId: int, v: ValidSeat): BookingSeat {
    BookingSeat(bookingId, v.seatId, v.seatNumber, v.seatType, v.priceCents)
  }

  /** The booking-seat rows of a booking: one per verified seat, in order. */
  function BookingSeatsFor(bookingId: int, seats: seq<ValidSeat>): seq<BookingSeat>
  {
    seq(|seats|, k requires 0 <= k < |seats| => CreateBookingSeat(bookingId, seats[k]))
  }

  /** The seat ids of stored booking-seat rows, in order. */
  function RowSeatIds(rows: seq<BookingSeat>): seq<int>
  {
    seq(|rows|, k requires 0 <= k < |rows| => rows[k].seatId)
  }

  /** The rows saved at creation give back exactly the verified seat ids, so locks are released by the ids they were taken for. */
  lemma RowSeatIdsOfBookingSeats(bookingId: int, seats: seq<ValidSeat>)
    ensures RowSeatIds(BookingSeatsFor(bookingId, seats)) == SeatIdsOf(seats)
  {
    var l, r := RowSeatIds(BookingSeatsFor(bookingId, seats)), SeatIdsOf(seats);
    forall k | 0 <= k < |seats| ensures l[k] == r[k] {
      SeatIdsOfAt(seats, k);
    }
  }

  /** findFirst over the verified seats by seat id. */
  function FindFirst(seats: seq<ValidSeat>, seatId: int): (r: Option<nat>)
    ensures r.Some? ==> r.value < |seats| && seats[r.value].seatId == seatId
    ensures r.Some? ==> forall j :: 0 <= j < r.value ==> seats[j].seatId != seatId
    ensures r.None? ==> forall j :: 0 <= j < |seats| ==> seats[j].seatId != seatId
    decreases |seats|
  {
    if |seats| == 0 then None
    else if seats[0].seatId == seatId then Some(0)
    else match FindFirst(seats[1..], seatId)
      case None => None
      case Some(j) => Some(j + 1)
  }

  /** mapToSeatResponses: each row is described by the first verified seat with its id; a row without one fails. */
  function MapToSeatResponses(rows: seq<BookingSeat>, seats: seq<ValidSeat>): Result<seq<SeatResponse>, string>
    decreases |rows|
  {
    if |rows| == 0 then Success([])
    else
      var row := rows[|rows| - 1];
      match MapToSeatResponses(rows[..|rows| - 1], seats)
      case Failure(m) => Failure(m)
      case Success(init) =>
        match FindFirst(seats, row.seatId)
        case None => Failure("Seat not found: " + LockKeys.Decimal(row.seatId))
        case Some(j) => Success(init + [SeatResponse(row.seatId, seats[j].seatNumber, seats[j].seatType, seats[j].priceCents)])
  }

  /**
    The responses of rows built from the verified seats never fail; each names its row's
    seat and takes the details of the first verified seat with that id.
  */
  lemma {:induction false} SeatResponsesOfOwnRows(rows: seq<BookingSeat>, seats: seq<ValidSeat>)
    requires forall k :: 0 <= k < |rows| ==> FindFirst(seats, rows[k].seatId).Some?
    ensures var r := MapToSeatResponses(rows, seats);
      && r.Success? && |r.value| == |rows|
      && forall k :: 0 <= k < |rows| ==>
           && r.value[k].seatId == rows[k].seatId
           && FindFirst(seats, rows[k].seatId).Some?
           && var j := FindFirst(seats, rows[k].seatId).value;
              r.value[k] == SeatResponse(rows[k].seatId, seats[j].seatNumber, seats[j].seatType, seats[j].priceCents)
    decreases |rows|
  {
    if |rows| > 0 {
      var n := |rows| - 1;
      assert forall k :: 0 <= k < n ==> rows[..n][k] == rows[k];
      SeatResponsesOfOwnRows(rows[..n], seats);
    }
  }

  /** The responses of the rows saved at creation never fail: every row's seat is among the verified seats. */
  lemma SeatResponsesOfCreatedRowsSucceed(bookingId: int, seats: seq<ValidSeat>)
    ensures var r := MapToSeatResponses(BookingSeatsFor(bookingId, seats), seats);
      r.Success? && |r.value| == |seats|
      && forall k :: 0 <= k < |seats| ==> r.value[k].seatId == seats[k].seatId
  {
    var rows := BookingSeatsFor(bookingId, seats);
    forall k | 0 <= k < |rows|
      ensures FindFirst(seats, rows[k].seatId).Some?
    {
      assert seats[k].seatId == rows[k].seatId;
    }
    SeatResponsesOfOwnRows(rows, seats);
  }

  /**
    When the verified seat ids are distinct, each response repeats its own verified seat, so
    the seats createBooking answers with are exactly those a later status query rebuilds
    from the stored rows.
  */
  lemma SeatResponsesOfCreatedRows(bookingId: int, seats: seq<ValidSeat>)
    requires forall i, j :: 0 <= i < j < |seats| ==> seats[i].seatId != seats[j].seatId
    ensures var rows := BookingSeatsFor(bookingId, seats);
      MapToSeatResponses(rows, seats) == Success(StoredSeatResponses(rows))
    ensures var r := MapToSeatResponses(BookingSeatsFor(bookingId, seats), seats);
      && r.Success? && |r.value| == |seats|
      && forall k :: 0 <= k < |seats| ==>
           r.value[k] == SeatResponse(seats[k].seatId, seats[k].seatNumber, seats[k].seatType, seats[k].priceCents)
  {
    var rows := BookingSeatsFor(bookingId, seats);
    forall k | 0 <= k < |rows|
      ensures FindFirst(seats, rows[k].seatId).Some?
    {
      assert seats[k].seatId == rows[k].seatId;
    }
    SeatResponsesOfOwnRows(rows, seats);
    var r := MapToSeatResponses(rows, seats).value;
    var stored := StoredSeatResponses(rows);
    forall k | 0 <= k < |seats|
      ensures r[k] == stored[k] == SeatResponse(seats[k].seatId, seats[k].seatNumber, seats[k].seatType, seats[k].priceCents)
    {
      assert rows[k] == CreateBookingSeat(bookingId, seats[k]);
      var f := FindFirst(seats, rows[k].seatId);
      assert f == Some(k);
    }
    assert r == stored;
  }

  /** The seat responses built from stored rows (the verification path). */
  function StoredSeatResponses(rows: seq<BookingSeat>): seq<SeatResponse>
  {
    seq(|rows|, k requires 0 <= k < |rows| => SeatResponse(rows[k].seatId, rows[k].seatNumber, rows[k].seatType, rows[k].priceCents))
  }
}
