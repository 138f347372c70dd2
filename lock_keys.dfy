/**
  Key and value formats of the seat locks (RedisLockProperties).
  Java's "%d" renders a long in decimal with a leading '-' when negative;
  Decimal below is that rendering for unbounded integers.
*/
module LockKeys {

  /** The configured prefixes ("booking.redis.lock.key-prefix" and "booking-prefix"). */
  datatype LockConfig = LockConfig(keyPrefix: string, bookingPrefix: string)

  predicate IsDigit(c: char) {
    '0' <= c <= '9'
  }

  function Digit(d: int): (c: char)
    requires 0 <= d < 10
    ensures IsDigit(c)
  {
    ('0' as int + d) as char
  }

  /** Decimal digits of a natural number, most significant first, no leading zeros. */
  function NatDecimal(n: nat): (s: string)
    ensures |s| >= 1
    ensures n >= 10 <==> |s| >= 2
    decreases n
  {
    if n < 10 then [Digit(n)] else NatDecimal(n / 10) + [Digit(n % 10)]
  }

  /** The rendering of "%d". */
  function Decimal(n: int): (s: string)
    ensures |s| >= 1
  {
    if n < 0 then "-" + NatDecimal(-n) else NatDecimal(n)
  }

  lemma {:induction false} NatDecimalDigits(n: nat)
    ensures forall i :: 0 <= i < |NatDecimal(n)| ==> IsDigit(NatDecimal(n)[i])
    decreases n
  {
    if n >= 10 {
      NatDecimalDigits(n / 10);
    }
  }

  /** A decimal rendering holds no ':' and starts with '-' exactly for negative numbers. */
  lemma DecimalShape(n: int)
    ensures ':' !in Decimal(n)
    ensures n < 0 <==> Decimal(n)[0] == '-'
  {
    NatDecimalDigits(if n < 0 then -n else n);
  }

  /** String.format("%s:%d:%d", keyPrefix, showId, seatId) */
  function SeatLockKey(cfg: LockConfig, showId: int, seatId: int): string {
    cfg.keyPrefix + ":" + Decimal(showId) + ":" + Decimal(seatId)
  }

  /** String.format("%s:%d", bookingPrefix, bookingId) */
  function BookingLockValue(cfg: LockConfig, bookingId: int): string {
    cfg.bookingPrefix + ":" + Decimal(bookingId)
  }

  lemma {:induction false} NatDecimalInjective(a: nat, b: nat)
    requires NatDecimal(a) == NatDecimal(b)
    ensures a == b
    decreases a
  {
    var sa, sb := NatDecimal(a), NatDecimal(b);
    NatDecimalDigits(a);
    NatDecimalDigits(b);
    if a >= 10 && b >= 10 {
      assert sa[|sa| - 1] == Digit(a % 10) && sb[|sb| - 1] == Digit(b % 10);
      assert sa[..|sa| - 1] == NatDecimal(a / 10);
      assert sb[..|sb| - 1] == NatDecimal(b / 10);
      NatDecimalInjective(a / 10, b / 10);
    } else {
      assert a < 10 && b < 10;
      assert sa[0] == Digit(a) && sb[0] == Digit(b);
    }
  }

  /** Distinct numbers render to distinct decimal strings. */
  lemma {:induction false} DecimalInjective(a: int, b: int)
    requires Decimal(a) == Decimal(b)
    ensures a == b
  {
    var sa, sb := Decimal(a), Decimal(b);
    DecimalShape(a);
    DecimalShape(b);
    if a < 0 {
      assert b < 0;
      assert sa[1..] == NatDecimal(-a) && sb[1..] == NatDecimal(-b);
      NatDecimalInjective(-a, -b);
    } else {
      assert b >= 0;
      NatDecimalInjective(a, b);
    }
  }

  /** Two colon-free heads followed by ':' split a string the same way. */
  lemma {:induction false} SplitAtFirstColon(a: string, b: string, c: string, d: string)
    requires ':' !in a && ':' !in c
    requires a + ":" + b == c + ":" + d
    ensures a == c && b == d
  {
    var s := a + ":" + b;
    var t := c + ":" + d;
    assert s[|a|] == ':' && t[|c|] == ':';
    assert forall i :: 0 <= i < |c| ==> t[i] == c[i] != ':';
    assert forall i :: 0 <= i < |a| ==> s[i] == a[i] != ':';
    assert |c| <= |a| && |a| <= |c|;
    assert a == s[..|a|] == c;
    assert b == s[|a| + 1..] == d;
  }

  /** Under a common prefix, "p:a:b" determines a and b when a and c hold no ':'. */
  lemma {:induction false} KeyShapeInjective(p: string, a: string, b: string, c: string, d: string)
    requires ':' !in a && ':' !in c
    requires p + ":" + a + ":" + b == p + ":" + c + ":" + d
    ensures a == c && b == d
  {
    var q := p + ":";
    var k1, k2 := q + a + ":" + b, q + c + ":" + d;
    assert k1[|q|..] == a + ":" + b;
    assert k2[|q|..] == c + ":" + d;
    SplitAtFirstColon(a, b, c, d);
  }

  /** For a fixed configuration, distinct (showId, seatId) pairs give distinct lock keys. */
  lemma {:induction false} SeatLockKeyInjective(cfg: LockConfig, show1: int, seat1: int, show2: int, seat2: int)
    requires SeatLockKey(cfg, show1, seat1) == SeatLockKey(cfg, show2, seat2)
    ensures show1 == show2 && seat1 == seat2
  {
    DecimalShape(show1);
    DecimalShape(show2);
    KeyShapeInjective(cfg.keyPrefix, Decimal(show1), Decimal(seat1), Decimal(show2), Decimal(seat2));
    DecimalInjective(show1, show2);
    DecimalInjective(seat1, seat2);
  }

  /** Distinct bookings get distinct lock values. */
  lemma {:induction false} BookingLockValueInjective(cfg: LockConfig, id1: int, id2: int)
    requires BookingLockValue(cfg, id1) == BookingLockValue(cfg, id2)
    ensures id1 == id2
  {
    var p := cfg.bookingPrefix + ":";
    assert BookingLockValue(cfg, id1)[|p|..] == Decimal(id1);
    assert BookingLockValue(cfg, id2)[|p|..] == Decimal(id2);
    DecimalInjective(id1, id2);
  }
}
