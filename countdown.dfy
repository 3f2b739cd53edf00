/**
 * The countdown badge: the time left until an end time, split into days,
 * hours, minutes and seconds, and the text the badge shows. The clock reading
 * is a parameter, and the end time is epoch milliseconds, absent when the
 * badge is given none (an invalid date reads the same way: the difference is
 * NaN, and NaN > 0 is false).
 */
module Countdown {
  import opened Js

  const MsPerSecond: int := 1000
  const MsPerMinute: int := 60000
  const MsPerHour: int := 3600000
  const MsPerDay: int := 86400000

  const EndedText: string := "Auction Ended"

  datatype TimeLeft = Expired | Remaining(days: nat, hours: nat, minutes: nat, seconds: nat)

  /**
   * `calculateTimeLeft`. On a positive integer difference, flooring the
   * floating-point quotients and remainders of the source gives exactly the
   * Euclidean quotients and remainders used here.
   */
  function CalculateTimeLeft(endTime: Option<int>, now: int): (r: TimeLeft)
    ensures r.Expired? <==> endTime.None? || endTime.value - now <= 0
    ensures r.Remaining? ==> r.hours < 24 && r.minutes < 60 && r.seconds < 60
  {
    if endTime.None? then Expired
    else
      var diff := endTime.value - now;
      if diff > 0 then
        Remaining(diff / MsPerDay, (diff / MsPerHour) % 24, (diff / MsPerMinute) % 60, (diff / MsPerSecond) % 60)
      else Expired
  }

  /** Dividing twice is dividing once by the product. */
  lemma DivDiv(a: int, b: int, c: int)
    requires a >= 0 && b > 0 && c > 0
    ensures (a / b) / c == a / (b * c)
  {
    var q := a / b;
    var r := a % b;
    var q2 := q / c;
    var r2 := q % c;
    assert a == b * q + r;
    assert q == c * q2 + r2;
    Regroup(b, c, q2, r2, r);
    MulBelow(b, r2, c);
    DivUnique(a, b * c, q2, b * r2 + r);
  }

  lemma Regroup(b: int, c: int, q2: int, r2: int, r: int)
    ensures b * (c * q2 + r2) + r == (b * c) * q2 + (b * r2 + r)
  {
  }

  /** With r2 < c, b * r2 + r stays below b * c for any r < b. */
  lemma MulBelow(b: int, r2: int, c: int)
    requires b > 0 && 0 <= r2 < c
    ensures 0 <= b * r2 <= b * c - b
  {
    MulAtLeast(b, c - r2);
    assert b * c - b * r2 == b * (c - r2);
    MulAtLeast(b, r2 + 1);
  }

  lemma {:induction false} MulAtLeast(x: int, y: int)
    requires x > 0 && y >= 1
    ensures x * y >= x
  {
    if y > 1 {
      MulAtLeast(x, y - 1);
      assert x * y == x * (y - 1) + x;
    }
  }

  /** A quotient and remainder in range are the quotient and remainder. */
  lemma DivUnique(a: int, d: int, q: int, r: int)
    requires d > 0 && a == d * q + r && 0 <= r < d
    ensures a / d == q
  {
    var q0 := a / d;
    var r0 := a % d;
    assert a == d * q0 + r0;
    assert d * (q - q0) == r0 - r;
    assert d * (q0 - q) == r - r0;
    if q0 < q {
      MulAtLeast(d, q - q0);
    } else if q0 > q {
      MulAtLeast(d, q0 - q);
    }
  }

  /** A number of seconds is its days, hours, minutes and seconds put back together. */
  lemma SecondsSplit(s: int)
    requires s >= 0
    ensures (s / 86400) * 86400 + ((s / 3600) % 24) * 3600 + ((s / 60) % 60) * 60 + s % 60 == s
  {
    DivDiv(s, 60, 60);
    DivDiv(s, 3600, 24);
    var m := s / 60;
    var h := m / 60;
    assert s == 60 * m + s % 60;
    assert m == 60 * h + m % 60;
    assert h == 24 * (h / 24) + h % 24;
  }

  /**
   * For a positive difference the parts are whole days, the hours, minutes and
   * seconds within them, and together they make up the whole seconds left.
   */
  lemma TimeLeftAddsUp(endTime: int, now: int)
    requires endTime - now > 0
    ensures var r := CalculateTimeLeft(Some(endTime), now);
            && r.Remaining?
            && r.days * 86400 + r.hours * 3600 + r.minutes * 60 + r.seconds == (endTime - now) / 1000
            && r.days == (endTime - now) / MsPerDay
  {
    var diff := endTime - now;
    var s := diff / 1000;
    DivDiv(diff, 1000, 60);
    DivDiv(diff, 1000, 3600);
    DivDiv(diff, 1000, 86400);
    SecondsSplit(s);
  }

  /** The `HH:MM:SS` part of the badge. */
  function Clock(hours: nat, minutes: nat, seconds: nat): (r: string)
    ensures forall k :: 0 <= k < |r| ==> IsDigit(r[k]) || r[k] == ':'
  {
    PadTwo(hours) + ":" + PadTwo(minutes) + ":" + PadTwo(seconds)
  }

  /** What the badge shows: "Auction Ended", or the clock with a `<days>d ` prefix exactly when there are days left. */
  function Display(t: TimeLeft): (r: string)
    ensures t.Expired? ==> r == EndedText
    ensures t.Remaining? ==> ('d' in r <==> t.days > 0)
    ensures t.Remaining? && t.days == 0 ==> r == Clock(t.hours, t.minutes, t.seconds)
    ensures t.Remaining? && t.days > 0 ==> r == NatText(t.days) + "d " + Clock(t.hours, t.minutes, t.seconds)
  {
    match t
    case Expired => EndedText
    case Remaining(d, h, m, s) =>
      var clock := Clock(h, m, s);
      if d > 0 then
        var prefix := NatText(d) + "d ";
        assert prefix[|prefix| - 2] == 'd';
        assert (prefix + clock)[|prefix| - 2] == 'd';
        prefix + clock
      else
        assert !IsDigit('d');
        clock
  }

  /** The clock part of the badge is always two digits per part, so it reads back as the three parts. */
  lemma ClockPartsPadded(t: TimeLeft)
    requires t.Remaining? && t.hours < 24 && t.minutes < 60 && t.seconds < 60
    ensures var clock := Clock(t.hours, t.minutes, t.seconds);
            && |clock| == 8 && clock[2] == ':' && clock[5] == ':'
            && clock[..2] == PadTwo(t.hours) && clock[3..5] == PadTwo(t.minutes) && clock[6..] == PadTwo(t.seconds)
  {
  }
}
