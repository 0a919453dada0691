/** From an absolute deadline to the timeout of a receive, in milliseconds. */
module Deadline {
  import opened Base

  const NSEC_PER_MSEC := 1_000_000
  const NSEC_PER_SEC := 1_000_000_000
  /** The range of mach_msg_timeout_t, an unsigned 32-bit integer. */
  const TIMEOUT_RANGE := 0x1_0000_0000

  datatype Time = Time(sec: int, nsec: int)

  predicate Valid(t: Time) {
    0 <= t.nsec < NSEC_PER_SEC
  }

  function Nanoseconds(t: Time): int {
    t.sec * NSEC_PER_SEC + t.nsec
  }

  /** The time left, exactly. */
  function Span(now: Time, until: Time): int {
    Nanoseconds(until) - Nanoseconds(now)
  }

  function Ceiling(nanoseconds: int): int {
    (nanoseconds + NSEC_PER_MSEC - 1) / NSEC_PER_MSEC
  }

  function Floor(nanoseconds: int): int {
    nanoseconds / NSEC_PER_MSEC
  }

  /** The timeout rounds up, except when the subtraction of nanoseconds borrows: then it rounds down. */
  function Rounded(now: Time, until: Time): int {
    if until.nsec >= now.nsec then Ceiling(Span(now, until)) else Floor(Span(now, until))
  }

  lemma DivideSplit(seconds: int, rest: int)
    ensures (seconds * NSEC_PER_SEC + rest) / NSEC_PER_MSEC == seconds * 1000 + rest / NSEC_PER_MSEC
  {
    var q, r := rest / NSEC_PER_MSEC, rest % NSEC_PER_MSEC;
    assert seconds * NSEC_PER_SEC + rest == (seconds * 1000 + q) * NSEC_PER_MSEC + r;
  }

  lemma NegatedCeiling(n: int)
    requires n > 0
    ensures -((n + NSEC_PER_MSEC - 1) / NSEC_PER_MSEC) == (-n) / NSEC_PER_MSEC
  {
  }

  lemma WrapTwice(x: int, y: int)
    ensures (x % TIMEOUT_RANGE + y) % TIMEOUT_RANGE == (x + y) % TIMEOUT_RANGE
  {
    var q, r := x / TIMEOUT_RANGE, x % TIMEOUT_RANGE;
    assert x + y == q * TIMEOUT_RANGE + (r + y);
  }

  lemma PassedIff(now: Time, until: Time)
    requires Valid(now) && Valid(until)
    ensures Span(now, until) < 0 <==> now.sec > until.sec || (now.sec == until.sec && now.nsec > until.nsec)
  {
  }

  /** What the code computes before wrap-around, in both branches. */
  lemma RoundedBySteps(now: Time, until: Time)
    requires Valid(now) && Valid(until)
    ensures Rounded(now, until) == (until.sec - now.sec) * 1000 +
      (if until.nsec >= now.nsec then (until.nsec - now.nsec + 999999) / 1000000
       else -((now.nsec - until.nsec + 999999) / 1000000))
  {
    var seconds := until.sec - now.sec;
    if until.nsec >= now.nsec {
      DivideSplit(seconds, until.nsec - now.nsec + 999999);
    } else {
      DivideSplit(seconds, until.nsec - now.nsec);
      NegatedCeiling(now.nsec - until.nsec);
    }
  }

  /** The arithmetic of __pthread_timedblock; None is the immediate ETIMEDOUT. */
  method Timeout(now: Time, until: Time) returns (timeout: Option<nat>)
    requires Valid(now) && Valid(until)
    ensures timeout.None? <==> Span(now, until) < 0
    ensures timeout.Some? ==> timeout.value == Rounded(now, until) % TIMEOUT_RANGE
  {
    PassedIff(now, until);
    RoundedBySteps(now, until);
    if now.sec > until.sec || (now.sec == until.sec && now.nsec > until.nsec) {
      return None;
    }
    var t := Truncate((until.sec - now.sec) * 1000);
    if until.nsec >= now.nsec {
      t := Truncate(t + (until.nsec - now.nsec + 999999) / 1000000);
      WrapTwice((until.sec - now.sec) * 1000, (until.nsec - now.nsec + 999999) / 1000000);
    } else {
      // A borrow.
      t := Truncate(t - (now.nsec - until.nsec + 999999) / 1000000);
      WrapTwice((until.sec - now.sec) * 1000, -((now.nsec - until.nsec + 999999) / 1000000));
    }
    return Some(t);
  }

  /** Conversion to mach_msg_timeout_t. */
  function Truncate(x: int): nat {
    x % TIMEOUT_RANGE
  }

  /** For a deadline that has not passed: never negative, off by less than a millisecond, and early, by less than
      that, exactly when the subtraction borrows and a part of a millisecond is left over. */
  lemma RoundedIsClose(now: Time, until: Time)
    requires Valid(now) && Valid(until) && Span(now, until) >= 0
    ensures var ms, span := Rounded(now, until), Span(now, until);
      && ms >= 0
      && -NSEC_PER_MSEC < ms * NSEC_PER_MSEC - span < NSEC_PER_MSEC
      && (ms * NSEC_PER_MSEC < span <==> until.nsec < now.nsec && span % NSEC_PER_MSEC != 0)
      && (span == 0 <==> ms == 0 && until.nsec >= now.nsec)
  {
  }

  /** The timeout survives the conversion to 32 bits exactly for intervals of at most 2^32 - 1 milliseconds, and
      when the subtraction borrows for anything less than 2^32. */
  lemma FitsIff(now: Time, until: Time)
    requires Valid(now) && Valid(until) && Span(now, until) >= 0
    ensures Rounded(now, until) % TIMEOUT_RANGE == Rounded(now, until) <==>
      || Span(now, until) <= (TIMEOUT_RANGE - 1) * NSEC_PER_MSEC
      || (until.nsec < now.nsec && Span(now, until) < TIMEOUT_RANGE * NSEC_PER_MSEC)
  {
    RoundedIsClose(now, until);
  }

  /** One nanosecond over 2^32 - 1 milliseconds, the receive does not wait at all. */
  lemma WrapsToZero()
    ensures var now, until := Time(0, 0), Time(4_294_967, 295_000_001);
      Span(now, until) == (TIMEOUT_RANGE - 1) * NSEC_PER_MSEC + 1 && Rounded(now, until) % TIMEOUT_RANGE == 0
  {
  }

  /** A later deadline gets a shorter timeout exactly if it falls in the same millisecond of the interval, only
      it needs a borrow, and the earlier one was rounded up. */
  lemma ShorterIff(now: Time, until: Time, later: Time)
    requires Valid(now) && Valid(until) && Valid(later) && 0 <= Span(now, until) <= Span(now, later)
    ensures Rounded(now, later) < Rounded(now, until) <==>
      && until.nsec >= now.nsec && later.nsec < now.nsec
      && Span(now, until) % NSEC_PER_MSEC != 0 && Floor(Span(now, until)) == Floor(Span(now, later))
    ensures Rounded(now, later) >= Rounded(now, until) - 1
  {
    RoundedIsClose(now, until);
    RoundedIsClose(now, later);
  }

  /** It does happen: a deadline two nanoseconds later gets a timeout one millisecond shorter. */
  lemma NotMonotone()
    ensures var now, until, later := Time(0, 500_000_001), Time(0, 999_999_998), Time(1, 0);
      Span(now, later) == Span(now, until) + 2 && Rounded(now, later) == Rounded(now, until) - 1
  {
  }
}
