/** Python's `datetime.timedelta`, reduced to what the duration gauge uses.
    Subtracting two datetimes gives the exact difference in microseconds,
    normalised into days, seconds and microseconds with
    0 <= seconds < 86400 and 0 <= microseconds < 10^6 (days may be negative).
    The gauge reads `.seconds`, the seconds-of-day component, which is not
    the total number of seconds. */
module Timedelta {

  const MicrosPerSecond: int := 1000000
  const SecondsPerDay: int := 86400
  const MicrosPerDay: int := 86400000000

  datatype Timedelta = Timedelta(days: int, seconds: int, microseconds: int)

  predicate Normalised(t: Timedelta) {
    0 <= t.seconds < SecondsPerDay && 0 <= t.microseconds < MicrosPerSecond
  }

  function TotalMicros(t: Timedelta): int {
    t.days * MicrosPerDay + t.seconds * MicrosPerSecond + t.microseconds
  }

  lemma DivMod(a: int, b: int, q: int, r: int)
    requires 0 < b && 0 <= r < b && a == q * b + r
    ensures a / b == q && a % b == r
  {
    var q', r' := a / b, a % b;
    assert (q - q') * b == r' - r;
    if q > q' {
      MulAtLeast(q - q', b);
    } else if q < q' {
      MulAtLeast(q' - q, b);
    }
  }

  lemma MulAtLeast(x: int, b: int)
    requires x >= 1 && b > 0
    ensures x * b >= b
  {
  }

  /** `timedelta(microseconds=us)`: the normalised value with that total. */
  function FromMicros(us: int): (t: Timedelta)
    ensures Normalised(t) && TotalMicros(t) == us
  {
    var secs := us / MicrosPerSecond;
    var t := Timedelta(secs / SecondsPerDay, secs % SecondsPerDay, us % MicrosPerSecond);
    assert secs == t.days * SecondsPerDay + t.seconds;
    assert us == secs * MicrosPerSecond + t.microseconds;
    assert TotalMicros(t) == (t.days * SecondsPerDay + t.seconds) * MicrosPerSecond + t.microseconds;
    t
  }

  /** Subtracting two datetimes, given in microseconds: the normalised
      value of the exact difference. */
  function Difference(endMicros: int, startMicros: int): (t: Timedelta)
    ensures Normalised(t) && TotalMicros(t) == endMicros - startMicros
  {
    FromMicros(endMicros - startMicros)
  }

  /** Normalisation is unique: a normalised value is rebuilt from its total. */
  lemma FromTotal(t: Timedelta)
    requires Normalised(t)
    ensures FromMicros(TotalMicros(t)) == t
  {
    var us := TotalMicros(t);
    var secs := t.days * SecondsPerDay + t.seconds;
    assert us == secs * MicrosPerSecond + t.microseconds;
    DivMod(us, MicrosPerSecond, secs, t.microseconds);
    DivMod(secs, SecondsPerDay, t.days, t.seconds);
  }

  /** Within one day and forwards in time, `.seconds` is the elapsed time in
      whole seconds, rounded down. */
  lemma SecondsWithinDay(us: int)
    requires 0 <= us < MicrosPerDay
    ensures FromMicros(us).days == 0
    ensures FromMicros(us).seconds * MicrosPerSecond <= us < (FromMicros(us).seconds + 1) * MicrosPerSecond
  {
    var t := FromMicros(us);
    assert us == t.days * MicrosPerDay + t.seconds * MicrosPerSecond + t.microseconds;
  }

  /** `.seconds` forgets whole days: a duration one day longer reads the same. */
  lemma SecondsIgnoreDays(us: int)
    ensures FromMicros(us + MicrosPerDay).seconds == FromMicros(us).seconds
  {
    var t := FromMicros(us);
    var t' := Timedelta(t.days + 1, t.seconds, t.microseconds);
    assert TotalMicros(t') == us + MicrosPerDay;
    FromTotal(t');
  }

  /** An end stamped up to one second before its start reads 86399, not a
      negative duration. */
  lemma SecondsOfSmallNegative(us: int)
    requires -MicrosPerSecond <= us < 0
    ensures FromMicros(us).seconds == SecondsPerDay - 1
  {
    var t := Timedelta(-1, SecondsPerDay - 1, us + MicrosPerSecond);
    assert TotalMicros(t) == us;
    FromTotal(t);
  }
}
