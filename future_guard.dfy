/**
 * The future guard (`_is_future_time`): with `SKIP_FUTURE_DATES` on, an end
 * time is "in the future" when the date and time it names come after the
 * moment the filer object was created, or when that text cannot be read as
 * a date and time at all.
 */
module FutureGuard {
  import opened Wrappers
  import opened Text
  import opened TimeCodec

  /**
   * A moment to the whole second. The creation time `datetime.now()` also
   * has microseconds, but an end time read by `strptime` has none, so
   * "end > now" is the same comparison against now with its microseconds
   * dropped.
   */
  datatype Moment = Moment(year: int, month: int, day: int, second: int)

  /** `a > b` for datetimes: year, then month, then day, then time of day. */
  predicate After(a: Moment, b: Moment)
  {
    a.year > b.year || (a.year == b.year &&
      (a.month > b.month || (a.month == b.month &&
        (a.day > b.day || (a.day == b.day && a.second > b.second)))))
  }

  /**
   * `strptime(f"{year}-{month:02d}-{day:02d} {end}", "%Y-%m-%d %H:%M:%S")`
   * for a valid date: `%Y` takes exactly four digits, so the year must be
   * 1000..9999; the space of the format matches a run of whitespace, which
   * absorbs leading whitespace of `end`; the rest of the text is read as
   * `%H:%M:%S`. None where `strptime` raises ValueError.
   */
  function EndInstant(year: int, month: int, day: int, endTime: string): (r: Option<Moment>)
    ensures r.Some? ==> r.value.year == year && r.value.month == month && r.value.day == day
    ensures r.Some? ==> 0 <= r.value.second <= LastSecond
  {
    if 1000 <= year <= 9999 then
      match TimeToSeconds(TrimLeft(endTime))
      case None => None
      case Some(n) => Some(Moment(year, month, day, n))
    else None
  }

  /**
   * `_is_future_time(year, month, day, end_time)` with the creation moment
   * `now`: off when `skipFuture` is false; an unreadable end counts as future.
   */
  function IsFutureTime(skipFuture: bool, now: Moment, year: int, month: int, day: int, endTime: string): bool
  {
    if !skipFuture then false
    else match EndInstant(year, month, day, endTime)
      case None => true
      case Some(t) => After(t, now)
  }

  // ---- What the guard decides -----------------------------------------

  /** For a canonical end time in a four-digit year, the guard answers exactly "does this moment come after now". */
  lemma FutureOfCanonical(now: Moment, year: int, month: int, day: int, n: int)
    requires 1000 <= year <= 9999 && 0 <= n <= LastSecond
    ensures IsFutureTime(true, now, year, month, day, SecondsToTime(n)) <==> After(Moment(year, month, day, n), now)
  {
    var t := SecondsToTime(n);
    assert TrimLeft(t) == t by {
      assert !IsSpace(t[0]);
    }
    TimeRoundTrip(n);
  }

  /** Whitespace in front of the end time does not change the answer. */
  lemma {:induction false} LeadingSpaceIgnored(skipFuture: bool, now: Moment, year: int, month: int, day: int, c: char, endTime: string)
    requires IsSpace(c)
    ensures IsFutureTime(skipFuture, now, year, month, day, [c] + endTime) == IsFutureTime(skipFuture, now, year, month, day, endTime)
  {
    assert ([c] + endTime)[1..] == endTime;
  }

  /** An end time `strptime` cannot read, or a year outside 1000..9999, always counts as future when the guard is on. */
  lemma UnreadableIsFuture(now: Moment, year: int, month: int, day: int, endTime: string)
    requires !(1000 <= year <= 9999) || TimeToSeconds(TrimLeft(endTime)).None?
    ensures IsFutureTime(true, now, year, month, day, endTime)
  {
  }

  /** Any readable end time on a day before today's is in the past; on a day after today's it is in the future. */
  lemma DayDecides(now: Moment, year: int, month: int, day: int, endTime: string)
    requires EndInstant(year, month, day, endTime).Some?
    ensures After(Moment(now.year, now.month, now.day, 0), Moment(year, month, day, 0)) ==>
      !IsFutureTime(true, now, year, month, day, endTime)
    ensures After(Moment(year, month, day, 0), Moment(now.year, now.month, now.day, LastSecond)) ==>
      IsFutureTime(true, now, year, month, day, endTime)
  {
  }

  /** A later end time on the same day is future whenever an earlier one is. */
  lemma FutureMonotone(now: Moment, year: int, month: int, day: int, a: int, b: int)
    requires 1000 <= year <= 9999 && 0 <= a <= b <= LastSecond
    ensures IsFutureTime(true, now, year, month, day, SecondsToTime(a)) ==>
      IsFutureTime(true, now, year, month, day, SecondsToTime(b))
  {
    FutureOfCanonical(now, year, month, day, a);
    FutureOfCanonical(now, year, month, day, b);
  }
}
