/**
 * Random variation of a working interval (`_generate_random_times`): both
 * ends move by up to `RANDOM_VARIATION_SECONDS` either way, are kept inside
 * the day, and an end that does not come after the start is pushed one to
 * two hours past it (but never past 23:59:59).
 */
module Jitter {
  import opened Wrappers
  import opened Text
  import opened TimeCodec
  import opened Intervals

  /**
   * Python's global `random` generator, seen from outside: the `k`-th call
   * of `randint` consumes `stream(k)`. Any stream is allowed, so whatever
   * is proved holds for every sequence of draws.
   */
  class Rng {
    const stream: nat -> nat
    var pos: nat

    constructor(stream: nat -> nat)
      ensures this.stream == stream && pos == 0
    {
      this.stream := stream;
      pos := 0;
    }

    /** `random.randint(lo, hi)` */
    method RandInt(lo: int, hi: int) returns (v: int)
      requires lo <= hi
      modifies this
      ensures v == Pick(stream, old(pos), lo, hi) && pos == old(pos) + 1
    {
      v := lo + stream(pos) % (hi - lo + 1);
      pos := pos + 1;
    }
  }

  /** The value `randint(lo, hi)` returns when it consumes draw number `at`. */
  function Pick(stream: nat -> nat, at: nat, lo: int, hi: int): (v: int)
    requires lo <= hi
    ensures lo <= v <= hi
  {
    lo + stream(at) % (hi - lo + 1)
  }

  /** `max(0, min(86399, x))`: keep a second inside the day. */
  function Clamp(x: int): (r: int)
    ensures 0 <= r <= LastSecond
    ensures 0 <= x <= LastSecond ==> r == x
    ensures x < 0 ==> r == 0
    ensures x > LastSecond ==> r == LastSecond
  {
    if x < 0 then 0 else if x > LastSecond then LastSecond else x
  }

  /** Jittered start and end, in seconds, and the position of the next unused draw. */
  datatype Seconds = Seconds(start: int, end: int, next: nat)

  /** The arithmetic of `_generate_random_times` on base seconds `bs` and `be`, with draws from `pos` on. */
  function JitterSeconds(bs: int, be: int, variation: nat, stream: nat -> nat, pos: nat): Seconds
  {
    var v: int := variation;
    var s := Clamp(bs + Pick(stream, pos, -v, v));
    var e := Clamp(be + Pick(stream, pos + 1, -v, v));
    if e <= s then Seconds(s, if s + Pick(stream, pos + 2, 3600, 7200) < LastSecond then s + Pick(stream, pos + 2, 3600, 7200) else LastSecond, pos + 3)
    else Seconds(s, e, pos + 2)
  }

  /** The outcome of `_generate_random_times`: it raises ValueError, or yields an interval and advances the generator. */
  datatype Draw = Raised | Drawn(interval: Interval, next: nat)

  /**
   * `_generate_random_times(base_start, base_end)` with the generator at
   * `pos`. A base time `strptime` rejects raises; so does `randint` when
   * the variation is negative (its range is then empty).
   */
  function JitterAt(variation: int, baseStart: string, baseEnd: string, stream: nat -> nat, pos: nat): Draw
  {
    match (TimeToSeconds(baseStart), TimeToSeconds(baseEnd))
    case (Some(bs), Some(be)) =>
      if variation < 0 then Raised
      else
        var t := JitterSeconds(bs, be, variation, stream, pos);
        Drawn(Interval(SecondsToTime(t.start), SecondsToTime(t.end)), t.next)
    case _ => Raised
  }

  /** The draws of `_generate_random_times` on base seconds `bs` and `be`: two offsets, then a push when the end is not after the start. */
  method JitterDraws(bs: int, be: int, variation: nat, rng: Rng) returns (s: int, e: int)
    modifies rng
    ensures JitterSeconds(bs, be, variation, rng.stream, old(rng.pos)) == Seconds(s, e, rng.pos)
  {
    var v: int := variation;
    var startOffset := rng.RandInt(-v, v);
    var endOffset := rng.RandInt(-v, v);
    s := Clamp(bs + startOffset);
    e := Clamp(be + endOffset);
    if e <= s {
      var push := rng.RandInt(3600, 7200);
      e := s + push;
      e := if e < LastSecond then e else LastSecond;
    }
  }

  /** `_generate_random_times`, drawing from the generator `rng`. */
  method GenerateRandomTimes(variation: int, baseStart: string, baseEnd: string, rng: Rng) returns (r: Option<Interval>)
    modifies rng
    ensures var d := JitterAt(variation, baseStart, baseEnd, rng.stream, old(rng.pos));
      (r.None? <==> d.Raised?) && (d.Drawn? ==> r.value == d.interval && rng.pos == d.next)
    ensures r.None? ==> rng.pos == old(rng.pos)
  {
    var startSeconds := TimeToSeconds(baseStart);
    var endSeconds := TimeToSeconds(baseEnd);
    if startSeconds.None? || endSeconds.None? || variation < 0 {
      return None;
    }
    var s, e := JitterDraws(startSeconds.value, endSeconds.value, variation, rng);
    return Some(Interval(SecondsToTime(s), SecondsToTime(e)));
  }

  // ---- What the jitter guarantees -------------------------------------

  /** The jittered end never comes before the start; it comes after it unless the start is the last second of the day. */
  lemma {:induction false} SecondsOrder(bs: int, be: int, variation: nat, stream: nat -> nat, pos: nat)
    ensures var t := JitterSeconds(bs, be, variation, stream, pos);
      0 <= t.start <= t.end <= LastSecond && (t.start < t.end <==> t.start < LastSecond)
  {
  }

  /**
   * A jittered interval is two canonical `HH:MM:SS` texts whose string order
   * agrees with time order: the start is never after the end, and strictly
   * before it exactly when the start is not 23:59:59.
   */
  lemma JitterShape(variation: int, baseStart: string, baseEnd: string, stream: nat -> nat, pos: nat)
    requires JitterAt(variation, baseStart, baseEnd, stream, pos).Drawn?
    ensures var iv := JitterAt(variation, baseStart, baseEnd, stream, pos).interval;
      IsCanonical(iv.start) && IsCanonical(iv.end) && !Less(iv.end, iv.start) &&
      (Less(iv.start, iv.end) <==> iv.start != SecondsToTime(LastSecond))
  {
    JitterDrawn(variation, baseStart, baseEnd, stream, pos);
    var bs, be := TimeToSeconds(baseStart).value, TimeToSeconds(baseEnd).value;
    var t := JitterSeconds(bs, be, variation, stream, pos);
    SecondsOrder(bs, be, variation, stream, pos);
    TimeOrder(t.start, t.end);
    TimeOrder(t.end, t.start);
    TimeOrder(t.start, LastSecond);
    TimeOrder(LastSecond, t.start);
    LessIrreflexive(SecondsToTime(t.start));
  }

  /** `SecondsOrder`'s companion: where the jittered seconds lie relative to the base seconds. */
  lemma {:induction false} SecondsRange(bs: int, be: int, variation: nat, stream: nat -> nat, pos: nat)
    ensures var t := JitterSeconds(bs, be, variation, stream, pos);
      && Clamp(bs - variation) <= t.start <= Clamp(bs + variation)
      && ((Clamp(be - variation) <= t.end <= Clamp(be + variation) && t.start < t.end)
          || (t.end <= t.start + 7200 && (t.start + 3600 <= t.end || t.end == LastSecond)))
      && t.next in {pos + 2, pos + 3}
  {
  }

  /** With no variation and a base end after the base start, the base seconds come back after two draws. */
  lemma {:induction false} SecondsUnmoved(bs: int, be: int, stream: nat -> nat, pos: nat)
    requires 0 <= bs < be <= LastSecond
    ensures JitterSeconds(bs, be, 0, stream, pos) == Seconds(bs, be, pos + 2)
  {
  }

  /** A drawn interval is the text of the jittered seconds of the two base times. */
  lemma JitterDrawn(variation: int, baseStart: string, baseEnd: string, stream: nat -> nat, pos: nat)
    requires JitterAt(variation, baseStart, baseEnd, stream, pos).Drawn?
    ensures TimeToSeconds(baseStart).Some? && TimeToSeconds(baseEnd).Some? && variation >= 0
    ensures var t := JitterSeconds(TimeToSeconds(baseStart).value, TimeToSeconds(baseEnd).value, variation, stream, pos);
      JitterAt(variation, baseStart, baseEnd, stream, pos) == Drawn(Interval(SecondsToTime(t.start), SecondsToTime(t.end)), t.next)
  {
  }

  /** The ends of a drawn interval read back as the jittered seconds. */
  lemma DrawnSeconds(variation: int, baseStart: string, baseEnd: string, stream: nat -> nat, pos: nat)
    requires JitterAt(variation, baseStart, baseEnd, stream, pos).Drawn?
    ensures TimeToSeconds(baseStart).Some? && TimeToSeconds(baseEnd).Some? && variation >= 0
    ensures var t := JitterSeconds(TimeToSeconds(baseStart).value, TimeToSeconds(baseEnd).value, variation, stream, pos);
      var d := JitterAt(variation, baseStart, baseEnd, stream, pos);
      TimeToSeconds(d.interval.start) == Some(t.start) && TimeToSeconds(d.interval.end) == Some(t.end) && d.next == t.next
  {
    JitterDrawn(variation, baseStart, baseEnd, stream, pos);
    var t := JitterSeconds(TimeToSeconds(baseStart).value, TimeToSeconds(baseEnd).value, variation, stream, pos);
    SecondsOrder(TimeToSeconds(baseStart).value, TimeToSeconds(baseEnd).value, variation, stream, pos);
    TimeRoundTrip(t.start);
    TimeRoundTrip(t.end);
  }

  /**
   * Where the jittered times lie: the start within the variation of the base
   * start (clamped to the day); the end within the variation of the base end,
   * or else one to two hours after the start, cut at 23:59:59.
   */
  lemma JitterRange(variation: int, baseStart: string, baseEnd: string, stream: nat -> nat, pos: nat)
    requires JitterAt(variation, baseStart, baseEnd, stream, pos).Drawn?
    ensures TimeToSeconds(baseStart).Some? && TimeToSeconds(baseEnd).Some?
    ensures var iv := JitterAt(variation, baseStart, baseEnd, stream, pos).interval;
      TimeToSeconds(iv.start).Some? && TimeToSeconds(iv.end).Some?
    ensures var bs, be := TimeToSeconds(baseStart).value, TimeToSeconds(baseEnd).value;
      var iv := JitterAt(variation, baseStart, baseEnd, stream, pos).interval;
      var s, e := TimeToSeconds(iv.start).value, TimeToSeconds(iv.end).value;
      && Clamp(bs - variation) <= s <= Clamp(bs + variation)
      && ((Clamp(be - variation) <= e <= Clamp(be + variation) && s < e)
          || (e <= s + 7200 && (s + 3600 <= e || e == LastSecond)))
    ensures JitterAt(variation, baseStart, baseEnd, stream, pos).next in {pos + 2, pos + 3}
  {
    DrawnSeconds(variation, baseStart, baseEnd, stream, pos);
    SecondsRange(TimeToSeconds(baseStart).value, TimeToSeconds(baseEnd).value, variation, stream, pos);
  }

  /** With no variation, a well-formed base interval comes back unchanged after two draws. */
  lemma NoJitter(baseStart: string, baseEnd: string, stream: nat -> nat, pos: nat)
    requires WellFormed(Interval(baseStart, baseEnd))
    ensures JitterAt(0, baseStart, baseEnd, stream, pos) == Drawn(Interval(baseStart, baseEnd), pos + 2)
  {
    CanonicalRoundTrip(baseStart);
    CanonicalRoundTrip(baseEnd);
    var bs, be := TimeToSeconds(baseStart).value, TimeToSeconds(baseEnd).value;
    TimeOrder(bs, be);
    SecondsUnmoved(bs, be, stream, pos);
  }

  /** A generator whose every draw is 2. */
  function Twos(k: nat): nat
  {
    2
  }

  /** With variation 1 and every draw 2, both offsets are +1, so both ends are cut to 23:59:59 and the push is cut too. */
  lemma CollapseSeconds()
    ensures JitterSeconds(LastSecond, LastSecond, 1, Twos, 0) == Seconds(LastSecond, LastSecond, 3)
  {
    assert Pick(Twos, 0, -1, 1) == 1;
    assert Pick(Twos, 1, -1, 1) == 1;
    assert Pick(Twos, 2, 3600, 7200) == 3602;
  }

  /**
   * The source does not guarantee a positive interval: with a base start of
   * 23:59:59 and the largest start offset, both ends land on 23:59:59.
   */
  lemma JitterCanCollapse()
    ensures var t := SecondsToTime(LastSecond);
      JitterAt(1, t, t, Twos, 0) == Drawn(Interval(t, t), 3)
  {
    TimeRoundTrip(LastSecond);
    CollapseSeconds();
  }
}
