/**
 * Parsing of user-supplied schedule descriptors into intervals:
 * `_parse_interval` (one `H:M[:S]-H:M[:S]` range) and `_parse_same_schedule`
 * (a comma-separated list of ranges used for every working day).
 */
module Intervals {
  import opened Wrappers
  import opened Text
  import opened TimeCodec

  /** A (start, end) pair of time texts, the tuple the source passes around. */
  datatype Interval = Interval(start: string, end: string)

  /** The ValueError raised by a parser, by the check that raised it. */
  datatype ParseError =
    | NotARange       // no '-' in an interval
    | BadTime         // a time with one or more than three fields, or a field `int()` rejects
    | TimeOutOfRange  // hour, minute or second outside 0..23, 0..59, 0..59
    | NotIncreasing   // normalised start not before normalised end
    | NoIntervals     // a same-schedule with no non-blank chunk
    | BadSegment      // a weekly segment without '='
    | BadDayCode      // a weekly segment whose day code is not one of L M X J V S D
    | NoDays          // a weekly schedule with no non-blank segment

  /** Both ends are canonical `HH:MM:SS` texts and the start comes first. */
  predicate WellFormed(iv: Interval)
  {
    IsCanonical(iv.start) && IsCanonical(iv.end) && Less(iv.start, iv.end)
  }

  /**
   * The `norm` helper of `_parse_interval`: strip, split at ':', two fields
   * get seconds "00", each field through `int()`, range check, re-render
   * zero padded.
   */
  function NormTime(t: string): (r: Result<string, ParseError>)
    ensures r.Ok? ==> IsCanonical(r.value)
  {
    var parts := Split(Strip(t), ':');
    if |parts| == 1 || |parts| > 3 then Err(BadTime)
    else
      // with two fields the seconds are the text "00", which int() reads as 0
      var seconds := if |parts| == 2 then Some(0) else PyInt(parts[2]);
      match (PyInt(parts[0]), PyInt(parts[1]), seconds)
      case (Some(h), Some(m), Some(x)) =>
        if 0 <= h < 24 && 0 <= m < 60 && 0 <= x < 60 then
          ClockText(h, m, x, h * 3600 + m * 60 + x);
          Ok(Clock(h, m, x))
        else Err(TimeOutOfRange)
      case _ => Err(BadTime)
  }

  /** `_parse_interval`: split at the first '-', normalise both sides, demand start < end (as strings). */
  function ParseInterval(text: string): (r: Result<Interval, ParseError>)
    ensures r.Ok? ==> WellFormed(r.value)
    ensures '-' !in text ==> r == Err(NotARange)
  {
    match Find(text, '-')
    case None => Err(NotARange)
    case Some(k) =>
      match NormTime(text[..k])
      case Err(e) => Err(e)
      case Ok(start) =>
        match NormTime(text[k + 1..])
        case Err(e) => Err(e)
        case Ok(end) => if !Less(start, end) then Err(NotIncreasing) else Ok(Interval(start, end))
  }

  /** A time with a number of ':'-fields other than two or three is rejected. */
  lemma NormFieldCount(t: string)
    requires |Split(Strip(t), ':')| != 2 && |Split(Strip(t), ':')| != 3
    ensures NormTime(t) == Err(BadTime)
  {
  }

  /** A field `int()` rejects makes the time a bad one, with two fields as with three. */
  lemma NormNotANumber(t: string)
    requires var parts := Split(Strip(t), ':');
      (|parts| == 2 || |parts| == 3) &&
      (PyInt(parts[0]).None? || PyInt(parts[1]).None? || (|parts| == 3 && PyInt(parts[2]).None?))
    ensures NormTime(t) == Err(BadTime)
  {
  }

  /** Values `int()` accepts but that are out of range are rejected, `HH:MM` (seconds 0) as well as `HH:MM:SS`. */
  lemma NormOutOfRange(t: string, h: int, m: int, x: int)
    requires |Split(Strip(t), ':')| == 2 || |Split(Strip(t), ':')| == 3
    requires PyInt(Split(Strip(t), ':')[0]) == Some(h)
    requires PyInt(Split(Strip(t), ':')[1]) == Some(m)
    requires if |Split(Strip(t), ':')| == 2 then x == 0 else PyInt(Split(Strip(t), ':')[2]) == Some(x)
    requires !(0 <= h < 24 && 0 <= m < 60 && 0 <= x < 60)
    ensures NormTime(t) == Err(TimeOutOfRange)
  {
  }

  /**
   * How `_parse_interval` fails or succeeds once the first '-' is at `k`: the
   * left side's error first, then the right side's, then the order check.
   */
  lemma ParseIntervalSides(text: string, k: nat)
    requires Find(text, '-') == Some(k)
    ensures NormTime(text[..k]).Err? ==> ParseInterval(text) == Err(NormTime(text[..k]).error)
    ensures NormTime(text[..k]).Ok? && NormTime(text[k + 1..]).Err? ==>
      ParseInterval(text) == Err(NormTime(text[k + 1..]).error)
    ensures NormTime(text[..k]).Ok? && NormTime(text[k + 1..]).Ok? ==>
      var start, end := NormTime(text[..k]).value, NormTime(text[k + 1..]).value;
      ParseInterval(text) == if Less(start, end) then Ok(Interval(start, end)) else Err(NotIncreasing)
  {
    var left, right := NormTime(text[..k]), NormTime(text[k + 1..]);
    assert ParseInterval(text) ==
      match left
      case Err(e) => Err(e)
      case Ok(start) =>
        match right
        case Err(e) => Err(e)
        case Ok(end) => if !Less(start, end) then Err(NotIncreasing) else Ok(Interval(start, end));
  }

  lemma {:induction false} PyIntPad2(n: nat)
    requires n < 100
    ensures PyInt(Pad2(n)) == Some(n)
  {
    var s := Pad2(n);
    PyIntSmall(s);
    assert PyInt(s) == Some(10 * DigitValue(s[0]) + DigitValue(s[1]));
  }

  /** How `norm` reads a time whose fields `int()` accepts and that are in range. */
  lemma NormFields(t: string, fields: seq<string>, h: int, m: int, x: int)
    requires Split(Strip(t), ':') == fields && (|fields| == 2 || |fields| == 3)
    requires PyInt(fields[0]) == Some(h) && PyInt(fields[1]) == Some(m)
    requires if |fields| == 2 then x == 0 else PyInt(fields[2]) == Some(x)
    requires 0 <= h < 24 && 0 <= m < 60 && 0 <= x < 60
    ensures NormTime(t) == Ok(Clock(h, m, x))
  {
  }

  /** `int()` reads a two-digit numeral as its value. */
  lemma PyIntPair(f: string)
    requires |f| == 2 && IsDigit(f[0]) && IsDigit(f[1])
    ensures PyInt(f) == Some(Pair(f[0], f[1]))
  {
    PyIntSmall(f);
  }

  /** A canonical text splits into its three fields, which `int()` reads as their values. */
  lemma CanonicalFields(s: string)
    requires IsCanonical(s)
    ensures Split(Strip(s), ':') == [s[..2], s[3..5], s[6..]]
    ensures PyInt(s[..2]) == Some(Pair(s[0], s[1]))
    ensures PyInt(s[3..5]) == Some(Pair(s[3], s[4]))
    ensures PyInt(s[6..]) == Some(Pair(s[6], s[7]))
  {
    StripKeeps(s);
    SplitCanonical(s);
    var f, g, k := s[..2], s[3..5], s[6..];
    assert f[0] == s[0] && f[1] == s[1] && g[0] == s[3] && g[1] == s[4] && k[0] == s[6] && k[1] == s[7];
    PyIntPair(f);
    PyIntPair(g);
    PyIntPair(k);
  }

  /** Normalising a canonical time changes nothing. */
  lemma NormOfCanonical(s: string)
    requires IsCanonical(s)
    ensures NormTime(s) == Ok(s)
  {
    CanonicalFields(s);
    NormFields(s, [s[..2], s[3..5], s[6..]], Pair(s[0], s[1]), Pair(s[3], s[4]), Pair(s[6], s[7]));
    CanonicalIsClock(s);
  }

  /** Normalising an already canonical time changes nothing. */
  lemma NormCanonical(n: int)
    requires 0 <= n <= LastSecond
    ensures NormTime(SecondsToTime(n)) == Ok(SecondsToTime(n))
  {
    NormOfCanonical(SecondsToTime(n));
  }

  /** `HH:MM`: a time of day written without its seconds. */
  function ShortTime(h: nat, m: nat): string
    requires h < 100 && m < 100
  {
    Pad2(h) + ":" + Pad2(m)
  }

  /** `HH:MM` splits into its two two-digit fields. */
  lemma ShortFields(h: nat, m: nat)
    requires h < 100 && m < 100
    ensures Split(Strip(ShortTime(h, m)), ':') == [Pad2(h), Pad2(m)]
  {
    var t := ShortTime(h, m);
    assert IsDigit(t[0]) && IsDigit(t[4]);
    StripKeeps(t);
    var fields := [Pad2(h), Pad2(m)];
    assert Join(fields, ':') == t;
    SplitJoin(fields, ':');
  }

  /** `HH:MM` without seconds normalises to `HH:MM:00`. */
  lemma NormWithoutSeconds(h: nat, m: nat)
    requires h < 24 && m < 60
    ensures NormTime(ShortTime(h, m)) == Ok(Clock(h, m, 0))
  {
    ShortFields(h, m);
    PyIntPad2(h);
    PyIntPad2(m);
    NormFields(ShortTime(h, m), [Pad2(h), Pad2(m)], h, m, 0);
  }

  /** A successful parse is an interval whose start is strictly earlier, as a time of day, than its end. */
  lemma ParsedIsOrdered(text: string)
    requires ParseInterval(text).Ok?
    ensures var iv := ParseInterval(text).value;
      TimeToSeconds(iv.start).Some? && TimeToSeconds(iv.end).Some? &&
      TimeToSeconds(iv.start).value < TimeToSeconds(iv.end).value
  {
    var iv := ParseInterval(text).value;
    CanonicalRoundTrip(iv.start);
    CanonicalRoundTrip(iv.end);
    TimeOrder(TimeToSeconds(iv.start).value, TimeToSeconds(iv.end).value);
  }

  lemma CanonicalHasNo(s: string, c: char)
    requires IsCanonical(s) && c != ':' && !IsDigit(c)
    ensures c !in s
  {
    assert forall i :: 0 <= i < |s| ==> s[i] == ':' || IsDigit(s[i]);
  }

  /** `x-y` for two canonical times parses to (x, y) when x comes first, and is rejected otherwise. */
  lemma ParseCanonicalPair(x: string, y: string)
    requires IsCanonical(x) && IsCanonical(y)
    ensures ParseInterval(x + "-" + y) == if Less(x, y) then Ok(Interval(x, y)) else Err(NotIncreasing)
  {
    var text := x + "-" + y;
    CanonicalHasNo(x, '-');
    FindAfterPrefix(x, '-', y);
    assert text[..8] == x && text[9..] == y;
    NormOfCanonical(x);
    NormOfCanonical(y);
  }

  /** `start-end` rendered from two times of day parses back to them exactly when start < end. */
  lemma IntervalRoundTrip(a: int, b: int)
    requires 0 <= a <= LastSecond && 0 <= b <= LastSecond
    ensures ParseInterval(SecondsToTime(a) + "-" + SecondsToTime(b)) ==
      if a < b then Ok(Interval(SecondsToTime(a), SecondsToTime(b))) else Err(NotIncreasing)
  {
    ParseCanonicalPair(SecondsToTime(a), SecondsToTime(b));
    TimeOrder(a, b);
  }

  /** `HH:MM-HH:MM`: an interval written without seconds. */
  function ShortIntervalText(h1: nat, m1: nat, h2: nat, m2: nat): string
    requires h1 < 100 && m1 < 100 && h2 < 100 && m2 < 100
  {
    ShortTime(h1, m1) + "-" + ShortTime(h2, m2)
  }

  /** `HH:MM-HH:MM` parses to the two times with seconds `00` when the start is the earlier minute, and is rejected otherwise. */
  lemma ShortInterval(h1: nat, m1: nat, h2: nat, m2: nat)
    requires h1 < 24 && m1 < 60 && h2 < 24 && m2 < 60
    ensures ParseInterval(ShortIntervalText(h1, m1, h2, m2)) ==
      if h1 * 60 + m1 < h2 * 60 + m2 then Ok(Interval(Clock(h1, m1, 0), Clock(h2, m2, 0))) else Err(NotIncreasing)
  {
    var a, b := ShortTime(h1, m1), ShortTime(h2, m2);
    var text := a + "-" + b;
    assert forall i :: 0 <= i < |a| ==> a[i] == ':' || IsDigit(a[i]);
    FindAfterPrefix(a, '-', b);
    assert text[..5] == a && text[6..] == b;
    NormWithoutSeconds(h1, m1);
    NormWithoutSeconds(h2, m2);
    ClockTextOrder(h1, m1, 0, h2, m2, 0);
  }

  /** `HH:MM-HH:MM` is non-blank, has no surrounding whitespace, no `,` or `;`, and ends in a digit. */
  lemma ShortIntervalShape(h1: nat, m1: nat, h2: nat, m2: nat)
    requires h1 < 100 && m1 < 100 && h2 < 100 && m2 < 100
    ensures var t := ShortIntervalText(h1, m1, h2, m2);
      t != [] && Strip(t) == t && ',' !in t && ';' !in t && IsDigit(t[|t| - 1])
  {
    var t := ShortIntervalText(h1, m1, h2, m2);
    assert forall i :: 0 <= i < |t| ==> t[i] == ':' || t[i] == '-' || IsDigit(t[i]);
    assert IsDigit(t[0]) && IsDigit(t[10]);
    StripKeeps(t);
  }

  /** `HH:MM-HH:MM` with the earlier minute first parses to its interval and is a plain chunk: non-blank, stripped, without `,` or `;`, ending in a digit. */
  lemma ShortParses(h1: nat, m1: nat, h2: nat, m2: nat)
    requires h1 < 24 && m1 < 60 && h2 < 24 && m2 < 60 && h1 * 60 + m1 < h2 * 60 + m2
    ensures var t := ShortIntervalText(h1, m1, h2, m2);
      && ParseInterval(t) == Ok(Interval(Clock(h1, m1, 0), Clock(h2, m2, 0)))
      && t != [] && Strip(t) == t && ',' !in t && ';' !in t && IsDigit(t[|t| - 1])
  {
    ShortInterval(h1, m1, h2, m2);
    ShortIntervalShape(h1, m1, h2, m2);
  }

  // ---- _parse_same_schedule ----------------------------------------------

  /** A parser of one interval, `_parse_interval` in the program. */
  type Parser = string -> Result<Interval, ParseError>

  /**
   * The loop of `_parse_same_schedule` over the comma chunks seen so far,
   * with `parse` parsing each interval: blank chunks are skipped, the others
   * parsed in order, the first error wins.
   */
  function ParseChunks(parse: Parser, chunks: seq<string>): Result<seq<Interval>, ParseError>
  {
    if chunks == [] then Ok([])
    else match ParseChunks(parse, chunks[..|chunks| - 1])
      case Err(e) => Err(e)
      case Ok(done) =>
        var c := Strip(chunks[|chunks| - 1]);
        if c == [] then Ok(done)
        else match parse(c)
          case Err(e) => Err(e)
          case Ok(iv) => Ok(done + [iv])
  }

  /** `_parse_same_schedule` */
  function SameSchedule(text: string): Result<seq<Interval>, ParseError>
  {
    match ParseChunks(ParseInterval, Split(text, ','))
    case Err(e) => Err(e)
    case Ok(ivs) => if ivs == [] then Err(NoIntervals) else Ok(ivs)
  }

  /** Once a chunk has failed, later chunks do not matter. */
  lemma {:induction false} ChunkErrorSticks(parse: Parser, chunks: seq<string>, j: nat)
    requires j <= |chunks| && ParseChunks(parse, chunks[..j]).Err?
    ensures ParseChunks(parse, chunks) == ParseChunks(parse, chunks[..j])
    decreases |chunks| - j
  {
    if j < |chunks| {
      var next := chunks[..j + 1];
      assert next[..|next| - 1] == chunks[..j];
      ChunkErrorSticks(parse, chunks, j + 1);
    } else {
      assert chunks[..j] == chunks;
    }
  }

  /** A blank chunk leaves the parsed list as it is. */
  lemma ChunkBlank(parse: Parser, chunks: seq<string>, i: nat, done: seq<Interval>)
    requires i < |chunks| && ParseChunks(parse, chunks[..i]) == Ok(done) && Strip(chunks[i]) == []
    ensures ParseChunks(parse, chunks[..i + 1]) == Ok(done)
  {
    assert chunks[..i + 1][..i] == chunks[..i];
  }

  /** A non-blank chunk that fails to parse makes its error the outcome. */
  lemma ChunkFails(parse: Parser, chunks: seq<string>, i: nat, done: seq<Interval>)
    requires i < |chunks| && ParseChunks(parse, chunks[..i]) == Ok(done)
    requires Strip(chunks[i]) != [] && parse(Strip(chunks[i])).Err?
    ensures ParseChunks(parse, chunks[..i + 1]) == Err(parse(Strip(chunks[i])).error)
  {
    assert chunks[..i + 1][..i] == chunks[..i];
  }

  /** A non-blank chunk that parses appends its interval. */
  lemma ChunkParses(parse: Parser, chunks: seq<string>, i: nat, done: seq<Interval>)
    requires i < |chunks| && ParseChunks(parse, chunks[..i]) == Ok(done)
    requires Strip(chunks[i]) != [] && parse(Strip(chunks[i])).Ok?
    ensures ParseChunks(parse, chunks[..i + 1]) == Ok(done + [parse(Strip(chunks[i])).value])
  {
    assert chunks[..i + 1][..i] == chunks[..i];
  }

  /** `_parse_same_schedule` as the source runs it: a loop appending each parsed chunk. */
  method ParseSameSchedule(text: string) returns (r: Result<seq<Interval>, ParseError>)
    ensures r == SameSchedule(text)
  {
    var chunks := Split(text, ',');
    var intervals: seq<Interval> := [];
    for i := 0 to |chunks|
      invariant ParseChunks(ParseInterval, chunks[..i]) == Ok(intervals)
    {
      var chunk := Strip(chunks[i]);
      if chunk == [] {
        ChunkBlank(ParseInterval, chunks, i, intervals);
        continue;
      }
      var parsed := ParseInterval(chunk);
      if parsed.Err? {
        ChunkFails(ParseInterval, chunks, i, intervals);
        ChunkErrorSticks(ParseInterval, chunks, i + 1);
        return Err(parsed.error);
      }
      ChunkParses(ParseInterval, chunks, i, intervals);
      intervals := intervals + [parsed.value];
    }
    assert chunks[..|chunks|] == chunks;
    if intervals == [] {
      return Err(NoIntervals);
    }
    return Ok(intervals);
  }

  /** The chunks that are not blank once stripped, stripped, in order. */
  function NonBlank(chunks: seq<string>): seq<string>
  {
    if chunks == [] then []
    else
      var c := Strip(chunks[|chunks| - 1]);
      NonBlank(chunks[..|chunks| - 1]) + (if c == [] then [] else [c])
  }

  /** Parsing each of `texts` with `parse`, in order; the first failure wins. */
  function ParseEach(parse: Parser, texts: seq<string>): Result<seq<Interval>, ParseError>
  {
    if texts == [] then Ok([])
    else match ParseEach(parse, texts[..|texts| - 1])
      case Err(e) => Err(e)
      case Ok(done) =>
        match parse(texts[|texts| - 1])
        case Err(e) => Err(e)
        case Ok(iv) => Ok(done + [iv])
  }

  /** The chunk loop parses exactly the non-blank chunks, stripped, in order. */
  lemma {:induction false} ChunksAreNonBlank(parse: Parser, chunks: seq<string>)
    ensures ParseChunks(parse, chunks) == ParseEach(parse, NonBlank(chunks))
  {
    if chunks != [] {
      var init := chunks[..|chunks| - 1];
      ChunksAreNonBlank(parse, init);
      var c := Strip(chunks[|chunks| - 1]);
      if c != [] {
        var nb := NonBlank(init) + [c];
        assert NonBlank(chunks) == nb;
        assert nb[..|nb| - 1] == NonBlank(init) && nb[|nb| - 1] == c;
      } else {
        assert NonBlank(chunks) == NonBlank(init) + [];
        assert NonBlank(init) + [] == NonBlank(init);
      }
    }
  }

  /** `ParseEach` succeeds exactly when every text parses, and then yields their intervals in order. */
  lemma {:induction false} ParseEachMeaning(parse: Parser, texts: seq<string>)
    ensures ParseEach(parse, texts).Ok? <==> forall i :: 0 <= i < |texts| ==> parse(texts[i]).Ok?
    ensures ParseEach(parse, texts).Ok? ==>
      |ParseEach(parse, texts).value| == |texts| &&
      forall i :: 0 <= i < |texts| ==> parse(texts[i]) == Ok(ParseEach(parse, texts).value[i])
  {
    if texts != [] {
      var init := texts[..|texts| - 1];
      ParseEachMeaning(parse, init);
      assert forall i :: 0 <= i < |init| ==> texts[i] == init[i];
      var last := texts[|texts| - 1];
      match ParseEach(parse, init)
      case Err(_) =>
        var i :| 0 <= i < |init| && !parse(init[i]).Ok?;
        assert !parse(texts[i]).Ok?;
      case Ok(done) =>
        match parse(last)
        case Err(_) =>
        case Ok(iv) =>
          var all := done + [iv];
          forall i | 0 <= i < |texts|
            ensures parse(texts[i]) == Ok(all[i])
          {
            if i < |init| {
              assert all[i] == done[i];
            }
          }
    }
  }

  /**
   * What the chunk loop computes: it succeeds exactly when every non-blank
   * chunk parses, and then yields their intervals in input order.
   */
  lemma ChunksMeaning(parse: Parser, chunks: seq<string>)
    ensures ParseChunks(parse, chunks).Ok? <==> forall i :: 0 <= i < |NonBlank(chunks)| ==> parse(NonBlank(chunks)[i]).Ok?
    ensures ParseChunks(parse, chunks).Ok? ==>
      |ParseChunks(parse, chunks).value| == |NonBlank(chunks)| &&
      forall i :: 0 <= i < |NonBlank(chunks)| ==> parse(NonBlank(chunks)[i]) == Ok(ParseChunks(parse, chunks).value[i])
  {
    ChunksAreNonBlank(parse, chunks);
    ParseEachMeaning(parse, NonBlank(chunks));
  }

  /**
   * `_parse_same_schedule` succeeds exactly when some chunk is non-blank and
   * every non-blank chunk is a valid interval; the intervals then come in
   * input order and each is well formed.
   */
  lemma SameScheduleMeaning(text: string)
    ensures var nb := NonBlank(Split(text, ','));
      SameSchedule(text).Ok? <==> |nb| > 0 && forall i :: 0 <= i < |nb| ==> ParseInterval(nb[i]).Ok?
    ensures var nb := NonBlank(Split(text, ','));
      SameSchedule(text).Ok? ==>
        var ivs := SameSchedule(text).value;
        |ivs| == |nb| && forall i :: 0 <= i < |ivs| ==> ParseInterval(nb[i]) == Ok(ivs[i]) && WellFormed(ivs[i])
  {
    ChunksMeaning(ParseInterval, Split(text, ','));
  }

  /** The text of one interval, `start-end`. */
  function Render(iv: Interval): string
  {
    iv.start + "-" + iv.end
  }

  /** The texts of a list of intervals, in order. */
  function Renders(ivs: seq<Interval>): (texts: seq<string>)
    ensures |texts| == |ivs| && forall i :: 0 <= i < |ivs| ==> texts[i] == Render(ivs[i])
  {
    seq(|ivs|, i requires 0 <= i < |ivs| => Render(ivs[i]))
  }

  /** Every well-formed interval is the parse of its own text: the parser is onto its well-formed results. */
  lemma RenderParses(iv: Interval)
    requires WellFormed(iv)
    ensures ParseInterval(Render(iv)) == Ok(iv)
  {
    ParseCanonicalPair(iv.start, iv.end);
  }

  /** The text of a well-formed interval holds no comma, has no surrounding whitespace and is not empty. */
  lemma RenderShape(iv: Interval)
    requires WellFormed(iv)
    ensures ',' !in Render(iv) && Strip(Render(iv)) == Render(iv) && Render(iv) != []
  {
    var t := Render(iv);
    CanonicalHasNo(iv.start, ',');
    CanonicalHasNo(iv.end, ',');
    assert t[0] == iv.start[0] && t[|t| - 1] == iv.end[7];
    StripKeeps(t);
  }

  lemma {:induction false} NonBlankIdentity(chunks: seq<string>)
    requires forall i :: 0 <= i < |chunks| ==> Strip(chunks[i]) == chunks[i] && chunks[i] != []
    ensures NonBlank(chunks) == chunks
  {
    if chunks != [] {
      NonBlankIdentity(chunks[..|chunks| - 1]);
      assert chunks == chunks[..|chunks| - 1] + [chunks[|chunks| - 1]];
    }
  }

  /** Chunks whose non-blank parts parse one by one to `ivs` make the chunk loop yield `ivs`. */
  lemma ChunksParseTo(parse: Parser, chunks: seq<string>, ivs: seq<Interval>)
    requires |NonBlank(chunks)| == |ivs|
    requires forall i :: 0 <= i < |ivs| ==> parse(NonBlank(chunks)[i]) == Ok(ivs[i])
    ensures ParseChunks(parse, chunks) == Ok(ivs)
  {
    ChunksMeaning(parse, chunks);
    var r := ParseChunks(parse, chunks);
    assert r.Ok?;
    assert r.value == ivs;
  }

  /** A comma list of texts, each a non-blank, already stripped interval that parses, parses to those intervals. */
  lemma SameScheduleOfTexts(texts: seq<string>, ivs: seq<Interval>)
    requires |texts| == |ivs| >= 1
    requires forall i :: 0 <= i < |texts| ==>
      ',' !in texts[i] && Strip(texts[i]) == texts[i] && texts[i] != [] && ParseInterval(texts[i]) == Ok(ivs[i])
    ensures SameSchedule(Join(texts, ',')) == Ok(ivs)
  {
    SplitJoin(texts, ',');
    NonBlankIdentity(texts);
    ChunksParseTo(ParseInterval, texts, ivs);
  }

  lemma ParseEachPair(parse: Parser, t1: string, t2: string, iv1: Interval, iv2: Interval)
    requires parse(t1) == Ok(iv1) && parse(t2) == Ok(iv2)
    ensures ParseEach(parse, [t1, t2]) == Ok([iv1, iv2])
  {
    ParseEachOne(parse, t1, iv1);
    assert [t1, t2][..1] == [t1];
    assert [iv1] + [iv2] == [iv1, iv2];
  }

  lemma ParseEachOne(parse: Parser, t: string, iv: Interval)
    requires parse(t) == Ok(iv)
    ensures ParseEach(parse, [t]) == Ok([iv])
  {
    assert [t][..0] == [];
    assert ParseEach(parse, []) == Ok([]);
    assert [] + [iv] == [iv];
  }

  /** Two such texts joined by a comma parse to their two intervals. */
  lemma SameScheduleOfPair(t1: string, t2: string, iv1: Interval, iv2: Interval)
    requires ',' !in t1 && Strip(t1) == t1 && t1 != [] && ParseInterval(t1) == Ok(iv1)
    requires ',' !in t2 && Strip(t2) == t2 && t2 != [] && ParseInterval(t2) == Ok(iv2)
    ensures SameSchedule(Join([t1, t2], ',')) == Ok([iv1, iv2])
  {
    var texts := [t1, t2];
    forall i | 0 <= i < 2
      ensures ',' !in texts[i] && Strip(texts[i]) == texts[i] && texts[i] != []
    {
    }
    SplitJoin(texts, ',');
    NonBlankIdentity(texts);
    ChunksAreNonBlank(ParseInterval, texts);
    ParseEachPair(ParseInterval, t1, t2, iv1, iv2);
  }

  /** One such text on its own parses to its interval. */
  lemma SameScheduleOfOne(t: string, iv: Interval)
    requires ',' !in t && Strip(t) == t && t != [] && ParseInterval(t) == Ok(iv)
    ensures SameSchedule(Join([t], ',')) == Ok([iv])
  {
    SplitJoin([t], ',');
    NonBlankIdentity([t]);
    ChunksAreNonBlank(ParseInterval, [t]);
    ParseEachOne(ParseInterval, t, iv);
  }

  /** Writing well-formed intervals as a comma list and parsing it with `_parse_same_schedule` gives them back. */
  lemma SameScheduleRoundTrip(ivs: seq<Interval>)
    requires |ivs| >= 1 && forall i :: 0 <= i < |ivs| ==> WellFormed(ivs[i])
    ensures SameSchedule(Join(Renders(ivs), ',')) == Ok(ivs)
  {
    var texts := Renders(ivs);
    forall i | 0 <= i < |ivs|
      ensures ',' !in texts[i] && Strip(texts[i]) == texts[i] && texts[i] != [] && ParseInterval(texts[i]) == Ok(ivs[i])
    {
      RenderShape(ivs[i]);
      RenderParses(ivs[i]);
    }
    SameScheduleOfTexts(texts, ivs);
  }
}
