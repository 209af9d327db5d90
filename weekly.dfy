/**
 * The weekly schedule parser (`_parse_weekly_schedule`): segments separated
 * by `;`, each `DAY=intervals`, where DAY is one of the Spanish weekday
 * letters L M X J V S D (Monday to Sunday) and the intervals are a
 * `_parse_same_schedule` list. The result maps weekday indexes (Monday = 0)
 * to interval lists; a day named twice keeps its last list.
 */
module Weekly {
  import opened Wrappers
  import opened Text
  import opened TimeCodec
  import opened Intervals

  /** The day letters in weekday order: `DayLetters[i]` names weekday `i`. */
  const DayLetters: string := "LMXJVSD"

  /** One parsed segment: a weekday index and its intervals. */
  datatype DayEntry = DayEntry(day: nat, intervals: seq<Interval>)

  /**
   * `str.upper()` on one character, as far as it can yield a day letter:
   * ASCII lower-case letters, and the long s (U+017F), whose upper case is `S`.
   */
  function UpperChar(c: char): char
  {
    if 'a' <= c <= 'z' then (c as int - 32) as char
    else if c == 'ſ' then 'S'
    else c
  }

  /** The position of a character in `DayLetters`. */
  function LetterIndex(c: char): (r: Option<nat>)
    ensures r.Some? ==> r.value < 7 && DayLetters[r.value] == c
    ensures r.None? ==> c !in DayLetters
  {
    if c == 'L' then Some(0)
    else if c == 'M' then Some(1)
    else if c == 'X' then Some(2)
    else if c == 'J' then Some(3)
    else if c == 'V' then Some(4)
    else if c == 'S' then Some(5)
    else if c == 'D' then Some(6)
    else None
  }

  /**
   * `day_map[day_code.strip().upper()]`: the stripped code must be one
   * character whose upper case is a day letter. (No other Unicode character
   * upper-cases to a single day letter, and `upper()` never shortens a text.)
   */
  function DayIndex(code: string): (r: Option<nat>)
    ensures r.Some? ==> r.value < 7
  {
    var t := Strip(code);
    if |t| == 1 then LetterIndex(UpperChar(t[0])) else None
  }

  /** One segment of the weekly text: None for a blank segment, otherwise its day and intervals. */
  function Entry(segment: string): Result<Option<DayEntry>, ParseError>
  {
    var seg := Strip(segment);
    if seg == [] then Ok(None)
    else match Find(seg, '=')
      case None => Err(BadSegment)
      case Some(k) =>
        match DayIndex(seg[..k])
        case None => Err(BadDayCode)
        case Some(d) =>
          match SameSchedule(seg[k + 1..])
          case Err(e) => Err(e)
          case Ok(ivs) => Ok(Some(DayEntry(d, ivs)))
  }

  /** Each segment's outcome, in order. */
  function Entries(segments: seq<string>): (rs: seq<Result<Option<DayEntry>, ParseError>>)
    ensures |rs| == |segments| && forall i :: 0 <= i < |segments| ==> rs[i] == Entry(segments[i])
  {
    seq(|segments|, i requires 0 <= i < |segments| => Entry(segments[i]))
  }

  /**
   * The segment loop over a prefix of the segment outcomes: the first error
   * wins, blank segments are skipped, and a later segment for a day replaces
   * an earlier one.
   */
  function Gather(rs: seq<Result<Option<DayEntry>, ParseError>>): Result<map<nat, seq<Interval>>, ParseError>
  {
    if rs == [] then Ok(map[])
    else match Gather(rs[..|rs| - 1])
      case Err(e) => Err(e)
      case Ok(days) =>
        match rs[|rs| - 1]
        case Err(e) => Err(e)
        case Ok(None) => Ok(days)
        case Ok(Some(entry)) => Ok(days[entry.day := entry.intervals])
  }

  /** `_parse_weekly_schedule` */
  function WeeklySchedule(text: string): Result<map<nat, seq<Interval>>, ParseError>
  {
    match Gather(Entries(Split(text, ';')))
    case Err(e) => Err(e)
    case Ok(days) => if days == map[] then Err(NoDays) else Ok(days)
  }

  /** Once a segment has failed, later segments do not matter. */
  lemma {:induction false} GatherErrorSticks(rs: seq<Result<Option<DayEntry>, ParseError>>, j: nat)
    requires j <= |rs| && Gather(rs[..j]).Err?
    ensures Gather(rs) == Gather(rs[..j])
    decreases |rs| - j
  {
    if j < |rs| {
      var next := rs[..j + 1];
      assert next[..|next| - 1] == rs[..j];
      GatherErrorSticks(rs, j + 1);
    } else {
      assert rs[..j] == rs;
    }
  }

  /** The body of the segment loop for one segment: strip, split at the first `=`, look up the day, parse its intervals. */
  method ParseSegment(segment: string) returns (r: Result<Option<DayEntry>, ParseError>)
    ensures r == Entry(segment)
  {
    var seg := Strip(segment);
    if seg == [] {
      return Ok(None);
    }
    var eq := Find(seg, '=');
    if eq.None? {
      return Err(BadSegment);
    }
    var day := DayIndex(seg[..eq.value]);
    if day.None? {
      return Err(BadDayCode);
    }
    var intervals := ParseSameSchedule(seg[eq.value + 1..]);
    if intervals.Err? {
      return Err(intervals.error);
    }
    return Ok(Some(DayEntry(day.value, intervals.value)));
  }

  /** One more segment outcome: an error stays, an error outcome becomes the result, a blank is skipped, an entry is stored. */
  lemma GatherNext(rs: seq<Result<Option<DayEntry>, ParseError>>, r: Result<Option<DayEntry>, ParseError>)
    ensures Gather(rs).Err? ==> Gather(rs + [r]) == Gather(rs)
    ensures Gather(rs).Ok? ==> (Gather(rs + [r]) ==
      match r
      case Err(e) => Err(e)
      case Ok(None) => Gather(rs)
      case Ok(Some(entry)) => Ok(Gather(rs).value[entry.day := entry.intervals]))
  {
    assert (rs + [r])[..|rs|] == rs;
  }

  lemma EntriesNext(segments: seq<string>, i: nat)
    requires i < |segments|
    ensures Entries(segments[..i + 1]) == Entries(segments[..i]) + [Entry(segments[i])]
  {
    var a, b := Entries(segments[..i + 1]), Entries(segments[..i]) + [Entry(segments[i])];
    assert |a| == |b|;
    forall k | 0 <= k < |a|
      ensures a[k] == b[k]
    {
      if k < i {
        assert segments[..i + 1][k] == segments[..i][k];
      }
    }
  }

  /** A segment that failed ends the loop: the segments after it do not matter. */
  lemma EntriesErrorSticks(segments: seq<string>, i: nat)
    requires i < |segments| && Gather(Entries(segments[..i + 1])).Err?
    ensures Gather(Entries(segments)) == Gather(Entries(segments[..i + 1]))
  {
    var rs := Entries(segments);
    assert Entries(segments[..i + 1]) == rs[..i + 1];
    GatherErrorSticks(rs, i + 1);
  }

  /** The segment loop of `_parse_weekly_schedule`: parse each segment in order, store its entry, stop at the first error. */
  method ParseSegments(segments: seq<string>) returns (r: Result<map<nat, seq<Interval>>, ParseError>)
    ensures r == Gather(Entries(segments))
  {
    var result: map<nat, seq<Interval>> := map[];
    for i := 0 to |segments|
      invariant Gather(Entries(segments[..i])) == Ok(result)
    {
      var outcome := ParseSegment(segments[i]);
      EntriesNext(segments, i);
      GatherNext(Entries(segments[..i]), outcome);
      match outcome
      case Err(e) =>
        EntriesErrorSticks(segments, i);
        return Err(e);
      case Ok(None) =>
      case Ok(Some(entry)) =>
        result := result[entry.day := entry.intervals];
    }
    assert segments[..|segments|] == segments;
    return Ok(result);
  }

  /** `_parse_weekly_schedule` as the source runs it: split at `;`, fill a dictionary, reject an empty one. */
  method ParseWeeklySchedule(text: string) returns (r: Result<map<nat, seq<Interval>>, ParseError>)
    ensures r == WeeklySchedule(text)
  {
    var days := ParseSegments(Split(text, ';'));
    if days.Err? {
      return Err(days.error);
    }
    if days.value == map[] {
      return Err(NoDays);
    }
    return Ok(days.value);
  }

  // ---- What the parser yields -----------------------------------------

  /** Outcome `r` is a valid, non-blank segment for weekday `d`. */
  predicate Names(r: Result<Option<DayEntry>, ParseError>, d: nat)
  {
    r.Ok? && r.value.Some? && r.value.value.day == d
  }

  /** A parsed segment names a weekday and carries a non-empty list of well-formed intervals. */
  lemma EntryWellFormed(seg: string)
    requires Entry(seg).Ok? && Entry(seg).value.Some?
    ensures ValidEntry(Entry(seg).value.value)
  {
    var s := Strip(seg);
    var k := Find(s, '=').value;
    SameScheduleMeaning(s[k + 1..]);
  }

  /** The segment loop succeeds exactly when every segment is blank or valid. */
  lemma {:induction false} GatherSucceeds(rs: seq<Result<Option<DayEntry>, ParseError>>)
    ensures Gather(rs).Ok? <==> forall j :: 0 <= j < |rs| ==> rs[j].Ok?
  {
    if rs != [] {
      var init := rs[..|rs| - 1];
      GatherSucceeds(init);
      assert forall j :: 0 <= j < |init| ==> init[j] == rs[j];
    }
  }

  /** The keys of a parsed weekly dictionary are exactly the days its valid segments name. */
  lemma {:induction false} GatherKeys(rs: seq<Result<Option<DayEntry>, ParseError>>)
    requires Gather(rs).Ok?
    ensures forall d :: d in Gather(rs).value <==> exists j :: 0 <= j < |rs| && Names(rs[j], d)
  {
    if rs != [] {
      var init := rs[..|rs| - 1];
      GatherKeys(init);
      var days := Gather(init).value;
      var now := Gather(rs).value;
      forall d
        ensures d in now <==> exists j :: 0 <= j < |rs| && Names(rs[j], d)
      {
        if d in days {
          var j :| 0 <= j < |init| && Names(init[j], d);
          assert rs[j] == init[j];
        }
        if j :| 0 <= j < |rs| && Names(rs[j], d) {
          if j < |init| {
            assert init[j] == rs[j];
          }
        }
      }
    }
  }

  /** Each day of a parsed weekly dictionary holds the intervals of the LAST segment that names it. */
  lemma {:induction false} GatherLastWins(rs: seq<Result<Option<DayEntry>, ParseError>>, j: nat)
    requires Gather(rs).Ok?
    requires j < |rs| && rs[j].Ok? && rs[j].value.Some?
    requires forall k :: j < k < |rs| ==> !Names(rs[k], rs[j].value.value.day)
    ensures rs[j].value.value.day in Gather(rs).value
    ensures Gather(rs).value[rs[j].value.value.day] == rs[j].value.value.intervals
  {
    var init := rs[..|rs| - 1];
    if j < |init| {
      assert init[j] == rs[j];
      forall k | j < k < |init|
        ensures !Names(init[k], rs[j].value.value.day)
      {
        assert init[k] == rs[k];
      }
      GatherLastWins(init, j);
      assert !Names(rs[|rs| - 1], rs[j].value.value.day);
    }
  }

  /** A dictionary gathered from valid segments maps weekday indexes to non-empty lists of well-formed intervals. */
  lemma {:induction false} GatherWellFormed(rs: seq<Result<Option<DayEntry>, ParseError>>)
    requires Gather(rs).Ok?
    requires forall j :: 0 <= j < |rs| && rs[j].Ok? && rs[j].value.Some? ==> ValidEntry(rs[j].value.value)
    ensures forall d :: d in Gather(rs).value ==> ValidEntry(DayEntry(d, Gather(rs).value[d]))
  {
    if rs != [] {
      var init := rs[..|rs| - 1];
      assert forall j :: 0 <= j < |init| ==> init[j] == rs[j];
      GatherWellFormed(init);
    }
  }

  /** `_parse_weekly_schedule` either fails or names at least one weekday, each with a non-empty, well-formed list. */
  lemma WeeklyWellFormed(text: string)
    requires WeeklySchedule(text).Ok?
    ensures var days := WeeklySchedule(text).value;
      days != map[] &&
      forall d :: d in days ==> ValidEntry(DayEntry(d, days[d]))
  {
    var rs := Entries(Split(text, ';'));
    forall j | 0 <= j < |rs| && rs[j].Ok? && rs[j].value.Some?
      ensures ValidEntry(rs[j].value.value)
    {
      EntryWellFormed(Split(text, ';')[j]);
    }
    GatherWellFormed(rs);
    forall d | d in WeeklySchedule(text).value
      ensures ValidEntry(DayEntry(d, WeeklySchedule(text).value[d]))
    {
    }
  }

  // ---- Writing a weekly schedule and reading it back ------------------

  /** The text of one entry, `DAY=start-end,start-end,...`. */
  function EntryText(e: DayEntry): string
    requires ValidEntry(e)
  {
    [DayLetters[e.day]] + "=" + Join(Renders(e.intervals), ',')
  }

  /** The dictionary a list of entries builds, a later entry for a day replacing an earlier one. */
  function Collect(es: seq<DayEntry>): (days: map<nat, seq<Interval>>)
    ensures es != [] ==> es[|es| - 1].day in days && days != map[]
  {
    if es == [] then map[]
    else
      var last := es[|es| - 1];
      Collect(es[..|es| - 1])[last.day := last.intervals]
  }

  /** A valid entry: a weekday and a non-empty list of well-formed intervals. */
  predicate ValidEntry(e: DayEntry)
  {
    e.day < 7 && |e.intervals| >= 1 && forall i :: 0 <= i < |e.intervals| ==> WellFormed(e.intervals[i])
  }

  /** The texts of a list of valid entries, in order. */
  function EntryTexts(es: seq<DayEntry>): (texts: seq<string>)
    requires forall i :: 0 <= i < |es| ==> ValidEntry(es[i])
    ensures |texts| == |es| && forall i :: 0 <= i < |es| ==> texts[i] == EntryText(es[i])
  {
    seq(|es|, i requires 0 <= i < |es| => EntryText(es[i]))
  }

  /** Lower-case day letters are accepted as well as upper-case ones. */
  lemma DayIndexLetters(i: nat)
    requires i < 7
    ensures DayIndex([DayLetters[i]]) == Some(i)
    ensures DayIndex([DayLetters[i] + 32 as char]) == Some(i)
  {
    StripKeeps([DayLetters[i]]);
    StripKeeps([DayLetters[i] + 32 as char]);
  }

  /** Rendered intervals contain no `;` and end in a digit. */
  lemma JoinedRendersShape(ivs: seq<Interval>)
    requires |ivs| >= 1 && forall i :: 0 <= i < |ivs| ==> WellFormed(ivs[i])
    ensures ';' !in Join(Renders(ivs), ',')
    ensures |Join(Renders(ivs), ',')| > 0 && IsDigit(Join(Renders(ivs), ',')[|Join(Renders(ivs), ',')| - 1])
    decreases |ivs|
  {
    var iv := ivs[0];
    CanonicalHasNo(iv.start, ';');
    CanonicalHasNo(iv.end, ';');
    if |ivs| > 1 {
      JoinedRendersShape(ivs[1..]);
      assert Renders(ivs)[1..] == Renders(ivs[1..]);
    }
  }

  /** How a segment is read once its parts are known: stripped already, `=` at `k`, the day code and the intervals valid. */
  lemma EntryOfParts(seg: string, k: nat, d: nat, ivs: seq<Interval>)
    requires Strip(seg) == seg && seg != [] && Find(seg, '=') == Some(k)
    requires DayIndex(seg[..k]) == Some(d) && SameSchedule(seg[k + 1..]) == Ok(ivs)
    ensures Entry(seg) == Ok(Some(DayEntry(d, ivs)))
  {
  }

  /** A day letter is neither whitespace nor one of the separators `=` and `;`. */
  lemma DayLetterPlain(i: nat)
    requires i < 7
    ensures !IsSpace(DayLetters[i]) && DayLetters[i] != '=' && DayLetters[i] != ';'
  {
  }

  lemma DigitNotSpace(c: char)
    requires IsDigit(c)
    ensures !IsSpace(c)
  {
  }

  /** A day letter, `=`, then a comma list that `_parse_same_schedule` accepts, is read as that day's entry. */
  lemma EntryOfDay(i: nat, body: string, ivs: seq<Interval>)
    requires i < 7 && body != [] && IsDigit(body[|body| - 1]) && SameSchedule(body) == Ok(ivs)
    ensures Entry([DayLetters[i]] + "=" + body) == Ok(Some(DayEntry(i, ivs)))
  {
    var text := [DayLetters[i]] + "=" + body;
    DayLetterPlain(i);
    DigitNotSpace(body[|body| - 1]);
    assert text[0] == DayLetters[i] && text[|text| - 1] == body[|body| - 1];
    StripKeeps(text);
    FindAfterPrefix([DayLetters[i]], '=', body);
    assert text[..1] == [DayLetters[i]] && text[2..] == body;
    DayIndexLetters(i);
    EntryOfParts(text, 1, i, ivs);
  }

  /** The text of a valid entry is parsed back to that entry. */
  lemma EntryRoundTrip(e: DayEntry)
    requires ValidEntry(e)
    ensures Entry(EntryText(e)) == Ok(Some(e))
    ensures ';' !in EntryText(e)
  {
    var body := Join(Renders(e.intervals), ',');
    JoinedRendersShape(e.intervals);
    SameScheduleRoundTrip(e.intervals);
    EntryOfDay(e.day, body, e.intervals);
    DayLetterPlain(e.day);
    assert EntryText(e) == [DayLetters[e.day]] + "=" + body;
  }

  /** Gathering segments that all parsed builds the dictionary their entries describe. */
  lemma {:induction false} GatherEntries(rs: seq<Result<Option<DayEntry>, ParseError>>, es: seq<DayEntry>)
    requires |rs| == |es| && forall i :: 0 <= i < |es| ==> rs[i] == Ok(Some(es[i]))
    ensures Gather(rs) == Ok(Collect(es))
  {
    if es != [] {
      var init := rs[..|rs| - 1];
      assert forall i :: 0 <= i < |init| ==> init[i] == rs[i];
      GatherEntries(init, es[..|es| - 1]);
    }
  }

  /** `;`-joined segments, each read as an entry, parse to the dictionary those entries build. */
  lemma WeeklyOfSegments(segments: seq<string>, es: seq<DayEntry>)
    requires |segments| == |es| >= 1
    requires forall i :: 0 <= i < |es| ==> ';' !in segments[i] && Entry(segments[i]) == Ok(Some(es[i]))
    ensures WeeklySchedule(Join(segments, ';')) == Ok(Collect(es))
  {
    SplitJoin(segments, ';');
    GatherEntries(Entries(segments), es);
  }

  /** Writing valid entries as `DAY=...;DAY=...` and parsing the text yields the dictionary they describe. */
  lemma WeeklyRoundTrip(es: seq<DayEntry>)
    requires |es| >= 1 && forall i :: 0 <= i < |es| ==> ValidEntry(es[i])
    ensures WeeklySchedule(Join(EntryTexts(es), ';')) == Ok(Collect(es))
  {
    var texts := EntryTexts(es);
    forall i | 0 <= i < |es|
      ensures ';' !in texts[i] && Entry(texts[i]) == Ok(Some(es[i]))
    {
      EntryRoundTrip(es[i]);
    }
    WeeklyOfSegments(texts, es);
  }

  /** A segment `DAY=interval,interval,...` for day `d`. */
  function DaySegment(d: nat, texts: seq<string>): string
    requires d < 7 && |texts| >= 1
  {
    [DayLetters[d]] + "=" + Join(texts, ',')
  }

  /** The schedule in `_parse_weekly_schedule`'s documentation, `L=08:00-14:30,15:00-17:00;V=08:00-14:00`. */
  function DocumentedText(): string
  {
    Join([DaySegment(0, [ShortIntervalText(8, 0, 14, 30), ShortIntervalText(15, 0, 17, 0)]),
          DaySegment(4, [ShortIntervalText(8, 0, 14, 0)])], ';')
  }

  /** Two segments read as entries, joined by `;`, parse to the dictionary of the two. */
  lemma WeeklyOfPair(s1: string, s2: string, e1: DayEntry, e2: DayEntry)
    requires ';' !in s1 && Entry(s1) == Ok(Some(e1))
    requires ';' !in s2 && Entry(s2) == Ok(Some(e2))
    ensures WeeklySchedule(Join([s1, s2], ';')) == Ok(map[e1.day := e1.intervals][e2.day := e2.intervals])
  {
    var segments, es := [s1, s2], [e1, e2];
    forall i | 0 <= i < 2
      ensures ';' !in segments[i] && Entry(segments[i]) == Ok(Some(es[i]))
    {
      if i == 0 {
        assert segments[i] == s1 && es[i] == e1;
      } else {
        assert segments[i] == s2 && es[i] == e2;
      }
    }
    WeeklyOfSegments(segments, es);
    assert es[..1] == [e1] && [e1][..0] == [];
    assert Collect([e1]) == map[e1.day := e1.intervals];
    assert Collect(es) == Collect([e1])[e2.day := e2.intervals];
  }

  /** The interval texts of the documented schedule are plain chunks: non-blank, stripped, without `,` or `;`, ending in a digit. */
  lemma DocumentedShapes()
    ensures var t := ShortIntervalText(8, 0, 14, 30);
      t != [] && Strip(t) == t && ',' !in t && ';' !in t && IsDigit(t[|t| - 1])
    ensures var t := ShortIntervalText(15, 0, 17, 0);
      t != [] && Strip(t) == t && ',' !in t && ';' !in t && IsDigit(t[|t| - 1])
    ensures var t := ShortIntervalText(8, 0, 14, 0);
      t != [] && Strip(t) == t && ',' !in t && ';' !in t && IsDigit(t[|t| - 1])
  {
    ShortIntervalShape(8, 0, 14, 30);
    ShortIntervalShape(15, 0, 17, 0);
    ShortIntervalShape(8, 0, 14, 0);
  }

  /** The comma lists of the documented schedule parse to their intervals. */
  lemma DocumentedIntervals()
    ensures SameSchedule(Join([ShortIntervalText(8, 0, 14, 30), ShortIntervalText(15, 0, 17, 0)], ',')) ==
      Ok([Interval(Clock(8, 0, 0), Clock(14, 30, 0)), Interval(Clock(15, 0, 0), Clock(17, 0, 0))])
    ensures SameSchedule(Join([ShortIntervalText(8, 0, 14, 0)], ',')) == Ok([Interval(Clock(8, 0, 0), Clock(14, 0, 0))])
  {
    DocumentedShapes();
    ShortInterval(8, 0, 14, 30);
    ShortInterval(15, 0, 17, 0);
    ShortInterval(8, 0, 14, 0);
    SameScheduleOfPair(ShortIntervalText(8, 0, 14, 30), ShortIntervalText(15, 0, 17, 0),
                       Interval(Clock(8, 0, 0), Clock(14, 30, 0)), Interval(Clock(15, 0, 0), Clock(17, 0, 0)));
    SameScheduleOfOne(ShortIntervalText(8, 0, 14, 0), Interval(Clock(8, 0, 0), Clock(14, 0, 0)));
  }

  /** A segment whose comma list holds no `;` holds none either. */
  lemma SegmentShape(d: nat, texts: seq<string>)
    requires d < 7 && |texts| >= 1 && ';' !in Join(texts, ',')
    ensures ';' !in DaySegment(d, texts)
  {
    DayLetterPlain(d);
  }

  /** The two segments of the documented schedule are read as Monday's and Friday's entries. */
  lemma DocumentedEntries()
    ensures var seg := DaySegment(0, [ShortIntervalText(8, 0, 14, 30), ShortIntervalText(15, 0, 17, 0)]);
      && ';' !in seg
      && Entry(seg) == Ok(Some(DayEntry(0, [Interval(Clock(8, 0, 0), Clock(14, 30, 0)), Interval(Clock(15, 0, 0), Clock(17, 0, 0))])))
    ensures var seg := DaySegment(4, [ShortIntervalText(8, 0, 14, 0)]);
      && ';' !in seg
      && Entry(seg) == Ok(Some(DayEntry(4, [Interval(Clock(8, 0, 0), Clock(14, 0, 0))])))
  {
    var t1, t2, t3 := ShortIntervalText(8, 0, 14, 30), ShortIntervalText(15, 0, 17, 0), ShortIntervalText(8, 0, 14, 0);
    DocumentedShapes();
    DocumentedIntervals();
    assert Join([t1, t2], ',') == t1 + [','] + t2;
    assert Join([t3], ',') == t3;
    EntryOfDay(0, Join([t1, t2], ','), [Interval(Clock(8, 0, 0), Clock(14, 30, 0)), Interval(Clock(15, 0, 0), Clock(17, 0, 0))]);
    EntryOfDay(4, Join([t3], ','), [Interval(Clock(8, 0, 0), Clock(14, 0, 0))]);
    SegmentShape(0, [t1, t2]);
    SegmentShape(4, [t3]);
  }

  /** The documented schedule gives Monday (0) two intervals and Friday (4) one, seconds defaulted to `00`. */
  lemma DocumentedSchedule()
    ensures WeeklySchedule(DocumentedText()) ==
      Ok(map[0 := [Interval(Clock(8, 0, 0), Clock(14, 30, 0)), Interval(Clock(15, 0, 0), Clock(17, 0, 0))],
             4 := [Interval(Clock(8, 0, 0), Clock(14, 0, 0))]])
  {
    DocumentedEntries();
    WeeklyOfPair(DaySegment(0, [ShortIntervalText(8, 0, 14, 30), ShortIntervalText(15, 0, 17, 0)]),
                 DaySegment(4, [ShortIntervalText(8, 0, 14, 0)]),
                 DayEntry(0, [Interval(Clock(8, 0, 0), Clock(14, 30, 0)), Interval(Clock(15, 0, 0), Clock(17, 0, 0))]),
                 DayEntry(4, [Interval(Clock(8, 0, 0), Clock(14, 0, 0))]));
  }

  lemma ShortSpelling()
    ensures ShortIntervalText(8, 0, 14, 30) == "08:00-14:30"
    ensures ShortIntervalText(15, 0, 17, 0) == "15:00-17:00"
    ensures ShortIntervalText(8, 0, 14, 0) == "08:00-14:00"
  {
  }

  lemma ClockSpelling()
    ensures Clock(8, 0, 0) == "08:00:00" && Clock(14, 30, 0) == "14:30:00"
    ensures Clock(15, 0, 0) == "15:00:00" && Clock(17, 0, 0) == "17:00:00" && Clock(14, 0, 0) == "14:00:00"
  {
  }

  lemma SegmentOfPair(d: nat, t1: string, t2: string)
    requires d < 7
    ensures DaySegment(d, [t1, t2]) == [DayLetters[d]] + "=" + t1 + "," + t2
  {
    assert Join([t1, t2], ',') == t1 + [','] + t2;
  }

  lemma MondaySpelling()
    ensures DaySegment(0, [ShortIntervalText(8, 0, 14, 30), ShortIntervalText(15, 0, 17, 0)]) == "L=08:00-14:30,15:00-17:00"
  {
    SegmentOfPair(0, ShortIntervalText(8, 0, 14, 30), ShortIntervalText(15, 0, 17, 0));
    ShortSpelling();
    assert DayLetters[0] == 'L';
  }

  lemma FridaySpelling()
    ensures DaySegment(4, [ShortIntervalText(8, 0, 14, 0)]) == "V=08:00-14:00"
  {
    ShortSpelling();
    assert DayLetters[4] == 'V';
  }

  /** The documented schedule, spelled out. */
  lemma DocumentedSpelling()
    ensures DocumentedText() == "L=08:00-14:30,15:00-17:00;V=08:00-14:00"
  {
    MondaySpelling();
    FridaySpelling();
  }

  /** `_parse_weekly_schedule("L=08:00-14:30,15:00-17:00;V=08:00-14:00")` yields exactly the keys 0 and 4, with these intervals. */
  lemma DocumentedExample()
    ensures WeeklySchedule("L=08:00-14:30,15:00-17:00;V=08:00-14:00") ==
      Ok(map[0 := [Interval("08:00:00", "14:30:00"), Interval("15:00:00", "17:00:00")],
             4 := [Interval("08:00:00", "14:00:00")]])
  {
    DocumentedSchedule();
    DocumentedSpelling();
    ClockSpelling();
  }
}
