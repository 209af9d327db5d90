# Woffu autologin: the monthly filing engine

`woffu_cli.py` files clock-in/clock-out entries on the Woffu time-tracking
service. Its class `WoffuAutologin` has a monthly filing,
`execute_monthly_filing`, which works through every day of a month in five steps:

1. It chooses the day's base intervals. There are three strategies:
   - one base interval `start_time-end_time`;
   - `--same-schedule`, a comma list such as `08:00-14:30,15:00-17:00` used on every day;
   - `--weekly-schedule`, a list per weekday such as `L=08:00-14:30,15:00-17:00;V=08:00-14:00`.
2. It jitters each interval by up to `RANDOM_VARIATION_SECONDS`.
3. It drops the intervals that end in the future.
4. It sorts the rest by start time and rejects the day if two of them overlap.
5. It files the day through the `woffu.py` back end, either as one multi-interval request or as one request per interval.

Along the way it counts filed, skipped and failed days.

This project models that engine in Dafny. It proves the following about it:

- **Time texts.** The `HH:MM:SS` conversions are inverse to each other, and the string order of canonical times agrees with their numeric order.
- **Schedule parsers.** The three parsers are exact: every well-formed schedule written out is parsed back. The example in the weekly parser's documentation parses as documented.
- **Jitter.** The jitter stays within its bounds, and with no variation it is the identity.
- **Sorting.** The sort is a stable permutation ordered by start.
- **Overlap check.** The adjacent-pairs check is equivalent to pairwise disjointness on a sorted list.
- **Future recheck.** The day-level future recheck can never fire, because the randomizing loop has already dropped every interval that ends in the future.
- **Tally.** Every day of the month is counted exactly once unless an exception escapes.
- **Requests.** Every request sent is for a valid date of the requested month, skips weekends when asked to, and carries no interval ending in the future. A multi-interval request is sorted and free of overlaps.
- **Dry run.** A dry run sends nothing and reports what a run whose every request succeeds would report, after the same random draws.
- **Future months.** With the future guard on, a month that starts after today files nothing.

The Dafny modules, one per file:

| module | what it covers |
|---|---|
| `Wrappers` | `Option` and `Result` |
| `Text` | Python's `str.strip`, `split`, `join`, `find`, string ordering and `int()` |
| `TimeCodec` | `_time_to_seconds` / `_seconds_to_time` |
| `Calendar` | `_is_weekday` and `_get_days_in_month` |
| `Intervals` | `_parse_interval` and `_parse_same_schedule` |
| `Weekly` | `_parse_weekly_schedule` |
| `Jitter` | `_generate_random_times`, over a random-number generator object |
| `FutureGuard` | `_is_future_time` |
| `Overlap` | the sort and the overlap pass |
| `Monthly` | the filing as specification functions, and the class `WoffuAutologin`, whose methods are proved to compute them |
| `MonthlyProps` | the properties of the filing |

How the model is shaped:

- The model follows the code in keeping times as text. Intervals are sorted and compared as strings, exactly as the source does.
- The code's own loops appear as methods with loop invariants, proved against the specification functions:
  - the chunk loop of the same-schedule parser;
  - the segment loop of the weekly parser;
  - the randomizing loop;
  - the overlap pass;
  - the submission loop;
  - the day loop.
- Three classes keep the objects that change state:
  - `Jitter.Rng` is the random-number generator: a fixed stream of draws and a position in it.
  - `Monthly.Remote` is the filing back end: a fixed answer per request, and a log of the requests made.
  - `Monthly.WoffuAutologin` holds the moment it was created.

The comment at woffu_cli.py:105 asks for the departure time to come after the arrival time, but the code does not guarantee it. A start clamped to 23:59:59 gets an end pushed forward and then clamped back to 23:59:59, so the two ends are equal (woffu_cli.py:102-108). The model follows the code. `Jitter.JitterCanCollapse` shows such a draw, and `Jitter.SecondsOrder` proves what the code does keep: the end is never before the start, and is strictly after it unless the start is the last second of the day.

## Model

| member | source | states |
|---|---|---|
| Text.TrimLeftMeaning | woffu_cli.py:194 | `lstrip` removes exactly a leading run of whitespace and leaves text that does not start with whitespace |
| Text.TrimRightMeaning | woffu_cli.py:194 | `rstrip` removes exactly a trailing run of whitespace and leaves text that does not end with whitespace |
| Text.StripKeeps | woffu_cli.py:218 | text whose ends are not whitespace is left unchanged by `strip()` |
| Text.Find | woffu_cli.py:190-192 | the position found is the first occurrence of the separator; None exactly when it is absent |
| Text.Split | woffu_cli.py:217 | `split(c)` yields at least one piece and no piece contains the separator |
| Text.SplitJoin | woffu_cli.py:217 | splitting a joined list gives the list back when no piece holds the separator |
| Text.JoinSplit | woffu_cli.py:217 | joining the pieces of a split gives back the text |
| Text.LessIrreflexive | woffu_cli.py:210 | no time text is before itself |
| Text.LessTransitive | woffu_cli.py:355 | Python's string order is transitive |
| Text.LessTotal | woffu_cli.py:355 | Python's string order is total and asymmetric: exactly one of `a < b`, `a == b`, `b < a` |
| Text.NotAfterTransitive | woffu_cli.py:358 | "not after" is transitive, so adjacent non-overlap chains along a sorted list |
| Text.LessConcat | woffu_cli.py:210 | texts with equal-length prefixes compare by the prefixes first, then by the rest |
| Text.PyIntSmall | woffu_cli.py:204 | `int()` reads a one- or two-digit numeral as its decimal value |
| TimeCodec.Pad2 | woffu_cli.py:207 | `{n:02d}` is two digits whose decimal value is `n` |
| TimeCodec.SecondsToTime | woffu_cli.py:73-78 | every second of the day is written as a canonical `HH:MM:SS` text |
| TimeCodec.Field | woffu_cli.py:65-71 | a `strptime` field accepted is one or two digits with a value below its limit |
| TimeCodec.TimeToSeconds | woffu_cli.py:65-71 | an accepted time has three fields and is a second of the day, 0..86399 |
| TimeCodec.SplitCanonical | woffu_cli.py:65-71 | a canonical text splits at its colons into its three two-digit fields |
| TimeCodec.Decompose | woffu_cli.py:73-78 | a second of the day is hours, minutes and seconds in range put back together |
| TimeCodec.Compose | woffu_cli.py:65-71 | hours, minutes and seconds in range make a second of the day with those hours, minutes and seconds |
| TimeCodec.ClockText | woffu_cli.py:73-78 | the text of h:m:x is its three fields in two digits each |
| TimeCodec.ReadCanonical | woffu_cli.py:65-71 | `strptime` reads a canonical text as the seconds its fields make up |
| TimeCodec.Pad2OfPair | woffu_cli.py:207 | rewriting a two-digit numeral's value in two digits gives the numeral back |
| TimeCodec.CanonicalIsClock | woffu_cli.py:73-78 | every canonical text is the clock text of its own fields |
| TimeCodec.CanonicalRoundTrip | woffu_cli.py:65-78 | a canonical text is read and written back unchanged |
| TimeCodec.Pad2Order | woffu_cli.py:207-210 | two-digit numerals compare as strings exactly as their values compare |
| TimeCodec.FieldAfterColon | woffu_cli.py:207-210 | a colon-led field compares by its value first, then by the rest |
| TimeCodec.ClockTextOrder | woffu_cli.py:207-210 | clock texts compare as strings exactly as their (hours, minutes, seconds) triples do |
| TimeCodec.ClockOrder | woffu_cli.py:65-71 | comparing seconds of the day is comparing (hours, minutes, seconds) lexicographically |
| TimeCodec.TimeOrder | woffu_cli.py:73-78 | the string order of written times is their numeric order, in both directions |
| TimeCodec.TimeRoundTrip | woffu_cli.py:65-78 | reading back a written time gives the same second |
| Calendar.DaysInMonth | woffu_cli.py:85-87 | a month has 28 to 31 days; February has 29 exactly in leap years; April, June, September and November have 30 |
| Calendar.Weekday | woffu_cli.py:80-83 | the weekday is 0 (Monday) to 6 (Sunday) |
| Calendar.MonthTablesAgree | woffu_cli.py:85-87 | each month starts where the previous one ends and December ends the year |
| Calendar.YearLength | woffu_cli.py:80-83 | consecutive year starts are a year's length apart |
| Calendar.LeapCount | woffu_cli.py:80-83 | the leap-day count goes up by one exactly in a leap year |
| Calendar.NextDayWeekday | woffu_cli.py:80-83 | consecutive days, across month and year ends, have consecutive weekdays |
| Calendar.WeekdayAnchors | woffu_cli.py:80-83 | 1 January of year 1 was a Monday; 1 October 2025 a Wednesday; 4 and 5 October 2025 are weekend days and 6 October a weekday |
| Intervals.NormTime | woffu_cli.py:193-207 | a normalised time is canonical `HH:MM:SS` |
| Intervals.ParseInterval | woffu_cli.py:187-212 | a parsed interval is well formed (canonical, start before end); without `-` the text is rejected as not a range |
| Intervals.NormFieldCount | woffu_cli.py:194-203 | a time with one field or more than three is rejected |
| Intervals.NormNotANumber | woffu_cli.py:194-204 | a time of two or three fields, one of which `int()` rejects, is rejected as a bad time |
| Intervals.NormOutOfRange | woffu_cli.py:194-206 | fields `int()` accepts but that are out of range are rejected as out of range, for `HH:MM` (seconds 0) as for `HH:MM:SS` |
| Intervals.PyIntPad2 | woffu_cli.py:204 | `int()` reads `{n:02d}` as `n` |
| Intervals.NormFields | woffu_cli.py:193-207 | fields `int()` reads as in-range values normalise to their clock text, seconds defaulting to 0 |
| Intervals.PyIntPair | woffu_cli.py:204 | `int()` reads a two-digit numeral as its value |
| Intervals.CanonicalFields | woffu_cli.py:193-204 | a canonical text splits into three fields, each read by `int()` as its value |
| Intervals.NormOfCanonical | woffu_cli.py:193-207 | normalisation leaves a canonical text unchanged |
| Intervals.NormCanonical | woffu_cli.py:193-207 | normalisation is the identity on written times |
| Intervals.ShortFields | woffu_cli.py:194-199 | `HH:MM` splits into its two two-digit fields |
| Intervals.NormWithoutSeconds | woffu_cli.py:197-199 | `HH:MM` normalises to `HH:MM:00` |
| Intervals.ParseIntervalSides | woffu_cli.py:190-212 | once the first `-` is found, the interval fails with the left side's error, else with the right side's, else as not increasing unless start < end |
| Intervals.ParsedIsOrdered | woffu_cli.py:209-212 | a parsed interval's start is strictly earlier than its end as a time of day |
| Intervals.CanonicalHasNo | woffu_cli.py:190-192 | a canonical time holds no separator such as `-` |
| Intervals.ParseCanonicalPair | woffu_cli.py:187-212 | `x-y` of canonical times parses to (x, y) exactly when x comes first, and is otherwise rejected as not increasing |
| Intervals.IntervalRoundTrip | woffu_cli.py:187-212 | writing two times of day as `start-end` and parsing gives them back exactly when start < end |
| Intervals.ShortInterval | woffu_cli.py:187-212 | `HH:MM-HH:MM` parses to the times with seconds `00` when the start is the earlier minute, and is otherwise rejected |
| Intervals.ShortIntervalShape | woffu_cli.py:217-219 | `HH:MM-HH:MM` is a non-blank, stripped chunk with no `,` or `;` |
| Intervals.ShortParses | woffu_cli.py:187-219 | an increasing `HH:MM-HH:MM` is a plain chunk that parses to its interval |
| Intervals.ChunkErrorSticks | woffu_cli.py:217-221 | once a chunk fails, later chunks do not change the outcome |
| Intervals.ParseSameSchedule | woffu_cli.py:214-224 | the chunk loop computes `_parse_same_schedule`: the parsed non-blank chunks in order, the first error, or no intervals |
| Intervals.ChunksAreNonBlank | woffu_cli.py:217-221 | the chunk loop parses exactly the non-blank chunks, stripped, in order |
| Intervals.ParseEachMeaning | woffu_cli.py:217-221 | parsing a list succeeds exactly when every item parses, and yields their intervals in order |
| Intervals.ChunksMeaning | woffu_cli.py:217-221 | the chunk loop succeeds exactly when every non-blank chunk parses, yielding one interval per chunk in order |
| Intervals.SameScheduleMeaning | woffu_cli.py:214-224 | `_parse_same_schedule` succeeds exactly when some chunk is non-blank and all non-blank chunks parse; it then yields one well-formed interval per chunk |
| Intervals.RenderParses | woffu_cli.py:187-212 | every well-formed interval is the parse of its own `start-end` text |
| Intervals.RenderShape | woffu_cli.py:217-219 | the text of a well-formed interval is a non-blank stripped chunk without `,` |
| Intervals.NonBlankIdentity | woffu_cli.py:218-220 | a list of non-blank stripped chunks is kept whole |
| Intervals.ChunksParseTo | woffu_cli.py:217-221 | chunks whose non-blank parts parse one by one to a list make the loop yield that list |
| Intervals.SameScheduleOfTexts | woffu_cli.py:214-224 | a comma list of stripped interval texts parses to their intervals |
| Intervals.SameScheduleOfPair | woffu_cli.py:214-224 | two such texts joined by `,` parse to their two intervals |
| Intervals.SameScheduleOfOne | woffu_cli.py:214-224 | one such text parses to its interval |
| Intervals.SameScheduleRoundTrip | woffu_cli.py:214-224 | writing well-formed intervals as a comma list and parsing it gives them back |
| Weekly.LetterIndex | woffu_cli.py:231 | a day letter's index names that letter; None exactly for a character outside `LMXJVSD` |
| Weekly.DayIndex | woffu_cli.py:240-241 | a day code found names a weekday 0..6 |
| Weekly.GatherErrorSticks | woffu_cli.py:233-244 | once a segment fails, later segments do not change the outcome |
| Weekly.ParseSegment | woffu_cli.py:234-243 | the body of the segment loop computes the segment's entry: blank, bad segment, bad day code, or day and intervals |
| Weekly.GatherNext | woffu_cli.py:233-244 | one more segment: an error stays, a new error wins, a blank is skipped, an entry overwrites its day |
| Weekly.EntriesNext | woffu_cli.py:233 | the outcomes of one more segment extend the outcomes so far |
| Weekly.EntriesErrorSticks | woffu_cli.py:233-244 | a failing segment ends the parse: later segments do not matter |
| Weekly.ParseSegments | woffu_cli.py:233-244 | the segment loop fills the dictionary segment by segment and stops at the first error |
| Weekly.ParseWeeklySchedule | woffu_cli.py:226-247 | the method computes `_parse_weekly_schedule`, including the error for a dictionary left empty |
| Weekly.EntryWellFormed | woffu_cli.py:239-244 | a parsed segment names a weekday and carries a non-empty list of well-formed intervals |
| Weekly.GatherSucceeds | woffu_cli.py:233-244 | the segment loop succeeds exactly when every segment is blank or valid |
| Weekly.GatherKeys | woffu_cli.py:244 | the dictionary's keys are exactly the days its valid segments name |
| Weekly.GatherLastWins | woffu_cli.py:244 | a day repeated in the text gets the intervals of its last segment |
| Weekly.GatherWellFormed | woffu_cli.py:244 | a dictionary gathered from valid segments maps weekdays to non-empty lists of well-formed intervals |
| Weekly.WeeklyWellFormed | woffu_cli.py:226-247 | a successful parse names at least one weekday, each with a non-empty, well-formed list |
| Weekly.Collect | woffu_cli.py:244 | the dictionary built from a non-empty list of entries is non-empty and holds its last entry's day |
| Weekly.DayIndexLetters | woffu_cli.py:231-241 | each day letter is accepted in upper and lower case as its weekday |
| Weekly.JoinedRendersShape | woffu_cli.py:233-243 | a written interval list holds no `;` and ends in a digit |
| Weekly.EntryOfParts | woffu_cli.py:234-244 | a stripped segment with a valid day code before its first `=` and a valid list after it is read as that day's entry |
| Weekly.DayLetterPlain | woffu_cli.py:231 | a day letter is neither whitespace nor `=` nor `;` |
| Weekly.EntryOfDay | woffu_cli.py:234-244 | a day letter, `=`, then a list `_parse_same_schedule` accepts is read as that day's entry |
| Weekly.EntryRoundTrip | woffu_cli.py:234-244 | the text of a valid entry is parsed back to that entry and holds no `;` |
| Weekly.GatherEntries | woffu_cli.py:233-244 | gathering segments that all parsed builds the dictionary of their entries, later entries replacing earlier ones |
| Weekly.WeeklyOfSegments | woffu_cli.py:226-247 | `;`-joined segments, each read as an entry, parse to the dictionary those entries build |
| Weekly.WeeklyRoundTrip | woffu_cli.py:226-247 | writing valid entries as `DAY=...;DAY=...` and parsing the text gives back the dictionary they describe |
| Weekly.WeeklyOfPair | woffu_cli.py:226-247 | two segments read as entries, joined by `;`, parse to the dictionary of both |
| Weekly.DocumentedShapes | woffu_cli.py:228 | the interval texts of the documented example are plain chunks |
| Weekly.DocumentedIntervals | woffu_cli.py:228 | the comma lists of the documented example parse to their intervals |
| Weekly.SegmentShape | woffu_cli.py:233 | a `DAY=...` segment whose list holds no `;` holds none |
| Weekly.DocumentedEntries | woffu_cli.py:228 | the two segments of the documented example are Monday's and Friday's entries |
| Weekly.DocumentedSchedule | woffu_cli.py:226-247 | the documented example gives Monday two intervals and Friday one, seconds defaulted to `00` |
| Weekly.DocumentedSpelling | woffu_cli.py:228 | the example text is `L=08:00-14:30,15:00-17:00;V=08:00-14:00` |
| Weekly.DocumentedExample | woffu_cli.py:226-247 | `_parse_weekly_schedule("L=08:00-14:30,15:00-17:00;V=08:00-14:00")` is `{0: [("08:00:00","14:30:00"), ("15:00:00","17:00:00")], 4: [("08:00:00","14:00:00")]}` |
| Jitter.Rng.constructor | woffu_cli.py:96 | a fresh generator stands at its first draw |
| Jitter.Rng.RandInt | woffu_cli.py:95-96 | `random.randint(lo, hi)` returns the value of the current draw, within [lo, hi], and advances the generator by one draw |
| Jitter.Pick | woffu_cli.py:95-96 | a draw from `randint(lo, hi)` lies in [lo, hi] |
| Jitter.Clamp | woffu_cli.py:102-103 | `max(0, min(86399, x))` is within the day, equals `x` inside it and the nearer bound outside it |
| Jitter.JitterDraws | woffu_cli.py:95-108 | the draws and arithmetic of `_generate_random_times`: two offsets, clamping, and a push when the end is not after the start |
| Jitter.GenerateRandomTimes | woffu_cli.py:89-111 | the method raises exactly when a base time is unreadable; otherwise it returns the jittered interval and leaves the generator after its draws; a raise consumes no draw |
| Jitter.SecondsOrder | woffu_cli.py:102-108 | the jittered end is never before the start, and is after it unless the start is 23:59:59 |
| Jitter.JitterShape | woffu_cli.py:89-111 | a jittered interval is canonical text, its end not before its start, strictly after it unless the start is 23:59:59 |
| Jitter.SecondsRange | woffu_cli.py:95-108 | the start stays within the variation of the base start; the end stays within the variation of the base end, or lies 1 to 2 hours after the start (or at 23:59:59); two or three draws are used |
| Jitter.SecondsUnmoved | woffu_cli.py:95-108 | with no variation and an increasing base, the base seconds come back after two draws |
| Jitter.JitterDrawn | woffu_cli.py:89-111 | a drawn interval is the written jittered seconds of the two base times |
| Jitter.DrawnSeconds | woffu_cli.py:89-111 | the ends of a drawn interval read back as the jittered seconds |
| Jitter.JitterRange | woffu_cli.py:89-111 | the bounds of `SecondsRange`, stated on the texts `_generate_random_times` returns |
| Jitter.NoJitter | woffu_cli.py:89-111 | with no variation a well-formed base interval comes back unchanged |
| Jitter.CollapseSeconds | woffu_cli.py:102-108 | variation 1 with both offsets +1 on a base of 23:59:59 gives start and end both 23:59:59 |
| Jitter.JitterCanCollapse | woffu_cli.py:106-111 | `_generate_random_times` can return an interval whose end equals its start |
| FutureGuard.EndInstant | woffu_cli.py:119-120 | a readable end instant lies on the given date, within the day |
| FutureGuard.FutureOfCanonical | woffu_cli.py:113-121 | for a canonical end time in a four-digit year, the guard answers exactly whether that moment comes after `now` |
| FutureGuard.LeadingSpaceIgnored | woffu_cli.py:119-120 | whitespace in front of the end time does not change the answer |
| FutureGuard.UnreadableIsFuture | woffu_cli.py:118-124 | with the guard on, an unreadable end time or a year outside 1000..9999 counts as future |
| FutureGuard.DayDecides | woffu_cli.py:113-124 | a readable end on a day before today is not future, and one on a day after today is |
| FutureGuard.FutureMonotone | woffu_cli.py:113-124 | a later end on the same day is future whenever an earlier one is |
| Overlap.Insert | woffu_cli.py:355 | insertion adds exactly the one interval |
| Overlap.SortByStart | woffu_cli.py:355 | the sort is a permutation of its input |
| Overlap.SortedTail | woffu_cli.py:355 | a sorted list's tail is sorted |
| Overlap.SortedCons | woffu_cli.py:355 | an interval starting no later than a sorted list's elements extends it sorted |
| Overlap.InsertSorted | woffu_cli.py:355 | inserting into a sorted list keeps it sorted |
| Overlap.SortSorted | woffu_cli.py:355 | the sort yields a list ordered by start |
| Overlap.StartingAt | woffu_cli.py:355 | the intervals starting at a key are a sub-list |
| Overlap.StartingAtFront | woffu_cli.py:355 | the intervals starting at a key, with one more in front |
| Overlap.InsertStable | woffu_cli.py:355 | insertion places an interval after those with the same start |
| Overlap.InsertStableFront | woffu_cli.py:355 | an interval inserted at the front of a later-starting list comes last among its start |
| Overlap.InsertStableLater | woffu_cli.py:355 | insertion further down keeps equal starts in arrival order |
| Overlap.NoneStartingAt | woffu_cli.py:355 | no interval of a sorted list starts before its first start |
| Overlap.SortStable | woffu_cli.py:355 | the sort is stable: intervals sharing a start keep their input order |
| Overlap.CheckNoOverlap | woffu_cli.py:356-364 | the overlap pass accepts exactly the lists in which no interval ends after the next one starts |
| Overlap.AdjacentIsPairwise | woffu_cli.py:355-364 | on a sorted list of intervals, checking adjacent pairs is the same as checking every pair |
| Overlap.AdjacentReaches | woffu_cli.py:357-358 | a list that passes the check has every later interval start no earlier than every earlier one ends |
| Monthly.Remote.constructor | woffu_cli.py:385 | the back end starts with no requests made |
| Monthly.Remote.Submit | woffu_cli.py:385-401 | a request is logged and succeeds exactly when the back end accepts request number `k` |
| Monthly.Resolve | woffu_cli.py:267-272 | `None`, `0` and `""` arguments take the configured value; an explicit `skip_weekends` wins even when false |
| Monthly.Randomize | woffu_cli.py:339-348 | the randomizing loop keeps at most as many intervals as it is given |
| Monthly.WoffuAutologin.constructor | woffu_cli.py:43-44 | the filer's `now` is the moment it was created |
| Monthly.WoffuAutologin.RandomizeDay | woffu_cli.py:339-348 | the randomizing loop keeps the jittered intervals that are not future, stops at the first raise, and leaves the generator after its draws |
| Monthly.WoffuAutologin.SubmitDay | woffu_cli.py:375-401 | a day's requests: none in a dry run, one multi-interval request when the import worked and there are several intervals, else one per interval without stopping at a failure; success exactly when all succeed |
| Monthly.WoffuAutologin.CheckAndSubmit | woffu_cli.py:350-401 | what follows the randomizing loop: nothing left, overlap, the future recheck, then the submission |
| Monthly.WoffuAutologin.FileToday | woffu_cli.py:339-401 | one day's base intervals, randomized, checked and submitted |
| Monthly.WoffuAutologin.FileDay | woffu_cli.py:317-401 | the body of the day loop: date check, weekend skip, weekly lookup, then the intervals |
| Monthly.WoffuAutologin.RunMonth | woffu_cli.py:314-401 | the day loop counts each day's outcome and stops at the first exception |
| Monthly.WoffuAutologin.ParsePlan | woffu_cli.py:283-297 | a weekly schedule wins over a same-schedule, which wins over the single base interval; a parse error is the result |
| Monthly.WoffuAutologin.ExecuteMonthlyFiling | woffu_cli.py:249-413 | the whole filing: its counters or an escaped exception, the draws used and the requests made |
| Monthly.DayLoopAdvance | woffu_cli.py:316-401 | one more day extends the loop's counters, position and requests |
| Monthly.CrashSticks | woffu_cli.py:316-401 | once a day raises, later days do not matter |
| Monthly.RaiseSticks | woffu_cli.py:340-348 | once `_generate_random_times` raises, later intervals do not matter |
| MonthlyProps.KeptNotFuture | woffu_cli.py:345-348 | no interval the randomizing loop keeps ends in the future |
| MonthlyProps.GuardOffKeepsAll | woffu_cli.py:113-117 | with the future guard off every interval is kept, unless one raises |
| MonthlyProps.NoVariationKeepsBase | woffu_cli.py:341-344 | with no variation and the guard off, the base intervals are kept as they are and no draw is made |
| MonthlyProps.LaterDayAllFuture | woffu_cli.py:113-124 | on a day after today every end time is future, readable or not |
| MonthlyProps.LaterDayKeepsNothing | woffu_cli.py:339-348 | on a day after today the randomizing loop keeps nothing |
| MonthlyProps.SortedNotFuture | woffu_cli.py:355-367 | no sorted kept interval ends in the future |
| MonthlyProps.SubmitRecheckNeverFires | woffu_cli.py:366-370 | the day-level recheck does not fire on intervals none of which ends in the future |
| MonthlyProps.IntervalsRecheckNeverFires | woffu_cli.py:339-370 | the day-level future recheck never fires: the randomizing loop has already dropped every future interval |
| MonthlyProps.RecheckNeverFires | woffu_cli.py:316-370 | no day is ever skipped by the day-level recheck |
| MonthlyProps.DispatchCarries | woffu_cli.py:375-401 | a day's requests carry that day's date and only its intervals; a multi-interval request carries all of them, and only when the import worked and there are several |
| MonthlyProps.SubmitCallsProper | woffu_cli.py:350-401 | requests carry the day's date and no future interval; a multi-interval request is sorted and free of overlaps |
| MonthlyProps.IntervalsCallsProper | woffu_cli.py:339-401 | the same for the requests made from a day's base intervals |
| MonthlyProps.DayCallsProper | woffu_cli.py:316-401 | every request a day makes is for a valid date of the month, on a weekday when weekends are skipped, without future ends, and a multi-interval one sorted and free of overlaps |
| MonthlyProps.SubmitDryRun | woffu_cli.py:375-380 | a dry run sends nothing and reports what a run whose requests all succeed reports |
| MonthlyProps.IntervalsDryRun | woffu_cli.py:339-401 | the same for a day's base intervals, after the same draws |
| MonthlyProps.DayDryRun | woffu_cli.py:316-401 | the same for the whole day body |
| MonthlyProps.LaterDayQuiet | woffu_cli.py:316-370 | with the guard on, a day after today sends nothing and is skipped, or raises |
| MonthlyProps.IntervalsGuardOff | woffu_cli.py:339-352 | with the guard off, a day with base intervals never ends with nothing left to file |
| MonthlyProps.GuardOffNothingLeftImpossible | woffu_cli.py:316-352 | the same for the whole day body |
| MonthlyProps.DayLoopTally | woffu_cli.py:316-401 | every day up to the first exception is counted exactly once: all `n` when none raises, fewer when one does |
| MonthlyProps.DayLoopCalls | woffu_cli.py:316-401 | a property every day's requests have, the whole loop's requests have |
| MonthlyProps.DayLoopQuiet | woffu_cli.py:316-401 | days that neither file nor fail leave no request, no success and no error |
| MonthlyProps.DayLoopShadow | woffu_cli.py:316-401 | a day loop that sends nothing but mirrors another day for day ends with the same counters and draws |
| MonthlyProps.MonthTally | woffu_cli.py:276-413 | a finished filing counts every day of the month exactly once: success + skipped + errors = days in the month |
| MonthlyProps.FilingTally | woffu_cli.py:249-413 | a missing script gives zero counters and no request; a bad month raises; a schedule error gives one error and no request; otherwise every day is counted once |
| MonthlyProps.MonthCallsProper | woffu_cli.py:316-401 | every request of a month's day loop is proper |
| MonthlyProps.FilingCallsProper | woffu_cli.py:249-413 | every request a filing makes is for a valid weekday (when skipping weekends) of the requested month, carries no future interval, and a multi-interval one is sorted and free of overlaps |
| MonthlyProps.DryRunBodies | woffu_cli.py:375-380 | every dry-run day sends nothing and mirrors the day of a run whose requests all succeed |
| MonthlyProps.MonthDryRun | woffu_cli.py:310-401 | a dry run of a month sends nothing and reports what a run whose requests all succeed reports, after the same draws |
| MonthlyProps.FilingDryRun | woffu_cli.py:249-413 | `execute_monthly_filing(dry_run=True)` sends nothing and returns what the same call without a dry run returns when every request succeeds |
| MonthlyProps.QuietBodies | woffu_cli.py:316-370 | every day of a month starting after today is quiet |
| MonthlyProps.MonthQuiet | woffu_cli.py:316-413 | with the guard on, a month starting after today sends nothing and skips every day, unless one raises |
| MonthlyProps.FutureMonthQuiet | woffu_cli.py:249-413 | with the guard on, a filing for a month starting after today sends nothing and skips every day, unless one raises |

## Left out

- The back end itself is not part of this model: `woffu.py`, `woffu_file_entry`, `woffu_file_entry_multi` and the login and HTTP calls behind them. Each request's outcome is a parameter, `Remote.answers`. A raised exception reads as a failure, as the source's `except` does.
- `execute_single_filing` is folded into one single-interval request: woffu_cli.py:135-185.
  - The subprocess fallback and the direct call are not told apart.
  - The script check it repeats is not modelled, since the filing has already checked it.
  - The standalone command-line use of the function is out of scope.
- `_verify_woffu_script` is the boolean `scriptPresent`: a file-system probe.
- The file could disappear between the filing's check and a later single-interval request. The model does not capture that case.
- `datetime.now()` is the constructor parameter `now`, to the second. Microseconds are dropped, so a time equal to `now` to the second counts as not future.
- `random.randint` is the `Rng` class over a fixed stream of draws. The Mersenne Twister behind it is not modelled; any stream is allowed.
- The configuration constants of `config.py:5-19` are the `Config` parameter. `WOFFU_AVAILABLE` is in it too, since it is set by whether the import worked.
- Printing is not modelled: `_print_message`, the banner, the schedule description (woffu_cli.py:299-312) and the final statistics (woffu_cli.py:403-411). None of them changes the counters.
- `main` and its argument parsing are not modelled, nor `KeyboardInterrupt` and the process exit code (woffu_cli.py:416-518). They only dispatch to the two filings.
- TimeCodec.Field reads only ASCII digits. The `%H`, `%M` and `%S` patterns of `strptime` match any Unicode decimal digit, so `_time_to_seconds("８:00:00")` is 28800 in Python, but the model rejects it.
- TimeCodec.TimeToSeconds inherits that restriction. A base time written with non-ASCII digits makes `Jitter.GenerateRandomTimes` raise where the source does not.
- FutureGuard.EndInstant reads only ASCII digits for `%Y` and the time fields. An end time with non-ASCII digits counts as future there, where the source reads it as a time.
- `int()` is modelled for ASCII digits, with whitespace, sign and underscores. Other Unicode decimal digits, which Python also accepts, are not modelled.
- `str.upper()` is modelled only as far as it can produce a day letter: ASCII letters, and U+017F, which upper-cases to `S`.
- `date()` raising for a year outside 1..9999 is modelled as a day that raises, which ends the filing as `Crashed`. The model does not capture the exception's type or message.
- The error messages of `ValueError` are not modelled. The parsers return which check failed.
