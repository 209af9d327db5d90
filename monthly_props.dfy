/**
 * What the monthly filing guarantees: about one day (the randomizing loop
 * and the day body), about the day loop for any day body, and about the
 * whole filing.
 */
module MonthlyProps {
  import opened Wrappers
  import opened Text
  import opened TimeCodec
  import opened Calendar
  import opened Intervals
  import opened Jitter
  import opened FutureGuard
  import opened Overlap
  import opened Monthly

  // ---- The randomizing loop -------------------------------------------

  /** No interval the randomizing loop keeps ends in the future. */
  lemma {:induction false} KeptNotFuture(cfg: Config, now: Moment, date: Date, ivs: seq<Interval>, stream: nat -> nat, pos: nat)
    ensures forall iv :: iv in Randomize(cfg, now, date, ivs, stream, pos).kept ==> !FutureEnd(cfg, now, date, iv.end)
  {
    if ivs != [] {
      KeptNotFuture(cfg, now, date, ivs[..|ivs| - 1], stream, pos);
    }
  }

  /** With the future guard off, every interval is kept until one raises. */
  lemma {:induction false} GuardOffKeepsAll(cfg: Config, now: Moment, date: Date, ivs: seq<Interval>, stream: nat -> nat, pos: nat)
    requires !cfg.skipFuture
    ensures var d := Randomize(cfg, now, date, ivs, stream, pos);
      !d.raised ==> |d.kept| == |ivs|
  {
    if ivs != [] {
      GuardOffKeepsAll(cfg, now, date, ivs[..|ivs| - 1], stream, pos);
    }
  }

  /** With no variation and the guard off, the base intervals are kept as they are and no draw is made. */
  lemma {:induction false} NoVariationKeepsBase(cfg: Config, now: Moment, date: Date, ivs: seq<Interval>, stream: nat -> nat, pos: nat)
    requires cfg.variation <= 0 && !cfg.skipFuture
    ensures Randomize(cfg, now, date, ivs, stream, pos) == Draft(ivs, pos, false)
  {
    if ivs != [] {
      NoVariationKeepsBase(cfg, now, date, ivs[..|ivs| - 1], stream, pos);
      assert ivs[..|ivs| - 1] + [ivs[|ivs| - 1]] == ivs;
    }
  }

  /** On a day after today every end time is in the future, readable or not. */
  lemma LaterDayAllFuture(cfg: Config, now: Moment, date: Date, end: string)
    requires cfg.skipFuture
    requires After(Moment(date.year, date.month, date.day, 0), Moment(now.year, now.month, now.day, LastSecond))
    ensures FutureEnd(cfg, now, date, end)
  {
    if EndInstant(date.year, date.month, date.day, end).Some? {
      DayDecides(now, date.year, date.month, date.day, end);
    }
  }

  /** On a day after today the randomizing loop keeps nothing. */
  lemma {:induction false} LaterDayKeepsNothing(cfg: Config, now: Moment, date: Date, ivs: seq<Interval>, stream: nat -> nat, pos: nat)
    requires cfg.skipFuture
    requires After(Moment(date.year, date.month, date.day, 0), Moment(now.year, now.month, now.day, LastSecond))
    ensures Randomize(cfg, now, date, ivs, stream, pos).kept == []
  {
    if ivs != [] {
      LaterDayKeepsNothing(cfg, now, date, ivs[..|ivs| - 1], stream, pos);
      var d := Randomize(cfg, now, date, ivs[..|ivs| - 1], stream, pos);
      if !d.raised {
        var base := ivs[|ivs| - 1];
        var r := if cfg.variation > 0 then JitterAt(cfg.variation, base.start, base.end, stream, d.next) else Drawn(base, d.next);
        if r.Drawn? {
          LaterDayAllFuture(cfg, now, date, r.interval.end);
        }
      }
    }
  }

  // ---- One day --------------------------------------------------------

  /** The intervals a request carries. */
  function Sent(c: Call): seq<Interval>
  {
    match c
    case Multi(_, ivs) => ivs
    case Single(_, iv) => [iv]
  }

  /**
   * What every request of a filing satisfies: it is for a real date of the
   * month being filed, on a weekday when weekends are skipped; none of its
   * intervals ends in the future; and a multi-interval request, made only
   * when the import worked, carries two or more intervals sorted by start
   * with no two neighbours overlapping.
   */
  predicate ProperCall(cfg: Config, now: Moment, s: Settings, c: Call)
  {
    && c.date.year == s.year && c.date.month == s.month
    && ValidDate(c.date.year, c.date.month, c.date.day)
    && (s.skipWeekends ==> IsWeekday(c.date.year, c.date.month, c.date.day))
    && (forall iv :: iv in Sent(c) ==> !FutureEnd(cfg, now, c.date, iv.end))
    && (c.Multi? ==> cfg.woffuAvailable && |c.intervals| > 1 && SortedByStart(c.intervals) && AdjacentOk(c.intervals))
  }

  /** Sorting keeps exactly the kept intervals, so none of the sorted ones ends in the future. */
  lemma SortedNotFuture(cfg: Config, now: Moment, date: Date, ivs: seq<Interval>, stream: nat -> nat, pos: nat)
    ensures !AnyFuture(cfg, now, date, SortByStart(Randomize(cfg, now, date, ivs, stream, pos).kept))
  {
    var kept := Randomize(cfg, now, date, ivs, stream, pos).kept;
    var sorted := SortByStart(kept);
    KeptNotFuture(cfg, now, date, ivs, stream, pos);
    forall i | 0 <= i < |sorted|
      ensures !FutureEnd(cfg, now, date, sorted[i].end)
    {
      assert sorted[i] in multiset(sorted);
      assert sorted[i] in kept;
    }
  }

  /** The day-level recheck never fires when no kept interval ends in the future. */
  lemma SubmitRecheckNeverFires(cfg: Config, now: Moment, date: Date, d: Draft, dryRun: bool, answers: nat -> bool, k: nat)
    requires forall iv :: iv in d.kept ==> !FutureEnd(cfg, now, date, iv.end)
    ensures SubmitKept(cfg, now, date, d, dryRun, answers, k).outcome != SkippedFutureDay
  {
    if !d.raised && d.kept != [] {
      var sorted := SortByStart(d.kept);
      forall i | 0 <= i < |sorted|
        ensures !FutureEnd(cfg, now, date, sorted[i].end)
      {
        assert sorted[i] in multiset(sorted);
      }
    }
  }

  /** The day-level future recheck never fires: the randomizing loop already dropped every interval ending in the future. */
  lemma IntervalsRecheckNeverFires(cfg: Config, now: Moment, date: Date, today: seq<Interval>, dryRun: bool,
                                   stream: nat -> nat, pos: nat, answers: nat -> bool, k: nat)
    ensures FileIntervals(cfg, now, date, today, dryRun, stream, pos, answers, k).outcome != SkippedFutureDay
  {
    KeptNotFuture(cfg, now, date, today, stream, pos);
    SubmitRecheckNeverFires(cfg, now, date, Randomize(cfg, now, date, today, stream, pos), dryRun, answers, k);
  }

  /** `IntervalsRecheckNeverFires` for the whole day body. */
  lemma RecheckNeverFires(cfg: Config, s: Settings, dryRun: bool, plan: Plan, now: Moment, day: int,
                          stream: nat -> nat, pos: nat, answers: nat -> bool, k: nat)
    ensures ProcessDay(cfg, s, dryRun, plan, now, day, stream, pos, answers, k).outcome != SkippedFutureDay
  {
    if ValidDate(s.year, s.month, day) && DayIntervals(plan, Weekday(s.year, s.month, day)).Some? {
      var today := DayIntervals(plan, Weekday(s.year, s.month, day)).value;
      IntervalsRecheckNeverFires(cfg, now, Date(s.year, s.month, day), today, dryRun, stream, pos, answers, k);
    }
  }

  /** The requests made for a day's checked intervals carry that day's date and only those intervals. */
  lemma DispatchCarries(date: Date, ivs: seq<Interval>, woffuAvailable: bool, dryRun: bool)
    ensures forall c :: c in Dispatch(date, ivs, woffuAvailable, dryRun) ==>
      c.date == date && (forall iv :: iv in Sent(c) ==> iv in ivs) &&
      (c.Multi? ==> c.intervals == ivs && woffuAvailable && |ivs| > 1)
  {
  }

  /** The requests made for kept intervals none of which ends in the future carry the day's date, none ends in the future, and a multi-interval request is sorted and free of overlaps. */
  lemma SubmitCallsProper(cfg: Config, now: Moment, date: Date, d: Draft, dryRun: bool, answers: nat -> bool, k: nat)
    requires forall iv :: iv in d.kept ==> !FutureEnd(cfg, now, date, iv.end)
    ensures forall c :: c in SubmitKept(cfg, now, date, d, dryRun, answers, k).calls ==>
      && c.date == date
      && (forall iv :: iv in Sent(c) ==> !FutureEnd(cfg, now, date, iv.end))
      && (c.Multi? ==> cfg.woffuAvailable && |c.intervals| > 1 && SortedByStart(c.intervals) && AdjacentOk(c.intervals))
  {
    var sorted := SortByStart(d.kept);
    forall iv | iv in sorted
      ensures !FutureEnd(cfg, now, date, iv.end)
    {
      assert iv in multiset(sorted);
    }
    SortSorted(d.kept);
    DispatchCarries(date, sorted, cfg.woffuAvailable, dryRun);
  }

  /** `SubmitCallsProper` for the day's base intervals. */
  lemma IntervalsCallsProper(cfg: Config, now: Moment, date: Date, today: seq<Interval>, dryRun: bool,
                             stream: nat -> nat, pos: nat, answers: nat -> bool, k: nat)
    ensures forall c :: c in FileIntervals(cfg, now, date, today, dryRun, stream, pos, answers, k).calls ==>
      && c.date == date
      && (forall iv :: iv in Sent(c) ==> !FutureEnd(cfg, now, date, iv.end))
      && (c.Multi? ==> cfg.woffuAvailable && |c.intervals| > 1 && SortedByStart(c.intervals) && AdjacentOk(c.intervals))
  {
    KeptNotFuture(cfg, now, date, today, stream, pos);
    SubmitCallsProper(cfg, now, date, Randomize(cfg, now, date, today, stream, pos), dryRun, answers, k);
  }

  /** Every request a day makes is a proper one, for that day. */
  lemma DayCallsProper(cfg: Config, s: Settings, dryRun: bool, plan: Plan, now: Moment, day: int,
                       stream: nat -> nat, pos: nat, answers: nat -> bool, k: nat)
    ensures forall c :: c in ProcessDay(cfg, s, dryRun, plan, now, day, stream, pos, answers, k).calls ==>
      ProperCall(cfg, now, s, c) && c.date.day == day
  {
    if ValidDate(s.year, s.month, day) && DayIntervals(plan, Weekday(s.year, s.month, day)).Some? {
      var today := DayIntervals(plan, Weekday(s.year, s.month, day)).value;
      IntervalsCallsProper(cfg, now, Date(s.year, s.month, day), today, dryRun, stream, pos, answers, k);
    }
  }

  /**
   * A dry run goes through the same steps as a real run whose every request
   * succeeds: same outcome, same draws, but no request.
   */
  lemma SubmitDryRun(cfg: Config, now: Moment, date: Date, d: Draft, answers: nat -> bool, k: nat, always: nat -> bool, k': nat)
    requires forall i :: always(i)
    ensures var dry, live := SubmitKept(cfg, now, date, d, true, answers, k), SubmitKept(cfg, now, date, d, false, always, k');
      dry.calls == [] && dry.outcome == live.outcome && dry.next == live.next
  {
  }

  /** `SubmitDryRun` for the day's base intervals. */
  lemma IntervalsDryRun(cfg: Config, now: Moment, date: Date, today: seq<Interval>,
                        stream: nat -> nat, pos: nat, answers: nat -> bool, k: nat, always: nat -> bool, k': nat)
    requires forall i :: always(i)
    ensures var dry := FileIntervals(cfg, now, date, today, true, stream, pos, answers, k);
      var live := FileIntervals(cfg, now, date, today, false, stream, pos, always, k');
      dry.calls == [] && dry.outcome == live.outcome && dry.next == live.next
  {
    SubmitDryRun(cfg, now, date, Randomize(cfg, now, date, today, stream, pos), answers, k, always, k');
  }

  /** `IntervalsDryRun` for the whole day body. */
  lemma DayDryRun(cfg: Config, s: Settings, plan: Plan, now: Moment, day: int,
                  stream: nat -> nat, pos: nat, answers: nat -> bool, k: nat, always: nat -> bool, k': nat)
    requires forall i :: always(i)
    ensures var dry := ProcessDay(cfg, s, true, plan, now, day, stream, pos, answers, k);
      var live := ProcessDay(cfg, s, false, plan, now, day, stream, pos, always, k');
      dry.calls == [] && dry.outcome == live.outcome && dry.next == live.next
  {
    if ValidDate(s.year, s.month, day) && DayIntervals(plan, Weekday(s.year, s.month, day)).Some? {
      var today := DayIntervals(plan, Weekday(s.year, s.month, day)).value;
      IntervalsDryRun(cfg, now, Date(s.year, s.month, day), today, stream, pos, answers, k, always, k');
    }
  }

  /** A day that is skipped, or on which an exception escapes: nothing filed, nothing failed. */
  predicate Quiet(o: DayOutcome)
  {
    o in {Threw, SkippedWeekend, SkippedNoSchedule, SkippedNothingLeft}
  }

  /** With the future guard on, a day after today makes no request and is skipped (or raises). */
  lemma LaterDayQuiet(cfg: Config, s: Settings, dryRun: bool, plan: Plan, now: Moment, day: int,
                      stream: nat -> nat, pos: nat, answers: nat -> bool, k: nat)
    requires cfg.skipFuture
    requires After(Moment(s.year, s.month, day, 0), Moment(now.year, now.month, now.day, LastSecond))
    ensures var step := ProcessDay(cfg, s, dryRun, plan, now, day, stream, pos, answers, k);
      step.calls == [] && Quiet(step.outcome)
  {
    if ValidDate(s.year, s.month, day) && DayIntervals(plan, Weekday(s.year, s.month, day)).Some? {
      var today := DayIntervals(plan, Weekday(s.year, s.month, day)).value;
      LaterDayKeepsNothing(cfg, now, Date(s.year, s.month, day), today, stream, pos);
    }
  }

  /** With the future guard off, a day with base intervals never ends up with nothing left to file. */
  lemma IntervalsGuardOff(cfg: Config, now: Moment, date: Date, today: seq<Interval>, dryRun: bool,
                          stream: nat -> nat, pos: nat, answers: nat -> bool, k: nat)
    requires !cfg.skipFuture && today != []
    ensures FileIntervals(cfg, now, date, today, dryRun, stream, pos, answers, k).outcome != SkippedNothingLeft
  {
    GuardOffKeepsAll(cfg, now, date, today, stream, pos);
  }

  /** `IntervalsGuardOff` for the whole day body. */
  lemma GuardOffNothingLeftImpossible(cfg: Config, s: Settings, dryRun: bool, plan: Plan, now: Moment, day: int,
                                      stream: nat -> nat, pos: nat, answers: nat -> bool, k: nat)
    requires !cfg.skipFuture && 1 <= s.month <= 12
    requires DayIntervals(plan, Weekday(s.year, s.month, day)).Some? && DayIntervals(plan, Weekday(s.year, s.month, day)).value != []
    ensures ProcessDay(cfg, s, dryRun, plan, now, day, stream, pos, answers, k).outcome != SkippedNothingLeft
  {
    if ValidDate(s.year, s.month, day) {
      var today := DayIntervals(plan, Weekday(s.year, s.month, day)).value;
      IntervalsGuardOff(cfg, now, Date(s.year, s.month, day), today, dryRun, stream, pos, answers, k);
    }
  }

  // ---- The day loop, for any day body -----------------------------------

  /** The days counted. */
  function Total(st: Stats): nat
  {
    st.success + st.skipped + st.errors
  }

  /** Every day up to the first exception is counted exactly once: all `n` days when none raises, fewer when one does. */
  lemma {:induction false} DayLoopTally(body: DayBody, n: nat, pos: nat, k: nat)
    ensures var p := DayLoop(body, n, pos, k);
      Total(p.stats) <= n && (p.crashed <==> Total(p.stats) < n)
  {
    if n > 0 {
      DayLoopTally(body, n - 1, pos, k);
    }
  }

  /** A property every day's requests have, the requests of the whole loop have. */
  lemma {:induction false} DayLoopCalls(body: DayBody, n: nat, pos: nat, k: nat, good: Call -> bool)
    requires forall day: int, at: nat, made: nat :: 1 <= day <= n ==> forall c :: c in body(day, at, made).calls ==> good(c)
    ensures forall c :: c in DayLoop(body, n, pos, k).calls ==> good(c)
  {
    if n > 0 {
      DayLoopCalls(body, n - 1, pos, k, good);
    }
  }

  /** When no day files or fails anything, the loop makes no request and counts no success and no error. */
  lemma {:induction false} DayLoopQuiet(body: DayBody, n: nat, pos: nat, k: nat)
    requires forall day: int, at: nat, made: nat :: 1 <= day <= n ==> body(day, at, made).calls == [] && Quiet(body(day, at, made).outcome)
    ensures var p := DayLoop(body, n, pos, k);
      p.calls == [] && p.stats.success == 0 && p.stats.errors == 0
  {
    if n > 0 {
      DayLoopQuiet(body, n - 1, pos, k);
    }
  }

  /**
   * Two day bodies that agree on every day's outcome and draws, whatever the
   * number of requests made before, the first making no request: the loops
   * agree on counters, draws and whether they raise, and the first makes no
   * request.
   */
  lemma {:induction false} DayLoopShadow(quiet: DayBody, loud: DayBody, n: nat, pos: nat, k: nat, k': nat)
    requires forall day: int, at: nat, made: nat :: 1 <= day <= n ==>
      (quiet(day, at, made).calls == [] &&
       forall made': nat :: quiet(day, at, made).outcome == loud(day, at, made').outcome && quiet(day, at, made).next == loud(day, at, made').next)
    ensures var p, q := DayLoop(quiet, n, pos, k), DayLoop(loud, n, pos, k');
      p.calls == [] && p.stats == q.stats && p.next == q.next && p.crashed == q.crashed
  {
    if n > 0 {
      DayLoopShadow(quiet, loud, n - 1, pos, k, k');
      var p, q := DayLoop(quiet, n - 1, pos, k), DayLoop(loud, n - 1, pos, k');
      var a, b := quiet(n, p.next, k + |p.calls|), loud(n, q.next, k' + |q.calls|);
      assert a.outcome == b.outcome && a.next == b.next && a.calls == [];
    }
  }

  // ---- The whole filing -----------------------------------------------

  /** Every day of the month counted exactly once, unless an exception escapes. */
  lemma MonthTally(cfg: Config, s: Settings, dryRun: bool, plan: Plan, now: Moment,
                   stream: nat -> nat, pos: nat, answers: nat -> bool, k: nat)
    requires 1 <= s.month <= 12
    ensures var run := FileMonth(cfg, s, dryRun, plan, now, stream, pos, answers, k);
      run.result.Finished? ==> Total(run.result.stats) == DaysInMonth(s.year, s.month)
  {
    DayLoopTally(DayBodyOf(cfg, s, dryRun, plan, now, stream, answers), DaysInMonth(s.year, s.month), pos, k);
  }

  /**
   * The counters of a filing: no work without `woffu.py`; an exception for
   * a month outside 1..12; one error for a schedule that does not parse;
   * otherwise, when no exception escapes, every day of the month counted
   * exactly once.
   */
  lemma FilingTally(cfg: Config, req: Request, scriptPresent: bool, now: Moment,
                    stream: nat -> nat, pos: nat, answers: nat -> bool, k: nat)
    ensures var s, run := Resolve(cfg, req), MonthlyFiling(cfg, req, scriptPresent, now, stream, pos, answers, k);
      && (!scriptPresent ==> run.result == Finished(Stats(0, 0, 0)) && run.calls == [])
      && (scriptPresent && !(1 <= s.month <= 12) ==> run.result == Crashed && run.calls == [])
      && (scriptPresent && 1 <= s.month <= 12 && ChoosePlan(req, s).Err? ==> run.result == Finished(Stats(0, 0, 1)) && run.calls == [])
      && (scriptPresent && 1 <= s.month <= 12 && ChoosePlan(req, s).Ok? && run.result.Finished? ==>
            Total(run.result.stats) == DaysInMonth(s.year, s.month))
  {
    var s := Resolve(cfg, req);
    if scriptPresent && 1 <= s.month <= 12 && ChoosePlan(req, s).Ok? {
      MonthTally(cfg, s, req.dryRun, ChoosePlan(req, s).value, now, stream, pos, answers, k);
    }
  }

  /** Every request of a month's filing is a proper one. */
  lemma MonthCallsProper(cfg: Config, s: Settings, dryRun: bool, plan: Plan, now: Moment,
                         stream: nat -> nat, pos: nat, answers: nat -> bool, k: nat)
    requires 1 <= s.month <= 12
    ensures forall c :: c in FileMonth(cfg, s, dryRun, plan, now, stream, pos, answers, k).calls ==> ProperCall(cfg, now, s, c)
  {
    var body := DayBodyOf(cfg, s, dryRun, plan, now, stream, answers);
    forall day: int, at: nat, made: nat | 1 <= day <= DaysInMonth(s.year, s.month)
      ensures forall c :: c in body(day, at, made).calls ==> ProperCall(cfg, now, s, c)
    {
      DayCallsProper(cfg, s, dryRun, plan, now, day, stream, at, answers, made);
    }
    DayLoopCalls(body, DaysInMonth(s.year, s.month), pos, k, c => ProperCall(cfg, now, s, c));
  }

  /** Every request a filing makes is a proper one for the month being filed. */
  lemma FilingCallsProper(cfg: Config, req: Request, scriptPresent: bool, now: Moment,
                          stream: nat -> nat, pos: nat, answers: nat -> bool, k: nat)
    ensures var s := Resolve(cfg, req);
      forall c :: c in MonthlyFiling(cfg, req, scriptPresent, now, stream, pos, answers, k).calls ==> ProperCall(cfg, now, s, c)
  {
    var s := Resolve(cfg, req);
    if scriptPresent && 1 <= s.month <= 12 && ChoosePlan(req, s).Ok? {
      MonthCallsProper(cfg, s, req.dryRun, ChoosePlan(req, s).value, now, stream, pos, answers, k);
    }
  }

  /** `DayDryRun` for every day of a month, as day bodies. */
  lemma DryRunBodies(cfg: Config, s: Settings, plan: Plan, now: Moment, stream: nat -> nat,
                     answers: nat -> bool, always: nat -> bool, n: nat)
    requires forall i :: always(i)
    ensures var quiet, loud := DayBodyOf(cfg, s, true, plan, now, stream, answers), DayBodyOf(cfg, s, false, plan, now, stream, always);
      forall day: int, at: nat, made: nat :: 1 <= day <= n ==>
        (quiet(day, at, made).calls == [] &&
         forall made': nat :: quiet(day, at, made).outcome == loud(day, at, made').outcome && quiet(day, at, made).next == loud(day, at, made').next)
  {
    var quiet, loud := DayBodyOf(cfg, s, true, plan, now, stream, answers), DayBodyOf(cfg, s, false, plan, now, stream, always);
    forall day: int, at: nat, made: nat, made': nat | 1 <= day <= n
      ensures quiet(day, at, made).calls == [] && quiet(day, at, made).outcome == loud(day, at, made').outcome && quiet(day, at, made).next == loud(day, at, made').next
    {
      DayDryRun(cfg, s, plan, now, day, stream, at, answers, made, always, made');
    }
  }

  /** A dry run of a month makes no request and reports what a real run whose every request succeeds would report, after the same draws. */
  lemma MonthDryRun(cfg: Config, s: Settings, plan: Plan, now: Moment,
                    stream: nat -> nat, pos: nat, answers: nat -> bool, k: nat, always: nat -> bool, k': nat)
    requires 1 <= s.month <= 12 && forall i :: always(i)
    ensures var dry, live := FileMonth(cfg, s, true, plan, now, stream, pos, answers, k), FileMonth(cfg, s, false, plan, now, stream, pos, always, k');
      dry.calls == [] && dry.result == live.result && dry.next == live.next
  {
    var n := DaysInMonth(s.year, s.month);
    DryRunBodies(cfg, s, plan, now, stream, answers, always, n);
    DayLoopShadow(DayBodyOf(cfg, s, true, plan, now, stream, answers), DayBodyOf(cfg, s, false, plan, now, stream, always), n, pos, k, k');
  }

  /**
   * A dry run makes no request and reports what a real run whose every
   * request succeeds would report, after the same draws.
   */
  lemma FilingDryRun(cfg: Config, req: Request, scriptPresent: bool, now: Moment,
                     stream: nat -> nat, pos: nat, answers: nat -> bool, k: nat, always: nat -> bool, k': nat)
    requires req.dryRun && forall i :: always(i)
    ensures var dry := MonthlyFiling(cfg, req, scriptPresent, now, stream, pos, answers, k);
      var live := MonthlyFiling(cfg, req.(dryRun := false), scriptPresent, now, stream, pos, always, k');
      dry.calls == [] && dry.result == live.result && dry.next == live.next
  {
    var s := Resolve(cfg, req);
    assert Resolve(cfg, req.(dryRun := false)) == s;
    assert ChoosePlan(req.(dryRun := false), s) == ChoosePlan(req, s);
    if scriptPresent && 1 <= s.month <= 12 && ChoosePlan(req, s).Ok? {
      MonthDryRun(cfg, s, ChoosePlan(req, s).value, now, stream, pos, answers, k, always, k');
    }
  }

  /** `LaterDayQuiet` for every day of a month that starts after today, as a day body. */
  lemma QuietBodies(cfg: Config, s: Settings, dryRun: bool, plan: Plan, now: Moment,
                    stream: nat -> nat, answers: nat -> bool, n: nat)
    requires cfg.skipFuture
    requires After(Moment(s.year, s.month, 1, 0), Moment(now.year, now.month, now.day, LastSecond))
    ensures var body := DayBodyOf(cfg, s, dryRun, plan, now, stream, answers);
      forall day: int, at: nat, made: nat :: 1 <= day <= n ==> body(day, at, made).calls == [] && Quiet(body(day, at, made).outcome)
  {
    var body := DayBodyOf(cfg, s, dryRun, plan, now, stream, answers);
    forall day: int, at: nat, made: nat | 1 <= day <= n
      ensures body(day, at, made).calls == [] && Quiet(body(day, at, made).outcome)
    {
      LaterDayQuiet(cfg, s, dryRun, plan, now, day, stream, at, answers, made);
    }
  }

  /** With the future guard on, a month that starts after today is filed without a request: every day is skipped, unless an exception escapes. */
  lemma MonthQuiet(cfg: Config, s: Settings, dryRun: bool, plan: Plan, now: Moment,
                   stream: nat -> nat, pos: nat, answers: nat -> bool, k: nat)
    requires 1 <= s.month <= 12 && cfg.skipFuture
    requires After(Moment(s.year, s.month, 1, 0), Moment(now.year, now.month, now.day, LastSecond))
    ensures var run := FileMonth(cfg, s, dryRun, plan, now, stream, pos, answers, k);
      run.calls == [] && (run.result == Crashed || run.result == Finished(Stats(0, DaysInMonth(s.year, s.month), 0)))
  {
    var body := DayBodyOf(cfg, s, dryRun, plan, now, stream, answers);
    var n := DaysInMonth(s.year, s.month);
    QuietBodies(cfg, s, dryRun, plan, now, stream, answers, n);
    DayLoopQuiet(body, n, pos, k);
    DayLoopTally(body, n, pos, k);
  }

  /**
   * With the future guard on, filing a month that starts after today makes
   * no request: every day is skipped, unless an exception escapes.
   */
  lemma FutureMonthQuiet(cfg: Config, req: Request, scriptPresent: bool, now: Moment,
                         stream: nat -> nat, pos: nat, answers: nat -> bool, k: nat)
    requires cfg.skipFuture
    requires var s := Resolve(cfg, req);
      After(Moment(s.year, s.month, 1, 0), Moment(now.year, now.month, now.day, LastSecond))
    ensures var s, run := Resolve(cfg, req), MonthlyFiling(cfg, req, scriptPresent, now, stream, pos, answers, k);
      run.calls == [] &&
      (scriptPresent && 1 <= s.month <= 12 && ChoosePlan(req, s).Ok? ==>
        run.result == Crashed || run.result == Finished(Stats(0, DaysInMonth(s.year, s.month), 0)))
  {
    var s := Resolve(cfg, req);
    if scriptPresent && 1 <= s.month <= 12 && ChoosePlan(req, s).Ok? {
      MonthQuiet(cfg, s, req.dryRun, ChoosePlan(req, s).value, now, stream, pos, answers, k);
    }
  }
}
