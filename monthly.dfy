/**
 * The monthly filing (`execute_monthly_filing`): for every day of a month,
 * choose the day's intervals (one base interval, the same list every day,
 * or a list per weekday), jitter them, drop those that end in the future,
 * sort them, reject the day if two overlap, and file the rest through the
 * filing back end, counting filed, skipped and failed days.
 */
module Monthly {
  import opened Wrappers
  import opened Text
  import opened TimeCodec
  import opened Calendar
  import opened Intervals
  import opened Weekly
  import opened Jitter
  import opened FutureGuard
  import opened Overlap

  // ---- Data -----------------------------------------------------------

  /** The settings of `config.py` the filing reads, and whether `woffu.py` could be imported. */
  datatype Config = Config(
    year: int,              // YEAR
    month: int,             // MONTH
    baseStart: string,      // BASE_START_TIME
    baseEnd: string,        // BASE_END_TIME
    variation: int,         // RANDOM_VARIATION_SECONDS
    skipWeekends: bool,     // SKIP_WEEKENDS
    skipFuture: bool,       // SKIP_FUTURE_DATES
    woffuAvailable: bool)   // WOFFU_AVAILABLE

  /** The arguments of `execute_monthly_filing`; None is Python's None. */
  datatype Request = Request(
    year: Option<int>,
    month: Option<int>,
    startTime: Option<string>,
    endTime: Option<string>,
    skipWeekends: Option<bool>,
    dryRun: bool,
    sameSchedule: Option<string>,
    weeklySchedule: Option<string>)

  /** The arguments after the defaults from the configuration are filled in. */
  datatype Settings = Settings(year: int, month: int, startTime: string, endTime: string, skipWeekends: bool)

  /** Where a day's base intervals come from: one list per weekday, or the same list every day. */
  datatype Plan = ByWeekday(days: map<nat, seq<Interval>>) | EveryDay(intervals: seq<Interval>)

  datatype Date = Date(year: int, month: int, day: int)

  /** A request to the filing back end: all of a day's intervals at once, or one interval. */
  datatype Call = Multi(date: Date, intervals: seq<Interval>) | Single(date: Date, interval: Interval)

  /** The counters the filing returns. */
  datatype Stats = Stats(success: nat, skipped: nat, errors: nat)

  /** The filing returns its counters, or an exception escapes it. */
  datatype RunResult = Finished(stats: Stats) | Crashed

  /** What happens to one day. */
  datatype DayOutcome =
    | Filed               // submitted (or shown, in a dry run) and accepted
    | Failed              // a submission failed
    | SkippedWeekend
    | SkippedNoSchedule   // weekly plan without this weekday
    | SkippedNothingLeft  // every interval ended in the future
    | SkippedFutureDay    // the day-level future recheck
    | Overlapping         // two intervals overlap
    | Threw               // `_generate_random_times` raised ValueError

  // ---- The filing back end ------------------------------------------------

  /**
   * The filing back end (`woffu_file_entry_multi`, and `execute_single_filing`
   * with `woffu_file_entry` or the `woffu.py` subprocess behind it), seen
   * from outside: the `k`-th request made succeeds when `answers(k)` holds.
   * A failure, an exception it raises and a failing subprocess all read as
   * a failure. `log` lists the requests made.
   */
  class Remote {
    const answers: nat -> bool
    var log: seq<Call>

    constructor(answers: nat -> bool)
      ensures this.answers == answers && log == []
    {
      this.answers := answers;
      log := [];
    }

    method Submit(c: Call) returns (ok: bool)
      modifies this
      ensures ok == answers(|old(log)|) && log == old(log) + [c]
    {
      ok := answers(|log|);
      log := log + [c];
    }
  }

  // ---- The specification ----------------------------------------------

  /** Python truthiness of an optional string argument. */
  predicate Given(s: Option<string>)
  {
    s.Some? && s.value != []
  }

  /** `year or YEAR`, `month or MONTH`, `start_time or BASE_START_TIME`, ...: None, 0 and "" take the configured value. */
  function Resolve(cfg: Config, req: Request): (s: Settings)
    ensures req.year.Some? && req.year.value != 0 ==> s.year == req.year.value
    ensures (req.year.None? || req.year.value == 0) ==> s.year == cfg.year
    ensures req.month.Some? && req.month.value != 0 ==> s.month == req.month.value
    ensures (req.month.None? || req.month.value == 0) ==> s.month == cfg.month
    ensures s.startTime == (if Given(req.startTime) then req.startTime.value else cfg.baseStart)
    ensures s.endTime == (if Given(req.endTime) then req.endTime.value else cfg.baseEnd)
    ensures s.skipWeekends == (if req.skipWeekends.Some? then req.skipWeekends.value else cfg.skipWeekends)
  {
    Settings(
      if req.year.Some? && req.year.value != 0 then req.year.value else cfg.year,
      if req.month.Some? && req.month.value != 0 then req.month.value else cfg.month,
      if Given(req.startTime) then req.startTime.value else cfg.baseStart,
      if Given(req.endTime) then req.endTime.value else cfg.baseEnd,
      if req.skipWeekends.Some? then req.skipWeekends.value else cfg.skipWeekends)
  }

  /** The strategy choice: a weekly schedule wins over a same-schedule, which wins over the single base interval. */
  function ChoosePlan(req: Request, s: Settings): Result<Plan, ParseError>
  {
    if Given(req.weeklySchedule) then
      match WeeklySchedule(req.weeklySchedule.value)
      case Err(e) => Err(e)
      case Ok(days) => Ok(ByWeekday(days))
    else if Given(req.sameSchedule) then
      match SameSchedule(req.sameSchedule.value)
      case Err(e) => Err(e)
      case Ok(ivs) => Ok(EveryDay(ivs))
    else Ok(EveryDay([Interval(s.startTime, s.endTime)]))
  }

  /** The base intervals of a weekday under a plan; None when a weekly plan does not name it. */
  function DayIntervals(plan: Plan, weekday: int): Option<seq<Interval>>
  {
    match plan
    case EveryDay(ivs) => Some(ivs)
    case ByWeekday(days) => if weekday >= 0 && weekday in days then Some(days[weekday]) else None
  }

  /** `_is_future_time` for a day, with the filer's creation moment `now`. */
  predicate FutureEnd(cfg: Config, now: Moment, date: Date, end: string)
  {
    IsFutureTime(cfg.skipFuture, now, date.year, date.month, date.day, end)
  }

  /** The day-level recheck: some interval of the day ends in the future. */
  predicate AnyFuture(cfg: Config, now: Moment, date: Date, ivs: seq<Interval>)
  {
    exists i :: 0 <= i < |ivs| && FutureEnd(cfg, now, date, ivs[i].end)
  }

  /** The intervals the randomizing loop keeps, where the generator is then, and whether it raised. */
  datatype Draft = Draft(kept: seq<Interval>, next: nat, raised: bool)

  /**
   * The randomizing loop over a prefix of the day's base intervals: each is
   * jittered when the variation is positive, then dropped if it ends in the
   * future. A raise ends the loop.
   */
  function Randomize(cfg: Config, now: Moment, date: Date, ivs: seq<Interval>, stream: nat -> nat, pos: nat): (d: Draft)
    ensures |d.kept| <= |ivs|
  {
    if ivs == [] then Draft([], pos, false)
    else
      var d := Randomize(cfg, now, date, ivs[..|ivs| - 1], stream, pos);
      if d.raised then d
      else
        var base := ivs[|ivs| - 1];
        var r := if cfg.variation > 0 then JitterAt(cfg.variation, base.start, base.end, stream, d.next) else Drawn(base, d.next);
        match r
        case Raised => Draft(d.kept, d.next, true)
        case Drawn(iv, next) =>
          if FutureEnd(cfg, now, date, iv.end) then Draft(d.kept, next, false)
          else Draft(d.kept + [iv], next, false)
  }

  /** The requests a day's checked intervals produce: none in a dry run, one multi-interval request when the import worked and there are several, else one per interval. */
  function Dispatch(date: Date, ivs: seq<Interval>, woffuAvailable: bool, dryRun: bool): (calls: seq<Call>)
  {
    if dryRun then []
    else if woffuAvailable && |ivs| > 1 then [Multi(date, ivs)]
    else seq(|ivs|, i requires 0 <= i < |ivs| => Single(date, ivs[i]))
  }

  /** The `n` requests made from request number `k` on all succeed. */
  predicate AllAnswered(answers: nat -> bool, k: nat, n: nat)
  {
    forall i :: k <= i < k + n ==> answers(i)
  }

  /** One day's outcome, the generator position after it, and the requests it made. */
  datatype DayStep = DayStep(outcome: DayOutcome, next: nat, calls: seq<Call>)

  /**
   * The part of a day's body after the randomizing loop has produced `d`:
   * sort what is kept, reject overlaps, recheck the future and submit, with
   * `k` requests made before.
   */
  function SubmitKept(cfg: Config, now: Moment, date: Date, d: Draft, dryRun: bool, answers: nat -> bool, k: nat): DayStep
  {
    if d.raised then DayStep(Threw, d.next, [])
    else if d.kept == [] then DayStep(SkippedNothingLeft, d.next, [])
    else
      var sorted := SortByStart(d.kept);
      if !AdjacentOk(sorted) then DayStep(Overlapping, d.next, [])
      else if AnyFuture(cfg, now, date, sorted) then DayStep(SkippedFutureDay, d.next, [])
      else
        var calls := Dispatch(date, sorted, cfg.woffuAvailable, dryRun);
        DayStep(if AllAnswered(answers, k, |calls|) then Filed else Failed, d.next, calls)
  }

  /** The part of a day's body after its base intervals `today` are known, with the generator at `pos`. */
  function FileIntervals(cfg: Config, now: Moment, date: Date, today: seq<Interval>, dryRun: bool,
                         stream: nat -> nat, pos: nat, answers: nat -> bool, k: nat): DayStep
  {
    SubmitKept(cfg, now, date, Randomize(cfg, now, date, today, stream, pos), dryRun, answers, k)
  }

  /**
   * The body of the day loop for day `day`, with the generator at `pos` and
   * `k` requests made before. `date(year, month, day)` raises for a year
   * outside 1..9999, before anything else happens that day.
   */
  function ProcessDay(cfg: Config, s: Settings, dryRun: bool, plan: Plan, now: Moment, day: int,
                      stream: nat -> nat, pos: nat, answers: nat -> bool, k: nat): DayStep
  {
    if !ValidDate(s.year, s.month, day) then DayStep(Threw, pos, [])
    else if s.skipWeekends && !IsWeekday(s.year, s.month, day) then DayStep(SkippedWeekend, pos, [])
    else match DayIntervals(plan, Weekday(s.year, s.month, day))
      case None => DayStep(SkippedNoSchedule, pos, [])
      case Some(today) => FileIntervals(cfg, now, Date(s.year, s.month, day), today, dryRun, stream, pos, answers, k)
  }

  /** The counters after one more day. */
  function Count(st: Stats, o: DayOutcome): Stats
  {
    match o
    case Filed => Stats(st.success + 1, st.skipped, st.errors)
    case Failed => Stats(st.success, st.skipped, st.errors + 1)
    case Overlapping => Stats(st.success, st.skipped, st.errors + 1)
    case Threw => st
    case _ => Stats(st.success, st.skipped + 1, st.errors)
  }

  /** The state of the day loop: counters, generator position, requests made, and whether an exception escaped. */
  datatype Progress = Progress(stats: Stats, next: nat, calls: seq<Call>, crashed: bool)

  /** A day body: the step for a day, given the generator position and the number of requests made so far. */
  type DayBody = (int, nat, nat) -> DayStep

  /** The day body of a filing. */
  function DayBodyOf(cfg: Config, s: Settings, dryRun: bool, plan: Plan, now: Moment,
                     stream: nat -> nat, answers: nat -> bool): DayBody
  {
    (day: int, at: nat, made: nat) => ProcessDay(cfg, s, dryRun, plan, now, day, stream, at, answers, made)
  }

  /** The day loop over days 1..n: stop at the first exception, otherwise count each day's outcome. */
  function DayLoop(body: DayBody, n: nat, pos: nat, k: nat): Progress
  {
    if n == 0 then Progress(Stats(0, 0, 0), pos, [], false)
    else
      var p := DayLoop(body, n - 1, pos, k);
      if p.crashed then p
      else
        var step := body(n, p.next, k + |p.calls|);
        Progress(Count(p.stats, step.outcome), step.next, p.calls + step.calls, step.outcome == Threw)
  }

  /** The whole filing: its result, the generator position after it, and the requests it made. */
  datatype Run = Run(result: RunResult, next: nat, calls: seq<Call>)

  /**
   * `execute_monthly_filing` for a filer created at `now`, with `woffu.py`
   * present or not, the generator at `pos` and `k` requests made before.
   * `calendar.monthrange` raises for a month outside 1..12.
   */
  function MonthlyFiling(cfg: Config, req: Request, scriptPresent: bool, now: Moment,
                         stream: nat -> nat, pos: nat, answers: nat -> bool, k: nat): Run
  {
    var s := Resolve(cfg, req);
    if !scriptPresent then Run(Finished(Stats(0, 0, 0)), pos, [])
    else if !(1 <= s.month <= 12) then Run(Crashed, pos, [])
    else match ChoosePlan(req, s)
      case Err(_) => Run(Finished(Stats(0, 0, 1)), pos, [])
      case Ok(plan) => FileMonth(cfg, s, req.dryRun, plan, now, stream, pos, answers, k)
  }

  /** The day loop over every day of the month `s.month` (1..12), once the plan is known. */
  function FileMonth(cfg: Config, s: Settings, dryRun: bool, plan: Plan, now: Moment,
                     stream: nat -> nat, pos: nat, answers: nat -> bool, k: nat): Run
    requires 1 <= s.month <= 12
  {
    var p := DayLoop(DayBodyOf(cfg, s, dryRun, plan, now, stream, answers), DaysInMonth(s.year, s.month), pos, k);
    Run(if p.crashed then Crashed else Finished(p.stats), p.next, p.calls)
  }

  // ---- The filer ------------------------------------------------------

  /** `WoffuAutologin`: the moment it was created is fixed for its lifetime. */
  class WoffuAutologin {
    const now: Moment

    /** `__init__`: `self.now = datetime.now()`, taken here as a parameter. */
    constructor(now: Moment)
      ensures this.now == now
    {
      this.now := now;
    }

    /** The randomizing loop of one day. */
    method RandomizeDay(cfg: Config, date: Date, today: seq<Interval>, rng: Rng) returns (kept: seq<Interval>, raised: bool)
      modifies rng
      ensures var d := Randomize(cfg, now, date, today, rng.stream, old(rng.pos));
        kept == d.kept && raised == d.raised && rng.pos == d.next
    {
      kept := [];
      raised := false;
      for i := 0 to |today|
        invariant Randomize(cfg, now, date, today[..i], rng.stream, old(rng.pos)) == Draft(kept, rng.pos, false)
      {
        assert today[..i + 1][..i] == today[..i];
        var base := today[i];
        var r: Interval;
        if cfg.variation > 0 {
          var drawn := GenerateRandomTimes(cfg.variation, base.start, base.end, rng);
          if drawn.None? {
            RaiseSticks(cfg, now, date, today, rng.stream, old(rng.pos), i + 1);
            return kept, true;
          }
          r := drawn.value;
        } else {
          r := base;
        }
        if FutureEnd(cfg, now, date, r.end) {
          continue;
        }
        kept := kept + [r];
      }
      assert today[..|today|] == today;
    }

    /** Submitting a day's checked intervals: one multi-interval request, or one request per interval without stopping at a failure. */
    method SubmitDay(date: Date, ivs: seq<Interval>, woffuAvailable: bool, dryRun: bool, remote: Remote) returns (ok: bool)
      modifies remote
      ensures var calls := Dispatch(date, ivs, woffuAvailable, dryRun);
        remote.log == old(remote.log) + calls && ok == AllAnswered(remote.answers, |old(remote.log)|, |calls|)
    {
      if dryRun {
        return true;
      }
      if woffuAvailable && |ivs| > 1 {
        ok := remote.Submit(Multi(date, ivs));
        assert AllAnswered(remote.answers, |old(remote.log)|, 1) <==> remote.answers(|old(remote.log)|);
        return;
      }
      ok := true;
      ghost var k := |remote.log|;
      for i := 0 to |ivs|
        invariant remote.log == old(remote.log) + seq(i, j requires 0 <= j < i => Single(date, ivs[j]))
        invariant ok == AllAnswered(remote.answers, k, i)
      {
        var single := remote.Submit(Single(date, ivs[i]));
        assert AllAnswered(remote.answers, k, i + 1) <==> AllAnswered(remote.answers, k, i) && remote.answers(k + i);
        if !single {
          ok := false;
        }
      }
    }

    /** The checks and the submission that follow the randomizing loop of one day. */
    method CheckAndSubmit(cfg: Config, date: Date, d: Draft, dryRun: bool, remote: Remote) returns (outcome: DayOutcome)
      modifies remote
      ensures |remote.log| >= |old(remote.log)| && remote.log[..|old(remote.log)|] == old(remote.log)
      ensures SubmitKept(cfg, now, date, d, dryRun, remote.answers, |old(remote.log)|)
        == DayStep(outcome, d.next, remote.log[|old(remote.log)|..])
    {
      if d.raised {
        return Threw;
      }
      if d.kept == [] {
        return SkippedNothingLeft;
      }
      var sorted := SortByStart(d.kept);
      var valid := CheckNoOverlap(sorted);
      if !valid {
        return Overlapping;
      }
      if AnyFuture(cfg, now, date, sorted) {
        return SkippedFutureDay;
      }
      var ok := SubmitDay(date, sorted, cfg.woffuAvailable, dryRun, remote);
      outcome := if ok then Filed else Failed;
    }

    /** One day's base intervals: the randomizing loop, then the checks and the submission. */
    method FileToday(cfg: Config, date: Date, today: seq<Interval>, dryRun: bool, rng: Rng, remote: Remote) returns (outcome: DayOutcome)
      modifies rng, remote
      ensures |remote.log| >= |old(remote.log)| && remote.log[..|old(remote.log)|] == old(remote.log)
      ensures FileIntervals(cfg, now, date, today, dryRun, rng.stream, old(rng.pos), remote.answers, |old(remote.log)|)
        == DayStep(outcome, rng.pos, remote.log[|old(remote.log)|..])
    {
      var kept, raised := RandomizeDay(cfg, date, today, rng);
      outcome := CheckAndSubmit(cfg, date, Draft(kept, rng.pos, raised), dryRun, remote);
    }

    /** The body of the day loop. */
    method FileDay(cfg: Config, s: Settings, dryRun: bool, plan: Plan, day: int, rng: Rng, remote: Remote) returns (outcome: DayOutcome)
      modifies rng, remote
      ensures |remote.log| >= |old(remote.log)| && remote.log[..|old(remote.log)|] == old(remote.log)
      ensures ProcessDay(cfg, s, dryRun, plan, now, day, rng.stream, old(rng.pos), remote.answers, |old(remote.log)|)
        == DayStep(outcome, rng.pos, remote.log[|old(remote.log)|..])
    {
      if !ValidDate(s.year, s.month, day) {
        return Threw;
      }
      if s.skipWeekends && !IsWeekday(s.year, s.month, day) {
        return SkippedWeekend;
      }
      var today := DayIntervals(plan, Weekday(s.year, s.month, day));
      if today.None? {
        return SkippedNoSchedule;
      }
      outcome := FileToday(cfg, Date(s.year, s.month, day), today.value, dryRun, rng, remote);
    }

    /** The day loop over days 1..n: stops at the first exception, otherwise counts each day's outcome. */
    method RunMonth(cfg: Config, s: Settings, dryRun: bool, plan: Plan, n: nat, rng: Rng, remote: Remote) returns (stats: Stats, crashed: bool)
      modifies rng, remote
      ensures |remote.log| >= |old(remote.log)| && remote.log[..|old(remote.log)|] == old(remote.log)
      ensures DayLoop(DayBodyOf(cfg, s, dryRun, plan, now, rng.stream, remote.answers), n, old(rng.pos), |old(remote.log)|)
        == Progress(stats, rng.pos, remote.log[|old(remote.log)|..], crashed)
    {
      stats := Stats(0, 0, 0);
      ghost var body := DayBodyOf(cfg, s, dryRun, plan, now, rng.stream, remote.answers);
      ghost var pos, k := rng.pos, |remote.log|;
      for day := 1 to n + 1
        invariant |remote.log| >= k && remote.log[..k] == old(remote.log)
        invariant DayLoop(body, day - 1, pos, k) == Progress(stats, rng.pos, remote.log[k..], false)
      {
        ghost var before, at := remote.log, rng.pos;
        var outcome := FileDay(cfg, s, dryRun, plan, day, rng, remote);
        DayLoopAdvance(body, day, pos, k, stats, at, before, outcome, rng.pos, remote.log);
        if outcome == Threw {
          CrashSticks(body, n, day, pos, k);
          return stats, true;
        }
        stats := Count(stats, outcome);
      }
      crashed := false;
    }

    /** The choice of strategy in `execute_monthly_filing`, parsing the schedule text it is given. */
    method ParsePlan(req: Request, s: Settings) returns (plan: Result<Plan, ParseError>)
      ensures plan == ChoosePlan(req, s)
    {
      if Given(req.weeklySchedule) {
        var weekly := ParseWeeklySchedule(req.weeklySchedule.value);
        plan := if weekly.Err? then Err(weekly.error) else Ok(ByWeekday(weekly.value));
      } else if Given(req.sameSchedule) {
        var same := ParseSameSchedule(req.sameSchedule.value);
        plan := if same.Err? then Err(same.error) else Ok(EveryDay(same.value));
      } else {
        plan := Ok(EveryDay([Interval(s.startTime, s.endTime)]));
      }
    }

    /** `execute_monthly_filing` */
    method ExecuteMonthlyFiling(cfg: Config, req: Request, scriptPresent: bool, rng: Rng, remote: Remote) returns (result: RunResult)
      modifies rng, remote
      ensures var run := MonthlyFiling(cfg, req, scriptPresent, now, rng.stream, old(rng.pos), remote.answers, |old(remote.log)|);
        result == run.result && rng.pos == run.next && remote.log == old(remote.log) + run.calls
    {
      var s := Resolve(cfg, req);
      if !scriptPresent {
        return Finished(Stats(0, 0, 0));
      }
      if !(1 <= s.month <= 12) {
        return Crashed;
      }
      var daysInMonth := DaysInMonth(s.year, s.month);
      var plan := ParsePlan(req, s);
      if plan.Err? {
        return Finished(Stats(0, 0, 1));
      }
      var stats, crashed := RunMonth(cfg, s, req.dryRun, plan.value, daysInMonth, rng, remote);
      result := if crashed then Crashed else Finished(stats);
    }
  }

  /**
   * One more day of the day loop, in terms of the request log: after `day - 1`
   * days the log was `before` and the generator at `at`; the body's step for
   * `day` moved it to `next` and extended the log to `after`.
   */
  lemma DayLoopAdvance(body: DayBody, day: nat, pos: nat, k: nat, stats: Stats, at: nat,
                       before: seq<Call>, outcome: DayOutcome, next: nat, after: seq<Call>)
    requires day >= 1 && k <= |before| <= |after| && after[..|before|] == before
    requires DayLoop(body, day - 1, pos, k) == Progress(stats, at, before[k..], false)
    requires body(day, at, |before|) == DayStep(outcome, next, after[|before|..])
    ensures after[..k] == before[..k]
    ensures DayLoop(body, day, pos, k) == Progress(Count(stats, outcome), next, after[k..], outcome == Threw)
  {
    assert after[k..] == before[k..] + after[|before|..];
  }

  /** Once a day has raised, the later days of the month do not matter. */
  lemma {:induction false} CrashSticks(body: DayBody, n: nat, m: nat, pos: nat, k: nat)
    requires m <= n && DayLoop(body, m, pos, k).crashed
    ensures DayLoop(body, n, pos, k) == DayLoop(body, m, pos, k)
  {
    if m < n {
      CrashSticks(body, n - 1, m, pos, k);
    }
  }

  /** Once the randomizing loop has raised, later intervals do not matter. */
  lemma {:induction false} RaiseSticks(cfg: Config, now: Moment, date: Date, ivs: seq<Interval>, stream: nat -> nat, pos: nat, j: nat)
    requires j <= |ivs| && Randomize(cfg, now, date, ivs[..j], stream, pos).raised
    ensures Randomize(cfg, now, date, ivs, stream, pos) == Randomize(cfg, now, date, ivs[..j], stream, pos)
    decreases |ivs| - j
  {
    if j < |ivs| {
      var next := ivs[..j + 1];
      assert next[..|next| - 1] == ivs[..j];
      RaiseSticks(cfg, now, date, ivs, stream, pos, j + 1);
    } else {
      assert ivs[..j] == ivs;
    }
  }
}
