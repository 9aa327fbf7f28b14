/** Billing periods: the two month additions of the billing package, how they
    differ, and the resume-forward catch-up loop. */
module BillingCycle {
  import opened Calendar
  import opened Prelude

  datatype Interval = Monthly | Annual | Custom | Unknown(name: string)

  datatype Plan = Plan(amount: int, interval: Interval, count: int)

  // ------------------------------------------------------------------
  // addMonths and NextPeriod
  // ------------------------------------------------------------------

  /** addMonths: first of the target month, its last day as day 0 of the next
      month, and the day clamped to that. */
  function AddMonths(t: Stamp, n: int): (r: Stamp)
    ensures ValidStamp(t) ==> ValidStamp(r)
  {
    var target := Normalise(t.date.month + n, 1);
    var lastDay := Normalise(target.month + 1, 0).day;
    var day := if t.date.day > lastDay then lastDay else t.date.day;
    Stamp(Normalise(target.month, day), t.clock)
  }

  /** What addMonths lands on: n months on, never past the end of the month. */
  lemma AddMonthsLandsOn(t: Stamp, n: int)
    requires ValidStamp(t)
    ensures AddMonths(t, n).date == Date(t.date.month + n, Min(t.date.day, Length(t.date.month + n)))
    ensures AddMonths(t, n).clock == t.clock
  {
    DayZero(t.date.month + n);
  }

  function NextPeriod(periodEnd: Stamp, plan: Plan): Result<(Stamp, Stamp)>
    requires ValidStamp(periodEnd)
  {
    match plan.interval
    case Monthly => Ok((periodEnd, AddMonths(periodEnd, plan.count)))
    case Annual => Ok((periodEnd, AddMonths(periodEnd, plan.count * 12)))
    case Custom => Ok((periodEnd, AddDate(periodEnd, 0, plan.count)))
    case Unknown(name) => Err("unknown interval: " + name)
  }

  /** TrialEndDate: the trial runs whole days, across month and year ends. */
  function TrialEndDate(start: Stamp, trialDays: int): (r: Stamp)
    requires ValidStamp(start)
    ensures ValidStamp(r) && Instant(r) == Instant(start) + trialDays * NANOS_PER_DAY
  {
    AddDate(start, 0, trialDays)
  }

  /** addMonths keeps dates in order, for every n. */
  lemma AddMonthsIsMonotone(a: Stamp, b: Stamp, n: int)
    requires ValidStamp(a) && ValidStamp(b)
    requires DayNumber(a.date) <= DayNumber(b.date)
    ensures DayNumber(AddMonths(a, n).date) <= DayNumber(AddMonths(b, n).date)
  {
    AddMonthsLandsOn(a, n);
    AddMonthsLandsOn(b, n);
    DateOfDayNumberIsUnique(a.date, b.date);
    DateOfDayNumberIsUnique(AddMonths(a, n).date, AddMonths(b, n).date);
  }

  // ---- k renewals in a row ----

  /** The end of the k-th period of a plan billed every `every` months from t. */
  function Renewals(t: Stamp, every: nat, k: nat): (r: Stamp)
    requires ValidStamp(t)
    ensures ValidStamp(r)
    decreases k
  {
    if k == 0 then t else AddMonths(Renewals(t, every, k - 1), every)
  }

  /** The month of the k-th renewal. */
  function RenewalMonth(month: int, every: nat, k: nat): int
    decreases k
  {
    if k == 0 then month else RenewalMonth(month, every, k - 1) + every
  }

  lemma {:induction false} RenewalMonthIs(month: int, every: nat, k: nat)
    ensures RenewalMonth(month, every, k) == month + every * k
    decreases k
  {
    if k > 0 {
      RenewalMonthIs(month, every, k - 1);
      EveryStep(every, k - 1);
    }
  }

  lemma EveryStep(every: nat, k: nat)
    ensures every * (k + 1) == every * k + every
  {}

  /** The shortest of the k months a plan is renewed into; 31 when there is none. */
  function ShortestVisited(month: int, every: nat, k: nat): (n: int)
    ensures 28 <= n <= 31
    decreases k
  {
    if k == 0 then 31
    else Min(ShortestVisited(month, every, k - 1), Length(RenewalMonth(month, every, k)))
  }

  /** n months on, never past the end of the month. */
  function Landing(t: Stamp, n: int): (r: Stamp)
    requires ValidStamp(t)
    ensures ValidStamp(r)
  {
    Stamp(Date(t.date.month + n, Min(t.date.day, Length(t.date.month + n))), t.clock)
  }

  function Landings(t: Stamp, every: nat, k: nat): (r: Stamp)
    requires ValidStamp(t)
    ensures ValidStamp(r)
    decreases k
  {
    if k == 0 then t else Landing(Landings(t, every, k - 1), every)
  }

  lemma OneRenewal(before: Stamp, landed: Stamp, every: nat)
    requires ValidStamp(before) && before == landed
    ensures AddMonths(before, every) == Landing(landed, every)
  {
    AddMonthsLandsOn(before, every);
  }

  lemma {:induction false} RenewalsAreLandings(t: Stamp, every: nat, k: nat)
    requires ValidStamp(t)
    ensures Renewals(t, every, k) == Landings(t, every, k)
    decreases k
  {
    if k > 0 {
      RenewalsAreLandings(t, every, k - 1);
      OneRenewal(Renewals(t, every, k - 1), Landings(t, every, k - 1), every);
    }
  }

  lemma {:induction false} LandingsAre(t: Stamp, every: nat, k: nat)
    requires ValidStamp(t)
    ensures Landings(t, every, k) ==
      var month := RenewalMonth(t.date.month, every, k);
      Stamp(Date(month, Min(t.date.day, ShortestVisited(t.date.month, every, k))), t.clock)
    decreases k
  {
    if k > 0 { LandingsAre(t, every, k - 1); }
  }

  /** Renewing k times lands exactly k periods later, on the start day cut down to
      the shortest month on the way: the day never grows back. */
  lemma RenewalsLandOn(t: Stamp, every: nat, k: nat)
    requires ValidStamp(t)
    ensures Renewals(t, every, k).date ==
      Date(t.date.month + every * k, Min(t.date.day, ShortestVisited(t.date.month, every, k)))
    ensures Renewals(t, every, k).clock == t.clock
  {
    RenewalsAreLandings(t, every, k);
    LandingsAre(t, every, k);
    RenewalMonthIs(t.date.month, every, k);
  }

  /** Exactly when k renewals drift away from the anchor: the direct sum of k
      periods falls on a later day than the chain of renewals. */
  lemma RenewalsDriftExactlyWhen(t: Stamp, every: nat, k: nat)
    requires ValidStamp(t)
    ensures Renewals(t, every, k) == AddMonths(t, every * k) <==>
      Min(t.date.day, ShortestVisited(t.date.month, every, k)) == Min(t.date.day, Length(t.date.month + every * k))
    ensures Renewals(t, every, k).date.day == t.date.day <==>
      t.date.day <= ShortestVisited(t.date.month, every, k)
  {
    RenewalsLandOn(t, every, k);
    AddMonthsLandsOn(t, every * k);
  }

  /** The documented promise "31 January, 28 February, then 31 March" is not kept:
      31 January 2026 renews on 28 February and then on 28 March. */
  lemma JanuaryThirtyFirstDrifts(clock: int)
    requires 0 <= clock < NANOS_PER_DAY
    ensures var jan31 := Stamp(Date(12 * 2026, 31), clock);
      && ValidStamp(jan31)
      && Renewals(jan31, 1, 1).date == Date(12 * 2026 + 1, 28)
      && Renewals(jan31, 1, 2).date == Date(12 * 2026 + 2, 28)
      && AddMonths(jan31, 2).date == Date(12 * 2026 + 2, 31)
  {
    var jan31 := Stamp(Date(12 * 2026, 31), clock);
    assert Length(24312) == 31 && Length(24313) == 28 && Length(24314) == 31;
    RenewalsAreLandings(jan31, 1, 1);
    RenewalsAreLandings(jan31, 1, 2);
    AddMonthsLandsOn(jan31, 2);
    assert Landings(jan31, 1, 1).date == Date(24313, 28);
  }

  /** Months in a period of a monthly or annual plan. */
  function MonthsPerPeriod(plan: Plan): int { if plan.interval == Annual then plan.count * 12 else plan.count }

  /** Periods of a monthly or annual plan tile time: each starts where the one before
      ended, and it takes 28 to 31 days for each of its months. */
  lemma PeriodsTile(t: Stamp, plan: Plan, k: nat)
    requires ValidStamp(t) && (plan.interval == Monthly || plan.interval == Annual) && plan.count > 0
    ensures var every, start, end := MonthsPerPeriod(plan),
        Renewals(t, MonthsPerPeriod(plan), k), Renewals(t, MonthsPerPeriod(plan), k + 1);
      && NextPeriod(start, plan) == Ok((start, end))
      && (28 * every) * NANOS_PER_DAY <= Instant(end) - Instant(start) <= (31 * every) * NANOS_PER_DAY
  {
    var every := MonthsPerPeriod(plan);
    var start := Renewals(t, every, k);
    AddMonthsTakes(start, every);
    var days := DayNumber(AddMonths(start, every).date) - DayNumber(start.date);
    ScaleDays(28 * every, days);
    ScaleDays(days, 31 * every);
  }

  /** n months take 28 to 31 days each, whatever is cut off the day. */
  lemma AddMonthsTakes(t: Stamp, n: int)
    requires ValidStamp(t) && n > 0
    ensures 28 * n <= DayNumber(AddMonths(t, n).date) - DayNumber(t.date) <= 31 * n
    ensures AddMonths(t, n).clock == t.clock
  {
    var m := t.date.month;
    AddMonthsLandsOn(t, n);
    MonthStep(m);
    MonthSpan(m + 1, m + n);
  }

  lemma ScaleDays(a: int, b: int)
    requires a <= b
    ensures a * NANOS_PER_DAY <= b * NANOS_PER_DAY
  {}

  // ------------------------------------------------------------------
  // nextPeriodEnd
  // ------------------------------------------------------------------

  /** nextPeriodEnd: AddDate without clamping, and without the interval count for
      monthly and annual plans; every other interval counts days. */
  function NextPeriodEnd(from: Stamp, plan: Plan): (r: Stamp)
    requires ValidStamp(from)
    ensures ValidStamp(r) && r.clock == from.clock
  {
    match plan.interval
    case Annual => AddDate(from, 12, 0)
    case Monthly => AddDate(from, 1, 0)
    case _ => AddDate(from, 0, plan.count)
  }

  /** The days nextPeriodEnd moves on from a given month. */
  function PeriodDays(month: int, plan: Plan): int {
    match plan.interval
    case Annual => if LeapFebruaryAhead(month) then 366 else 365
    case Monthly => Length(month)
    case _ => plan.count
  }

  /** A monthly period is exactly as long as the current month, an annual one 365
      or 366 days by the leap rule, and any other exactly its day count. */
  lemma NextPeriodEndAdvances(from: Stamp, plan: Plan)
    requires ValidStamp(from)
    ensures DayNumber(NextPeriodEnd(from, plan).date) == DayNumber(from.date) + PeriodDays(from.date.month, plan)
    ensures Instant(NextPeriodEnd(from, plan)) == Instant(from) + PeriodDays(from.date.month, plan) * NANOS_PER_DAY
  {
    YearAhead(from.date.month);
    MonthStep(from.date.month);
    assert DayNumber(NextPeriodEnd(from, plan).date) == DayNumber(from.date) + PeriodDays(from.date.month, plan);
  }

  lemma PeriodEndIsLater(from: Stamp, plan: Plan)
    requires ValidStamp(from) && plan.count > 0
    ensures Before(from, NextPeriodEnd(from, plan))
  {
    NextPeriodEndAdvances(from, plan);
    ScaleDays(1, PeriodDays(from.date.month, plan));
  }

  /** Against addMonths by the same number of months: equal exactly when the day
      exists in the target month, otherwise later by the days that overflow. */
  lemma UnclampedOverflow(from: Stamp, n: int)
    requires ValidStamp(from)
    ensures AddDate(from, n, 0) == AddMonths(from, n) <==> from.date.day <= Length(from.date.month + n)
    ensures DayNumber(AddDate(from, n, 0).date) == DayNumber(AddMonths(from, n).date)
      + (if from.date.day <= Length(from.date.month + n) then 0 else from.date.day - Length(from.date.month + n))
  {
    AddMonthsLandsOn(from, n);
    DateOfDayNumberIsUnique(AddDate(from, n, 0).date, AddMonths(from, n).date);
  }

  /** nextPeriodEnd and NextPeriod give one plan the same period exactly when the
      interval is custom, or the count is 1 and no day overflows. */
  lemma PeriodFunctionsAgreeExactlyWhen(from: Stamp, plan: Plan)
    requires ValidStamp(from) && plan.count > 0
    ensures NextPeriod(from, plan).Err? <==> plan.interval.Unknown?
    ensures NextPeriod(from, plan) == Ok((from, NextPeriodEnd(from, plan))) <==>
      match plan.interval
      case Custom => true
      case Monthly => plan.count == 1 && from.date.day <= Length(from.date.month + 1)
      case Annual => plan.count == 1 && from.date.day <= Length(from.date.month + 12)
      case Unknown(_) => false
  {
    match plan.interval
    case Custom =>
    case Unknown(_) =>
    case Monthly =>
      UnclampedOverflow(from, 1);
      if plan.count > 1 { LongerPlansDiffer(from, 1, plan.count); }
    case Annual =>
      UnclampedOverflow(from, 12);
      if plan.count > 1 { LongerPlansDiffer(from, 12, plan.count * 12); }
  }

  lemma LongerPlansDiffer(from: Stamp, n: int, longer: int)
    requires ValidStamp(from) && 0 < n < longer
    ensures AddDate(from, n, 0) != AddMonths(from, longer)
  {
    var m := from.date.month;
    AddMonthsLandsOn(from, longer);
    MonthsApart(m + n, m + longer);
  }

  /** More than the three days by which clamping can move a day back. */
  lemma MonthsApart(a: int, b: int)
    requires a < b
    ensures MonthStart(b) - MonthStart(a) > 3
  {
    MonthSpan(a, b);
  }

  // ------------------------------------------------------------------
  // resumeForwardPlan
  // ------------------------------------------------------------------

  /** k period steps from a period end. */
  function Cursor(from: Stamp, plan: Plan, k: nat): (r: Stamp)
    requires ValidStamp(from)
    ensures ValidStamp(r)
    decreases k
  {
    if k == 0 then from else NextPeriodEnd(Cursor(from, plan, k - 1), plan)
  }

  /** k is the least number of period steps that reaches now. */
  ghost predicate LeastReach(from: Stamp, plan: Plan, now: Stamp, k: nat)
    requires ValidStamp(from)
  {
    !Before(Cursor(from, plan, k), now) && ShortBefore(from, plan, now, k)
  }

  /** Fewer than k steps fall short of now. */
  ghost predicate ShortBefore(from: Stamp, plan: Plan, now: Stamp, k: nat)
    requires ValidStamp(from)
  {
    forall j: nat :: j < k ==> Before(Cursor(from, plan, j), now)
  }

  lemma OneMoreShort(from: Stamp, plan: Plan, now: Stamp, k: nat)
    requires ValidStamp(from) && plan.count > 0
    requires ShortBefore(from, plan, now, k) && Before(Cursor(from, plan, k), now)
    ensures ShortBefore(from, plan, now, k + 1)
    ensures Cursor(from, plan, k + 1) == NextPeriodEnd(Cursor(from, plan, k), plan)
    ensures Before(Cursor(from, plan, k), Cursor(from, plan, k + 1))
  {
    PeriodEndIsLater(Cursor(from, plan, k), plan);
  }

  datatype Reason = Renewal | ResumeForward(cyclesSkipped: int)

  /** The loop counter is the least number of steps that reaches now, the new
      period starts now, and the audit reason counts all skipped cycles but one. */
  method ResumeForwardPlan(currentPeriodEnd: Stamp, plan: Plan, now: Stamp)
    returns (periodEnd: Stamp, reason: Reason, skipped: nat)
    requires ValidStamp(currentPeriodEnd) && ValidStamp(now) && plan.count > 0
    ensures periodEnd == NextPeriodEnd(now, plan) && Before(now, periodEnd)
    ensures LeastReach(currentPeriodEnd, plan, now, skipped)
    ensures reason == if skipped > 1 then ResumeForward(skipped - 1) else Renewal
  {
    periodEnd := NextPeriodEnd(now, plan);
    PeriodEndIsLater(now, plan);

    skipped := 0;
    var cursor := currentPeriodEnd;
    while Before(cursor, now)
      invariant ValidStamp(cursor) && cursor == Cursor(currentPeriodEnd, plan, skipped)
      invariant ShortBefore(currentPeriodEnd, plan, now, skipped)
      decreases Instant(now) - Instant(cursor)
    {
      OneMoreShort(currentPeriodEnd, plan, now, skipped);
      cursor := NextPeriodEnd(cursor, plan);
      skipped := skipped + 1;
    }

    reason := Renewal;
    if skipped > 1 {
      reason := ResumeForward(skipped - 1);
    }
  }

  /** Shortest and longest step of a plan, in days. */
  function ShortStep(plan: Plan): int {
    match plan.interval case Annual => 365 case Monthly => 28 case _ => plan.count
  }

  function LongStep(plan: Plan): int {
    match plan.interval case Annual => 366 case Monthly => 31 case _ => plan.count
  }

  /** k steps take between k shortest and k longest steps. */
  lemma {:induction false} CursorSpan(from: Stamp, plan: Plan, k: nat)
    requires ValidStamp(from)
    ensures k * ShortStep(plan) <= DaysReached(from, plan, k) <= k * LongStep(plan)
    ensures Instant(Cursor(from, plan, k)) - Instant(from) == DaysReached(from, plan, k) * NANOS_PER_DAY
    decreases k
  {
    if k > 0 {
      var before := Cursor(from, plan, k - 1);
      CursorSpan(from, plan, k - 1);
      NextPeriodEndAdvances(before, plan);
      assert ShortStep(plan) <= PeriodDays(before.date.month, plan) <= LongStep(plan);
      OneMore(k - 1, ShortStep(plan));
      OneMore(k - 1, LongStep(plan));
    }
  }

  function DaysReached(from: Stamp, plan: Plan, k: nat): int
    requires ValidStamp(from)
  {
    DayNumber(Cursor(from, plan, k).date) - DayNumber(from.date)
  }

  lemma OneMore(k: int, n: int)
    ensures (k + 1) * n == k * n + n
  {}

  function CeilDiv(a: int, b: int): int
    requires b > 0
  {
    (a + b - 1) / b
  }

  /** The counter in closed form.  With gap = now - old period end: none is skipped
      when the gap is not positive; otherwise the counter is between the gap over
      the longest step and the gap over the shortest, both rounded up, which for a
      day-count plan is one number. */
  lemma SkippedCyclesBounds(from: Stamp, plan: Plan, now: Stamp, k: nat)
    requires ValidStamp(from) && ValidStamp(now) && plan.count > 0
    requires LeastReach(from, plan, now, k)
    ensures var gap := Instant(now) - Instant(from);
      if gap <= 0 then k == 0
      else && CeilDiv(gap, LongStep(plan) * NANOS_PER_DAY) <= k
           && k <= CeilDiv(gap, ShortStep(plan) * NANOS_PER_DAY)
  {
    if !Before(from, now) {
      assert !Before(Cursor(from, plan, 0), now);
    } else {
      AtLeastTheLongSteps(from, plan, now, k);
      AtMostTheShortSteps(from, plan, now, k);
    }
  }

  lemma AtLeastTheLongSteps(from: Stamp, plan: Plan, now: Stamp, k: nat)
    requires ValidStamp(from) && ValidStamp(now) && plan.count > 0
    requires !Before(Cursor(from, plan, k), now)
    ensures CeilDiv(Instant(now) - Instant(from), LongStep(plan) * NANOS_PER_DAY) <= k
  {
    CursorSpan(from, plan, k);
    CeilAtMost(Instant(now) - Instant(from), DaysReached(from, plan, k), k, LongStep(plan));
  }

  lemma AtMostTheShortSteps(from: Stamp, plan: Plan, now: Stamp, k: nat)
    requires ValidStamp(from) && ValidStamp(now) && plan.count > 0 && Before(from, now)
    requires LeastReach(from, plan, now, k)
    ensures k <= CeilDiv(Instant(now) - Instant(from), ShortStep(plan) * NANOS_PER_DAY)
  {
    if k > 0 { StepsShortOf(from, plan, now, k - 1); }
  }

  lemma StepsShortOf(from: Stamp, plan: Plan, now: Stamp, k: nat)
    requires ValidStamp(from) && ValidStamp(now) && plan.count > 0
    requires Before(Cursor(from, plan, k), now)
    ensures k < CeilDiv(Instant(now) - Instant(from), ShortStep(plan) * NANOS_PER_DAY)
  {
    CursorSpan(from, plan, k);
    CeilMoreThan(Instant(now) - Instant(from), DaysReached(from, plan, k), k, ShortStep(plan));
  }

  lemma CeilAtMost(gap: int, days: int, k: nat, step: int)
    requires step > 0 && gap <= days * NANOS_PER_DAY && days <= k * step
    ensures CeilDiv(gap, step * NANOS_PER_DAY) <= k
  {
    var b := step * NANOS_PER_DAY;
    assert gap <= k * b by {
      assert days * NANOS_PER_DAY <= (k * step) * NANOS_PER_DAY;
      assert (k * step) * NANOS_PER_DAY == k * b;
    }
    QuotientBelow(gap + b - 1, b, k);
  }

  lemma QuotientBelow(a: int, b: int, k: int)
    requires b > 0 && a < (k + 1) * b
    ensures a / b <= k
  {
    var q := a / b;
    assert q * b <= a;
    LessFactor(q, k + 1, b);
  }

  lemma LessFactor(q: int, k: int, b: int)
    requires b > 0 && q * b < k * b
    ensures q < k
  {}

  lemma CeilMoreThan(gap: int, days: int, k: nat, step: int)
    requires step > 0 && days * NANOS_PER_DAY < gap && k * step <= days
    ensures CeilDiv(gap, step * NANOS_PER_DAY) > k
  {
    var b := step * NANOS_PER_DAY;
    assert k * b < gap by {
      assert (k * step) * NANOS_PER_DAY <= days * NANOS_PER_DAY;
      assert (k * step) * NANOS_PER_DAY == k * b;
    }
    var q := (gap + b - 1) / b;
    assert q * b + (gap + b - 1) % b == gap + b - 1;
    LessFactor(k, q, b);
  }

  /** The loop ends for exactly the plans whose step is positive, or when there is
      nothing to catch up: a day count of zero or less never reaches now. */
  lemma ResumeTerminatesExactlyWhen(from: Stamp, plan: Plan, now: Stamp)
    requires ValidStamp(from) && ValidStamp(now)
    ensures (exists k: nat :: !Before(Cursor(from, plan, k), now)) <==>
      !Before(from, now) || plan.interval.Monthly? || plan.interval.Annual? || plan.count > 0
  {
    if !Before(from, now) {
      assert !Before(Cursor(from, plan, 0), now);
    } else if ShortStep(plan) > 0 {
      var k := Instant(now) - Instant(from);
      CursorSpan(from, plan, k);
      AtLeast(k, ShortStep(plan));
      assert !Before(Cursor(from, plan, k), now);
    } else {
      forall k: nat
        ensures Before(Cursor(from, plan, k), now)
      {
        CursorSpan(from, plan, k);
        NotPositive(k, LongStep(plan));
      }
    }
  }

  lemma AtLeast(k: nat, n: int)
    requires n > 0
    ensures k * n >= k
  {}

  lemma NotPositive(k: nat, n: int)
    requires n <= 0
    ensures k * n <= 0
  {}
}
