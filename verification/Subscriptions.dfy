/** The subscription row and the UPDATE statements the worker issues on it. */
module Subscriptions {
  import opened BillingCycle
  import opened Calendar
  import opened Keys
  import opened Prelude

  datatype Status =
    PendingPayment | Trialing | Active | GracePeriod | PastDue | Dunning | Paused | Suspended | Cancelled

  type Time = t: Stamp | ValidStamp(t) witness Stamp(Date(0, 1), 0)

  /** The plans table's constraints. */
  type BillingPlan = p: Plan | p.amount > 0 && p.count > 0 witness Plan(1, Monthly, 1)

  /** `version` stands for updated_at: no two writes of a row share its value. */
  datatype Row = Row(id: string, status: Status, attempt: nat, cancelAtPeriodEnd: bool, token: string, mandate: string,
                     rail: Option<Rail>, periodStart: Time, periodEnd: Time, nextRetry: Option<int>, version: nat)

  datatype Write =
    | ClaimAttempt(expected: nat)
    | Renew(status: Status, start: Time, end: Time)
    | RenewIf(version: nat, status: Status, start: Time, end: Time)
    | SetStatus(status: Status)
    | SetStatusIf(version: nat, status: Status)
    | SetDunning(status: Status, attempt: nat, nextRetry: Option<int>)
    | SetRail(rail: Rail)
    | SetToken(token: string)
    | Cancel
    | FlagCancel

  /** The WHERE clause beyond the ids. */
  predicate Matches(r: Row, u: Write) {
    match u
    case ClaimAttempt(expected) => r.attempt == expected
    case RenewIf(version, _, _, _) => r.version == version && r.status != Cancelled
    case SetStatusIf(version, _) => r.version == version && r.status != Cancelled
    case _ => true
  }

  /** The SET clause.  Every statement but one sets updated_at itself; the
      optimistic status update leaves it to the table's trigger, if installed. */
  function Written(r: Row, u: Write, trigger: bool): Row {
    var next := r.(version := r.version + 1);
    match u
    case ClaimAttempt(_) => next.(attempt := r.attempt + 1)
    case Renew(status, start, end) => Renewed(next, status, start, end)
    case RenewIf(_, status, start, end) => Renewed(next, status, start, end)
    case SetStatus(status) => next.(status := status)
    case SetStatusIf(_, status) => (if trigger then next else r).(status := status)
    case SetDunning(status, attempt, at) => next.(status := status, attempt := attempt, nextRetry := at)
    case SetRail(rail) => next.(rail := Some(rail))
    case SetToken(token) => next.(token := token)
    case Cancel => next.(status := Cancelled)
    case FlagCancel => next.(cancelAtPeriodEnd := true)
  }

  function Renewed(r: Row, status: Status, start: Time, end: Time): Row {
    r.(status := status, periodStart := start, periodEnd := end, attempt := 0, nextRetry := None)
  }

  // ------------------------------------------------------------------
  // The documented transition table
  // ------------------------------------------------------------------

  datatype Event =
    | TrialPaymentSucceeded | TrialPaymentFailed | TrialCancelled | RenewalFailed | GraceRetrySucceeded
    | GraceRetryFailed | CustomerPaused | CustomerCancelled | TenantCancelled | RetrySucceeded
    | RetryFailedRetriable | RetryFailedNonRetriable | RetriesExhausted | CustomerResumed | ManualRecovery
    | GraceExpired | CheckoutPaymentSucceeded | CheckoutPaymentFailed | CheckoutAbandoned

  datatype TransitionResult = To(status: Status) | TerminalState | TransitionError(current: Status, event: Event)

  function Transition(s: Status, e: Event): TransitionResult {
    match (s, e)
    case (Cancelled, _) => TerminalState
    case (PendingPayment, CheckoutPaymentSucceeded) => To(Active)
    case (PendingPayment, CheckoutPaymentFailed) => To(PastDue)
    case (PendingPayment, CheckoutAbandoned) => To(PastDue)
    case (PendingPayment, CustomerCancelled) => To(Cancelled)
    case (PendingPayment, TenantCancelled) => To(Cancelled)
    case (Trialing, TrialPaymentSucceeded) => To(Active)
    case (Trialing, TrialPaymentFailed) => To(PastDue)
    case (Trialing, TrialCancelled) => To(Cancelled)
    case (Trialing, CustomerCancelled) => To(Cancelled)
    case (Trialing, TenantCancelled) => To(Cancelled)
    case (Active, RenewalFailed) => To(GracePeriod)
    case (Active, CustomerPaused) => To(Paused)
    case (Active, CustomerCancelled) => To(Cancelled)
    case (Active, TenantCancelled) => To(Cancelled)
    case (GracePeriod, GraceRetrySucceeded) => To(Active)
    case (GracePeriod, GraceRetryFailed) => To(PastDue)
    case (GracePeriod, GraceExpired) => To(PastDue)
    case (GracePeriod, CustomerCancelled) => To(Cancelled)
    case (GracePeriod, TenantCancelled) => To(Cancelled)
    case (PastDue, RetrySucceeded) => To(Active)
    case (PastDue, RetryFailedRetriable) => To(Dunning)
    case (PastDue, RetryFailedNonRetriable) => To(Suspended)
    case (Dunning, RetrySucceeded) => To(Active)
    case (Dunning, RetryFailedRetriable) => To(Dunning)
    case (Dunning, RetriesExhausted) => To(Suspended)
    case (Paused, CustomerResumed) => To(Active)
    case (Paused, CustomerCancelled) => To(Cancelled)
    case (Suspended, ManualRecovery) => To(Active)
    case (Suspended, CustomerCancelled) => To(Cancelled)
    case (Suspended, TenantCancelled) => To(Cancelled)
    case (_, _) => TransitionError(s, e)
  }

  /** Some event of the table takes s to t. */
  ghost predicate OnTable(s: Status, t: Status) { exists e :: Transition(s, e) == To(t) }

  /** The edges of the table, spelled out. */
  predicate TableEdge(s: Status, t: Status) {
    match s
    case PendingPayment => t == Active || t == PastDue || t == Cancelled
    case Trialing => t == Active || t == PastDue || t == Cancelled
    case Active => t == GracePeriod || t == Paused || t == Cancelled
    case GracePeriod => t == Active || t == PastDue || t == Cancelled
    case PastDue => t == Active || t == Dunning || t == Suspended
    case Dunning => t == Active || t == Dunning || t == Suspended
    case Paused => t == Active || t == Cancelled
    case Suspended => t == Active || t == Cancelled
    case Cancelled => false
  }

  /** An event that takes s along an edge. */
  function EventFor(s: Status, t: Status): Event
    requires TableEdge(s, t)
  {
    match (s, t)
    case (_, Cancelled) => CustomerCancelled
    case (PendingPayment, Active) => CheckoutPaymentSucceeded
    case (PendingPayment, _) => CheckoutPaymentFailed
    case (Trialing, Active) => TrialPaymentSucceeded
    case (Trialing, _) => TrialPaymentFailed
    case (Active, GracePeriod) => RenewalFailed
    case (Active, _) => CustomerPaused
    case (GracePeriod, Active) => GraceRetrySucceeded
    case (GracePeriod, _) => GraceRetryFailed
    case (PastDue, Suspended) => RetryFailedNonRetriable
    case (Dunning, Suspended) => RetriesExhausted
    case (_, Dunning) => RetryFailedRetriable
    case (Paused, _) => CustomerResumed
    case (Suspended, _) => ManualRecovery
    case (_, _) => RetrySucceeded
  }

  lemma OnTableExactly(s: Status, t: Status)
    ensures OnTable(s, t) <==> TableEdge(s, t)
  {
    if TableEdge(s, t) {
      assert Transition(s, EventFor(s, t)) == To(t);
    }
  }

  /** Where each event leads, and from which statuses it may be taken. */
  function TargetOf(e: Event): Status {
    match e
    case TrialPaymentSucceeded => Active
    case GraceRetrySucceeded => Active
    case RetrySucceeded => Active
    case CustomerResumed => Active
    case ManualRecovery => Active
    case CheckoutPaymentSucceeded => Active
    case RenewalFailed => GracePeriod
    case TrialPaymentFailed => PastDue
    case GraceRetryFailed => PastDue
    case GraceExpired => PastDue
    case CheckoutPaymentFailed => PastDue
    case CheckoutAbandoned => PastDue
    case RetryFailedRetriable => Dunning
    case RetryFailedNonRetriable => Suspended
    case RetriesExhausted => Suspended
    case CustomerPaused => Paused
    case TrialCancelled => Cancelled
    case CustomerCancelled => Cancelled
    case TenantCancelled => Cancelled
  }

  function SourcesOf(e: Event): set<Status> {
    match e
    case TrialPaymentSucceeded => {Trialing}
    case TrialPaymentFailed => {Trialing}
    case TrialCancelled => {Trialing}
    case RenewalFailed => {Active}
    case GraceRetrySucceeded => {GracePeriod}
    case GraceRetryFailed => {GracePeriod}
    case GraceExpired => {GracePeriod}
    case CustomerPaused => {Active}
    case CustomerCancelled => {PendingPayment, Trialing, Active, GracePeriod, Paused, Suspended}
    case TenantCancelled => {PendingPayment, Trialing, Active, GracePeriod, Suspended}
    case RetrySucceeded => {PastDue, Dunning}
    case RetryFailedRetriable => {PastDue, Dunning}
    case RetryFailedNonRetriable => {PastDue}
    case RetriesExhausted => {Dunning}
    case CustomerResumed => {Paused}
    case ManualRecovery => {Suspended}
    case CheckoutPaymentSucceeded => {PendingPayment}
    case CheckoutPaymentFailed => {PendingPayment}
    case CheckoutAbandoned => {PendingPayment}
  }

  /** An event leads to one status from wherever it may be taken; CANCELLED is terminal,
      and anything else is an error that names the status and the event. */
  lemma TransitionIsByEvent(s: Status, e: Event)
    ensures Transition(s, e) == if s == Cancelled then TerminalState
                                else if s in SourcesOf(e) then To(TargetOf(e)) else TransitionError(s, e)
  {}
}

/** The dunning decision. */
module Dunning {
  import opened Calendar
  import opened Prelude
  import opened Subscriptions

  const HOUR: int := 3_600_000_000_000

  /** A tenant's retry schedule, and the codes classified as non-retriable; a code
      not classified is retriable. */
  datatype Config = Config(intervals: seq<int>, maxAttempts: int, nonRetriable: set<string>)

  datatype Decision = Decision(shouldRetry: bool, nextRetryAt: Option<int>, newStatus: Status, attempt: nat,
                               grace: bool)

  function Decide(status: Status, attempt: nat, code: string, config: Config, now: Time): Decision {
    if code in config.nonRetriable then Decision(false, None, Suspended, attempt, false)
    else if attempt == 0 && (status == Active || status == Trialing) then
      Decision(true, Some(Instant(now) + 48 * HOUR), GracePeriod, 0, true)
    else
      var next := attempt + 1;
      if next > config.maxAttempts then Decision(false, None, Suspended, attempt, false)
      else if next > |config.intervals| then Decision(false, None, Suspended, attempt, false)
      else
        var at := AddDate(now, 0, config.intervals[next - 1]);
        var newStatus := if status == Active || status == Trialing then PastDue else Subscriptions.Status.Dunning;
        Decision(true, Some(Instant(at)), newStatus, next, false)
  }

  /** How many failed attempts a schedule allows. */
  function Limit(config: Config): nat { Max(0, Min(config.maxAttempts, |config.intervals|)) }

  /** Exactly when the engine gives up, that a first failure gets two days of grace, what
      the n-th retriable failure schedules, and that its delay is counted from that
      failure, not from the first one. */
  lemma DecisionIs(status: Status, attempt: nat, code: string, config: Config, now: Time)
    ensures var d := Decide(status, attempt, code, config, now);
      var first := attempt == 0 && (status == Active || status == Trialing);
      && (d.newStatus == Suspended <==> !d.shouldRetry)
      && (!d.shouldRetry <==> code in config.nonRetriable || (!first && attempt >= Limit(config)))
      && (d.grace <==> code !in config.nonRetriable && first)
      && (d.grace ==> d.newStatus == GracePeriod && d.attempt == 0
                      && d.nextRetryAt == Some(Instant(now) + 2 * 24 * 60 * 60 * 1_000_000_000))
      && (d.shouldRetry && !d.grace ==>
            d.attempt == attempt + 1 <= Limit(config)
            && d.newStatus == (if status == Active || status == Trialing then PastDue else Subscriptions.Status.Dunning)
            && d.nextRetryAt == Some(Instant(now) + config.intervals[attempt] * NANOS_PER_DAY))
  {
    if attempt < |config.intervals| {
      var at := AddDate(now, 0, config.intervals[attempt]);
      assert DayNumber(at.date) == DayNumber(now.date) + config.intervals[attempt];
    }
  }

  // ---- when retries land if every one fails at its scheduled time ----

  /** Days from the first failure to the n-th retry: all delays so far. */
  function RetryDay(intervals: seq<int>, n: nat): int
    requires n < |intervals|
  {
    intervals[n] + if n == 0 then 0 else RetryDay(intervals, n - 1)
  }

  function RetryTime(first: Time, intervals: seq<int>, n: nat): Time
    requires n < |intervals|
  {
    AddDate(if n == 0 then first else RetryTime(first, intervals, n - 1), 0, intervals[n])
  }

  /** The n-th retry is scheduled RetryDay days after the first failure; so it lands
      on the day its interval names exactly when the earlier delays add up to 0. */
  lemma {:induction false} RetriesAccumulate(first: Time, status: Status, code: string, config: Config, n: nat)
    requires n < Limit(config) && code !in config.nonRetriable && status != Active && status != Trialing
    ensures var failure := if n == 0 then first else RetryTime(first, config.intervals, n - 1);
      Decide(status, n, code, config, failure).nextRetryAt == Some(Instant(RetryTime(first, config.intervals, n)))
    ensures Instant(RetryTime(first, config.intervals, n))
      == Instant(first) + RetryDay(config.intervals, n) * NANOS_PER_DAY
    ensures RetryDay(config.intervals, n) == config.intervals[n] <==> n == 0 || RetryDay(config.intervals, n - 1) == 0
    decreases n
  {
    if n > 0 { RetriesAccumulate(first, status, code, config, n - 1); }
  }

  /** The documented days 3, 7, 14 and 21 come out as days 3, 10, 24 and 45. */
  lemma DefaultScheduleDays()
    ensures var s := [3, 7, 14, 21];
      RetryDay(s, 0) == 3 && RetryDay(s, 1) == 10 && RetryDay(s, 2) == 24 && RetryDay(s, 3) == 45
  {
    var s := [3, 7, 14, 21];
    assert RetryDay(s, 1) == 10;
    assert RetryDay(s, 2) == 24;
  }
}
