/** What each job may do to the customer's money and to the row, told from the row, the
    wallet, the plan and the clock alone. */
module Effects {
  import opened BillingCycle
  import opened Books
  import opened Calendar
  import opened Dunning
  import opened Handlers
  import opened Keys
  import opened Ledger
  import opened Lifecycle
  import opened Outcomes
  import opened Prelude
  import opened Subscriptions

  const HOURS: int := 60 * 60 * 1_000_000_000

  // ------------------------------------------------------------------
  // Which calls are made
  // ------------------------------------------------------------------

  /** The three means of a recovery: a wallet that holds the price, a card on file, and
      from the third attempt on a mandate that the payment client can debit. */
  predicate WalletCovers(env: Env) { env.wallet.Some? && env.wallet.value >= env.plan.amount }

  predicate CardOnFile(r: Row) { r.token != "" && r.token != "N/A" }

  predicate MandateUsable(r: Row, env: Env) { r.mandate != "" && env.mandates && r.attempt + 1 >= 3 }

  predicate HasMeans(r: Row, env: Env) { WalletCovers(env) || CardOnFile(r) || MandateUsable(r, env) }

  predicate UpForRetry(r: Row) { (r.status == PastDue || r.status == Status.Dunning) && !r.cancelAtPeriodEnd }

  /** The wallet goes first, then a usable mandate, then the card. */
  predicate RailFits(rail: Rail, r: Row, env: Env) {
    match rail
    case Wallet => WalletCovers(env)
    case Mandate => !WalletCovers(env) && MandateUsable(r, env)
    case Card => !WalletCovers(env) && !MandateUsable(r, env) && CardOnFile(r)
    case Manual => !HasMeans(r, env)
  }

  function RecoveryText(rail: Rail, id: string, number: nat): string {
    (match rail
     case Wallet => "retry-wallet-" case Card => "retry-card-" case Mandate => "retry-mandate-" case Manual => "")
    + id + "-" + Decimal(number)
  }

  /** A call of a job is for the price of the plan, on a rail and under a reference that
      the row and the job account for. */
  predicate Justified(c: Call, job: Job, r: Row, env: Env) {
    && c.amount == env.plan.amount && (c.success <==> env.answer == Success)
    && match job
       case RetryFailedPayment =>
         && UpForRetry(r) && c.rail != Manual && RailFits(c.rail, r, env)
         && c.number == r.attempt + 1 && c.ref == RecoveryText(c.rail, r.id, c.number)
       case GraceRetry =>
         && r.status == GracePeriod && !r.cancelAtPeriodEnd
         && c.rail == Card && c.number == 0 && c.ref == "grace-" + r.id
       case ExpireTrial =>
         && r.status == Trialing && r.token != ""
         && c.rail == Card && c.number == 0 && c.ref == "trial-charge-" + r.id
       case _ => false
  }

  lemma RecoveryTextIs(rail: Rail, id: string, number: nat)
    requires rail != Manual
    ensures RetryKey(rail, id, number) == RecoveryText(rail, id, number)
  {}

  lemma RailOfARetry(r: Row, env: Env)
    ensures RailFits(RecoveryRail(r, env), r, env)
    ensures RecoveryRail(r, env) == Manual <==> !HasMeans(r, env)
  {}

  lemma CallsOfARun(s: State, job: Job, env: Env)
    ensures var call := CallOf(job, s.row, env);
      call.Some? ==> Justified(call.value, job, s.row, env)
  {
    RailOfARetry(s.row, env);
    if RecoveryRail(s.row, env) != Manual { RecoveryTextIs(RecoveryRail(s.row, env), s.row.id, s.row.attempt + 1); }
  }

  /** Every step of a run makes no call, or one that is justified. */
  predicate CallsJustified(s: State, steps: seq<Lifecycle.Step>)
    decreases |steps|
  {
    steps == [] ||
    (var t := Next(s, steps[0]);
     && (t.calls == s.calls ||
         (&& steps[0].Run? && |t.calls| == |s.calls| + 1 && s.calls <= t.calls
          && Justified(t.calls[|s.calls|], steps[0].job, s.row, steps[0].env)))
     && CallsJustified(t, steps[1..]))
  }

  /** Over every run of jobs one after another, dying anywhere: a wallet is debited only
      if it holds the price, and if it does no other rail is; a card is charged only if
      one is on file, a mandate only from the third attempt on where it can be debited;
      always the price of the plan, under the key of the job, row and attempt. */
  lemma {:induction false} EveryCallIsJustified(s: State, steps: seq<Lifecycle.Step>)
    ensures CallsJustified(s, steps)
    decreases |steps|
  {
    if steps != [] {
      if steps[0].Run? {
        StepOutline(s, steps[0]);
        CallsOfARun(s, steps[0].job, steps[0].env);
      }
      EveryCallIsJustified(Next(s, steps[0]), steps[1..]);
    }
  }

  /** And a retry that reaches its call makes one exactly when there are means. */
  lemma RetryCallsExactlyWhen(s: State, env: Env, fuel: nat)
    ensures |Next(s, Run(RetryFailedPayment, env, fuel)).calls| > |s.calls| <==>
      UpForRetry(s.row) && HasMeans(s.row, env) && fuel >= 2
  {
    RunCallsExactlyWhen(RetryFailedPayment, s.(fuel := fuel), s.row, env);
    RailOfARetry(s.row, env);
  }

  // ------------------------------------------------------------------
  // What the row looks like afterwards
  // ------------------------------------------------------------------

  /** A job that charges, on a row it charges, or a simulated checkout. */
  predicate Renewing(job: Job, r: Row, env: Env, fuel: nat) {
    match job
    case RetryFailedPayment => UpForRetry(r) && HasMeans(r, env) && env.answer == Success && fuel >= 4
    case GraceRetry => r.status == GracePeriod && !r.cancelAtPeriodEnd && env.answer == Success && fuel >= 2
    case ExpireTrial => r.status == Trialing && r.token != "" && env.answer == Success && fuel >= 2
    case SimulateWebhook(_, _) => r.status == PendingPayment && fuel >= 2
    case _ => false
  }

  /** The row is ACTIVE from now for one period, with no attempts used and no retry due;
      what a checkout sets is its token, what a retry notes is its rail. */
  predicate RenewedFrom(r: Row, t: Row, job: Job, env: Env) {
    && t.status == Active && t.attempt == 0 && t.nextRetry == None
    && t.periodStart == env.now
    && Instant(t.periodEnd) == Instant(env.now) + PeriodDays(env.now.date.month, env.plan) * NANOS_PER_DAY
    && t.id == r.id && t.mandate == r.mandate && t.cancelAtPeriodEnd == r.cancelAtPeriodEnd
    && t.token == (if job.SimulateWebhook? then job.token else r.token)
    && (if job.RetryFailedPayment? then t.rail.Some? && RailFits(t.rail.value, r, env) else t.rail == r.rail)
  }

  lemma RenewedRowIs(r: Row, u: Write, env: Env, trigger: bool)
    requires u == Renew(Active, env.now, NextPeriodEnd(env.now, env.plan))
      || u == RenewIf(r.version, Active, env.now, NextPeriodEnd(env.now, env.plan))
    ensures var t := Written(r, u, trigger);
      && t == r.(status := Active, attempt := 0, nextRetry := None, periodStart := env.now, periodEnd := t.periodEnd,
                 version := t.version)
      && Instant(t.periodEnd) == Instant(env.now) + PeriodDays(env.now.date.month, env.plan) * NANOS_PER_DAY
  {
    NextPeriodEndAdvances(env.now, env.plan);
  }

  lemma RetryRenews(s: State, env: Env)
    requires Renewing(RetryFailedPayment, s.row, env, s.fuel)
    ensures RenewedFrom(s.row, RetryRun(s, s.row, env).row, RetryFailedPayment, env)
  {
    var claimed := Written(s.row, ClaimAttempt(s.row.attempt), s.trigger);
    var noted := Written(claimed, SetRail(RecoveryRail(s.row, env)), s.trigger);
    RailOfARetry(s.row, env);
    RetryIs(s, s.row, env);
    RenewedRowIs(noted, RecoveryWrite(s.row, env), env, s.trigger);
  }

  lemma GraceOrTrialRenews(s: State, job: Job, env: Env)
    requires (job == GraceRetry || job == ExpireTrial) && Renewing(job, s.row, env, s.fuel)
    ensures RenewedFrom(s.row, RunOf(job, s, s.row, env).row, job, env)
  {
    if job == GraceRetry {
      GraceIs(s, s.row, env);
      RenewedRowIs(s.row, GraceWrite(s.row, env), env, s.trigger);
    } else {
      TrialIs(s, s.row, env);
      RenewedRowIs(s.row, TrialWrite(s.row, env), env, s.trigger);
    }
  }

  lemma CheckoutRenews(s: State, env: Env, amount: int, token: string)
    requires Renewing(SimulateWebhook(amount, token), s.row, env, s.fuel)
    ensures RenewedFrom(s.row, SimulateRun(s, s.row, env, amount, token).row, SimulateWebhook(amount, token), env)
  {
    var named := Written(s.row, SetToken(token), s.trigger);
    RenewedRowIs(named, Renew(Active, env.now, NextPeriodEnd(env.now, env.plan)), env, s.trigger);
  }

  /** Whichever job brings a subscription back, and however late. */
  lemma RenewalEnds(s: State, job: Job, env: Env, fuel: nat)
    requires Renewing(job, s.row, env, fuel)
    ensures RenewedFrom(s.row, Next(s, Run(job, env, fuel)).row, job, env)
  {
    var alive := s.(fuel := fuel);
    match job
    case RetryFailedPayment => RetryRenews(alive, env);
    case GraceRetry => GraceOrTrialRenews(alive, job, env);
    case ExpireTrial => GraceOrTrialRenews(alive, job, env);
    case SimulateWebhook(amount, token) => CheckoutRenews(alive, env, amount, token);
  }

  /** The code a retry is declined with: the provider's, or its own without means. */
  function DeclineCode(r: Row, env: Env): Option<string> {
    if !HasMeans(r, env) then Some("action_required")
    else match env.answer case Declined(code) => Some(code) case _ => None
  }

  /** A retry goes on to another one while the code can be retried and the schedule has
      an interval left. */
  predicate RetriesLeft(r: Row, code: string, config: Config) {
    code !in config.nonRetriable && r.attempt + 1 <= config.maxAttempts && r.attempt + 1 <= |config.intervals|
  }

  /** The row once a retry has claimed its attempt and noted its rail. */
  function Noted(r: Row, env: Env, trigger: bool): Row {
    Written(Written(r, ClaimAttempt(r.attempt), trigger), SetRail(RecoveryRail(r, env)), trigger)
  }

  lemma NotedIs(r: Row, env: Env, trigger: bool)
    ensures var t := Noted(r, env, trigger);
      t == r.(attempt := r.attempt + 1, rail := Some(RecoveryRail(r, env)), version := t.version)
  {}

  lemma DeclinedRow(s: State, env: Env)
    requires UpForRetry(s.row) && DeclineCode(s.row, env).Some? && s.fuel >= 4
    ensures RetryRun(s, s.row, env).row
      == Written(Noted(s.row, env, s.trigger), Verdict(s.row, DeclineCode(s.row, env).value, env), s.trigger)
  {
    RailOfARetry(s.row, env);
    RetryIs(s, s.row, env);
  }

  lemma VerdictIs(noted: Row, r: Row, code: string, env: Env, trigger: bool)
    requires UpForRetry(r) && noted.attempt == r.attempt + 1 && noted.nextRetry == r.nextRetry
    ensures var t := Written(noted, Verdict(r, code, env), trigger);
      && t == noted.(status := t.status, nextRetry := t.nextRetry, version := t.version)
      && if RetriesLeft(r, code, env.config)
         then t.status == Status.Dunning
              && t.nextRetry == Some(Instant(env.now) + env.config.intervals[r.attempt] * NANOS_PER_DAY)
         else t.status == Suspended && t.nextRetry == r.nextRetry
  {
    DecisionIs(r.status, r.attempt, code, env.config, env.now);
  }

  /** A declined retry schedules the next that many days from now, or suspends, and
      changes nothing else but the counter and the rail it notes. */
  lemma DeclinedRetryEnds(s: State, env: Env, fuel: nat)
    requires UpForRetry(s.row) && DeclineCode(s.row, env).Some? && fuel >= 4
    ensures var r, t := s.row, Next(s, Run(RetryFailedPayment, env, fuel)).row;
      && t.rail.Some? && RailFits(t.rail.value, r, env)
      && t == r.(status := t.status, attempt := r.attempt + 1, nextRetry := t.nextRetry, rail := t.rail,
                 version := t.version)
      && if RetriesLeft(r, DeclineCode(r, env).value, env.config)
         then t.status == Status.Dunning
              && t.nextRetry == Some(Instant(env.now) + env.config.intervals[r.attempt] * NANOS_PER_DAY)
         else t.status == Suspended && t.nextRetry == r.nextRetry
  {
    RailOfARetry(s.row, env);
    DeclinedRow(s.(fuel := fuel), env);
    NotedIs(s.row, env, s.trigger);
    VerdictIs(Noted(s.row, env, s.trigger), s.row, DeclineCode(s.row, env).value, env, s.trigger);
  }

  /** A trial whose card is declined gets forty-eight hours of grace, and its end is
      entered in the ledger of the account, free of charge. */
  lemma DeclinedTrialEnds(s: State, env: Env, fuel: nat)
    requires s.row.status == Trialing && s.row.token != "" && env.answer.Declined? && fuel >= 3
    ensures var r, t := s.row, Next(s, Run(ExpireTrial, env, fuel));
      && t.row == r.(status := GracePeriod, attempt := 0, nextRetry := Some(Instant(env.now) + 48 * HOURS),
                     version := t.row.version)
      && EndsTrial(s.books, t.books, r.id, env)
  {
    TrialIs(s.(fuel := fuel), s.row, env);
  }

  /** One without a card is past due. */
  lemma UnpaidTrialEnds(s: State, env: Env, fuel: nat)
    requires s.row.status == Trialing && s.row.token == "" && fuel >= 2
    ensures var r, t := s.row, Next(s, Run(ExpireTrial, env, fuel));
      && t.row == r.(status := PastDue, version := t.row.version)
      && EndsTrial(s.books, t.books, r.id, env)
  {
    TrialIs(s.(fuel := fuel), s.row, env);
  }

  /** The books gain one row that marks the end of a subscription's trial, or none if
      there is one already. */
  predicate EndsTrial(before: Tables, after: Tables, id: string, env: Env) {
    && after.invoices == before.invoices
    && if HasKey(before.ledger, "trial-end-" + id) then after.ledger == before.ledger
       else |after.ledger| == |before.ledger| + 1 && before.ledger <= after.ledger
            && IsTrialEnd(after.ledger[|before.ledger|], id, env)
  }

  predicate IsTrialEnd(e: Entry, id: string, env: Env) {
    && e.kind == TrialEnd && e.amount == 0 && e.sub == Some(id) && e.key == "trial-end-" + id
    && e.account == env.account && e.at == env.now
  }

  /** A declined grace retry changes the status alone. */
  lemma DeclinedGraceEnds(s: State, env: Env, fuel: nat)
    requires s.row.status == GracePeriod && !s.row.cancelAtPeriodEnd && env.answer.Declined? && fuel >= 2
    ensures var r, t := s.row, Next(s, Run(GraceRetry, env, fuel));
      t.row == r.(status := PastDue, version := t.row.version) && t.books == s.books
  {
    GraceIs(s.(fuel := fuel), s.row, env);
  }

  /** An unseeded checkout without a token is abandoned after one hour, such a trial
      after twenty-four, and nothing else is. */
  lemma AbandonedExactlyWhen(r: Row, createdAt: int, seeded: bool, now: Time)
    ensures Abandoned(r, createdAt, seeded, now) <==>
      && !seeded && r.token == ""
      && ((r.status == PendingPayment && Instant(now) - createdAt >= HOURS)
          || (r.status == Trialing && Instant(now) - createdAt >= 24 * HOURS))
  {}

  // ------------------------------------------------------------------
  // Over whole runs
  // ------------------------------------------------------------------

  /** An ACTIVE row has a period that ends after it starts, and no retry due. */
  predicate WellDated(r: Row) { r.status == Active ==> Before(r.periodStart, r.periodEnd) && r.nextRetry == None }

  lemma WriteIsWellDated(r: Row, u: Write, trigger: bool)
    requires WellDated(r)
    requires u.Renew? || u.RenewIf? ==> Before(u.start, u.end)
    requires u.SetStatus? || u.SetStatusIf? || u.SetDunning? ==> u.status != Active
    ensures WellDated(Written(r, u, trigger))
  {}

  lemma NextPeriodIsLater(env: Env)
    ensures Before(env.now, NextPeriodEnd(env.now, env.plan))
  {
    PeriodEndIsLater(env.now, env.plan);
  }

  lemma RetryIsWellDated(s: State, env: Env)
    requires WellDated(s.row)
    ensures WellDated(RetryRun(s, s.row, env).row)
  {
    if RetryApplies(s.row) {
      var claimed := Written(s.row, ClaimAttempt(s.row.attempt), s.trigger);
      var noted := Written(claimed, SetRail(RecoveryRail(s.row, env)), s.trigger);
      RetryIs(s, s.row, env);
      if RetryWrites(s.row, s.row, env, s.fuel) {
        RecoveryWriteIs(s.row, env);
        NextPeriodIsLater(env);
        WriteIsWellDated(noted, RecoveryWrite(s.row, env), s.trigger);
      }
    }
  }

  lemma GraceOrTrialIsWellDated(s: State, env: Env)
    requires WellDated(s.row)
    ensures WellDated(GraceRun(s, s.row, env).row) && WellDated(TrialRun(s, s.row, env).row)
  {
    NextPeriodIsLater(env);
    if GraceApplies(s.row) {
      GraceIs(s, s.row, env);
      WriteIsWellDated(s.row, GraceWrite(s.row, env), s.trigger);
    }
    if s.row.status == Trialing { TrialIs(s, s.row, env); }
  }

  lemma OtherJobsAreWellDated(s: State, job: Job, env: Env)
    requires WellDated(s.row) && job != RetryFailedPayment
    ensures WellDated(RunOf(job, s, s.row, env).row)
  {
    if job == GraceRetry || job == ExpireTrial {
      GraceOrTrialIsWellDated(s, env);
    } else {
      NextPeriodIsLater(env);
    }
  }

  /** Over every run of jobs, an ACTIVE row has a period that ends after it starts, and no
      retry is due for it. */
  lemma {:induction false} EveryRunIsWellDated(s: State, steps: seq<Lifecycle.Step>)
    requires WellDated(s.row)
    ensures WellDated(After(s, steps).row)
    decreases |steps|
  {
    if steps != [] {
      if steps[0].Run? {
        var alive := s.(fuel := steps[0].fuel);
        if steps[0].job == RetryFailedPayment {
          RetryIsWellDated(alive, steps[0].env);
        } else {
          OtherJobsAreWellDated(alive, steps[0].job, steps[0].env);
        }
      }
      EveryRunIsWellDated(Next(s, steps[0]), steps[1..]);
    }
  }

  /** What a step keeps: the mandate; the token, unless it is a checkout's; the flag,
      unless it sets it; and the period, unless it makes the row ACTIVE. */
  predicate Keeps(r: Row, t: Row, step: Lifecycle.Step) {
    && t.id == r.id && t.mandate == r.mandate
    && (t.token == r.token || (step.Run? && step.job.SimulateWebhook? && t.token == step.job.token))
    && (t.cancelAtPeriodEnd <==> r.cancelAtPeriodEnd || step.CancelLater?)
    && ((t.periodStart == r.periodStart && t.periodEnd == r.periodEnd) || (t.status == Active && r.status != Active))
  }

  lemma RetryKeeps(s: State, env: Env, fuel: nat)
    ensures Keeps(s.row, RetryRun(s.(fuel := fuel), s.row, env).row, Run(RetryFailedPayment, env, fuel))
  {
    if RetryApplies(s.row) {
      RetryIs(s.(fuel := fuel), s.row, env);
      if RetryWrites(s.row, s.row, env, fuel) {
        var claimed := Written(s.row, ClaimAttempt(s.row.attempt), s.trigger);
        var noted := Written(claimed, SetRail(RecoveryRail(s.row, env)), s.trigger);
        RecoveryWriteIs(s.row, env);
        assert Keeps(s.row, Written(noted, RecoveryWrite(s.row, env), s.trigger), Run(RetryFailedPayment, env, fuel));
      }
    }
  }

  lemma GraceOrTrialKeeps(s: State, job: Job, env: Env, fuel: nat)
    requires job == GraceRetry || job == ExpireTrial
    ensures Keeps(s.row, RunOf(job, s.(fuel := fuel), s.row, env).row, Run(job, env, fuel))
  {
    if job == GraceRetry {
      if GraceApplies(s.row) { GraceIs(s.(fuel := fuel), s.row, env); }
    } else if s.row.status == Trialing {
      TrialIs(s.(fuel := fuel), s.row, env);
    }
  }

  lemma CheckoutKeeps(s: State, env: Env, amount: int, token: string, fuel: nat)
    ensures Keeps(s.row, SimulateRun(s.(fuel := fuel), s.row, env, amount, token).row,
                  Run(SimulateWebhook(amount, token), env, fuel))
  {}

  lemma StatusJobsKeep(s: State, job: Job, env: Env, fuel: nat)
    requires job.SuspendSubscription? || job.CancelAtPeriodEnd? || job.CheckAbandonedCheckouts?
    ensures Keeps(s.row, RunOf(job, s.(fuel := fuel), s.row, env).row, Run(job, env, fuel))
  {}

  lemma EveryStepKeeps(s: State, step: Lifecycle.Step)
    ensures Keeps(s.row, Next(s, step).row, step)
  {
    if step.Run? {
      match step.job
      case RetryFailedPayment => RetryKeeps(s, step.env, step.fuel);
      case GraceRetry => GraceOrTrialKeeps(s, step.job, step.env, step.fuel);
      case ExpireTrial => GraceOrTrialKeeps(s, step.job, step.env, step.fuel);
      case SimulateWebhook(amount, token) => CheckoutKeeps(s, step.env, amount, token, step.fuel);
      case _ => StatusJobsKeep(s, step.job, step.env, step.fuel);
    }
  }

  predicate NoCheckout(steps: seq<Lifecycle.Step>) {
    forall i :: 0 <= i < |steps| && steps[i].Run? ==> !steps[i].job.SimulateWebhook?
  }

  /** So no run of jobs changes what a customer can be charged on, and a cancellation
      that was requested stays requested. */
  lemma {:induction false} EveryRunKeepsTheMeans(s: State, steps: seq<Lifecycle.Step>)
    requires NoCheckout(steps)
    ensures var t := After(s, steps).row;
      && t.token == s.row.token && t.mandate == s.row.mandate
      && (t.cancelAtPeriodEnd <==> s.row.cancelAtPeriodEnd || CancelLater in steps)
    decreases |steps|
  {
    if steps != [] {
      EveryStepKeeps(s, steps[0]);
      EveryRunKeepsTheMeans(Next(s, steps[0]), steps[1..]);
      assert CancelLater in steps <==> steps[0] == CancelLater || CancelLater in steps[1..];
    }
  }
}
