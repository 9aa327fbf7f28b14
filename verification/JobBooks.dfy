/** What whole runs of the billing jobs do to the books: how much of the money taken
    has a charge row, and exactly how much has none. */
module JobBooks {
  import opened Books
  import opened Calendar
  import opened Handlers
  import opened Keys
  import opened Ledger
  import opened Lifecycle
  import opened Outcomes
  import opened Subscriptions

  /** Money the provider says it took. */
  function Taken(calls: seq<Call>): int {
    if calls == [] then 0
    else Taken(calls[..|calls| - 1]) + if calls[|calls| - 1].success then calls[|calls| - 1].amount else 0
  }

  lemma TakenOfAppend(calls: seq<Call>, c: Call)
    ensures Taken(calls + [c]) == Taken(calls) + if c.success then c.amount else 0
  {
    assert (calls + [c])[..|calls|] == calls;
  }

  function ChargedTotal(books: Tables): int { Total(books.ledger, ChargeRows()) }

  // ---- when a run takes money, and when it records it ----

  /** A run whose payment call is made and succeeds. */
  predicate TakesMoney(job: Job, r: Row, env: Env, fuel: nat) {
    match job
    case RetryFailedPayment => RetryApplies(r) && RecoveryAnswer(r, env).Success? && fuel >= 2
    case GraceRetry => GraceApplies(r) && env.answer.Success? && fuel >= 1
    case ExpireTrial => r.status == Trialing && r.token != "" && env.answer.Success? && fuel >= 1
    case _ => false
  }

  /** The recording such a run is to make. */
  function ChargeBy(job: Job, r: Row, env: Env): ChargeInfo {
    match job
    case RetryFailedPayment => RecoveryCharge(r, env)
    case GraceRetry => GraceCharge(r, env)
    case _ => TrialCharge(r, env)
  }

  /** Effects up to and including the ledger write. */
  function LedgerFuel(job: Job): nat { if job == RetryFailedPayment then 6 else 4 }

  predicate Records(books: Tables, job: Job, r: Row, env: Env, fuel: nat) {
    TakesMoney(job, r, env, fuel) && fuel >= LedgerFuel(job) && Fresh(books, ChargeBy(job, r, env))
  }

  /** What a run that takes money leaves of calls and books. */
  lemma ChargedRun(s: State, job: Job, env: Env)
    requires TakesMoney(job, s.row, env, s.fuel)
    ensures var t, c := RunOf(job, s, s.row, env), ChargeBy(job, s.row, env);
      var before := LedgerFuel(job) - 2;
      && CallOf(job, s.row, env).Some? && t.calls == s.calls + [CallOf(job, s.row, env).value]
      && CallOf(job, s.row, env).value.success && CallOf(job, s.row, env).value.amount == c.amount == env.plan.amount
      && c.sub == s.row.id
      && t.books == if s.fuel > before then Recorded(s.books, c, s.fuel - before) else s.books
  {
    match job
    case RetryFailedPayment => RetryIs(s, s.row, env);
    case GraceRetry => GraceIs(s, s.row, env);
    case ExpireTrial => TrialIs(s, s.row, env);
  }

  /** The charge row of the money a run takes appears exactly when the process lives
      past the ledger write and the reference is new. */
  lemma RunIsRecordedExactlyWhen(s: State, job: Job, env: Env)
    requires TakesMoney(job, s.row, env, s.fuel) && Consistent(s.books) && IsId(s.row.id)
    ensures var t, c := RunOf(job, s, s.row, env), ChargeBy(job, s.row, env);
      t.books.ledger == if Records(s.books, job, s.row, env, s.fuel)
                        then s.books.ledger + [ChargeEntry(c, |s.books.invoices|)] else s.books.ledger
  {
    ChargedRun(s, job, env);
    if Fresh(s.books, ChargeBy(job, s.row, env)) { FreshInvoiceMeansFreshCharge(s.books, ChargeBy(job, s.row, env)); }
  }

  // ---- one step ----

  /** Money a step takes and leaves without a charge row: its run died before the
      ledger write, or its reference was used. */
  function Unrecorded(s: State, step: Lifecycle.Step): int {
    if step.Run? && TakesMoney(step.job, s.row, step.env, step.fuel)
       && !Records(s.books, step.job, s.row, step.env, step.fuel)
    then step.env.plan.amount else 0
  }

  /** What a simulated checkout records; no money is taken for it. */
  function Simulated(s: State, step: Lifecycle.Step): int {
    if step.Run? && step.job.SimulateWebhook? && s.row.status == PendingPayment && step.fuel >= 4
       && Fresh(s.books, SimCharge(s.row, step.env, step.job.amount))
    then step.job.amount else 0
  }

  /** The books stay consistent, and taken and simulated money is recorded money plus
      the gap. */
  ghost predicate Accounted(s: State, t: State, simulated: int, gap: int) {
    && Consistent(t.books)
    && Taken(t.calls) - Taken(s.calls) + simulated == ChargedTotal(t.books) - ChargedTotal(s.books) + gap
  }

  lemma OtherHead(s: string, prefix: string)
    requires |s| > 0 && |prefix| > 0 && s[0] != prefix[0]
    ensures !HasPrefix(s, prefix)
  {
    if |prefix| <= |s| { assert s[..|prefix|][0] == s[0]; }
  }

  /** A trial-end row is no charge. */
  lemma TrialEndBooks(books: Tables, sub: Row, env: Env)
    requires Consistent(books)
    ensures var u := books.(ledger := Appended(books.ledger, TrialEndRow(sub, env)));
      Consistent(u) && ChargedTotal(u) == ChargedTotal(books)
  {
    var e := TrialEndRow(sub, env);
    OtherHead(e.key, CHARGE_PREFIX);
    if Admissible(books.ledger, e) { RowIsConsistent(books, e); }
    TotalOfAppend(books.ledger, e, ChargeRows());
  }

  lemma ChargingStep(s: State, job: Job, env: Env)
    requires Consistent(s.books) && IsId(s.row.id) && TakesMoney(job, s.row, env, s.fuel)
    ensures Accounted(s, RunOf(job, s, s.row, env), 0,
                      if Records(s.books, job, s.row, env, s.fuel) then 0 else env.plan.amount)
  {
    var c, before := ChargeBy(job, s.row, env), LedgerFuel(job) - 2;
    ChargedRun(s, job, env);
    TakenOfAppend(s.calls, CallOf(job, s.row, env).value);
    if s.fuel > before {
      RecordedIsConsistent(s.books, c, s.fuel - before);
      RecordedTotals(s.books, c, s.fuel - before);
    }
  }

  /** A run that takes no money changes no charge row. */
  lemma OtherStep(s: State, job: Job, env: Env)
    requires Consistent(s.books) && !job.SimulateWebhook? && !TakesMoney(job, s.row, env, s.fuel)
    ensures Accounted(s, RunOf(job, s, s.row, env), 0, 0)
  {
    var t := RunOf(job, s, s.row, env);
    RunOutline(s, job, env);
    if CallOf(job, s.row, env).Some? { TakenOfAppend(s.calls, CallOf(job, s.row, env).value); }
    match job
    case RetryFailedPayment => if RetryApplies(s.row) { RetryIs(s, s.row, env); }
    case GraceRetry => if GraceApplies(s.row) { GraceIs(s, s.row, env); }
    case ExpireTrial =>
      TrialEndBooks(s.books, s.row, env);
      if s.row.status == Trialing { TrialIs(s, s.row, env); }
    case _ =>
  }

  lemma SimulatedStep(s: State, env: Env, amount: int, token: string)
    requires Consistent(s.books) && IsId(s.row.id)
    ensures var c := SimCharge(s.row, env, amount);
      Accounted(s, SimulateRun(s, s.row, env, amount, token),
                if s.row.status == PendingPayment && s.fuel >= 4 && Fresh(s.books, c) then amount else 0, 0)
  {
    if s.row.status == PendingPayment {
      SimulateIs(s, s.row, env, amount, token);
      if s.fuel > 2 {
        RecordedIsConsistent(s.books, SimCharge(s.row, env, amount), s.fuel - 2);
        RecordedTotals(s.books, SimCharge(s.row, env, amount), s.fuel - 2);
      }
    }
  }

  lemma StepIsAccounted(s: State, step: Lifecycle.Step)
    requires Consistent(s.books) && IsId(s.row.id)
    ensures Accounted(s, Next(s, step), Simulated(s, step), Unrecorded(s, step))
  {
    if step.Run? {
      var alive := s.(fuel := step.fuel);
      if step.job.SimulateWebhook? {
        SimulatedStep(alive, step.env, step.job.amount, step.job.token);
      } else if TakesMoney(step.job, s.row, step.env, step.fuel) {
        ChargingStep(alive, step.job, step.env);
      } else {
        OtherStep(alive, step.job, step.env);
      }
    }
  }

  // ---- whole runs ----

  function Gap(s: State, steps: seq<Lifecycle.Step>): int
    decreases |steps|
  {
    if steps == [] then 0 else Unrecorded(s, steps[0]) + Gap(Next(s, steps[0]), steps[1..])
  }

  function SimulatedTotal(s: State, steps: seq<Lifecycle.Step>): int
    decreases |steps|
  {
    if steps == [] then 0 else Simulated(s, steps[0]) + SimulatedTotal(Next(s, steps[0]), steps[1..])
  }

  predicate NoneSimulated(steps: seq<Lifecycle.Step>) {
    forall i :: 0 <= i < |steps| && steps[i].Run? ==> !steps[i].job.SimulateWebhook?
  }

  /** Over every run of jobs one after another, dying anywhere: the books stay
      consistent, so each subscription and reference has at most one charge row, with
      an invoice of equal amount; and the money taken, with what was simulated, is
      what the charge rows gained plus exactly the successful calls whose run died
      before its ledger write or whose reference was used. */
  lemma {:induction false} JobsKeepTheBooks(s: State, steps: seq<Lifecycle.Step>)
    requires Consistent(s.books) && IsId(s.row.id)
    ensures Accounted(s, After(s, steps), SimulatedTotal(s, steps), Gap(s, steps))
    ensures OneRowPerCharge(After(s, steps).books)
    ensures Gap(s, steps) >= 0 && (NoneSimulated(steps) ==> SimulatedTotal(s, steps) == 0)
    decreases |steps|
  {
    ChargesHaveTheirOwnInvoices(s.books);
    if steps != [] {
      StepIsAccounted(s, steps[0]);
      EveryStep(s, steps[0]);
      JobsKeepTheBooks(Next(s, steps[0]), steps[1..]);
    }
  }

  /** So, simulated checkouts apart, the charge rows never gain more than was taken,
      and as much exactly when no call went unrecorded. */
  lemma ChargeRowsWithinTaken(s: State, steps: seq<Lifecycle.Step>)
    requires Consistent(s.books) && IsId(s.row.id) && NoneSimulated(steps)
    ensures var t := After(s, steps);
      var gained, taken := ChargedTotal(t.books) - ChargedTotal(s.books), Taken(t.calls) - Taken(s.calls);
      gained <= taken && (gained == taken <==> Gap(s, steps) == 0)
  {
    JobsKeepTheBooks(s, steps);
  }

  // ---- references ----

  /** The charge a job is to record, a simulated checkout included. */
  function RecordingOf(job: Job, r: Row, env: Env): ChargeInfo {
    if job.SimulateWebhook? then SimCharge(r, env, job.amount) else ChargeBy(job, r, env)
  }

  predicate Charges(job: Job) { job == RetryFailedPayment || job == GraceRetry || job == ExpireTrial }

  lemma ReferencesDiffer(job: Job, r: Row, env: Env, other: Job, q: Row, env': Env)
    requires (Charges(job) || job.SimulateWebhook?) && (Charges(other) || other.SimulateWebhook?)
    requires job != other && !(job.SimulateWebhook? && other.SimulateWebhook?)
    ensures RecordingOf(job, r, env).ref != RecordingOf(other, q, env').ref
  {
    assert GraceRef(r.id)[0] == 'g' && TrialRef(r.id)[0] == 't' && SimRef(r.id)[0] == 's';
    assert GraceRef(q.id)[0] == 'g' && TrialRef(q.id)[0] == 't' && SimRef(q.id)[0] == 's';
    assert RecoveryRef(r, env)[0] == 'r' && RecoveryRef(q, env')[0] == 'r';
  }

  /** A recording of one kind of job never keeps one of another kind from being made. */
  lemma JobsLeaveEachOthersReferences(t: Tables, job: Job, r: Row, env: Env, writes: nat, other: Job, q: Row, env': Env)
    requires (Charges(job) || job.SimulateWebhook?) && (Charges(other) || other.SimulateWebhook?)
    requires job != other && !(job.SimulateWebhook? && other.SimulateWebhook?) && IsId(r.id) && IsId(q.id)
    ensures Fresh(Recorded(t, RecordingOf(job, r, env), writes), RecordingOf(other, q, env'))
      <==> Fresh(t, RecordingOf(other, q, env'))
  {
    ReferencesDiffer(job, r, env, other, q, env');
    RecordingUsesOneReference(t, RecordingOf(job, r, env), writes, RecordingOf(other, q, env'));
  }

  // ---- where the recorded money shows up ----

  /** What a step adds to the charges of an account and range. */
  function ChargedStep(s: State, step: Lifecycle.Step, a: Account, from: int, to: int): int {
    if !step.Run? || step.env.account != a || !(from <= Instant(step.env.now) <= to) then 0
    else if TakesMoney(step.job, s.row, step.env, step.fuel) && Records(s.books, step.job, s.row, step.env, step.fuel)
    then step.env.plan.amount
    else Simulated(s, step)
  }

  function ChargedSteps(s: State, steps: seq<Lifecycle.Step>, a: Account, from: int, to: int): int
    decreases |steps|
  {
    if steps == [] then 0
    else ChargedStep(s, steps[0], a, from, to) + ChargedSteps(Next(s, steps[0]), steps[1..], a, from, to)
  }

  lemma ChargingStepWhere(s: State, job: Job, env: Env, a: Account, from: int, to: int)
    requires Consistent(s.books) && IsId(s.row.id) && TakesMoney(job, s.row, env, s.fuel)
    ensures ChargedIn(RunOf(job, s, s.row, env).books, a, from, to) == ChargedIn(s.books, a, from, to)
      + if Records(s.books, job, s.row, env, s.fuel) && env.account == a && from <= Instant(env.now) <= to
        then env.plan.amount else 0
  {
    var c, before := ChargeBy(job, s.row, env), LedgerFuel(job) - 2;
    ChargedRun(s, job, env);
    if s.fuel > before { RecordingIsChargedWhere(s.books, c, s.fuel - before, a, from, to); }
  }

  lemma OtherStepWhere(s: State, job: Job, env: Env, a: Account, from: int, to: int)
    requires !job.SimulateWebhook? && !TakesMoney(job, s.row, env, s.fuel)
    ensures ChargedIn(RunOf(job, s, s.row, env).books, a, from, to) == ChargedIn(s.books, a, from, to)
  {
    match job
    case RetryFailedPayment => if RetryApplies(s.row) { RetryIs(s, s.row, env); }
    case GraceRetry => if GraceApplies(s.row) { GraceIs(s, s.row, env); }
    case ExpireTrial => UnchargedTrialWhere(s, env, a, from, to);
    case _ =>
  }

  lemma UnchargedTrialWhere(s: State, env: Env, a: Account, from: int, to: int)
    requires !TakesMoney(ExpireTrial, s.row, env, s.fuel)
    ensures ChargedIn(TrialRun(s, s.row, env).books, a, from, to) == ChargedIn(s.books, a, from, to)
  {
    TotalOfAppend(s.books.ledger, TrialEndRow(s.row, env), KindIn(Charge, a, from, to));
    if s.row.status == Trialing { TrialIs(s, s.row, env); }
  }

  lemma SimulatedStepWhere(s: State, env: Env, amount: int, token: string, a: Account, from: int, to: int)
    requires Consistent(s.books) && IsId(s.row.id)
    ensures ChargedIn(SimulateRun(s, s.row, env, amount, token).books, a, from, to) == ChargedIn(s.books, a, from, to)
      + if s.row.status == PendingPayment && s.fuel >= 4 && Fresh(s.books, SimCharge(s.row, env, amount))
           && env.account == a && from <= Instant(env.now) <= to then amount else 0
  {
    if s.row.status == PendingPayment {
      SimulateIs(s, s.row, env, amount, token);
      if s.fuel > 2 {
        RecordingIsChargedWhere(s.books, SimCharge(s.row, env, amount), s.fuel - 2, a, from, to);
      }
    }
  }

  lemma StepIsChargedWhere(s: State, step: Lifecycle.Step, a: Account, from: int, to: int)
    requires Consistent(s.books) && IsId(s.row.id)
    ensures ChargedIn(Next(s, step).books, a, from, to)
      == ChargedIn(s.books, a, from, to) + ChargedStep(s, step, a, from, to)
  {
    if step.Run? {
      var alive := s.(fuel := step.fuel);
      if step.job.SimulateWebhook? {
        SimulatedStepWhere(alive, step.env, step.job.amount, step.job.token, a, from, to);
      } else if TakesMoney(step.job, s.row, step.env, step.fuel) {
        ChargingStepWhere(alive, step.job, step.env, a, from, to);
      } else {
        OtherStepWhere(alive, step.job, step.env, a, from, to);
      }
    }
  }

  /** Over every run of jobs, the charges the summary shows for an account, live or test,
      and a range grow by exactly the recorded calls and checkouts that were made for
      that account at a time in the range. */
  lemma {:induction false} RunsAreChargedWhere(s: State, steps: seq<Lifecycle.Step>, a: Account, from: int, to: int)
    requires Consistent(s.books) && IsId(s.row.id)
    ensures ChargedIn(After(s, steps).books, a, from, to)
      == ChargedIn(s.books, a, from, to) + ChargedSteps(s, steps, a, from, to)
    decreases |steps|
  {
    if steps != [] {
      StepIsAccounted(s, steps[0]);
      EveryStep(s, steps[0]);
      StepIsChargedWhere(s, steps[0], a, from, to);
      RunsAreChargedWhere(Next(s, steps[0]), steps[1..], a, from, to);
    }
  }

  // ------------------------------------------------------------------
  // How often the money is taken, by any job
  // ------------------------------------------------------------------

  /** Effects up to and including the write that brings the subscription back. */
  function RenewFuel(job: Job): nat { if job == RetryFailedPayment then 4 else 2 }

  lemma ChargedRowIs(s: State, job: Job, env: Env)
    requires TakesMoney(job, s.row, env, s.fuel)
    ensures var r := RunOf(job, s, s.row, env).row;
      if s.fuel >= RenewFuel(job) then r.status == Active
      else && r.status == s.row.status && r.cancelAtPeriodEnd == s.row.cancelAtPeriodEnd
           && r.token == s.row.token && r.mandate == s.row.mandate && r.attempt >= s.row.attempt
  {
    match job
    case RetryFailedPayment => RetryIs(s, s.row, env);
    case GraceRetry => GraceIs(s, s.row, env);
    case ExpireTrial => TrialIs(s, s.row, env);
  }

  /** A run that takes money leaves the subscription to be charged again exactly when it
      dies before the renewal: then the same job with the same answer charges it, and
      otherwise no job does. */
  lemma ChargedAgainExactlyWhen(s: State, job: Job, env: Env)
    requires TakesMoney(job, s.row, env, s.fuel)
    ensures var r := RunOf(job, s, s.row, env).row;
      if s.fuel < RenewFuel(job) then TakesMoney(job, r, env, 2)
      else forall next: Job, again: Env, fuel: nat :: !TakesMoney(next, r, again, fuel)
  {
    ChargedRowIs(s, job, env);
    if s.fuel < RenewFuel(job) && job == RetryFailedPayment {
      RailStays(s.row, RunOf(job, s, s.row, env).row, env);
    }
  }

  /** A rail that was there at one attempt is still there at a later one. */
  lemma RailStays(r: Row, later: Row, env: Env)
    requires r.token == later.token && r.mandate == later.mandate && r.attempt <= later.attempt
    requires RecoveryAnswer(r, env).Success?
    ensures RecoveryAnswer(later, env).Success?
  {}

  /** Calls that took money. */
  function Successes(calls: seq<Call>): nat {
    if calls == [] then 0
    else Successes(calls[..|calls| - 1]) + if calls[|calls| - 1].success then 1 else 0
  }

  lemma SuccessesOfAppend(calls: seq<Call>, c: Call)
    ensures Successes(calls + [c]) == Successes(calls) + if c.success then 1 else 0
  {
    assert (calls + [c])[..|calls|] == calls;
  }

  predicate Takes(s: State, step: Lifecycle.Step) { step.Run? && TakesMoney(step.job, s.row, step.env, step.fuel) }

  /** A run that takes money and lives to its renewal, and one that dies before it. */
  predicate Settles(s: State, step: Lifecycle.Step) { Takes(s, step) && step.fuel >= RenewFuel(step.job) }

  predicate DiesCharged(s: State, step: Lifecycle.Step) { Takes(s, step) && step.fuel < RenewFuel(step.job) }

  function Settlements(s: State, steps: seq<Lifecycle.Step>): nat
    decreases |steps|
  {
    if steps == [] then 0 else (if Settles(s, steps[0]) then 1 else 0) + Settlements(Next(s, steps[0]), steps[1..])
  }

  function ChargedDeaths(s: State, steps: seq<Lifecycle.Step>): nat
    decreases |steps|
  {
    if steps == [] then 0
    else (if DiesCharged(s, steps[0]) then 1 else 0) + ChargedDeaths(Next(s, steps[0]), steps[1..])
  }

  lemma CallSucceedsExactlyWhen(s: State, job: Job, env: Env)
    ensures Successes(RunOf(job, s, s.row, env).calls)
      == Successes(s.calls) + if TakesMoney(job, s.row, env, s.fuel) then 1 else 0
  {
    var call := CallOf(job, s.row, env);
    RunOutline(s, job, env);
    if call.Some? { SuccessesOfAppend(s.calls, call.value); }
    if TakesMoney(job, s.row, env, s.fuel) {
      ChargedRun(s, job, env);
    } else if call.Some? && call.value.success {
      NoCallWithoutFuel(s, job, env);
    }
  }

  lemma NoCallWithoutFuel(s: State, job: Job, env: Env)
    requires CallOf(job, s.row, env).Some? && CallOf(job, s.row, env).value.success
    requires !TakesMoney(job, s.row, env, s.fuel)
    ensures RunOf(job, s, s.row, env).calls == s.calls
  {
    match job
    case RetryFailedPayment => RetryIs(s, s.row, env);
    case GraceRetry => GraceIs(s, s.row, env);
    case ExpireTrial => TrialIs(s, s.row, env);
  }

  lemma StepSucceeds(s: State, step: Lifecycle.Step)
    ensures Successes(Next(s, step).calls) == Successes(s.calls) + if Takes(s, step) then 1 else 0
    ensures Settles(s, step) ==> Next(s, step).row.status == Active
  {
    if step.Run? {
      CallSucceedsExactlyWhen(s.(fuel := step.fuel), step.job, step.env);
      if Takes(s, step) { ChargedRowIs(s.(fuel := step.fuel), step.job, step.env); }
    }
  }

  predicate PastDunning(r: Row) { !InDunning(r.status) && !BeforeDunning(r.status) }

  /** Over every run of jobs one after another, charges of any kind that took money are
      the runs that lived to their renewal, at most one, plus the runs that died
      between their charge and it.  So the money is taken twice exactly when such
      deaths and renewals make two. */
  lemma {:induction false} ChargesPerRenewalOrDeath(s: State, steps: seq<Lifecycle.Step>)
    ensures Successes(After(s, steps).calls)
      == Successes(s.calls) + Settlements(s, steps) + ChargedDeaths(s, steps)
    ensures Settlements(s, steps) <= 1
    ensures PastDunning(s.row) ==> Settlements(s, steps) == 0 && ChargedDeaths(s, steps) == 0
    decreases |steps|
  {
    if steps != [] {
      StepSucceeds(s, steps[0]);
      EveryStepAttempts(s, steps[0]);
      ChargesPerRenewalOrDeath(Next(s, steps[0]), steps[1..]);
    }
  }

  /** The grace charge repeats too: after a death right behind the charge nothing in the
      row or the books stops the next grace retry, whose key carries the time of its own
      call; it takes the money again and activates the subscription. */
  lemma GraceCrashChargesAgain(s: State, env: Env, fuel: nat)
    requires GraceApplies(s.row) && env.answer.Success? && fuel >= 2
    ensures var steps := [Run(GraceRetry, env, 1), Run(GraceRetry, env, fuel)];
      && After(s, steps).calls == s.calls + [GraceCall(s.row, env), GraceCall(s.row, env)]
      && After(s, steps).row.status == Active
  {
    var first, second := Run(GraceRetry, env, 1), Run(GraceRetry, env, fuel);
    GraceIs(s.(fuel := 1), s.row, env);
    var died := Next(s, first);
    GraceIs(died.(fuel := fuel), died.row, env);
    var t := Next(died, second);
    assert [first, second][1..] == [second] && [second][1..] == [];
    assert After(s, [first, second]) == After(died, [second]) == After(t, []);
    var call := GraceCall(s.row, env);
    assert s.calls + [call] + [call] == s.calls + [call, call];
  }
}
