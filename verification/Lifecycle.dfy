/** What whole runs of the billing jobs keep.  Jobs of one subscription run one
    after another, each dying anywhere, with cancellations in between. */
module Lifecycle {
  import opened BillingCycle
  import opened Books
  import opened Calendar
  import opened Dunning
  import opened Handlers
  import opened Keys
  import opened Outcomes
  import opened Prelude
  import opened Subscriptions

  datatype Step = Run(job: Job, env: Env, fuel: nat) | CancelNow | CancelLater

  function Next(s: State, step: Step): State {
    match step
    case Run(job, env, fuel) => RunOf(job, s.(fuel := fuel), s.row, env)
    case CancelNow => Do(s.(fuel := 1), Db(Cancel))
    case CancelLater => Do(s.(fuel := 1), Db(FlagCancel))
  }

  function After(s: State, steps: seq<Step>): State
    decreases |steps|
  {
    if steps == [] then s else After(Next(s, steps[0]), steps[1..])
  }

  predicate InDunning(st: Status) { st == PastDue || st == Status.Dunning }

  predicate BeforeDunning(st: Status) { st == Trialing || st == PendingPayment || st == GracePeriod }

  // ------------------------------------------------------------------
  // What one run can do
  // ------------------------------------------------------------------

  /** The payment call of a run, if it makes one. */
  function CallOf(job: Job, r: Row, env: Env): Option<Call> {
    match job
    case RetryFailedPayment =>
      if RetryApplies(r) && RecoveryRail(r, env) != Manual
      then Some(RecoveryCall(r, RecoveryRail(r, env), r.attempt + 1, env)) else None
    case GraceRetry =>
      if GraceApplies(r) then Some(GraceCall(r, env)) else None
    case ExpireTrial =>
      if r.status == Trialing && r.token != "" then Some(TrialCall(r, env)) else None
    case _ => None
  }

  /** Status and attempt counter after a run, wherever it died. */
  predicate EndsAt(job: Job, r: Row, env: Env, st: Status, n: nat) {
    || (st == r.status && n == r.attempt)
    || match job
       case RetryFailedPayment => RetryApplies(r) && RetryEndsAt(r, env, st, n)
       case GraceRetry =>
         GraceApplies(r) && ((env.answer.Success? && st == Active && n == 0)
                             || (env.answer.Declined? && st == PastDue && n == r.attempt))
       case ExpireTrial =>
         r.status == Trialing
         && (if r.token == "" then st == PastDue && n == r.attempt
             else n == 0 && ((env.answer.Success? && st == Active) || (env.answer.Declined? && st == GracePeriod)))
       case SuspendSubscription => r.status != Suspended && r.status != Cancelled && st == Suspended && n == r.attempt
       case CancelAtPeriodEnd => r.cancelAtPeriodEnd && st == Cancelled && n == r.attempt
       case SimulateWebhook(_, _) => r.status == PendingPayment && st == Active && n == 0
       case CheckAbandonedCheckouts(_, _) =>
         (r.status == PendingPayment || r.status == Trialing) && r.token == "" && st == PastDue && n == r.attempt
  }

  predicate RetryEndsAt(r: Row, env: Env, st: Status, n: nat) {
    || (st == r.status && n == r.attempt + 1)
    || (RecoveryAnswer(r, env).Success? && st == Active && n == 0)
    || (RecoveryAnswer(r, env).Declined?
        && var d := Decide(r.status, r.attempt, RecoveryAnswer(r, env).code, env.config, env.now);
           if d.shouldRetry then st == Status.Dunning && n == d.attempt else st == Suspended && n == r.attempt + 1)
  }

  /** The outline of a run: what it may leave of the row and the calls. */
  predicate Outline(job: Job, s: State, t: State, env: Env) {
    && t.row.id == s.row.id && t.row.cancelAtPeriodEnd == s.row.cancelAtPeriodEnd
    && EndsAt(job, s.row, env, t.row.status, t.row.attempt)
    && (t.calls == s.calls || (CallOf(job, s.row, env).Some? && t.calls == s.calls + [CallOf(job, s.row, env).value]))
  }

  lemma ShortRunOutline(s: State, job: Job, env: Env)
    requires job.SuspendSubscription? || job.CancelAtPeriodEnd? || job.CheckAbandonedCheckouts?
    ensures Outline(job, s, RunOf(job, s, s.row, env), env)
  {}

  lemma SimulateOutline(s: State, job: Job, env: Env)
    requires job.SimulateWebhook?
    ensures Outline(job, s, RunOf(job, s, s.row, env), env)
  {}

  lemma GraceOutline(s: State, env: Env)
    ensures Outline(GraceRetry, s, GraceRun(s, s.row, env), env)
  {
    if GraceApplies(s.row) { GraceIs(s, s.row, env); }
  }

  lemma TrialOutline(s: State, env: Env)
    ensures Outline(ExpireTrial, s, TrialRun(s, s.row, env), env)
  {
    if s.row.status == Trialing { TrialIs(s, s.row, env); }
  }

  lemma RetryOutline(s: State, env: Env)
    ensures Outline(RetryFailedPayment, s, RetryRun(s, s.row, env), env)
  {
    if RetryApplies(s.row) {
      RetryIs(s, s.row, env);
      RetryRowIs(s.row, s.row, env, s.fuel, s.trigger);
    }
  }

  /** Every run of every job, dying anywhere, stays within the outline. */
  lemma RunOutline(s: State, job: Job, env: Env)
    ensures Outline(job, s, RunOf(job, s, s.row, env), env)
  {
    match job
    case RetryFailedPayment => RetryOutline(s, env);
    case GraceRetry => GraceOutline(s, env);
    case ExpireTrial => TrialOutline(s, env);
    case SimulateWebhook(_, _) => SimulateOutline(s, job, env);
    case _ => ShortRunOutline(s, job, env);
  }

  lemma StepOutline(s: State, step: Step)
    requires step.Run?
    ensures Outline(step.job, s, Next(s, step), step.env)
  {
    RunOutline(s.(fuel := step.fuel), step.job, step.env);
  }

  // ------------------------------------------------------------------
  // Invariants of the row
  // ------------------------------------------------------------------

  /** Only a row in dunning, or one that left it for good, has used attempts. */
  predicate WellKept(r: Row) { BeforeDunning(r.status) || r.status == Active ==> r.attempt == 0 }

  /** What one step does to the row and the calls. */
  predicate StepFacts(s: State, t: State) {
    && t.row.id == s.row.id
    && (WellKept(s.row) ==> WellKept(t.row))
    && (s.row.status == Cancelled ==> t.row.status == Cancelled)
    && (s.row.status == Suspended ==> t.row.status == Suspended || t.row.status == Cancelled)
    && (s.row.cancelAtPeriodEnd ==> t.row.cancelAtPeriodEnd)
    && s.calls <= t.calls && |t.calls| <= |s.calls| + 1
    && (s.row.cancelAtPeriodEnd && |t.calls| > |s.calls| ==> t.calls[|s.calls|].ref == TrialRef(s.row.id))
  }

  lemma EveryStep(s: State, step: Step)
    ensures StepFacts(s, Next(s, step))
  {
    if step.Run? { StepOutline(s, step); }
  }

  /** What a run of n steps does to the row and the calls. */
  predicate RunFacts(s: State, t: State, n: nat) {
    && t.row.id == s.row.id && WellKept(t.row)
    && (s.row.status == Cancelled ==> t.row.status == Cancelled)
    && (s.row.status == Suspended ==> t.row.status == Suspended || t.row.status == Cancelled)
    && s.calls <= t.calls && |t.calls| <= |s.calls| + n
    && (s.row.cancelAtPeriodEnd ==> OnlyTrialCalls(t.calls, |s.calls|, s.row.id))
  }

  predicate OnlyTrialCalls(calls: seq<Call>, from: nat, id: string) {
    forall i :: from <= i < |calls| ==> calls[i].ref == TrialRef(id)
  }

  lemma FactsChain(s: State, t: State, u: State, n: nat)
    requires WellKept(s.row) && StepFacts(s, t) && RunFacts(t, u, n)
    ensures RunFacts(s, u, n + 1)
  {
    assert s.calls <= u.calls;
    forall i | |s.calls| <= i < |u.calls| && s.row.cancelAtPeriodEnd
      ensures u.calls[i].ref == TrialRef(s.row.id)
    {
      if i < |t.calls| { assert u.calls[i] == t.calls[i]; }
    }
  }

  /** Over every run of jobs, one after another: CANCELLED is absorbing, SUSPENDED is
      left only for CANCELLED, rows outside dunning have attempt 0, each job makes at
      most one payment call, and once cancellation at period end is requested the
      only call that can still be made is that of ExpireTrial. */
  lemma {:induction false} EveryRunKeeps(s: State, steps: seq<Step>)
    requires WellKept(s.row)
    ensures RunFacts(s, After(s, steps), |steps|)
    decreases |steps|
  {
    if steps != [] {
      EveryStep(s, steps[0]);
      EveryRunKeeps(Next(s, steps[0]), steps[1..]);
      FactsChain(s, Next(s, steps[0]), After(s, steps), |steps| - 1);
    }
  }

  /** The recovery report counts ACTIVE rows whose counter is above 0; no run of jobs
      one after another leaves one, so it counts no recovery then. */
  lemma NoRowCountsAsRecovered(s: State, steps: seq<Step>)
    requires WellKept(s.row)
    ensures var r := After(s, steps).row; !(r.status == Active && r.attempt > 0)
  {
    EveryRunKeeps(s, steps);
  }

  lemma OverlappingRetryAttempts(s: State, sub: Row, env: Env)
    requires WellKept(s.row) && RetryApplies(sub)
    ensures var r := RetryRun(s, sub, env).row;
      r.status == Active && r.attempt > 0 <==>
        && sub.attempt == 0 && s.row.status == Active && s.fuel >= 1
        && (RecoveryAnswer(sub, env).InfraError? || s.fuel < AskFuel(sub, env) + 2)
  {
    RetryIs(s, sub, env);
    RetryRowIs(s.row, sub, env, s.fuel, s.trigger);
  }

  lemma GraceOrTrialOverlapAttempts(s: State, sub: Row, env: Env)
    requires WellKept(s.row)
    ensures var r := GraceRun(s, sub, env).row; !(r.status == Active && r.attempt > 0)
    ensures var r := TrialRun(s, sub, env).row; !(r.status == Active && r.attempt > 0)
  {
    if GraceApplies(sub) { GraceIs(s, sub, env); }
    if sub.status == Trialing { TrialIs(s, sub, env); }
  }

  lemma OtherOverlapAttempts(job: Job, s: State, sub: Row, env: Env)
    requires WellKept(s.row) && job != RetryFailedPayment
    ensures var r := RunOf(job, s, sub, env).row; !(r.status == Active && r.attempt > 0)
  {
    if job == GraceRetry || job == ExpireTrial { GraceOrTrialOverlapAttempts(s, sub, env); }
  }

  /** A run that loaded an earlier row leaves an ACTIVE row with attempts exactly when
      it is a retry that loaded attempt 0, finds the row renewed to 0 again, claims,
      and ends without a status write. */
  lemma OverlapLeavesAttemptsExactlyWhen(job: Job, s: State, sub: Row, env: Env)
    requires WellKept(s.row)
    ensures var r := RunOf(job, s, sub, env).row;
      r.status == Active && r.attempt > 0 <==>
        && job == RetryFailedPayment && RetryApplies(sub) && sub.attempt == 0
        && s.row.status == Active && s.fuel >= 1
        && (RecoveryAnswer(sub, env).InfraError? || s.fuel < AskFuel(sub, env) + 2)
  {
    if job != RetryFailedPayment {
      OtherOverlapAttempts(job, s, sub, env);
    } else if RetryApplies(sub) {
      OverlappingRetryAttempts(s, sub, env);
    }
  }

  /** When a run calls the provider, whatever has changed since it loaded the row: only
      a retry looks at the row again, by its claim. */
  lemma RunCallsExactlyWhen(job: Job, s: State, sub: Row, env: Env)
    ensures |RunOf(job, s, sub, env).calls| > |s.calls| <==>
      match job
      case RetryFailedPayment =>
        RetryApplies(sub) && RecoveryRail(sub, env) != Manual && s.fuel >= 2 && s.row.attempt == sub.attempt
      case GraceRetry => GraceApplies(sub) && s.fuel >= 1
      case ExpireTrial => sub.status == Trialing && sub.token != "" && s.fuel >= 1
      case _ => false
  {
    match job
    case RetryFailedPayment => if RetryApplies(sub) { RetryIs(s, sub, env); }
    case GraceRetry => if GraceApplies(sub) { GraceIs(s, sub, env); }
    case ExpireTrial => if sub.status == Trialing { TrialIs(s, sub, env); }
    case _ =>
  }

  /** With cancellation at period end requested, the one run that calls the provider
      is that of an expiring trial with a card. */
  lemma FlaggedRunCallsExactlyWhen(s: State, job: Job, env: Env, fuel: nat)
    requires s.row.cancelAtPeriodEnd
    ensures |Next(s, Run(job, env, fuel)).calls| > |s.calls| <==>
      job == ExpireTrial && s.row.status == Trialing && s.row.token != "" && fuel >= 1
  {
    if job == ExpireTrial && s.row.status == Trialing {
      TrialIs(s.(fuel := fuel), s.row, env);
    } else {
      StepOutline(s, Run(job, env, fuel));
    }
  }

  /** The documentation has no charge at all after such a request; that trial is
      charged, and ends ACTIVE exactly if the charge succeeds and the run lives on. */
  lemma FlaggedTrialIsCharged(s: State, env: Env, fuel: nat)
    requires s.row.status == Trialing && s.row.cancelAtPeriodEnd && s.row.token != "" && fuel >= 1
    ensures var t := Next(s, Run(ExpireTrial, env, fuel));
      && t.calls == s.calls + [TrialCall(s.row, env)]
      && (t.row.status == Active <==> env.answer == Success && fuel >= 2)
  {
    TrialIs(s.(fuel := fuel), s.row, env);
  }

  // ------------------------------------------------------------------
  // The transition table
  // ------------------------------------------------------------------

  /** The steps that leave the table: an expiring trial that is declined, suspending
      outside dunning, and cancelling in dunning. */
  predicate LeavesTable(r: Row, step: Step) {
    match step
    case CancelNow => InDunning(r.status)
    case CancelLater => false
    case Run(ExpireTrial, env, fuel) => r.status == Trialing && r.token != "" && env.answer.Declined? && fuel >= 2
    case Run(SuspendSubscription, _, fuel) =>
      !InDunning(r.status) && r.status != Suspended && r.status != Cancelled && fuel >= 1
    case Run(CancelAtPeriodEnd, _, fuel) => InDunning(r.status) && r.cancelAtPeriodEnd && fuel >= 1
    case Run(_, _, _) => false
  }

  /** The status changes of those steps. */
  predicate OffTable(st: Status, to: Status) {
    || (st == Trialing && to == GracePeriod)
    || (to == Suspended && !InDunning(st) && st != Suspended && st != Cancelled)
    || (to == Cancelled && InDunning(st))
  }

  /** Each of them is reached, from any row with a card. */
  lemma EveryOffTablePairHappens(s: State, to: Status, env: Env)
    requires OffTable(s.row.status, to) && s.row.token != "" && env.answer.Declined?
    ensures exists step :: LeavesTable(s.row, step) && Next(s, step).row.status == to
  {
    var step := if to == GracePeriod then Run(ExpireTrial, env, 3)
      else if to == Suspended then Run(SuspendSubscription, env, 1) else CancelNow;
    assert LeavesTable(s.row, step) && Next(s, step).row.status == to;
  }

  /** The status a run writes, if it lives to write one and its guard holds on the row
      it finds. */
  function StatusWritten(job: Job, r: Row, sub: Row, env: Env, fuel: nat): Option<Status> {
    match job
    case RetryFailedPayment =>
      if !RetryApplies(sub) || !RetryWrites(r, sub, env, fuel) then None
      else if RecoveryAnswer(sub, env).Success? then Some(Active)
      else if RecoveryWrite(sub, env).SetDunning? then Some(Status.Dunning)
      else Some(Suspended)
    case GraceRetry =>
      if !GraceApplies(sub) || !GraceWrites(r, sub, env, fuel) then None
      else Some(if env.answer.Success? then Active else PastDue)
    case ExpireTrial =>
      if sub.status != Trialing || !TrialWrites(sub, env, fuel) then None
      else Some(if sub.token == "" then PastDue else if env.answer.Success? then Active else GracePeriod)
    case SuspendSubscription =>
      if sub.status == Suspended || sub.status == Cancelled || fuel == 0 then None else Some(Suspended)
    case CancelAtPeriodEnd => if sub.cancelAtPeriodEnd && fuel >= 1 then Some(Cancelled) else None
    case SimulateWebhook(_, _) => if sub.status == PendingPayment && fuel >= 2 then Some(Active) else None
    case CheckAbandonedCheckouts(createdAt, seeded) =>
      if Abandoned(sub, createdAt, seeded, env.now) && fuel >= 1 then Some(PastDue) else None
  }

  function StatusOr(written: Option<Status>, st: Status): Status { if written.Some? then written.value else st }

  lemma RetryStatus(s: State, sub: Row, env: Env)
    ensures RetryRun(s, sub, env).row.status
      == StatusOr(StatusWritten(RetryFailedPayment, s.row, sub, env, s.fuel), s.row.status)
  {
    if RetryApplies(sub) {
      RetryIs(s, sub, env);
      RetryRowIs(s.row, sub, env, s.fuel, s.trigger);
      if RetryWrites(s.row, sub, env, s.fuel) { RecoveryWriteIs(sub, env); }
    }
  }

  lemma GraceStatus(s: State, sub: Row, env: Env)
    ensures GraceRun(s, sub, env).row.status
      == StatusOr(StatusWritten(GraceRetry, s.row, sub, env, s.fuel), s.row.status)
  {
    if GraceApplies(sub) { GraceIs(s, sub, env); }
  }

  lemma TrialStatus(s: State, sub: Row, env: Env)
    ensures TrialRun(s, sub, env).row.status
      == StatusOr(StatusWritten(ExpireTrial, s.row, sub, env, s.fuel), s.row.status)
  {
    if sub.status == Trialing { TrialIs(s, sub, env); }
  }

  lemma StatusAfterRun(job: Job, s: State, sub: Row, env: Env)
    ensures RunOf(job, s, sub, env).row.status == StatusOr(StatusWritten(job, s.row, sub, env, s.fuel), s.row.status)
  {
    match job
    case RetryFailedPayment => RetryStatus(s, sub, env);
    case GraceRetry => GraceStatus(s, sub, env);
    case ExpireTrial => TrialStatus(s, sub, env);
    case _ =>
  }

  /** A run that loaded an earlier row changes the status off the table exactly when the
      status it writes differs from that of the row it finds and no event leads there:
      a retry can take CANCELLED to ACTIVE, or ACTIVE to DUNNING. */
  lemma OverlapLeavesTheTableExactlyWhen(job: Job, s: State, sub: Row, env: Env)
    ensures var a, b := s.row.status, RunOf(job, s, sub, env).row.status;
      var written := StatusWritten(job, s.row, sub, env, s.fuel);
      (a != b && !OnTable(a, b)) <==> written.Some? && written.value != a && !TableEdge(a, written.value)
  {
    StatusAfterRun(job, s, sub, env);
    OnTableExactly(s.row.status, RunOf(job, s, sub, env).row.status);
  }

  /** The same two, for runs on the row as they loaded it. */
  lemma SerialStatus(r: Row, job: Job, env: Env, fuel: nat)
    ensures var written := StatusWritten(job, r, r, env, fuel);
      (written.Some? && written.value != r.status && !TableEdge(r.status, written.value))
        <==> LeavesTable(r, Run(job, env, fuel))
  {}

  /** Exactly when a step changes the status in a way no event of the table does, with
      jobs running one after another. */
  lemma StepsLeaveTheTableExactlyWhen(s: State, step: Step)
    ensures var a, b := s.row.status, Next(s, step).row.status;
      (a != b && !OnTable(a, b)) <==> LeavesTable(s.row, step)
  {
    if step.Run? {
      OverlapLeavesTheTableExactlyWhen(step.job, s.(fuel := step.fuel), s.row, step.env);
      SerialStatus(s.row, step.job, step.env, step.fuel);
    } else {
      OnTableExactly(s.row.status, Next(s, step).row.status);
    }
  }

  // ------------------------------------------------------------------
  // Attempt numbers and charge keys
  // ------------------------------------------------------------------

  predicate IsRecovery(c: Call) { c.number > 0 }

  predicate KeyedBy(c: Call, id: string) { IsRecovery(c) ==> c.ref == RetryKey(c.rail, id, c.number) }

  /** What one step does to attempts: from dunning, a call takes the next number and
      uses it up; past dunning there is neither a call nor a way back. */
  predicate AttemptFacts(s: State, t: State) {
    && s.calls <= t.calls && |t.calls| <= |s.calls| + 1
    && (InDunning(t.row.status) && InDunning(s.row.status) ==> t.row.attempt >= s.row.attempt + |t.calls| - |s.calls|)
    && (InDunning(s.row.status) ==> !BeforeDunning(t.row.status))
    && (!InDunning(s.row.status) && !BeforeDunning(s.row.status) ==>
          t.calls == s.calls && !InDunning(t.row.status) && !BeforeDunning(t.row.status))
    && (|t.calls| > |s.calls| ==> NumberFits(t.calls[|s.calls|], s.row))
  }

  predicate NumberFits(c: Call, r: Row) {
    && KeyedBy(c, r.id)
    && (BeforeDunning(r.status) ==> !IsRecovery(c))
    && (InDunning(r.status) ==> c.number == r.attempt + 1)
  }

  lemma CallFits(job: Job, r: Row, env: Env)
    requires CallOf(job, r, env).Some?
    ensures NumberFits(CallOf(job, r, env).value, r) && (InDunning(r.status) || BeforeDunning(r.status))
  {}

  lemma EndFits(job: Job, r: Row, env: Env, st: Status, n: nat)
    requires EndsAt(job, r, env, st, n)
    ensures InDunning(r.status) ==> !BeforeDunning(st)
    ensures !InDunning(r.status) && !BeforeDunning(r.status) ==> !InDunning(st) && !BeforeDunning(st)
    ensures InDunning(r.status) && InDunning(st) ==> n >= r.attempt
  {}

  /** A run that has called has claimed. */
  lemma CallingClaims(s: State, job: Job, env: Env)
    requires InDunning(s.row.status)
    ensures var t := RunOf(job, s, s.row, env);
      t.calls != s.calls && InDunning(t.row.status) ==> t.row.attempt > s.row.attempt
  {
    if job == RetryFailedPayment && RetryApplies(s.row) {
      RetryIs(s, s.row, env);
    } else {
      RunOutline(s, job, env);
    }
  }

  lemma EveryStepAttempts(s: State, step: Step)
    ensures AttemptFacts(s, Next(s, step))
  {
    if step.Run? {
      var t := Next(s, step);
      StepOutline(s, step);
      EndFits(step.job, s.row, step.env, t.row.status, t.row.attempt);
      if CallOf(step.job, s.row, step.env).Some? { CallFits(step.job, s.row, step.env); }
      if InDunning(s.row.status) { CallingClaims(s.(fuel := step.fuel), step.job, step.env); }
    }
  }

  /** Recovery calls from position `from` on are numbered above `floor`, rising. */
  predicate Rising(calls: seq<Call>, from: nat, floor: nat, id: string) {
    && (forall i :: from <= i < |calls| ==> KeyedBy(calls[i], id) && (IsRecovery(calls[i]) ==> calls[i].number > floor))
    && (forall i, j :: from <= i < j < |calls| && IsRecovery(calls[i]) && IsRecovery(calls[j]) ==>
          calls[i].number < calls[j].number)
  }

  lemma RisingFromNext(s: State, t: State, calls: seq<Call>)
    requires AttemptFacts(s, t) && StepFacts(s, t) && WellKept(s.row) && t.calls <= calls
    requires Rising(calls, |t.calls|, t.row.attempt, t.row.id)
    requires !InDunning(t.row.status) && !BeforeDunning(t.row.status) ==> calls == t.calls
    ensures Rising(calls, |s.calls|, s.row.attempt, s.row.id)
  {
    if |t.calls| > |s.calls| { assert calls[|s.calls|] == t.calls[|s.calls|]; }
  }

  /** Over every run of jobs one after another the attempt numbers charged strictly
      increase. */
  lemma {:induction false} AttemptNumbersRise(s: State, steps: seq<Step>)
    requires WellKept(s.row)
    ensures Rising(After(s, steps).calls, |s.calls|, s.row.attempt, s.row.id)
    ensures s.calls <= After(s, steps).calls
    ensures !InDunning(s.row.status) && !BeforeDunning(s.row.status) ==> After(s, steps).calls == s.calls
    decreases |steps|
  {
    if steps != [] {
      var t := Next(s, steps[0]);
      EveryStep(s, steps[0]);
      EveryStepAttempts(s, steps[0]);
      AttemptNumbersRise(t, steps[1..]);
      RisingFromNext(s, t, After(s, steps).calls);
    }
  }

  /** So no two recovery calls share a charge key. */
  lemma RecoveryKeysDiffer(s: State, steps: seq<Step>, i: nat, j: nat)
    requires WellKept(s.row) && IsId(s.row.id)
    requires |s.calls| <= i < j < |After(s, steps).calls|
    requires IsRecovery(After(s, steps).calls[i]) && IsRecovery(After(s, steps).calls[j])
    ensures After(s, steps).calls[i].ref != After(s, steps).calls[j].ref
  {
    AttemptNumbersRise(s, steps);
    var a, b := After(s, steps).calls[i], After(s, steps).calls[j];
    RetryKeyIsInjective(a.rail, s.row.id, a.number, b.rail, s.row.id, b.number);
  }

  // ------------------------------------------------------------------
  // How long dunning lasts
  // ------------------------------------------------------------------

  /** A declined retry that lives to write its decision. */
  predicate Decides(s: State, step: Step) {
    && step.Run? && step.job == RetryFailedPayment && RetryApplies(s.row)
    && RecoveryAnswer(s.row, step.env).Declined?
    && step.fuel >= AskFuel(s.row, step.env) + 2
  }

  function Decisions(s: State, steps: seq<Step>): nat
    decreases |steps|
  {
    if steps == [] then 0 else (if Decides(s, steps[0]) then 1 else 0) + Decisions(Next(s, steps[0]), steps[1..])
  }

  /** Declined retries a row can still go through. */
  function Patience(r: Row, limit: nat): nat {
    if BeforeDunning(r.status) then limit + 1
    else if InDunning(r.status) then Max(0, limit - r.attempt) + 1
    else 0
  }

  predicate UnderLimit(steps: seq<Step>, limit: nat) {
    forall i :: 0 <= i < |steps| && steps[i].Run? ==> Limit(steps[i].env.config) == limit
  }

  lemma DecisionUsesPatience(s: State, env: Env, fuel: nat)
    requires Decides(s, Run(RetryFailedPayment, env, fuel))
    ensures var t := Next(s, Run(RetryFailedPayment, env, fuel));
      Patience(t.row, Limit(env.config)) < Patience(s.row, Limit(env.config))
  {
    RetryIs(s.(fuel := fuel), s.row, env);
    DecisionIs(s.row.status, s.row.attempt, RecoveryAnswer(s.row, env).code, env.config, env.now);
  }

  lemma OutlineKeepsPatience(s: State, t: State, job: Job, env: Env)
    requires Outline(job, s, t, env) && WellKept(s.row)
    ensures Patience(t.row, Limit(env.config)) <= Patience(s.row, Limit(env.config))
  {
    var answer := RecoveryAnswer(s.row, env);
    if answer.Declined? { DecisionIs(s.row.status, s.row.attempt, answer.code, env.config, env.now); }
  }

  lemma PatienceStep(s: State, step: Step, limit: nat)
    requires WellKept(s.row) && (step.Run? ==> Limit(step.env.config) == limit)
    ensures Patience(Next(s, step).row, limit) + (if Decides(s, step) then 1 else 0) <= Patience(s.row, limit)
  {
    if Decides(s, step) {
      DecisionUsesPatience(s, step.env, step.fuel);
    } else if step.Run? {
      StepOutline(s, step);
      OutlineKeepsPatience(s, Next(s, step), step.job, step.env);
    }
  }

  /** Declined retries that reach their decision, over any run of jobs one after
      another and whatever dies: at most min(MaxAttempts, number of intervals) + 1, and as many fewer as
      attempts are already used; a row still in dunning has at least one to go. */
  lemma {:induction false} DunningIsBounded(s: State, steps: seq<Step>, limit: nat)
    requires WellKept(s.row) && UnderLimit(steps, limit)
    ensures Decisions(s, steps) + Patience(After(s, steps).row, limit) <= Patience(s.row, limit) <= limit + 1
    ensures InDunning(After(s, steps).row.status) ==> Decisions(s, steps) < limit + 1
    decreases |steps|
  {
    if steps != [] {
      EveryStep(s, steps[0]);
      PatienceStep(s, steps[0], limit);
      DunningIsBounded(Next(s, steps[0]), steps[1..], limit);
    }
  }

  // ------------------------------------------------------------------
  // Single retries: what is charged, recorded and used up
  // ------------------------------------------------------------------

  /** A retry that lives past a successful call. */
  lemma SuccessfulRetry(s: State, env: Env, fuel: nat)
    requires RetryApplies(s.row) && RecoveryAnswer(s.row, env) == Success && fuel >= 2
    ensures var t := Next(s, Run(RetryFailedPayment, env, fuel));
      && t.calls == s.calls + [RecoveryCall(s.row, RecoveryRail(s.row, env), s.row.attempt + 1, env)]
      && t.books == (if fuel <= 4 then s.books else Recorded(s.books, RecoveryCharge(s.row, env), fuel - 4))
      && (if fuel >= 4 then t.row.status == Active && t.row.attempt == 0
                            && t.row.periodStart == env.now && t.row.periodEnd == NextPeriodEnd(env.now, env.plan)
          else t.row.status == s.row.status && t.row.attempt == s.row.attempt + 1
               && t.row == var claimed := Written(s.row, ClaimAttempt(s.row.attempt), s.trigger);
                            claimed.(rail := t.row.rail, version := t.row.version))
  {
    RetryIs(s.(fuel := fuel), s.row, env);
  }

  /** The tables after a recording that nothing cuts short, on consistent books. */
  function Settlement(books: Tables, c: ChargeInfo): Tables {
    if Fresh(books, c)
    then Tables(books.invoices + [Invoice(c.sub, c.ref, c.amount, Paid)],
                books.ledger + [ChargeEntry(c, |books.invoices|)])
    else books
  }

  lemma RecordedSettles(books: Tables, c: ChargeInfo, writes: nat)
    requires Consistent(books) && IsId(c.sub) && writes >= 3
    ensures Recorded(books, c, writes) == Settlement(books, c)
  {
    if Fresh(books, c) {
      FreshInvoiceMeansFreshCharge(books, c);
      RecordedWhenFresh(books, c, writes);
    }
  }

  /** A retry that lives to its end on a successful charge settles one plan amount,
      however many cycles were missed, and the new period starts now.  What it adds
      to the books is one paid invoice and one charge row of that amount if the
      reference is new, and nothing otherwise. */
  lemma RecoverySettlesOnce(s: State, env: Env, fuel: nat)
    requires RetryApplies(s.row) && fuel >= 7 && RecoveryAnswer(s.row, env) == Success
    requires Consistent(s.books) && IsId(s.row.id)
    ensures var t := Next(s, Run(RetryFailedPayment, env, fuel));
      var call := RecoveryCall(s.row, RecoveryRail(s.row, env), s.row.attempt + 1, env);
      && t.calls == s.calls + [call] && call.amount == env.plan.amount
      && t.row.status == Active && t.row.attempt == 0
      && t.row.periodStart == env.now && Before(env.now, t.row.periodEnd)
      && t.books == Settlement(s.books, RecoveryCharge(s.row, env))
  {
    SuccessfulRetry(s, env, fuel);
    RecordedSettles(s.books, RecoveryCharge(s.row, env), fuel - 4);
    PeriodEndIsLater(env.now, env.plan);
  }

  /** Whether the money a retry took has a charge row: exactly when the process
      lived past the ledger write and no invoice had the same reference before. */
  lemma RecoveryIsRecordedExactlyWhen(s: State, env: Env, fuel: nat)
    requires RetryApplies(s.row) && Consistent(s.books) && IsId(s.row.id) && fuel >= 2
    requires RecoveryAnswer(s.row, env) == Success
    ensures var t := Next(s, Run(RetryFailedPayment, env, fuel));
      var c := RecoveryCharge(s.row, env);
      && |t.calls| == |s.calls| + 1
      && t.books.ledger == if fuel >= 6 && Fresh(s.books, c) then s.books.ledger + [ChargeEntry(c, |s.books.invoices|)]
                           else s.books.ledger
  {
    var c := RecoveryCharge(s.row, env);
    SuccessfulRetry(s, env, fuel);
    if Fresh(s.books, c) { FreshInvoiceMeansFreshCharge(s.books, c); }
  }

  /** A later dunning episode starts again at attempt 1, so its first card charge
      has the key of the earlier episode's; if that one was recorded, this one is
      taken and activates the subscription, but leaves the books as they were. */
  lemma SecondEpisodeIsNotRecorded(s: State, env: Env, fuel: nat)
    requires RetryApplies(s.row) && s.row.attempt == 0 && fuel >= 7
    requires LadderRail(s.row, env, 1) == Card && env.answer == Success
    requires HasInvoice(s.books, InvoiceKey(s.row.id, RetryKey(Card, s.row.id, 1)))
    ensures var t := Next(s, Run(RetryFailedPayment, env, fuel));
      && t.calls == s.calls + [Call(Card, 1, RetryKey(Card, s.row.id, 1), env.plan.amount, true)]
      && t.row.status == Active && t.books == s.books
  {
    SuccessfulRetry(s, env, fuel);
  }

  // ------------------------------------------------------------------
  // How often the money is taken
  // ------------------------------------------------------------------

  /** After a successful charge the subscription is still up for a retry exactly when
      the process died before the renewal, its fourth effect. */
  lemma ChargedButRetriedExactlyWhen(s: State, env: Env, fuel: nat)
    requires RetryApplies(s.row) && RecoveryAnswer(s.row, env) == Success && fuel >= 2
    ensures RetryApplies(Next(s, Run(RetryFailedPayment, env, fuel)).row) <==> fuel < 4
  {
    SuccessfulRetry(s, env, fuel);
  }

  /** The idempotency keys do not prevent a second charge then: whenever the process
      dies between a successful charge and the renewal, the next retry takes the
      money again under another key, and only the second charge can have a row. */
  lemma CrashAfterChargeChargesAgain(s: State, first: Env, lived: nat, second: Env, fuel: nat)
    requires RetryApplies(s.row) && IsId(s.row.id) && 2 <= lived < 4 && fuel >= 2
    requires RecoveryAnswer(s.row, first) == Success
    ensures var died := Next(s, Run(RetryFailedPayment, first, lived));
      var t := Next(died, Run(RetryFailedPayment, second, fuel));
      var again := RecoveryCall(died.row, RecoveryRail(died.row, second), died.row.attempt + 1, second);
      && died.books == s.books && RetryApplies(died.row)
      && |died.calls| == |s.calls| + 1 && died.calls[|s.calls|].success
      && (RecoveryAnswer(died.row, second) == Success ==>
            && t.calls == died.calls + [again] && again.success && again.ref != died.calls[|s.calls|].ref
            && t.books == if fuel <= 4 then s.books else Recorded(s.books, RecoveryCharge(died.row, second), fuel - 4))
  {
    SuccessfulRetry(s, first, lived);
    var died := Next(s, Run(RetryFailedPayment, first, lived));
    RetryKeyIsInjective(RecoveryRail(s.row, first), s.row.id, s.row.attempt + 1,
                        RecoveryRail(died.row, second), s.row.id, s.row.attempt + 2);
    if RecoveryAnswer(died.row, second) == Success { SuccessfulRetry(died, second, fuel); }
  }

  /** Recovery charges the provider says it took. */
  function RecoveriesTaken(calls: seq<Call>): nat {
    if calls == [] then 0
    else
      var c := calls[|calls| - 1];
      RecoveriesTaken(calls[..|calls| - 1]) + if IsRecovery(c) && c.success then 1 else 0
  }

  lemma TakenOneMore(calls: seq<Call>, c: Call)
    ensures RecoveriesTaken(calls + [c]) == RecoveriesTaken(calls) + if IsRecovery(c) && c.success then 1 else 0
  {
    assert (calls + [c])[..|calls|] == calls;
  }

  /** A retry that brings the subscription back. */
  predicate Renews(s: State, step: Step) {
    step.Run? && step.job == RetryFailedPayment && InDunning(s.row.status) && Next(s, step).row.status == Active
  }

  /** A retry that dies between a successful charge and the renewal. */
  predicate DiesUnrenewed(s: State, step: Step) {
    && step.Run? && step.job == RetryFailedPayment && RetryApplies(s.row)
    && RecoveryAnswer(s.row, step.env) == Success && 2 <= step.fuel < 4
  }

  function Renewals(s: State, steps: seq<Step>): nat
    decreases |steps|
  {
    if steps == [] then 0 else (if Renews(s, steps[0]) then 1 else 0) + Renewals(Next(s, steps[0]), steps[1..])
  }

  function Deaths(s: State, steps: seq<Step>): nat
    decreases |steps|
  {
    if steps == [] then 0 else (if DiesUnrenewed(s, steps[0]) then 1 else 0) + Deaths(Next(s, steps[0]), steps[1..])
  }

  lemma RetryRenewsExactlyWhen(s: State, env: Env, fuel: nat)
    ensures Renews(s, Run(RetryFailedPayment, env, fuel)) <==>
      RetryApplies(s.row) && RecoveryAnswer(s.row, env) == Success && fuel >= 4
  {
    if RetryApplies(s.row) {
      RetryIs(s.(fuel := fuel), s.row, env);
      RetryRowIs(s.row, s.row, env, fuel, s.trigger);
    }
  }

  lemma RetryTakes(s: State, env: Env, fuel: nat)
    ensures RecoveriesTaken(Next(s, Run(RetryFailedPayment, env, fuel)).calls) == RecoveriesTaken(s.calls)
      + if RetryApplies(s.row) && RecoveryAnswer(s.row, env) == Success && fuel >= 2 then 1 else 0
  {
    if RetryApplies(s.row) {
      var call := RecoveryCall(s.row, RecoveryRail(s.row, env), s.row.attempt + 1, env);
      RetryIs(s.(fuel := fuel), s.row, env);
      TakenOneMore(s.calls, call);
      assert s.calls + [] == s.calls;
    }
  }

  /** The calls of other jobs carry no attempt number, so none is a recovery. */
  lemma OtherJobsTakeNone(s: State, job: Job, env: Env, fuel: nat)
    requires job != RetryFailedPayment
    ensures RecoveriesTaken(Next(s, Run(job, env, fuel)).calls) == RecoveriesTaken(s.calls)
  {
    StepOutline(s, Run(job, env, fuel));
    var call := CallOf(job, s.row, env);
    if call.Some? { TakenOneMore(s.calls, call.value); }
  }

  lemma StepTakes(s: State, step: Step)
    ensures RecoveriesTaken(Next(s, step).calls) == RecoveriesTaken(s.calls)
      + (if Renews(s, step) then 1 else 0) + (if DiesUnrenewed(s, step) then 1 else 0)
  {
    if step.Run? {
      if step.job == RetryFailedPayment {
        RetryTakes(s, step.env, step.fuel);
        RetryRenewsExactlyWhen(s, step.env, step.fuel);
      } else {
        OtherJobsTakeNone(s, step.job, step.env, step.fuel);
      }
    }
  }

  /** Over every run of jobs one after another, the successful recovery charges are
      the renewals by retries plus the retries that died between charge and renewal;
      and there is at most one renewal.  So a recovery takes the money once exactly
      when renewals and such deaths make one. */
  lemma {:induction false} MoneyIsTakenPerRenewalOrDeath(s: State, steps: seq<Step>)
    ensures RecoveriesTaken(After(s, steps).calls) == RecoveriesTaken(s.calls) + Renewals(s, steps) + Deaths(s, steps)
    ensures Renewals(s, steps) <= 1
    ensures !InDunning(s.row.status) && !BeforeDunning(s.row.status) ==>
      Renewals(s, steps) == 0 && Deaths(s, steps) == 0
    decreases |steps|
  {
    if steps != [] {
      StepTakes(s, steps[0]);
      EveryStepAttempts(s, steps[0]);
      MoneyIsTakenPerRenewalOrDeath(Next(s, steps[0]), steps[1..]);
    }
  }

  /** An infrastructure error is meant to cost nothing; it costs the attempt number
      that was claimed before the call, and nothing else changes. */
  lemma InfraErrorUsesAnAttempt(s: State, env: Env, fuel: nat)
    requires RetryApplies(s.row) && fuel >= 2 && env.answer == InfraError
    requires RecoveryRail(s.row, env) != Manual
    ensures var t := Next(s, Run(RetryFailedPayment, env, fuel));
      && t.row == s.row.(attempt := s.row.attempt + 1, version := s.row.version + 1)
      && t.books == s.books
  {
    RetryIs(s.(fuel := fuel), s.row, env);
  }

  // ------------------------------------------------------------------
  // Runs that loaded the row earlier
  // ------------------------------------------------------------------

  /** A retry that loaded the row when it was `sub` and goes on now charges exactly
      when the counter has the value it loaded, whatever else has changed since. */
  lemma StaleRetryChargesExactlyWhen(s: State, sub: Row, env: Env)
    requires RetryApplies(sub) && RecoveryRail(sub, env) != Manual && s.fuel >= 2
    ensures |RetryRun(s, sub, env).calls| > |s.calls| <==> s.row.attempt == sub.attempt
    ensures s.row.attempt != sub.attempt ==> RetryRun(s, sub, env) == s.(fuel := 0)
  {
    if s.row.attempt != sub.attempt {
      assert Asked(s, sub, env) == s.(fuel := 0);
    } else {
      RetryIs(s, sub, env);
    }
  }

  /** So claims exclude each other only while the counter does not come back: a run
      that loaded attempt 0 charges a subscription that was renewed meanwhile, and
      on a decline puts it back into dunning or suspends it. */
  lemma StaleRetryAfterRenewal(s: State, sub: Row, env: Env)
    requires RetryApplies(sub) && sub.attempt == 0 && s.row.id == sub.id && s.row.status == Active && s.row.attempt == 0
    requires s.fuel >= 4 && LadderRail(sub, env, 1) != Manual && env.answer.Declined?
    ensures var t := RetryRun(s, sub, env);
      |t.calls| == |s.calls| + 1 && (t.row.status == Status.Dunning || t.row.status == Suspended)
  {
    RetryIs(s, sub, env);
  }

  /** A cancellation that lands after a retry loaded the row is lost exactly when the
      retry still holds the counter, reaches a status write and lives to make it. */
  lemma CancelIsLostExactlyWhen(s: State, sub: Row, env: Env)
    requires RetryApplies(sub) && s.row.status == Cancelled
    ensures RetryRun(s, sub, env).row.status != Cancelled <==>
      s.row.attempt == sub.attempt && RecoveryAnswer(sub, env) != InfraError && s.fuel >= AskFuel(sub, env) + 2
  {
    RetryIs(s, sub, env);
    RetryRowIs(s.row, sub, env, s.fuel, s.trigger);
  }

  /** A grace run's guarded writes never lose it, and never record the money. */
  lemma GraceNeverLosesACancel(s: State, sub: Row, env: Env)
    requires s.row.status == Cancelled
    ensures GraceRun(s, sub, env).row == s.row && GraceRun(s, sub, env).books == s.books
  {
    if GraceApplies(sub) { GraceIs(s, sub, env); }
  }
}
