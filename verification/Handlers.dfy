/** The billing job handlers on one subscription.  A run loads the row, then makes
    database writes and at most one payment call; the process may die after any of
    them, which `fuel`, the number of effects it still lives for, stands for. */
module Handlers {
  import opened BillingCycle
  import opened Books
  import opened Calendar
  import opened Dunning
  import opened Keys
  import opened Ledger
  import opened Prelude
  import opened Subscriptions

  /** What the payment provider answers to a charge. */
  datatype Answer = Success | Declined(code: string) | InfraError

  /** What a run reads besides the row.  `wallet` is the customer's wallet balance
      if there is a wallet and the balance could be fetched; `mandates` whether the
      payment client can debit mandates. */
  datatype Env = Env(now: Time, plan: BillingPlan, config: Config, account: Account, wallet: Option<int>,
                     mandates: bool, answer: Answer)

  /** A call that moves money; recovery calls carry their attempt number. */
  datatype Call = Call(rail: Rail, number: nat, ref: string, amount: int, success: bool)

  datatype State = State(row: Row, books: Tables, calls: seq<Call>, fuel: nat, trigger: bool)

  datatype Act = Db(write: Write) | Pay(call: Call) | Book(charge: ChargeInfo) | Post(entry: Entry)

  /** One effect.  A dead process has none, and a refused write ends the run. */
  function Do(s: State, act: Act): State {
    if s.fuel == 0 then s
    else
      match act
      case Db(u) =>
        if Matches(s.row, u) then s.(row := Written(s.row, u, s.trigger), fuel := s.fuel - 1) else s.(fuel := 0)
      case Pay(call) => s.(calls := s.calls + [call], fuel := s.fuel - 1)
      case Book(c) => s.(books := Recorded(s.books, c, s.fuel), fuel := if s.fuel < 3 then 0 else s.fuel - 3)
      case Post(e) => s.(books := s.books.(ledger := Appended(s.books.ledger, e)), fuel := s.fuel - 1)
  }

  function ChargeOf(sub: Row, ref: string, amount: int, env: Env): ChargeInfo {
    ChargeInfo(sub.id, ref, amount, env.account, env.now)
  }

  function TrialEndRow(sub: Row, env: Env): Entry {
    EntryOf(RecordTrialEnd(sub.id), env.account, TrialEndKey(sub.id), env.now)
  }

  function GraceRef(id: string): string { "grace-" + id }

  function TrialRef(id: string): string { "trial-charge-" + id }

  function SimRef(id: string): string { "sim-" + id }

  // ---- the recovery ladder ----

  predicate HasCard(sub: Row) { sub.token != "" && sub.token != "N/A" }

  /** The rail of a recovery attempt: a wallet that covers the amount, the card on
      attempts 1 and 2, a mandate from attempt 3, else any card, else none. */
  function LadderRail(sub: Row, env: Env, number: nat): Rail {
    if env.wallet.Some? && env.wallet.value >= env.plan.amount then Wallet
    else if number <= 2 && HasCard(sub) then Card
    else if number >= 3 && sub.mandate != "" && env.mandates then Mandate
    else if HasCard(sub) then Card
    else Manual
  }

  /** Between two attempts with the same means the rail changes only to the mandate,
      and only when the third attempt is passed: the ladder never climbs back down. */
  lemma LadderClimbs(sub: Row, env: Env, number: nat, later: nat)
    requires number <= later
    ensures LadderRail(sub, env, later) == LadderRail(sub, env, number)
      || (LadderRail(sub, env, later) == Mandate && number < 3 <= later)
  {}

  function RecoveryCall(sub: Row, rail: Rail, number: nat, env: Env): Call {
    Call(rail, number, RetryKey(rail, sub.id, number), env.plan.amount, env.answer.Success?)
  }

  /** Without a rail the ladder declines on its own. */
  function LadderAnswer(rail: Rail, env: Env): Answer {
    if rail == Manual then Declined("action_required") else env.answer
  }

  function Verdict(sub: Row, code: string, env: Env): Write {
    var d := Decide(sub.status, sub.attempt, code, env.config, env.now);
    if d.shouldRetry then SetDunning(Status.Dunning, d.attempt, d.nextRetryAt) else SetStatus(Suspended)
  }

  function RecoveryRail(r: Row, env: Env): Rail { LadderRail(r, env, r.attempt + 1) }

  function RecoveryAnswer(r: Row, env: Env): Answer { LadderAnswer(RecoveryRail(r, env), env) }

  function RecoveryRef(r: Row, env: Env): string { RetryKey(RecoveryRail(r, env), r.id, r.attempt + 1) }

  function RecoveryCharge(r: Row, env: Env): ChargeInfo { ChargeOf(r, RecoveryRef(r, env), env.plan.amount, env) }

  /** The write a retry ends with once it has an answer. */
  function RecoveryWrite(sub: Row, env: Env): Write
    requires !RecoveryAnswer(sub, env).InfraError?
  {
    match RecoveryAnswer(sub, env)
    case Success => Renew(Active, env.now, NextPeriodEnd(env.now, env.plan))
    case Declined(code) => Verdict(sub, code, env)
  }

  // ---- the runs, given the row they loaded ----

  predicate RetryApplies(sub: Row) { (sub.status == Status.Dunning || sub.status == PastDue) && !sub.cancelAtPeriodEnd }

  /** A retry of the row it loaded, up to its payment call. */
  function Asked(s: State, sub: Row, env: Env): State {
    var claimed := Do(s, Db(ClaimAttempt(sub.attempt)));
    if RecoveryRail(sub, env) == Manual then claimed
    else Do(claimed, Pay(RecoveryCall(sub, RecoveryRail(sub, env), sub.attempt + 1, env)))
  }

  /** And from the answer on. */
  function Answered(s: State, sub: Row, env: Env): State {
    if RecoveryAnswer(sub, env).InfraError? then s
    else
      var written := Do(Do(s, Db(SetRail(RecoveryRail(sub, env)))), Db(RecoveryWrite(sub, env)));
      if RecoveryAnswer(sub, env).Success? then Do(written, Book(RecoveryCharge(sub, env))) else written
  }

  function RetryRun(s: State, sub: Row, env: Env): State {
    if RetryApplies(sub) then Answered(Asked(s, sub, env), sub, env) else s
  }

  predicate GraceApplies(sub: Row) { sub.status == GracePeriod && !sub.cancelAtPeriodEnd }

  function GraceCall(sub: Row, env: Env): Call { Call(Card, 0, GraceRef(sub.id), env.plan.amount, env.answer.Success?) }

  function GraceCharge(sub: Row, env: Env): ChargeInfo { ChargeOf(sub, GraceRef(sub.id), env.plan.amount, env) }

  function GraceRun(s: State, sub: Row, env: Env): State {
    if !GraceApplies(sub) then s
    else
      var asked := Do(s, Pay(GraceCall(sub, env)));
      match env.answer
      case InfraError => asked
      case Success =>
        var renewed := Do(asked, Db(RenewIf(sub.version, Active, env.now, NextPeriodEnd(env.now, env.plan))));
        Do(renewed, Book(GraceCharge(sub, env)))
      case Declined(_) => Do(asked, Db(SetStatusIf(sub.version, PastDue)))
  }

  function TrialRetryAt(env: Env): int { Instant(env.now) + 48 * HOUR }

  function TrialCall(sub: Row, env: Env): Call { Call(Card, 0, TrialRef(sub.id), env.plan.amount, env.answer.Success?) }

  function TrialCharge(sub: Row, env: Env): ChargeInfo { ChargeOf(sub, TrialRef(sub.id), env.plan.amount, env) }

  function TrialRun(s: State, sub: Row, env: Env): State {
    if sub.status != Trialing then s
    else if sub.token == "" then Do(Do(s, Db(SetStatus(PastDue))), Post(TrialEndRow(sub, env)))
    else
      var asked := Do(s, Pay(TrialCall(sub, env)));
      match env.answer
      case InfraError => asked
      case Success =>
        var renewed := Do(asked, Db(Renew(Active, env.now, NextPeriodEnd(env.now, env.plan))));
        Do(renewed, Book(TrialCharge(sub, env)))
      case Declined(_) =>
        Do(Do(asked, Db(SetDunning(GracePeriod, 0, Some(TrialRetryAt(env))))), Post(TrialEndRow(sub, env)))
  }

  function SuspendRun(s: State, sub: Row): State {
    if sub.status == Suspended || sub.status == Cancelled then s else Do(s, Db(SetStatus(Suspended)))
  }

  function CancelRun(s: State, sub: Row): State {
    if sub.cancelAtPeriodEnd then Do(s, Db(Cancel)) else s
  }

  function SimCharge(sub: Row, env: Env, amount: int): ChargeInfo { ChargeOf(sub, SimRef(sub.id), amount, env) }

  function SimulateRun(s: State, sub: Row, env: Env, amount: int, token: string): State {
    if sub.status != PendingPayment then s
    else
      var renewed := Do(Do(s, Db(SetToken(token))), Db(Renew(Active, env.now, NextPeriodEnd(env.now, env.plan))));
      Do(renewed, Book(SimCharge(sub, env, amount)))
  }

  /** Checkouts are abandoned after an hour, trials without a card after a day. */
  predicate Abandoned(sub: Row, createdAt: int, seeded: bool, now: Time) {
    && !seeded && sub.token == ""
    && (sub.status == PendingPayment || sub.status == Trialing)
    && createdAt <= Instant(now) - (if sub.status == PendingPayment then 1 else 24) * HOUR
  }

  function SweepRun(s: State, sub: Row, env: Env, createdAt: int, seeded: bool): State {
    if Abandoned(sub, createdAt, seeded, env.now) then Do(s, Db(SetStatus(PastDue))) else s
  }

  datatype Job =
    | RetryFailedPayment | GraceRetry | ExpireTrial | SuspendSubscription | CancelAtPeriodEnd
    | SimulateWebhook(amount: int, token: string) | CheckAbandonedCheckouts(createdAt: int, seeded: bool)

  function RunOf(job: Job, s: State, sub: Row, env: Env): State {
    match job
    case RetryFailedPayment => RetryRun(s, sub, env)
    case GraceRetry => GraceRun(s, sub, env)
    case ExpireTrial => TrialRun(s, sub, env)
    case SuspendSubscription => SuspendRun(s, sub)
    case CancelAtPeriodEnd => CancelRun(s, sub)
    case SimulateWebhook(amount, token) => SimulateRun(s, sub, env, amount, token)
    case CheckAbandonedCheckouts(createdAt, seeded) => SweepRun(s, sub, env, createdAt, seeded)
  }

  // ------------------------------------------------------------------
  // The handlers themselves
  // ------------------------------------------------------------------

  class Worker {
    var row: Row
    var calls: seq<Call>
    var fuel: nat
    const store: Store
    const trigger: bool

    constructor (row: Row, fuel: nat, trigger: bool)
      ensures fresh(store) && Snapshot() == State(row, Tables([], []), [], fuel, trigger)
    {
      this.row, calls, this.fuel, this.trigger := row, [], fuel, trigger;
      store := new Store();
    }

    function Snapshot(): State
      reads this, store
    {
      State(row, store.State(), calls, fuel, trigger)
    }

    /** One UPDATE; false when it matches no row. */
    method Update(u: Write) returns (matched: bool)
      modifies this`row, this`fuel
      ensures Snapshot() == Do(old(Snapshot()), Db(u))
      ensures !matched ==> fuel == 0
    {
      if fuel == 0 { return true; }
      matched := Matches(row, u);
      if !matched {
        fuel := 0;
        return;
      }
      fuel := fuel - 1;
      if !u.SetStatusIf? || trigger { row := row.(version := row.version + 1); }
      match u {
        case ClaimAttempt(_) => row := row.(attempt := row.attempt + 1);
        case Renew(status, start, end) =>
          row := row.(status := status, periodStart := start, periodEnd := end);
          row := row.(attempt := 0, nextRetry := None);
        case RenewIf(_, status, start, end) =>
          row := row.(status := status, periodStart := start, periodEnd := end);
          row := row.(attempt := 0, nextRetry := None);
        case SetStatus(status) => row := row.(status := status);
        case SetStatusIf(_, status) => row := row.(status := status);
        case SetDunning(status, attempt, at) => row := row.(status := status, attempt := attempt, nextRetry := at);
        case SetRail(rail) => row := row.(rail := Some(rail));
        case SetToken(token) => row := row.(token := token);
        case Cancel => row := row.(status := Cancelled);
        case FlagCancel => row := row.(cancelAtPeriodEnd := true);
      }
    }

    method Charge(call: Call)
      modifies this`calls, this`fuel
      ensures Snapshot() == Do(old(Snapshot()), Pay(call))
    {
      if fuel > 0 { calls, fuel := calls + [call], fuel - 1; }
    }

    method CreateInvoiceForCharge(c: ChargeInfo)
      modifies this`fuel, store
      ensures Snapshot() == Do(old(Snapshot()), Book(c))
    {
      store.CreateInvoiceForCharge(c, fuel);
      fuel := if fuel < 3 then 0 else fuel - 3;
    }

    method RecordTrialEnd(sub: Row, env: Env)
      modifies this`fuel, store
      ensures Snapshot() == Do(old(Snapshot()), Post(TrialEndRow(sub, env)))
    {
      if fuel > 0 {
        store.AppendRow(TrialEndRow(sub, env));
        fuel := fuel - 1;
      }
    }

    /** Picks a rail and charges it, at most one of them. */
    method AttemptRecoveryCharge(sub: Row, env: Env) returns (answer: Answer, rail: Rail)
      modifies this`calls, this`fuel
      ensures rail == LadderRail(sub, env, sub.attempt + 1) && answer == LadderAnswer(rail, env)
      ensures Snapshot() == if rail == Manual then old(Snapshot())
                            else Do(old(Snapshot()), Pay(RecoveryCall(sub, rail, sub.attempt + 1, env)))
    {
      var attempt := sub.attempt + 1;
      var cardAvailable := sub.token != "" && sub.token != "N/A";
      var mandateAvailable := sub.mandate != "";
      answer := env.answer;
      if env.wallet.Some? && env.wallet.value >= env.plan.amount {
        rail := Wallet;
      } else if attempt <= 2 && cardAvailable {
        rail := Card;
      } else if attempt >= 3 && mandateAvailable && env.mandates {
        rail := Mandate;
      } else if cardAvailable {
        rail := Card;
      } else {
        return Declined("action_required"), Manual;
      }
      Charge(Call(rail, attempt, RetryKey(rail, sub.id, attempt), env.plan.amount, answer == Success));
    }

    method RetryFailedPayment(env: Env)
      modifies this, store
      ensures Snapshot() == RetryRun(old(Snapshot()), old(row), env)
    {
      var sub := row;
      if sub.status != Status.Dunning && sub.status != PastDue { return; }
      if sub.cancelAtPeriodEnd { return; }
      var claimed := Update(ClaimAttempt(sub.attempt));
      if !claimed { return; }
      var answer, rail := AttemptRecoveryCharge(sub, env);
      if answer == InfraError { return; }
      var _ := Update(SetRail(rail));
      if answer == Success {
        var periodEnd, _, _ := ResumeForwardPlan(sub.periodEnd, env.plan, env.now);
        var _ := Update(Renew(Active, env.now, periodEnd));
        CreateInvoiceForCharge(ChargeOf(sub, RetryKey(rail, sub.id, sub.attempt + 1), env.plan.amount, env));
        return;
      }
      var d := Decide(sub.status, sub.attempt, answer.code, env.config, env.now);
      if !d.shouldRetry {
        var _ := Update(SetStatus(Suspended));
        return;
      }
      var _ := Update(SetDunning(Status.Dunning, d.attempt, d.nextRetryAt));
    }

    method GraceRetry(env: Env)
      modifies this, store
      ensures Snapshot() == GraceRun(old(Snapshot()), old(row), env)
    {
      var sub := row;
      if sub.status != GracePeriod { return; }
      if sub.cancelAtPeriodEnd { return; }
      Charge(Call(Card, 0, GraceRef(sub.id), env.plan.amount, env.answer == Success));
      if env.answer == InfraError { return; }
      if env.answer == Success {
        var periodEnd, _, _ := ResumeForwardPlan(sub.periodEnd, env.plan, env.now);
        var ok := Update(RenewIf(sub.version, Active, env.now, periodEnd));
        if !ok { return; }
        CreateInvoiceForCharge(ChargeOf(sub, GraceRef(sub.id), env.plan.amount, env));
        return;
      }
      var _ := Update(SetStatusIf(sub.version, PastDue));
    }

    method ExpireTrial(env: Env)
      modifies this, store
      ensures Snapshot() == TrialRun(old(Snapshot()), old(row), env)
    {
      var sub := row;
      if sub.status != Trialing { return; }
      if sub.token == "" {
        var _ := Update(SetStatus(PastDue));
        RecordTrialEnd(sub, env);
        return;
      }
      Charge(Call(Card, 0, TrialRef(sub.id), env.plan.amount, env.answer == Success));
      if env.answer == InfraError { return; }
      if env.answer == Success {
        var _ := Update(Renew(Active, env.now, NextPeriodEnd(env.now, env.plan)));
        CreateInvoiceForCharge(ChargeOf(sub, TrialRef(sub.id), env.plan.amount, env));
        return;
      }
      var _ := Update(SetDunning(GracePeriod, 0, Some(Instant(env.now) + 48 * HOUR)));
      RecordTrialEnd(sub, env);
    }

    method SuspendSubscription()
      modifies this, store
      ensures Snapshot() == SuspendRun(old(Snapshot()), old(row))
    {
      if row.status == Suspended || row.status == Cancelled { return; }
      var _ := Update(SetStatus(Suspended));
    }

    method CancelAtPeriodEnd()
      modifies this, store
      ensures Snapshot() == CancelRun(old(Snapshot()), old(row))
    {
      if !row.cancelAtPeriodEnd { return; }
      var _ := Update(Cancel);
    }

    method SimulateWebhook(env: Env, amount: int, token: string)
      modifies this, store
      ensures Snapshot() == SimulateRun(old(Snapshot()), old(row), env, amount, token)
    {
      var sub := row;
      if sub.status != PendingPayment { return; }
      var _ := Update(SetToken(token));
      var _ := Update(Renew(Active, env.now, NextPeriodEnd(env.now, env.plan)));
      CreateInvoiceForCharge(ChargeOf(sub, SimRef(sub.id), amount, env));
    }
  }
}
