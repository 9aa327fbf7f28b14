/** The handler runs in closed form: what is left of the row, the calls and the
    books by a run that loaded `sub` and lives for a given number of effects, on a
    row that may have changed since. */
module Outcomes {
  import opened BillingCycle
  import opened Books
  import opened Handlers
  import opened Keys
  import opened Ledger
  import opened Prelude
  import opened Subscriptions

  /** Effects of a retry up to and including its payment call. */
  function AskFuel(sub: Row, env: Env): nat { if RecoveryRail(sub, env) == Manual then 1 else 2 }

  /** The row after a retry: claimed, then noted, then written. */
  function RetryRow(r: Row, sub: Row, env: Env, fuel: nat, trigger: bool): Row {
    if fuel == 0 || r.attempt != sub.attempt then r
    else
      var claimed := Written(r, ClaimAttempt(sub.attempt), trigger);
      if RecoveryAnswer(sub, env).InfraError? || fuel <= AskFuel(sub, env) then claimed
      else
        var noted := Written(claimed, SetRail(RecoveryRail(sub, env)), trigger);
        if fuel == AskFuel(sub, env) + 1 then noted else Written(noted, RecoveryWrite(sub, env), trigger)
  }

  predicate RetryWrites(r: Row, sub: Row, env: Env, fuel: nat) {
    r.attempt == sub.attempt && !RecoveryAnswer(sub, env).InfraError? && fuel >= AskFuel(sub, env) + 2
  }

  /** A retry ends with a renewal, the next attempt or a suspension. */
  lemma RecoveryWriteIs(sub: Row, env: Env)
    requires !RecoveryAnswer(sub, env).InfraError?
    ensures match RecoveryWrite(sub, env)
      case Renew(status, _, _) => status == Active
      case SetDunning(status, _, _) => status == Status.Dunning
      case SetStatus(status) => status == Suspended
      case _ => false
  {}

  lemma LastWriteIs(noted: Row, u: Write, trigger: bool)
    requires u.Renew? || u.SetDunning? || u.SetStatus?
    ensures var t := Written(noted, u, trigger);
      && t.id == noted.id && t.cancelAtPeriodEnd == noted.cancelAtPeriodEnd && t.status == u.status
      && t.attempt == if u.Renew? then 0 else if u.SetDunning? then u.attempt else noted.attempt
  {}

  /** The row's status and counter after a retry. */
  lemma RetryRowIs(r: Row, sub: Row, env: Env, fuel: nat, trigger: bool)
    ensures var t := RetryRow(r, sub, env, fuel, trigger);
      && t.id == r.id && t.cancelAtPeriodEnd == r.cancelAtPeriodEnd
      && (!RetryWrites(r, sub, env, fuel) ==>
            t.status == r.status && t.attempt == r.attempt + (if fuel > 0 && r.attempt == sub.attempt then 1 else 0))
      && (RetryWrites(r, sub, env, fuel) ==>
            match RecoveryWrite(sub, env)
            case Renew(_, _, _) => t.status == Active && t.attempt == 0
            case SetDunning(_, attempt, _) => t.status == Status.Dunning && t.attempt == attempt
            case _ => t.status == Suspended && t.attempt == sub.attempt + 1)
  {
    if RetryWrites(r, sub, env, fuel) {
      var noted := Written(Written(r, ClaimAttempt(sub.attempt), trigger), SetRail(RecoveryRail(sub, env)), trigger);
      RecoveryWriteIs(sub, env);
      LastWriteIs(noted, RecoveryWrite(sub, env), trigger);
    }
  }

  function RetryCalls(r: Row, sub: Row, env: Env, fuel: nat): seq<Call> {
    if fuel >= 2 && r.attempt == sub.attempt && RecoveryRail(sub, env) != Manual
    then [RecoveryCall(sub, RecoveryRail(sub, env), sub.attempt + 1, env)] else []
  }

  function RetryBooks(books: Tables, r: Row, sub: Row, env: Env, fuel: nat): Tables {
    if RecoveryAnswer(sub, env).Success? && r.attempt == sub.attempt && fuel > 4
    then Recorded(books, RecoveryCharge(sub, env), fuel - 4) else books
  }

  lemma AskedIs(s: State, sub: Row, env: Env)
    ensures var t := Asked(s, sub, env);
      && t.books == s.books && t.trigger == s.trigger
      && t.calls == s.calls + RetryCalls(s.row, sub, env, s.fuel)
      && (if s.fuel == 0 || s.row.attempt != sub.attempt then t.fuel == 0 && t.row == s.row
          else && t.row == Written(s.row, ClaimAttempt(sub.attempt), s.trigger)
               && t.fuel == Max(0, s.fuel - AskFuel(sub, env)))
  {}

  lemma AnsweredIs(s: State, sub: Row, env: Env)
    ensures var t, rail := Answered(s, sub, env), RecoveryRail(sub, env);
      && t.calls == s.calls && t.trigger == s.trigger
      && (if RecoveryAnswer(sub, env).InfraError? || s.fuel == 0 then t.row == s.row && t.books == s.books
          else && t.row == (var noted := Written(s.row, SetRail(rail), s.trigger);
                            if s.fuel == 1 then noted else Written(noted, RecoveryWrite(sub, env), s.trigger))
               && t.books == (if RecoveryAnswer(sub, env).Success? && s.fuel > 2
                              then Recorded(s.books, RecoveryCharge(sub, env), s.fuel - 2) else s.books))
  {}

  lemma RetryIs(s: State, sub: Row, env: Env)
    requires RetryApplies(sub)
    ensures var t := RetryRun(s, sub, env);
      && t.row == RetryRow(s.row, sub, env, s.fuel, s.trigger)
      && t.calls == s.calls + RetryCalls(s.row, sub, env, s.fuel)
      && t.books == RetryBooks(s.books, s.row, sub, env, s.fuel)
  {
    AskedIs(s, sub, env);
    AnsweredIs(Asked(s, sub, env), sub, env);
  }

  /** The guarded write a grace retry ends with. */
  function GraceWrite(sub: Row, env: Env): Write {
    if env.answer.Success? then RenewIf(sub.version, Active, env.now, NextPeriodEnd(env.now, env.plan))
    else SetStatusIf(sub.version, PastDue)
  }

  predicate GraceWrites(r: Row, sub: Row, env: Env, fuel: nat) {
    !env.answer.InfraError? && fuel >= 2 && Matches(r, GraceWrite(sub, env))
  }

  lemma GraceIs(s: State, sub: Row, env: Env)
    requires GraceApplies(sub)
    ensures var t := GraceRun(s, sub, env);
      && t.row == (if GraceWrites(s.row, sub, env, s.fuel)
                   then Written(s.row, GraceWrite(sub, env), s.trigger) else s.row)
      && t.calls == s.calls + (if s.fuel >= 1 then [GraceCall(sub, env)] else [])
      && t.books == (if env.answer.Success? && GraceWrites(s.row, sub, env, s.fuel) && s.fuel > 2
                     then Recorded(s.books, GraceCharge(sub, env), s.fuel - 2) else s.books)
  {}

  function TrialWrite(sub: Row, env: Env): Write
    requires sub.token == "" || !env.answer.InfraError?
  {
    if sub.token == "" then SetStatus(PastDue)
    else if env.answer.Success? then Renew(Active, env.now, NextPeriodEnd(env.now, env.plan))
    else SetDunning(GracePeriod, 0, Some(TrialRetryAt(env)))
  }

  predicate TrialWrites(sub: Row, env: Env, fuel: int) {
    if sub.token == "" then fuel >= 1 else !env.answer.InfraError? && fuel >= 2
  }

  /** A trial that was charged books the charge; any other that ends posts its end. */
  function TrialBooks(books: Tables, sub: Row, env: Env, fuel: nat): Tables {
    if sub.token != "" && env.answer.Success? then
      if fuel > 2 then Recorded(books, TrialCharge(sub, env), fuel - 2) else books
    else if TrialWrites(sub, env, fuel - 1) then books.(ledger := Appended(books.ledger, TrialEndRow(sub, env)))
    else books
  }

  /** The state a trial's run leaves, from the one it began in. */
  ghost predicate TrialEnds(t: State, s: State, sub: Row, env: Env) {
    && t.row == (if TrialWrites(sub, env, s.fuel) then Written(s.row, TrialWrite(sub, env), s.trigger) else s.row)
    && t.calls == s.calls + (if sub.token != "" && s.fuel >= 1 then [TrialCall(sub, env)] else [])
    && t.books == TrialBooks(s.books, sub, env, s.fuel)
  }

  lemma TrialWithoutTokenIs(s: State, sub: Row, env: Env)
    requires sub.status == Trialing && sub.token == ""
    ensures TrialEnds(TrialRun(s, sub, env), s, sub, env)
  {}

  lemma ChargedTrialIs(s: State, sub: Row, env: Env)
    requires sub.status == Trialing && sub.token != "" && env.answer.Success?
    ensures TrialEnds(TrialRun(s, sub, env), s, sub, env)
  {}

  lemma UnchargedTrialIs(s: State, sub: Row, env: Env)
    requires sub.status == Trialing && sub.token != "" && !env.answer.Success?
    ensures TrialEnds(TrialRun(s, sub, env), s, sub, env)
  {}

  lemma TrialIs(s: State, sub: Row, env: Env)
    requires sub.status == Trialing
    ensures TrialEnds(TrialRun(s, sub, env), s, sub, env)
  {
    if sub.token == "" {
      TrialWithoutTokenIs(s, sub, env);
    } else if env.answer.Success? {
      ChargedTrialIs(s, sub, env);
    } else {
      UnchargedTrialIs(s, sub, env);
    }
  }

  lemma SimulateIs(s: State, sub: Row, env: Env, amount: int, token: string)
    requires sub.status == PendingPayment
    ensures var t := SimulateRun(s, sub, env, amount, token);
      && t.calls == s.calls
      && t.books == (if s.fuel > 2 then Recorded(s.books, SimCharge(sub, env, amount), s.fuel - 2) else s.books)
  {}
}
