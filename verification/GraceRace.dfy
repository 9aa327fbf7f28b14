/** Several grace retries of one subscription that loaded the same row version, in
    any interleaving with each other and with cancellations.  What they do to the
    row are guarded writes; a run whose success write matched goes on to record, and a
    run may die between its charge and its write.

    The optimistic status update does not set updated_at itself; a trigger of
    migration 000002_add_subscription_version_check does, where it is installed.
    The two cases end differently. */
module GraceRace {
  import opened Books
  import opened BillingCycle
  import opened Handlers
  import opened Keys
  import opened Prelude
  import opened Subscriptions
  import JobBooks

  /** `activations` counts success writes that matched, `records` recordings begun. */
  datatype Race = Race(row: Row, books: Tables, activations: nat, records: nat)

  datatype Move =
    | Succeed(start: Time, end: Time)
    | Decline
    | CancelNow
    | ChargedAndDied
    | Record(charge: ChargeInfo, writes: nat)

  /** The run behind the move has taken money: it goes on to its success write, or dies
      before it. */
  predicate TookMoney(m: Move) { m.Succeed? || m.ChargedAndDied? }

  predicate WritesRow(m: Move) { m.Succeed? || m.Decline? || m.CancelNow? }

  predicate Enabled(s: Race, m: Move) { m.Record? ==> s.records < s.activations }

  function WriteOf(sub: Row, m: Move): Write
    requires WritesRow(m)
  {
    match m
    case Succeed(start, end) => RenewIf(sub.version, Active, start, end)
    case Decline => SetStatusIf(sub.version, PastDue)
    case CancelNow => Cancel
  }

  function Moved(s: Race, sub: Row, m: Move, trigger: bool): Race {
    if m.Record? then s.(books := Recorded(s.books, m.charge, m.writes), records := s.records + 1)
    else if m.ChargedAndDied? then s
    else
      var u := WriteOf(sub, m);
      if !Matches(s.row, u) then s
      else s.(row := Written(s.row, u, trigger), activations := s.activations + if m.Succeed? then 1 else 0)
  }

  /** The race after the moves, all of runs that loaded `sub`. */
  function After(sub: Row, books: Tables, es: seq<Move>, trigger: bool): Race {
    if es == [] then Race(sub, books, 0, 0)
    else Moved(After(sub, books, es[..|es| - 1], trigger), sub, es[|es| - 1], trigger)
  }

  predicate Possible(sub: Row, books: Tables, es: seq<Move>, trigger: bool) {
    es == [] || (Possible(sub, books, es[..|es| - 1], trigger)
                 && Enabled(After(sub, books, es[..|es| - 1], trigger), es[|es| - 1]))
  }

  function MoveOf(env: Env, fuel: nat): Move {
    if env.answer != Success then Decline
    else if fuel == 1 then ChargedAndDied
    else Succeed(env.now, NextPeriodEnd(env.now, env.plan))
  }

  /** A whole grace run is one of these moves, followed by its recording. */
  lemma GraceRunIsMoves(s: State, sub: Row, env: Env)
    requires GraceApplies(sub) && s.fuel >= 1 && env.answer != InfraError
    ensures var m, t := MoveOf(env, s.fuel), GraceRun(s, sub, env);
      var r := Moved(Race(s.row, s.books, 0, 0), sub, m, s.trigger);
      && t.row == (if s.fuel == 1 then s.row else r.row)
      && t.books == (if r.activations == 0 then s.books
                     else Recorded(s.books, ChargeOf(sub, GraceRef(sub.id), env.plan.amount, env), s.fuel - 2))
      && t.calls == s.calls + [GraceCall(sub, env)] && (GraceCall(sub, env).success <==> TookMoney(m))
  {}

  predicate AnyCancel(es: seq<Move>) { exists i :: 0 <= i < |es| && es[i].CancelNow? }

  predicate AnySuccess(es: seq<Move>) { exists i :: 0 <= i < |es| && es[i].Succeed? }

  predicate AnyDecline(es: seq<Move>) { exists i :: 0 <= i < |es| && es[i].Decline? }

  /** A success write is reached before every cancellation. */
  predicate SuccessBeforeCancel(es: seq<Move>) {
    exists i :: 0 <= i < |es| && es[i].Succeed? && !AnyCancel(es[..i])
  }

  /** The first move that writes the row. */
  function First(es: seq<Move>): Option<Move> {
    if es == [] then None else if WritesRow(es[0]) then Some(es[0]) else First(es[1..])
  }

  predicate SuccessFirst(es: seq<Move>) { First(es).Some? && First(es).value.Succeed? }

  lemma LastMove(es: seq<Move>)
    requires es != []
    ensures var front, m := es[..|es| - 1], es[|es| - 1];
      && (AnyCancel(es) <==> AnyCancel(front) || m.CancelNow?)
      && (AnySuccess(es) <==> AnySuccess(front) || m.Succeed?)
      && (AnyDecline(es) <==> AnyDecline(front) || m.Decline?)
  {
    var front, n := es[..|es| - 1], |es| - 1;
    assert es[n] == es[|es| - 1];
    if AnyCancel(front) { var i :| 0 <= i < |front| && front[i].CancelNow?; assert es[i].CancelNow?; }
    if AnySuccess(front) { var i :| 0 <= i < |front| && front[i].Succeed?; assert es[i].Succeed?; }
    if AnyDecline(front) { var i :| 0 <= i < |front| && front[i].Decline?; assert es[i].Decline?; }
  }

  lemma LastSuccess(es: seq<Move>)
    requires es != []
    ensures var front, m := es[..|es| - 1], es[|es| - 1];
      SuccessBeforeCancel(es) <==> SuccessBeforeCancel(front) || (m.Succeed? && !AnyCancel(front))
  {
    var front, n := es[..|es| - 1], |es| - 1;
    if SuccessBeforeCancel(es) {
      var i :| 0 <= i < |es| && es[i].Succeed? && !AnyCancel(es[..i]);
      if i < n { assert front[i].Succeed? && front[..i] == es[..i]; }
    }
    if SuccessBeforeCancel(front) {
      var i :| 0 <= i < n && front[i].Succeed? && !AnyCancel(front[..i]);
      assert es[i].Succeed? && es[..i] == front[..i];
    }
    if es[n].Succeed? && !AnyCancel(front) { assert es[n].Succeed? && es[..n] == front; }
  }

  lemma {:induction false} FirstOfFront(es: seq<Move>)
    requires es != []
    ensures First(es) == if First(es[..|es| - 1]).Some? || !WritesRow(es[|es| - 1])
                         then First(es[..|es| - 1]) else Some(es[|es| - 1])
    decreases |es|
  {
    if |es| > 1 {
      FirstOfFront(es[1..]);
      assert es[1..][..|es| - 2] == es[..|es| - 1][1..];
    }
  }

  /** Without the trigger the order does not matter: cancelled if anyone cancels,
      else active if any charge succeeded, else past due.  One run at most records. */
  lemma {:induction false} RaceWithoutTrigger(sub: Row, books: Tables, es: seq<Move>)
    requires sub.status == GracePeriod
    ensures var s := After(sub, books, es, false);
      && s.row.status == (if AnyCancel(es) then Cancelled else if AnySuccess(es) then Active
                          else if AnyDecline(es) then PastDue else GracePeriod)
      && (s.row.version == sub.version <==> !AnyCancel(es) && !AnySuccess(es))
      && s.row.version >= sub.version
      && s.activations == (if SuccessBeforeCancel(es) then 1 else 0)
      && (SuccessBeforeCancel(es) ==> AnySuccess(es))
      && (AnySuccess(es) && !AnyCancel(es) ==> SuccessBeforeCancel(es))
    decreases |es|
  {
    if es != [] {
      RaceWithoutTrigger(sub, books, es[..|es| - 1]);
      LastMove(es);
      LastSuccess(es);
    }
  }

  /** With it, the first write decides unless someone cancels: a decline that comes
      first leaves a subscription past due whose card was charged. */
  lemma {:induction false} RaceWithTrigger(sub: Row, books: Tables, es: seq<Move>)
    requires sub.status == GracePeriod
    ensures var s := After(sub, books, es, true);
      && s.row.status == (if AnyCancel(es) then Cancelled
                          else match First(es)
                            case None => GracePeriod
                            case Some(m) => if m.Succeed? then Active else PastDue)
      && (s.row.version == sub.version <==> First(es).None?)
      && s.row.version >= sub.version
      && s.activations == (if SuccessFirst(es) then 1 else 0)
      && (AnyCancel(es) ==> First(es).Some?)
    decreases |es|
  {
    if es != [] {
      RaceWithTrigger(sub, books, es[..|es| - 1]);
      LastMove(es);
      FirstOfFront(es);
    }
  }

  lemma {:induction false} FirstIsAMove(es: seq<Move>)
    ensures First(es).Some? <==> AnyCancel(es) || AnySuccess(es) || AnyDecline(es)
    ensures SuccessFirst(es) ==> AnySuccess(es)
    ensures First(es).Some? && First(es).value.CancelNow? ==> AnyCancel(es)
    decreases |es|
  {
    if es != [] {
      FirstIsAMove(es[..|es| - 1]);
      LastMove(es);
      FirstOfFront(es);
    }
  }

  /** Exactly when the trigger makes no difference to where the race ends. */
  lemma TriggerIsHarmlessExactlyWhen(sub: Row, books: Tables, es: seq<Move>)
    requires sub.status == GracePeriod
    ensures After(sub, books, es, true).row.status == After(sub, books, es, false).row.status <==>
      AnyCancel(es) || !AnySuccess(es) || SuccessFirst(es)
  {
    RaceWithoutTrigger(sub, books, es);
    RaceWithTrigger(sub, books, es);
    FirstIsAMove(es);
  }

  /** Either way at most one invoice is opened, however many charges succeeded. */
  lemma {:induction false} AtMostOneInvoice(sub: Row, books: Tables, es: seq<Move>, trigger: bool)
    requires sub.status == GracePeriod && Possible(sub, books, es, trigger)
    ensures var s := After(sub, books, es, trigger);
      s.records <= s.activations <= 1 && |books.invoices| <= |s.books.invoices| <= |books.invoices| + s.records
    decreases |es|
  {
    if trigger { RaceWithTrigger(sub, books, es); } else { RaceWithoutTrigger(sub, books, es); }
    if es != [] { AtMostOneInvoice(sub, books, es[..|es| - 1], trigger); }
  }

  // ------------------------------------------------------------------
  // The money against the books
  // ------------------------------------------------------------------

  /** Charges that took money. */
  function Charges(es: seq<Move>): nat {
    if es == [] then 0 else Charges(es[..|es| - 1]) + if TookMoney(es[|es| - 1]) then 1 else 0
  }

  /** The last recording begun. */
  function Recording(es: seq<Move>): (r: Option<Move>)
    ensures r.Some? ==> r.value.Record? && r.value in es
  {
    if es == [] then None else if es[|es| - 1].Record? then Some(es[|es| - 1]) else Recording(es[..|es| - 1])
  }

  /** Every recording is of this subscription's grace charge, at the plan's price. */
  predicate OfGrace(es: seq<Move>, id: string, price: nat) {
    forall i :: 0 <= i < |es| && es[i].Record? ==>
      es[i].charge.sub == id && es[i].charge.ref == GraceRef(id) && es[i].charge.amount == price
  }

  /** The one recording there can be reached its ledger write. */
  predicate Posted(es: seq<Move>) { Recording(es).Some? && Recording(es).value.writes >= 2 }

  lemma {:induction false} RecordingIsOne(sub: Row, books: Tables, es: seq<Move>, trigger: bool)
    requires sub.status == GracePeriod && Possible(sub, books, es, trigger)
    ensures var s, r := After(sub, books, es, trigger), Recording(es);
      && s.records == (if r.Some? then 1 else 0)
      && s.books == match r case None => books case Some(m) => Recorded(books, m.charge, m.writes)
    decreases |es|
  {
    AtMostOneInvoice(sub, books, es, trigger);
    if es != [] { RecordingIsOne(sub, books, es[..|es| - 1], trigger); }
  }

  /** A run that records has taken money before. */
  lemma {:induction false} ActivationsAreCharges(sub: Row, books: Tables, es: seq<Move>, trigger: bool)
    ensures After(sub, books, es, trigger).activations <= Charges(es)
    decreases |es|
  {
    if es != [] { ActivationsAreCharges(sub, books, es[..|es| - 1], trigger); }
  }

  function RowsGained(sub: Row, books: Tables, es: seq<Move>, trigger: bool): int {
    JobBooks.ChargedTotal(After(sub, books, es, trigger).books) - JobBooks.ChargedTotal(books)
  }

  /** In any interleaving the charge rows gain the price once, if the recording lives to
      its ledger write and the grace reference is new, and otherwise nothing: all the
      other money taken has no row. */
  lemma MoneyWithoutARow(sub: Row, books: Tables, es: seq<Move>, trigger: bool, price: nat)
    requires sub.status == GracePeriod && Possible(sub, books, es, trigger)
    requires Consistent(books) && IsId(sub.id) && OfGrace(es, sub.id, price)
    ensures var seen := HasInvoice(books, InvoiceKey(sub.id, GraceRef(sub.id)));
      RowsGained(sub, books, es, trigger) == if Posted(es) && !seen then price else 0
    ensures Posted(es) ==> Charges(es) >= 1
  {
    RecordingIsOne(sub, books, es, trigger);
    AtMostOneInvoice(sub, books, es, trigger);
    ActivationsAreCharges(sub, books, es, trigger);
    if Recording(es).Some? {
      var m := Recording(es).value;
      RecordedTotals(books, m.charge, m.writes);
    }
  }

  lemma OnceIsAll(price: nat, charges: nat, once: bool)
    requires price > 0 && (once ==> charges >= 1)
    ensures (if once then price else 0) == price * charges <==> charges == 0 || (charges == 1 && once)
  {
    if charges > 1 { assert price * charges >= price * 2; }
  }

  /** So every charge has its row exactly when there was none, or just one, and that one
      was recorded. */
  lemma RacesKeepTheBooksExactlyWhen(sub: Row, books: Tables, es: seq<Move>, trigger: bool, price: nat)
    requires sub.status == GracePeriod && Possible(sub, books, es, trigger) && price > 0
    requires Consistent(books) && IsId(sub.id) && OfGrace(es, sub.id, price)
    ensures var seen := HasInvoice(books, InvoiceKey(sub.id, GraceRef(sub.id)));
      RowsGained(sub, books, es, trigger) == price * Charges(es) <==>
        Charges(es) == 0 || (Charges(es) == 1 && Posted(es) && !seen)
  {
    MoneyWithoutARow(sub, books, es, trigger, price);
    OnceIsAll(price, Charges(es), Posted(es) && !HasInvoice(books, InvoiceKey(sub.id, GraceRef(sub.id))));
  }
}
