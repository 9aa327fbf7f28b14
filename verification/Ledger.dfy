/** The append-only ledger: its rows, the ten Record operations, and the
    summary, monthly and settlement queries over it. */
module Ledger {
  import opened Calendar
  import opened Prelude

  datatype Kind = Charge | Refund | Credit | Proration | Adjustment | Override | TrialStart | TrialEnd | Payout

  datatype Side = Debit | CreditSide

  /** A tenant in live or test mode: every query is confined to one. */
  datatype Account = Account(tenant: string, mode: string)

  datatype Entry = Entry(account: Account, kind: Kind, side: Side, amount: int, key: string,
                         sub: Option<string>, invoice: Option<nat>, at: Stamp)

  // ------------------------------------------------------------------
  // Appending
  // ------------------------------------------------------------------

  predicate HasKey(rows: seq<Entry>, key: string) { exists i :: 0 <= i < |rows| && rows[i].key == key }

  /** The table's constraints: a key is used once, amounts are not negative. */
  predicate Admissible(rows: seq<Entry>, e: Entry) { !HasKey(rows, e.key) && e.amount >= 0 }

  function Appended(rows: seq<Entry>, e: Entry): seq<Entry> {
    if Admissible(rows, e) then rows + [e] else rows
  }

  predicate DistinctKeys(rows: seq<Entry>) {
    forall i, j :: 0 <= i < j < |rows| ==> rows[i].key != rows[j].key
  }

  /** What the Record functions are asked to write. */
  datatype Request =
    | RecordCharge(sub: string, invoice: nat, amount: int)
    | RecordRefund(sub: string, invoice: nat, amount: int)
    | RecordProration(sub: string, amount: int)
    | RecordCredit(sub: string, amount: int)
    | RecordPaymentLinkCharge(amount: int)
    | RecordPayout(amount: int)
    | RecordPauseCredit(sub: string, amount: int)
    | RecordTrialStart(sub: string)
    | RecordTrialEnd(sub: string)
    | RecordAdminOverride(sub: string)

  function EntryOf(r: Request, account: Account, key: string, at: Stamp): Entry {
    match r
    case RecordCharge(s, i, n) => Entry(account, Charge, Debit, n, key, Some(s), Some(i), at)
    case RecordRefund(s, i, n) => Entry(account, Refund, CreditSide, n, key, Some(s), Some(i), at)
    case RecordProration(s, n) => Entry(account, Proration, Debit, n, key, Some(s), None, at)
    case RecordCredit(s, n) => Entry(account, Credit, CreditSide, n, key, Some(s), None, at)
    case RecordPaymentLinkCharge(n) => Entry(account, Charge, Debit, n, key, None, None, at)
    case RecordPayout(n) => Entry(account, Payout, Debit, n, key, None, None, at)
    case RecordPauseCredit(s, n) => Entry(account, Credit, CreditSide, n, key, Some(s), None, at)
    case RecordTrialStart(s) => Entry(account, TrialStart, Debit, 0, key, Some(s), None, at)
    case RecordTrialEnd(s) => Entry(account, TrialEnd, Debit, 0, key, Some(s), None, at)
    case RecordAdminOverride(s) => Entry(account, Override, Debit, 0, key, Some(s), None, at)
  }

  datatype Step = Step(request: Request, account: Account, key: string, at: Stamp)

  /** The ledger after a sequence of Record calls, refused ones included. */
  function Run(rows: seq<Entry>, steps: seq<Step>): seq<Entry>
    decreases |steps|
  {
    if steps == [] then rows
    else
      var s := steps[0];
      Run(Appended(rows, EntryOf(s.request, s.account, s.key, s.at)), steps[1..])
  }

  /** How kind, side and amount go together in every row a Record call writes. */
  predicate WellTyped(e: Entry) {
    && e.amount >= 0
    && (e.side == CreditSide <==> e.kind == Refund || e.kind == Credit)
    && (e.kind == TrialStart || e.kind == TrialEnd || e.kind == Override ==> e.amount == 0)
    && e.kind != Adjustment
  }

  predicate Sound(rows: seq<Entry>) {
    DistinctKeys(rows) && forall i :: 0 <= i < |rows| ==> WellTyped(rows[i])
  }

  lemma {:induction false} RunKeepsSound(rows: seq<Entry>, steps: seq<Step>)
    requires Sound(rows)
    ensures Sound(Run(rows, steps))
    ensures rows <= Run(rows, steps)
    decreases |steps|
  {
    if steps != [] {
      var s := steps[0];
      var next := Appended(rows, EntryOf(s.request, s.account, s.key, s.at));
      assert rows <= next;
      RunKeepsSound(next, steps[1..]);
    }
  }

  // ------------------------------------------------------------------
  // Sums
  // ------------------------------------------------------------------

  /** SUM(amount) FILTER (WHERE p). */
  function Total(rows: seq<Entry>, p: Entry -> bool): int {
    if rows == [] then 0
    else Total(rows[..|rows| - 1], p) + (if p(rows[|rows| - 1]) then rows[|rows| - 1].amount else 0)
  }

  lemma TotalOfAppend(rows: seq<Entry>, e: Entry, p: Entry -> bool)
    ensures Total(rows + [e], p) == Total(rows, p) + (if p(e) then e.amount else 0)
  {
    assert (rows + [e])[..|rows|] == rows;
  }

  /** A filter that is the disjoint union of two sums to the two sums. */
  lemma {:induction false} TotalSplits(rows: seq<Entry>, p: Entry -> bool, q: Entry -> bool, r: Entry -> bool)
    requires forall i :: 0 <= i < |rows| && rows[i].amount != 0 ==>
      (p(rows[i]) <==> q(rows[i]) || r(rows[i])) && !(q(rows[i]) && r(rows[i]))
    ensures Total(rows, p) == Total(rows, q) + Total(rows, r)
  {
    if rows != [] { TotalSplits(rows[..|rows| - 1], p, q, r); }
  }

  predicate InRange(e: Entry, a: Account, from: int, to: int) {
    e.account == a && from <= Instant(e.at) <= to
  }

  function KindIn(k: Kind, a: Account, from: int, to: int): Entry -> bool {
    (e: Entry) => e.kind == k && InRange(e, a, from, to)
  }

  function SideIn(s: Side, a: Account, from: int, to: int): Entry -> bool {
    (e: Entry) => e.side == s && InRange(e, a, from, to)
  }

  // ------------------------------------------------------------------
  // GetSummary
  // ------------------------------------------------------------------

  datatype Summary = Summary(debits: int, credits: int, charged: int, refunded: int,
                             creditsApplied: int, entries: nat, netRevenue: int, currency: string)

  /** COUNT(*) of the rows of an account and range. */
  function CountIn(rows: seq<Entry>, a: Account, from: int, to: int): nat {
    if rows == [] then 0
    else CountIn(rows[..|rows| - 1], a, from, to) + if InRange(rows[|rows| - 1], a, from, to) then 1 else 0
  }

  /** The summary query; net revenue and currency are set by the service. */
  function SummaryQuery(rows: seq<Entry>, a: Account, from: int, to: int): Summary {
    Summary(Total(rows, SideIn(Debit, a, from, to)), Total(rows, SideIn(CreditSide, a, from, to)),
            Total(rows, KindIn(Charge, a, from, to)), Total(rows, KindIn(Refund, a, from, to)),
            Total(rows, KindIn(Credit, a, from, to)), CountIn(rows, a, from, to), 0, "")
  }

  /** Whatever was recorded, credits are refunds plus credits applied, debits are
      charges, prorations and payouts, and net revenue is charges less credits. */
  lemma SummaryBalances(rows: seq<Entry>, a: Account, from: int, to: int)
    requires Sound(rows)
    ensures var s := SummaryQuery(rows, a, from, to);
      && s.credits == s.refunded + s.creditsApplied
      && s.debits == s.charged + Total(rows, KindIn(Proration, a, from, to)) + Total(rows, KindIn(Payout, a, from, to))
      && s.charged - s.refunded - s.creditsApplied == s.charged - s.credits
  {
    var chargesAndProrations := (e: Entry) => (e.kind == Charge || e.kind == Proration) && InRange(e, a, from, to);
    TotalSplits(rows, SideIn(CreditSide, a, from, to), KindIn(Refund, a, from, to), KindIn(Credit, a, from, to));
    TotalSplits(rows, SideIn(Debit, a, from, to), chargesAndProrations, KindIn(Payout, a, from, to));
    TotalSplits(rows, chargesAndProrations, KindIn(Charge, a, from, to), KindIn(Proration, a, from, to));
  }

  // ---- the summary against what was asked for ----

  /** No step is refused. */
  predicate AllAccepted(rows: seq<Entry>, steps: seq<Step>)
    decreases |steps|
  {
    steps == [] ||
    var s := steps[0];
    var e := EntryOf(s.request, s.account, s.key, s.at);
    Admissible(rows, e) && AllAccepted(rows + [e], steps[1..])
  }

  function ChargeAsked(r: Request): int {
    match r case RecordCharge(_, _, n) => n case RecordPaymentLinkCharge(n) => n case _ => 0
  }

  function RefundAsked(r: Request): int { match r case RecordRefund(_, _, n) => n case _ => 0 }

  function CreditAsked(r: Request): int {
    match r case RecordCredit(_, n) => n case RecordPauseCredit(_, n) => n case _ => 0
  }

  function DebitAsked(r: Request): int {
    ChargeAsked(r) + match r case RecordProration(_, n) => n case RecordPayout(n) => n case _ => 0
  }

  function OneEach(r: Request): int { 1 }

  /** The sum of what the steps of an account and range asked for. */
  function Requested(steps: seq<Step>, a: Account, from: int, to: int, what: Request -> int): int {
    if steps == [] then 0
    else
      var s := steps[0];
      Requested(steps[1..], a, from, to, what)
        + if s.account == a && from <= Instant(s.at) <= to then what(s.request) else 0
  }

  predicate Reports(s: Summary, before: Summary, charged: int, refunded: int, credited: int, debited: int,
                    entries: int)
  {
    && s.entries == before.entries + entries
    && s.charged == before.charged + charged && s.refunded == before.refunded + refunded
    && s.creditsApplied == before.creditsApplied + credited
    && s.credits == before.credits + refunded + credited && s.debits == before.debits + debited
  }

  lemma OneRecordReports(rows: seq<Entry>, s: Step, a: Account, from: int, to: int)
    ensures var e := EntryOf(s.request, s.account, s.key, s.at);
      var counts := s.account == a && from <= Instant(s.at) <= to;
      Reports(SummaryQuery(rows + [e], a, from, to), SummaryQuery(rows, a, from, to),
              if counts then ChargeAsked(s.request) else 0, if counts then RefundAsked(s.request) else 0,
              if counts then CreditAsked(s.request) else 0, if counts then DebitAsked(s.request) else 0,
              if counts then 1 else 0)
  {
    var e := EntryOf(s.request, s.account, s.key, s.at);
    assert (rows + [e])[..|rows|] == rows;
    TotalOfAppend(rows, e, SideIn(Debit, a, from, to));
    TotalOfAppend(rows, e, SideIn(CreditSide, a, from, to));
    TotalOfAppend(rows, e, KindIn(Charge, a, from, to));
    TotalOfAppend(rows, e, KindIn(Refund, a, from, to));
    TotalOfAppend(rows, e, KindIn(Credit, a, from, to));
  }

  /** What was recorded is what the summary reports: over every sequence of accepted
      Record calls each figure grows by exactly the amounts asked for. */
  lemma {:induction false} SummaryReportsWhatWasRecorded(rows: seq<Entry>, steps: seq<Step>, a: Account,
                                                         from: int, to: int)
    requires AllAccepted(rows, steps)
    ensures Reports(SummaryQuery(Run(rows, steps), a, from, to), SummaryQuery(rows, a, from, to),
                    Requested(steps, a, from, to, ChargeAsked), Requested(steps, a, from, to, RefundAsked),
                    Requested(steps, a, from, to, CreditAsked), Requested(steps, a, from, to, DebitAsked),
                    Requested(steps, a, from, to, OneEach))
    decreases |steps|
  {
    if steps != [] {
      var s := steps[0];
      OneRecordReports(rows, s, a, from, to);
      SummaryReportsWhatWasRecorded(rows + [EntryOf(s.request, s.account, s.key, s.at)], steps[1..], a, from, to);
    }
  }

  // ---- the rows against what was asked for ----

  /** The kind of row each call is for. */
  function KindAsked(r: Request): Kind {
    match r
    case RecordCharge(_, _, _) => Charge
    case RecordPaymentLinkCharge(_) => Charge
    case RecordRefund(_, _, _) => Refund
    case RecordProration(_, _) => Proration
    case RecordCredit(_, _) => Credit
    case RecordPauseCredit(_, _) => Credit
    case RecordPayout(_) => Kind.Payout
    case RecordTrialStart(_) => TrialStart
    case RecordTrialEnd(_) => TrialEnd
    case RecordAdminOverride(_) => Override
  }

  /** Payment links and payouts are of no subscription; only charges and refunds name an
      invoice. */
  function SubAsked(r: Request): Option<string> {
    if r.RecordPaymentLinkCharge? || r.RecordPayout? then None else Some(r.sub)
  }

  function InvoiceAsked(r: Request): Option<nat> {
    if r.RecordCharge? || r.RecordRefund? then Some(r.invoice) else None
  }

  /** Rows of a kind for a subscription and an invoice, and the calls that ask for one. */
  function RowsFor(rows: seq<Entry>, k: Kind, sub: Option<string>, invoice: Option<nat>): nat {
    if rows == [] then 0
    else
      var e := rows[|rows| - 1];
      RowsFor(rows[..|rows| - 1], k, sub, invoice)
        + if e.kind == k && e.sub == sub && e.invoice == invoice then 1 else 0
  }

  function AskedFor(steps: seq<Step>, k: Kind, sub: Option<string>, invoice: Option<nat>): nat {
    if steps == [] then 0
    else
      var r := steps[0].request;
      AskedFor(steps[1..], k, sub, invoice)
        + if KindAsked(r) == k && SubAsked(r) == sub && InvoiceAsked(r) == invoice then 1 else 0
  }

  lemma OneRowIsWhatWasAsked(r: Request, account: Account, key: string, at: Stamp)
    ensures var e := EntryOf(r, account, key, at);
      e.kind == KindAsked(r) && e.sub == SubAsked(r) && e.invoice == InvoiceAsked(r)
  {}

  lemma RowsOfAppend(rows: seq<Entry>, e: Entry, k: Kind, sub: Option<string>, invoice: Option<nat>)
    ensures RowsFor(rows + [e], k, sub, invoice)
      == RowsFor(rows, k, sub, invoice) + if e.kind == k && e.sub == sub && e.invoice == invoice then 1 else 0
  {
    assert (rows + [e])[..|rows|] == rows;
  }

  /** Over every sequence of accepted Record calls, the rows of each kind for each
      subscription and invoice grow by exactly the calls that asked for one. */
  lemma {:induction false} RowsAreWhatWasAsked(rows: seq<Entry>, steps: seq<Step>, k: Kind, sub: Option<string>,
                                               invoice: Option<nat>)
    requires AllAccepted(rows, steps)
    ensures RowsFor(Run(rows, steps), k, sub, invoice)
      == RowsFor(rows, k, sub, invoice) + AskedFor(steps, k, sub, invoice)
    decreases |steps|
  {
    if steps != [] {
      var s := steps[0];
      var e := EntryOf(s.request, s.account, s.key, s.at);
      OneRowIsWhatWasAsked(s.request, s.account, s.key, s.at);
      RowsOfAppend(rows, e, k, sub, invoice);
      RowsAreWhatWasAsked(rows + [e], steps[1..], k, sub, invoice);
    }
  }

  /** A call that comes again under a key already used is refused, whatever was recorded
      in between and whatever it asks for. */
  lemma RepeatedCallIsRefused(rows: seq<Entry>, s: Step, steps: seq<Step>, again: Step)
    requires Sound(rows) && AllAccepted(rows, [s]) && again.key == s.key
    ensures var later := Run(Run(rows, [s]), steps);
      && Run(later, [again]) == later
      && !Admissible(later, EntryOf(again.request, again.account, again.key, again.at))
  {
    var e, first := EntryOf(s.request, s.account, s.key, s.at), Run(rows, [s]);
    assert [s][1..] == [];
    assert first == Run(Appended(rows, e), [s][1..]) == rows + [e];
    RunKeepsSound(rows, [s]);
    RunKeepsSound(first, steps);
    var later := Run(first, steps);
    assert later[|rows|] == e;
    assert [again][1..] == [];
  }

  // ------------------------------------------------------------------
  // GetBalanceSettlement
  // ------------------------------------------------------------------

  function SettledKind(k: Kind, a: Account, cutoff: int): Entry -> bool {
    (e: Entry) => e.kind == k && e.account == a && Instant(e.at) < cutoff
  }

  function AnyTime(k: Kind, a: Account): Entry -> bool {
    (e: Entry) => e.kind == k && e.account == a
  }

  function PendingCharges(a: Account, cutoff: int): Entry -> bool {
    (e: Entry) => e.kind == Charge && e.account == a && Instant(e.at) >= cutoff
  }

  function Available(rows: seq<Entry>, a: Account, cutoff: int): int {
    Total(rows, SettledKind(Charge, a, cutoff)) - Total(rows, SettledKind(Refund, a, cutoff))
      - Total(rows, AnyTime(Payout, a))
  }

  function Pending(rows: seq<Entry>, a: Account, cutoff: int): int {
    Total(rows, PendingCharges(a, cutoff))
  }

  function DatedIn(k: Kind, a: Account, from: int, until: int): Entry -> bool {
    (e: Entry) => e.kind == k && e.account == a && from <= Instant(e.at) < until
  }

  /** Moving the cut-off from t to u settles exactly the charges less the refunds
      dated in [t, u); what charges leave pending, available gains. */
  lemma CutoffMoves(rows: seq<Entry>, a: Account, t: int, u: int)
    requires t <= u
    ensures Available(rows, a, u) - Available(rows, a, t)
      == Total(rows, DatedIn(Charge, a, t, u)) - Total(rows, DatedIn(Refund, a, t, u))
    ensures Pending(rows, a, t) - Pending(rows, a, u) == Total(rows, DatedIn(Charge, a, t, u))
    ensures Available(rows, a, t) + Pending(rows, a, t)
      == Total(rows, AnyTime(Charge, a)) - Total(rows, SettledKind(Refund, a, t)) - Total(rows, AnyTime(Payout, a))
  {
    TotalSplits(rows, SettledKind(Charge, a, u), SettledKind(Charge, a, t), DatedIn(Charge, a, t, u));
    TotalSplits(rows, SettledKind(Refund, a, u), SettledKind(Refund, a, t), DatedIn(Refund, a, t, u));
    TotalSplits(rows, PendingCharges(a, t), PendingCharges(a, u), DatedIn(Charge, a, t, u));
    TotalSplits(rows, AnyTime(Charge, a), SettledKind(Charge, a, t), PendingCharges(a, t));
  }

  // ------------------------------------------------------------------
  // GetMonthlyRevenue
  // ------------------------------------------------------------------

  datatype MonthRow = MonthRow(month: int, charged: int, refunded: int)

  function ChargedOf(e: Entry): int { if e.side == Debit && e.kind == Charge then e.amount else 0 }

  function RefundedOf(e: Entry): int { if e.side == CreditSide && e.kind == Refund then e.amount else 0 }

  /** Adds one entry to the rows grouped by month and ordered by it. */
  function AddToMonth(ms: seq<MonthRow>, month: int, charged: int, refunded: int): seq<MonthRow> {
    if ms == [] || month < ms[0].month then [MonthRow(month, charged, refunded)] + ms
    else if month == ms[0].month then
      [MonthRow(month, ms[0].charged + charged, ms[0].refunded + refunded)] + ms[1..]
    else [ms[0]] + AddToMonth(ms[1..], month, charged, refunded)
  }

  /** GROUP BY DATE_TRUNC('month', created_at) ORDER BY month. */
  function MonthlyQuery(rows: seq<Entry>, a: Account, from: int, to: int): seq<MonthRow> {
    if rows == [] then []
    else
      var e := rows[|rows| - 1];
      var before := MonthlyQuery(rows[..|rows| - 1], a, from, to);
      if InRange(e, a, from, to) then AddToMonth(before, e.at.date.month, ChargedOf(e), RefundedOf(e)) else before
  }

  function SumCharged(ms: seq<MonthRow>): int { if ms == [] then 0 else ms[0].charged + SumCharged(ms[1..]) }

  function SumRefunded(ms: seq<MonthRow>): int { if ms == [] then 0 else ms[0].refunded + SumRefunded(ms[1..]) }

  predicate Ascending(ms: seq<MonthRow>) {
    |ms| <= 1 || (ms[0].month < ms[1].month && Ascending(ms[1..]))
  }

  /** The row of a month, zero when the month has none. */
  function RowOf(ms: seq<MonthRow>, month: int): MonthRow {
    if ms == [] then MonthRow(month, 0, 0)
    else if ms[0].month == month then ms[0]
    else RowOf(ms[1..], month)
  }

  lemma {:induction false} AddToMonthAdds(ms: seq<MonthRow>, month: int, charged: int, refunded: int)
    requires Ascending(ms)
    ensures var r := AddToMonth(ms, month, charged, refunded);
      && SumCharged(r) == SumCharged(ms) + charged && SumRefunded(r) == SumRefunded(ms) + refunded
      && Ascending(r) && |r| > 0
      && r[0].month == (if ms == [] || month < ms[0].month then month else ms[0].month)
  {
    var r := AddToMonth(ms, month, charged, refunded);
    if ms == [] || month < ms[0].month {
      assert r[1..] == ms;
    } else if month == ms[0].month {
      assert r[1..] == ms[1..];
    } else {
      AddToMonthAdds(ms[1..], month, charged, refunded);
      assert r[1..] == AddToMonth(ms[1..], month, charged, refunded);
    }
  }

  lemma {:induction false} AddToMonthRow(ms: seq<MonthRow>, month: int, charged: int, refunded: int, m: int)
    requires Ascending(ms)
    ensures var r := AddToMonth(ms, month, charged, refunded);
      && RowOf(r, m).charged == RowOf(ms, m).charged + (if m == month then charged else 0)
      && RowOf(r, m).refunded == RowOf(ms, m).refunded + (if m == month then refunded else 0)
  {
    var r := AddToMonth(ms, month, charged, refunded);
    if ms == [] || month < ms[0].month {
      assert r[1..] == ms;
      if m == month { NoRowBelow(ms, m); }
    } else if month == ms[0].month {
      assert r[1..] == ms[1..];
    } else {
      AddToMonthRow(ms[1..], month, charged, refunded, m);
      assert r[1..] == AddToMonth(ms[1..], month, charged, refunded);
    }
  }

  lemma {:induction false} NoRowBelow(ms: seq<MonthRow>, m: int)
    requires Ascending(ms) && (ms == [] || m < ms[0].month)
    ensures RowOf(ms, m) == MonthRow(m, 0, 0)
  {
    if ms != [] { NoRowBelow(ms[1..], m); }
  }

  function ChargedInMonth(a: Account, from: int, to: int, month: int): Entry -> bool {
    (e: Entry) => e.kind == Charge && InRange(e, a, from, to) && e.at.date.month == month
  }

  function RefundedInMonth(a: Account, from: int, to: int, month: int): Entry -> bool {
    (e: Entry) => e.kind == Refund && InRange(e, a, from, to) && e.at.date.month == month
  }

  /** The grouped rows are one per month in order; each holds its month's charges and
      refunds, and together they add up to the summary of the same range. */
  lemma {:induction false} MonthsAddUp(rows: seq<Entry>, a: Account, from: int, to: int, m: int)
    requires forall i :: 0 <= i < |rows| ==> WellTyped(rows[i])
    ensures var ms := MonthlyQuery(rows, a, from, to);
      && Ascending(ms)
      && RowOf(ms, m).charged == Total(rows, ChargedInMonth(a, from, to, m))
      && RowOf(ms, m).refunded == Total(rows, RefundedInMonth(a, from, to, m))
      && SumCharged(ms) == SummaryQuery(rows, a, from, to).charged
      && SumRefunded(ms) == SummaryQuery(rows, a, from, to).refunded
  {
    if rows != [] {
      var e := rows[|rows| - 1];
      var front := rows[..|rows| - 1];
      MonthsAddUp(front, a, from, to, m);
      if InRange(e, a, from, to) {
        var before := MonthlyQuery(front, a, from, to);
        AddToMonthAdds(before, e.at.date.month, ChargedOf(e), RefundedOf(e));
        AddToMonthRow(before, e.at.date.month, ChargedOf(e), RefundedOf(e), m);
      }
    }
  }

  /** Whatever sequence of Record calls was made, the summary and the months of
      every range balance. */
  lemma EveryRunBalances(steps: seq<Step>, a: Account, from: int, to: int, m: int)
    ensures var rows := Run([], steps);
      var s, ms := SummaryQuery(rows, a, from, to), MonthlyQuery(rows, a, from, to);
      && s.credits == s.refunded + s.creditsApplied
      && SumCharged(ms) == s.charged && SumRefunded(ms) == s.refunded
      && Ascending(ms)
      && RowOf(ms, m).charged == Total(rows, ChargedInMonth(a, from, to, m))
      && RowOf(ms, m).refunded == Total(rows, RefundedInMonth(a, from, to, m))
  {
    RunKeepsSound([], steps);
    SummaryBalances(Run([], steps), a, from, to);
    MonthsAddUp(Run([], steps), a, from, to, m);
  }

  datatype MonthlyRevenue = MonthlyRevenue(month: int, charged: int, refunded: int, net: int)

  function SumNet(ms: seq<MonthlyRevenue>): int {
    if ms == [] then 0 else SumNet(ms[..|ms| - 1]) + ms[|ms| - 1].net
  }

  // ------------------------------------------------------------------
  // The service
  // ------------------------------------------------------------------

  class Service {
    var rows: seq<Entry>

    constructor ()
      ensures rows == []
    {
      rows := [];
    }

    /** INSERT INTO ledger_entries: refused on a used key or a negative amount. */
    method Append(e: Entry) returns (ok: bool)
      modifies this
      ensures ok == Admissible(old(rows), e)
      ensures rows == Appended(old(rows), e)
    {
      ok := false;
      if e.amount >= 0 && !HasKey(rows, e.key) {
        rows := rows + [e];
        ok := true;
      }
    }

    method Record(r: Request, account: Account, key: string, at: Stamp) returns (ok: bool)
      modifies this
      ensures ok == Admissible(old(rows), EntryOf(r, account, key, at))
      ensures rows == Run(old(rows), [Step(r, account, key, at)])
    {
      ok := Append(EntryOf(r, account, key, at));
    }

    /** Net revenue is what the summary leaves of the charges after all credits. */
    method GetSummary(a: Account, from: int, to: int) returns (s: Summary)
      ensures s == SummaryQuery(rows, a, from, to).(netRevenue := s.netRevenue, currency := "NGN")
      ensures s.netRevenue == s.charged - s.refunded - s.creditsApplied
      ensures Sound(rows) ==> s.netRevenue == s.charged - s.credits
    {
      s := SummaryQuery(rows, a, from, to);
      if Sound(rows) { SummaryBalances(rows, a, from, to); }
      s := s.(netRevenue := s.charged - s.refunded - s.creditsApplied);
      s := s.(currency := "NGN");
    }

    /** One result row per month row, net of refunds; the nets add up. */
    method GetMonthlyRevenue(a: Account, from: int, to: int) returns (result: seq<MonthlyRevenue>)
      ensures var ms := MonthlyQuery(rows, a, from, to);
        && |result| == |ms|
        && (forall i :: 0 <= i < |ms| ==>
              && result[i].month == ms[i].month && result[i].charged == ms[i].charged
              && result[i].refunded == ms[i].refunded && result[i].net == ms[i].charged - ms[i].refunded)
        && SumNet(result) == SumCharged(ms) - SumRefunded(ms)
    {
      var ms := MonthlyQuery(rows, a, from, to);
      result := [];
      for i := 0 to |ms|
        invariant |result| == i
        invariant forall k :: 0 <= k < i ==>
          && result[k].month == ms[k].month && result[k].charged == ms[k].charged
          && result[k].refunded == ms[k].refunded && result[k].net == ms[k].charged - ms[k].refunded
        invariant SumNet(result) + SumCharged(ms[i..]) - SumRefunded(ms[i..]) == SumCharged(ms) - SumRefunded(ms)
      {
        var r := ms[i];
        var before := result;
        result := result + [MonthlyRevenue(r.month, r.charged, r.refunded, r.charged - r.refunded)];
        assert result[..i] == before;
        assert ms[i..][1..] == ms[i + 1..];
      }
    }
  }
}
