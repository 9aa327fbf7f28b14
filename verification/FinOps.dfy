/** Finance figures over a fixed snapshot of the ledger, the subscriptions and the
    plans: monthly recurring revenue and revenue by plan, read page by page with
    caches, against plain sums over the ledger. */
module FinOps {
  import opened BillingCycle
  import opened Calendar
  import opened Ledger
  import opened Ordering
  import opened Prelude

  datatype PlanInfo = PlanInfo(name: string, interval: Interval)

  /** Which plan each subscription is on, and the plans. */
  datatype Catalog = Catalog(subs: map<string, string>, plans: map<string, PlanInfo>)

  // ------------------------------------------------------------------
  // Listing and paging
  // ------------------------------------------------------------------

  function Page<T>(rows: seq<T>, limit: nat, offset: nat): seq<T> {
    rows[Min(offset, |rows|)..Min(offset + limit, |rows|)]
  }

  /** The paging loop gathers every row once, in order, for any page size. */
  method ListAll<T>(rows: seq<T>, pageSize: nat) returns (all: seq<T>)
    requires pageSize > 0
    ensures all == rows
  {
    all := [];
    var offset := 0;
    while true
      invariant offset <= |rows| && all == rows[..offset]
      decreases |rows| - offset
    {
      var page := Page(rows, pageSize, offset);
      all := all + page;
      if |page| < pageSize { return; }
      offset := offset + pageSize;
    }
  }

  predicate ChargeIn(e: Entry, a: Account, from: int, to: int) { e.kind == Charge && InRange(e, a, from, to) }

  function Selected(rows: seq<Entry>, a: Account, from: int, to: int): seq<Entry> {
    if rows == [] then []
    else
      var e := rows[|rows| - 1];
      Selected(rows[..|rows| - 1], a, from, to) + if ChargeIn(e, a, from, to) then [e] else []
  }

  function CreatedAt(): Entry -> int { (e: Entry) => Instant(e.at) }

  /** The charges of a range, both ends included, newest first. */
  function ChargesIn(rows: seq<Entry>, a: Account, from: int, to: int): seq<Entry> {
    SortedDescending(Selected(rows, a, from, to), CreatedAt())
  }

  function SumOf(rows: seq<Entry>, f: Entry -> int): int {
    if rows == [] then 0 else SumOf(rows[..|rows| - 1], f) + f(rows[|rows| - 1])
  }

  lemma {:induction false} SumOfConcat(r: seq<Entry>, s: seq<Entry>, f: Entry -> int)
    ensures SumOf(r + s, f) == SumOf(r, f) + SumOf(s, f)
  {
    if s == [] {
      assert r + s == r;
    } else {
      var n := |s| - 1;
      SumOfConcat(r, s[..n], f);
      assert (r + s)[..|r + s| - 1] == r + s[..n];
    }
  }

  lemma SumOfOne(e: Entry, f: Entry -> int)
    ensures SumOf([e], f) == f(e)
  {
    assert [e][..0] == [];
  }

  lemma {:induction false} SumOfInsert(e: Entry, s: seq<Entry>, key: Entry -> int, f: Entry -> int)
    ensures SumOf(Insert(e, s, key), f) == f(e) + SumOf(s, f)
  {
    SumOfOne(e, f);
    if s == [] || key(e) >= key(s[0]) {
      SumOfConcat([e], s, f);
    } else {
      SumOfInsert(e, s[1..], key, f);
      SumOfOne(s[0], f);
      SumOfConcat([s[0]], Insert(e, s[1..], key), f);
      SumOfConcat([s[0]], s[1..], f);
      assert s == [s[0]] + s[1..];
    }
  }

  lemma {:induction false} SumOfSorted(s: seq<Entry>, key: Entry -> int, f: Entry -> int)
    ensures SumOf(SortedDescending(s, key), f) == SumOf(s, f)
  {
    if s != [] {
      SumOfSorted(s[1..], key, f);
      SumOfInsert(s[0], SortedDescending(s[1..], key), key, f);
      SumOfOne(s[0], f);
      SumOfConcat([s[0]], s[1..], f);
      assert s == [s[0]] + s[1..];
    }
  }

  /** A figure counted for the charges of a range only. */
  function Within(a: Account, from: int, to: int, f: Entry -> int): Entry -> int {
    (e: Entry) => if ChargeIn(e, a, from, to) then f(e) else 0
  }

  lemma {:induction false} SumOfSelected(rows: seq<Entry>, a: Account, from: int, to: int, f: Entry -> int)
    ensures SumOf(Selected(rows, a, from, to), f) == SumOf(rows, Within(a, from, to, f))
  {
    if rows != [] {
      var front, e := rows[..|rows| - 1], rows[|rows| - 1];
      SumOfSelected(front, a, from, to, f);
      SumOfOne(e, f);
      SumOfConcat(Selected(front, a, from, to), [e], f);
      assert Selected(front, a, from, to) + [] == Selected(front, a, from, to);
    }
  }

  /** A sum over the listing is the plain sum over the ledger. */
  lemma ListingSums(rows: seq<Entry>, a: Account, from: int, to: int, f: Entry -> int)
    ensures SumOf(ChargesIn(rows, a, from, to), f) == SumOf(rows, Within(a, from, to, f))
  {
    SumOfSorted(Selected(rows, a, from, to), CreatedAt(), f);
    SumOfSelected(rows, a, from, to, f);
  }

  lemma SumOfPrefix(rows: seq<Entry>, k: nat, f: Entry -> int)
    requires k < |rows|
    ensures SumOf(rows[..k + 1], f) == SumOf(rows[..k], f) + f(rows[k])
  {
    assert rows[..k + 1][..k] == rows[..k];
  }

  lemma {:induction false} SumAdds(rows: seq<Entry>, f: Entry -> int, g: Entry -> int, h: Entry -> int)
    requires forall i :: 0 <= i < |rows| ==> h(rows[i]) == f(rows[i]) + g(rows[i])
    ensures SumOf(rows, h) == SumOf(rows, f) + SumOf(rows, g)
  {
    if rows != [] { SumAdds(rows[..|rows| - 1], f, g, h); }
  }

  // ------------------------------------------------------------------
  // MRR and ARR
  // ------------------------------------------------------------------

  /** Go's integer division. */
  function Truncated(n: int, d: int): int
    requires d > 0
  {
    if n >= 0 then n / d else -((-n) / d)
  }

  /** A subscription or plan that cannot be found counts as monthly. */
  function IntervalOf(c: Catalog, sub: string): Interval {
    if sub in c.subs && c.subs[sub] in c.plans then c.plans[c.subs[sub]].interval else Monthly
  }

  predicate IsAnnual(e: Entry, c: Catalog) { e.sub.Some? && IntervalOf(c, e.sub.value) == Annual }

  function Share(e: Entry, c: Catalog): int { if IsAnnual(e, c) then Truncated(e.amount, 12) else e.amount }

  function ShareFn(c: Catalog): Entry -> int { (e: Entry) => Share(e, c) }

  /** The subscription and its plan are known, and the plan is annual. */
  predicate OnYearlyPlan(e: Entry, c: Catalog) {
    && e.sub.Some? && e.sub.value in c.subs && c.subs[e.sub.value] in c.plans
    && c.plans[c.subs[e.sub.value]].interval == Annual
  }

  /** A charge on an annual plan counts a twelfth, short of it by less than a kobo; any
      other counts in full, be it monthly, custom, of an unknown plan or subscription,
      or of a payment link. */
  lemma ShareIs(e: Entry, c: Catalog)
    ensures if OnYearlyPlan(e, c) then
              if e.amount >= 0 then 0 <= e.amount - 12 * Share(e, c) <= 11
              else -11 <= e.amount - 12 * Share(e, c) <= 0
            else Share(e, c) == e.amount
  {}

  function AmountFn(): Entry -> int { (e: Entry) => e.amount }

  lemma {:induction false} SelectedSum(rows: seq<Entry>, a: Account, from: int, to: int)
    ensures SumOf(rows, Within(a, from, to, AmountFn())) == Total(rows, KindIn(Charge, a, from, to))
  {
    if rows != [] { SelectedSum(rows[..|rows| - 1], a, from, to); }
  }

  /** The listing holds exactly what the summary query counts as charged. */
  lemma ListingAddsUpToTheSummary(rows: seq<Entry>, a: Account, from: int, to: int)
    ensures SumOf(ChargesIn(rows, a, from, to), AmountFn()) == SummaryQuery(rows, a, from, to).charged
  {
    ListingSums(rows, a, from, to, AmountFn());
    SelectedSum(rows, a, from, to);
  }

  /** MRR as a plain sum over the ledger. */
  function PlainMRR(rows: seq<Entry>, c: Catalog, a: Account, from: int, to: int): int {
    SumOf(rows, Within(a, from, to, ShareFn(c)))
  }

  function MonthBegin(month: int): Stamp { Stamp(Date(month, 1), 0) }

  function MonthMRR(rows: seq<Entry>, c: Catalog, a: Account, month: int): int {
    PlainMRR(rows, c, a, Instant(MonthBegin(month)), Instant(MonthBegin(month + 1)))
  }

  datatype Caches = Caches(subPlan: map<string, string>, planInterval: map<string, Interval>)

  predicate Faithful(k: Caches, c: Catalog) {
    && (forall s :: s in k.subPlan ==> s in c.subs && k.subPlan[s] == c.subs[s])
    && (forall p :: p in k.planInterval ==> p in c.plans && k.planInterval[p] == c.plans[p].interval)
  }

  method IntervalForSubscription(c: Catalog, sub: string, caches: Caches) returns (interval: Interval, next: Caches)
    requires Faithful(caches, c)
    ensures interval == IntervalOf(c, sub) && Faithful(next, c)
  {
    next := caches;
    if sub !in next.subPlan {
      if sub !in c.subs { return Monthly, next; }
      next := next.(subPlan := next.subPlan[sub := c.subs[sub]]);
    }
    var plan := next.subPlan[sub];
    if plan in next.planInterval { return next.planInterval[plan], next; }
    if plan !in c.plans { return Monthly, next; }
    interval := c.plans[plan].interval;
    next := next.(planInterval := next.planInterval[plan := interval]);
  }

  /** A charge's monthly share, looked up through the caches. */
  method MonthlyAmount(e: Entry, c: Catalog, caches: Caches) returns (amount: int, next: Caches)
    requires Faithful(caches, c)
    ensures amount == ShareFn(c)(e) && Faithful(next, c)
  {
    amount, next := e.amount, caches;
    if e.sub.Some? {
      var interval;
      interval, next := IntervalForSubscription(c, e.sub.value, caches);
      if interval == Annual { amount := Truncated(amount, 12); }
    }
  }

  /** The loop over pages and entries, with both caches. */
  method SumPages(listing: seq<Entry>, c: Catalog, pageSize: nat) returns (mrr: int)
    requires pageSize > 0
    ensures mrr == SumOf(listing, ShareFn(c))
  {
    var caches := Caches(map[], map[]);
    mrr := 0;
    var offset, more := 0, true;
    while more
      invariant offset <= |listing| && (!more ==> offset == |listing|)
      invariant Faithful(caches, c) && mrr == SumOf(listing[..offset], ShareFn(c))
      decreases more, |listing| - offset
    {
      var entries := Page(listing, pageSize, offset);
      for i := 0 to |entries|
        invariant Faithful(caches, c) && mrr == SumOf(listing[..offset + i], ShareFn(c))
      {
        var amount;
        assert entries[i] == listing[offset + i];
        amount, caches := MonthlyAmount(entries[i], c, caches);
        SumOfPrefix(listing, offset + i, ShareFn(c));
        mrr := mrr + amount;
      }
      more := |entries| == pageSize;
      offset := offset + |entries|;
    }
    assert listing[..offset] == listing;
  }

  lemma NextMonthBegin(month: int)
    ensures AddDate(MonthBegin(month), 1, 0) == MonthBegin(month + 1)
  {
    DateOfDayNumberIsUnique(AddDate(MonthBegin(month), 1, 0).date, MonthBegin(month + 1).date);
  }

  /** Twelve times a charge's exact monthly share. */
  function YearlyFn(c: Catalog): Entry -> int {
    (e: Entry) => if OnYearlyPlan(e, c) then e.amount else 12 * e.amount
  }

  function AnnualFn(c: Catalog): Entry -> int { (e: Entry) => if OnYearlyPlan(e, c) then 1 else 0 }

  predicate Divisible(rows: seq<Entry>, c: Catalog, a: Account, from: int, to: int) {
    forall i :: 0 <= i < |rows| && ChargeIn(rows[i], a, from, to) && OnYearlyPlan(rows[i], c) ==>
      rows[i].amount % 12 == 0
  }

  predicate NoneNegative(rows: seq<Entry>) { forall i :: 0 <= i < |rows| ==> rows[i].amount >= 0 }

  /** ARR falls short of twelve times the exact monthly figure by at most 11 kobo
      per annual charge, and by nothing exactly when those all divide by 12. */
  lemma {:induction false} ArrShortfall(rows: seq<Entry>, c: Catalog, a: Account, from: int, to: int)
    requires NoneNegative(rows)
    ensures var short := SumOf(rows, Within(a, from, to, YearlyFn(c))) - 12 * PlainMRR(rows, c, a, from, to);
      && 0 <= short <= 11 * SumOf(rows, Within(a, from, to, AnnualFn(c)))
      && (short == 0 <==> Divisible(rows, c, a, from, to))
  {
    if rows != [] {
      var front, e := rows[..|rows| - 1], rows[|rows| - 1];
      ArrShortfall(front, c, a, from, to);
      assert Divisible(rows, c, a, from, to) <==>
        Divisible(front, c, a, from, to) && (ChargeIn(e, a, from, to) && OnYearlyPlan(e, c) ==> e.amount % 12 == 0) by {
        assert forall i :: 0 <= i < |front| ==> front[i] == rows[i];
      }
    }
  }

  /** A month's range: the times dated in the month, and the instant the next begins. */
  lemma InMonthExactlyWhen(t: Stamp, month: int)
    requires ValidStamp(t)
    ensures Instant(MonthBegin(month)) <= Instant(t) <= Instant(MonthBegin(month + 1)) <==>
      t.date.month == month || t == Stamp(Date(month + 1, 1), 0)
  {
    InstantsOrderTimes(t, MonthBegin(month));
    InstantsOrderTimes(MonthBegin(month + 1), t);
  }

  /** Twelve times the exact monthly figure, and how many of its charges are annual. */
  function YearlyOf(rows: seq<Entry>, c: Catalog, a: Account, month: int): int {
    SumOf(rows, Within(a, Instant(MonthBegin(month)), Instant(MonthBegin(month + 1)), YearlyFn(c)))
  }

  function AnnualsOf(rows: seq<Entry>, c: Catalog, a: Account, month: int): int {
    SumOf(rows, Within(a, Instant(MonthBegin(month)), Instant(MonthBegin(month + 1)), AnnualFn(c)))
  }

  /** The paged and cached figure is the plain sum, for any page size, and so a twelfth of
      the exact yearly one, to 11 kobo a year for each annual charge. */
  method GetMRR(rows: seq<Entry>, c: Catalog, a: Account, period: Stamp, pageSize: nat) returns (mrr: int)
    requires pageSize > 0
    ensures mrr == MonthMRR(rows, c, a, period.date.month)
    ensures NoneNegative(rows) ==>
      var month := period.date.month;
      0 <= YearlyOf(rows, c, a, month) - 12 * mrr <= 11 * AnnualsOf(rows, c, a, month)
  {
    var from := MonthBegin(period.date.month);
    var to := AddDate(from, 1, 0);
    mrr := SumPages(ChargesIn(rows, a, Instant(from), Instant(to)), c, pageSize);
    NextMonthBegin(period.date.month);
    ListingSums(rows, a, Instant(from), Instant(to), ShareFn(c));
    if NoneNegative(rows) { ArrShortfall(rows, c, a, Instant(from), Instant(to)); }
  }

  method GetARR(rows: seq<Entry>, c: Catalog, a: Account, period: Stamp, pageSize: nat) returns (arr: int)
    requires pageSize > 0
    ensures arr == 12 * MonthMRR(rows, c, a, period.date.month)
    ensures NoneNegative(rows) ==>
      var month := period.date.month;
      0 <= YearlyOf(rows, c, a, month) - arr <= 11 * AnnualsOf(rows, c, a, month)
  {
    var mrr := GetMRR(rows, c, a, period, pageSize);
    arr := mrr * 12;
  }

  /** Months share their boundary instant, so a charge made exactly then counts in
      both: two months in a row exceed the double month by those charges. */
  lemma AdjacentMonthsOverlap(rows: seq<Entry>, c: Catalog, a: Account, month: int)
    ensures var start, mid := Instant(MonthBegin(month)), Instant(MonthBegin(month + 1));
      var end := Instant(MonthBegin(month + 2));
      MonthMRR(rows, c, a, month) + MonthMRR(rows, c, a, month + 1)
        == PlainMRR(rows, c, a, start, end) + PlainMRR(rows, c, a, mid, mid)
  {
    var start, mid, end := Instant(MonthBegin(month)), Instant(MonthBegin(month + 1)), Instant(MonthBegin(month + 2));
    MonthStep(month);
    MonthStep(month + 1);
    var f := ShareFn(c);
    var both := (e: Entry) => Within(a, start, mid, f)(e) + Within(a, mid, end, f)(e);
    SumAdds(rows, Within(a, start, mid, f), Within(a, mid, end, f), both);
    SumAdds(rows, Within(a, start, end, f), Within(a, mid, mid, f), both);
  }

  // ------------------------------------------------------------------
  // Balance
  // ------------------------------------------------------------------

  datatype Balance = Balance(available: int, pending: int, gross: int)

  /** Settlement at the next midnight: today's charges are pending, and gross is all
      charges less payouts and less the refunds made before today. */
  method GetBalance(rows: seq<Entry>, a: Account, now: Stamp) returns (b: Balance)
    requires ValidStamp(now)
    ensures var midnight := DayNumber(now.date) * NANOS_PER_DAY;
      && b.available == Available(rows, a, midnight) && b.pending == Pending(rows, a, midnight)
      && b.gross == Total(rows, AnyTime(Charge, a)) - Total(rows, SettledKind(Refund, a, midnight))
                    - Total(rows, AnyTime(Payout, a))
  {
    var todayMidnight := Instant(Stamp(now.date, 0));
    var available, pending := Available(rows, a, todayMidnight), Pending(rows, a, todayMidnight);
    CutoffMoves(rows, a, todayMidnight, todayMidnight);
    b := Balance(available, pending, available + pending);
  }

  // ------------------------------------------------------------------
  // Revenue by plan
  // ------------------------------------------------------------------

  datatype PlanRevenue = PlanRevenue(plan: string, name: string, charged: int, subscriptions: nat)

  function PlanOf(e: Entry, c: Catalog): Option<string> {
    if e.sub.Some? && e.sub.value in c.subs then Some(c.subs[e.sub.value]) else None
  }

  function NameOf(plan: string, c: Catalog): string {
    if plan in c.plans then c.plans[plan].name else "Unknown plan"
  }

  function OnPlan(c: Catalog, plan: string): Entry -> int {
    (e: Entry) => if PlanOf(e, c) == Some(plan) then e.amount else 0
  }

  function OnPlans(c: Catalog, plans: seq<string>): Entry -> int {
    (e: Entry) => if PlanOf(e, c).Some? && PlanOf(e, c).value in plans then e.amount else 0
  }

  function OnAnyPlan(c: Catalog): Entry -> int { (e: Entry) => if PlanOf(e, c).Some? then e.amount else 0 }

  /** The distinct subscriptions with a charge on a plan. */
  function SubsOn(rows: seq<Entry>, c: Catalog, plan: string): set<string> {
    if rows == [] then {}
    else
      var e := rows[|rows| - 1];
      SubsOn(rows[..|rows| - 1], c, plan) + if PlanOf(e, c) == Some(plan) then {e.sub.value} else {}
  }

  /** The plans some charge is on. */
  function PlansIn(rows: seq<Entry>, c: Catalog): set<string> {
    if rows == [] then {}
    else
      var e := rows[|rows| - 1];
      PlansIn(rows[..|rows| - 1], c) + if PlanOf(e, c).Some? then {PlanOf(e, c).value} else {}
  }

  lemma {:induction false} PlansInAre(rows: seq<Entry>, c: Catalog, plan: string)
    ensures plan in PlansIn(rows, c) <==> exists i :: 0 <= i < |rows| && PlanOf(rows[i], c) == Some(plan)
    ensures forall x :: x in SubsOn(rows, c, plan) <==>
      exists i :: 0 <= i < |rows| && PlanOf(rows[i], c) == Some(plan) && rows[i].sub == Some(x)
  {
    if rows != [] {
      var n := |rows| - 1;
      PlansInAre(rows[..n], c, plan);
      assert forall i :: 0 <= i < n ==> rows[..n][i] == rows[i];
      if PlanOf(rows[n], c) == Some(plan) { assert rows[n].sub == Some(rows[n].sub.value); }
    }
  }

  /** What a row of the report says of its plan. */
  function RevenueOf(rows: seq<Entry>, c: Catalog, plan: string): PlanRevenue {
    PlanRevenue(plan, NameOf(plan, c), SumOf(rows, OnPlan(c, plan)), |SubsOn(rows, c, plan)|)
  }

  /** The per-plan figures as entries come in: each replaces its own plan's. */
  function ByPlan(rows: seq<Entry>, c: Catalog): map<string, PlanRevenue> {
    if rows == [] then map[]
    else
      var before, p := ByPlan(rows[..|rows| - 1], c), PlanOf(rows[|rows| - 1], c);
      if p.None? then before else before[p.value := RevenueOf(rows, c, p.value)]
  }

  function SeenPerPlan(rows: seq<Entry>, c: Catalog): map<string, set<string>> {
    if rows == [] then map[]
    else
      var before, p := SeenPerPlan(rows[..|rows| - 1], c), PlanOf(rows[|rows| - 1], c);
      if p.None? then before else before[p.value := SubsOn(rows, c, p.value)]
  }

  lemma {:induction false} UnchargedPlan(rows: seq<Entry>, c: Catalog, plan: string)
    requires plan !in PlansIn(rows, c)
    ensures SumOf(rows, OnPlan(c, plan)) == 0 && SubsOn(rows, c, plan) == {}
  {
    if rows != [] { UnchargedPlan(rows[..|rows| - 1], c, plan); }
  }

  /** One more entry changes the figures of its own plan only. */
  lemma OneMoreCharge(rows: seq<Entry>, k: nat, c: Catalog, plan: string)
    requires k < |rows|
    ensures var e, done, more := rows[k], rows[..k], rows[..k + 1];
      && SumOf(more, OnPlan(c, plan))
         == SumOf(done, OnPlan(c, plan)) + (if PlanOf(e, c) == Some(plan) then e.amount else 0)
      && SubsOn(more, c, plan) == SubsOn(done, c, plan) + (if PlanOf(e, c) == Some(plan) then {e.sub.value} else {})
      && PlansIn(more, c) == PlansIn(done, c) + (if PlanOf(e, c).Some? then {PlanOf(e, c).value} else {})
  {
    assert rows[..k + 1][..k] == rows[..k];
  }

  /** So at any time they hold exactly the plans charged, with their figures. */
  lemma {:induction false} ByPlanIs(rows: seq<Entry>, c: Catalog, plan: string)
    ensures plan in ByPlan(rows, c) <==> plan in PlansIn(rows, c)
    ensures plan in SeenPerPlan(rows, c) <==> plan in PlansIn(rows, c)
    ensures plan in PlansIn(rows, c) ==>
      ByPlan(rows, c)[plan] == RevenueOf(rows, c, plan) && SeenPerPlan(rows, c)[plan] == SubsOn(rows, c, plan)
  {
    if rows != [] {
      var n := |rows| - 1;
      ByPlanIs(rows[..n], c, plan);
      OneMoreCharge(rows, n, c, plan);
      assert rows[..n + 1] == rows;
    }
  }

  lemma {:induction false} ByPlanKeys(rows: seq<Entry>, c: Catalog)
    ensures ByPlan(rows, c).Keys == PlansIn(rows, c)
  {
    if rows != [] { ByPlanKeys(rows[..|rows| - 1], c); }
  }

  function RowSoFar(rows: seq<Entry>, c: Catalog, plan: string): PlanRevenue {
    if plan in ByPlan(rows, c) then ByPlan(rows, c)[plan] else PlanRevenue(plan, NameOf(plan, c), 0, 0)
  }

  function SeenSoFar(rows: seq<Entry>, c: Catalog, plan: string): set<string> {
    if plan in SeenPerPlan(rows, c) then SeenPerPlan(rows, c)[plan] else {}
  }

  lemma SoFarIs(rows: seq<Entry>, c: Catalog, plan: string)
    ensures RowSoFar(rows, c, plan) == RevenueOf(rows, c, plan) && SeenSoFar(rows, c, plan) == SubsOn(rows, c, plan)
  {
    ByPlanIs(rows, c, plan);
    if plan !in PlansIn(rows, c) { UnchargedPlan(rows, c, plan); }
  }

  /** How the figures of an entry's plan change. */
  lemma RowGrows(rows: seq<Entry>, k: nat, c: Catalog, plan: string)
    requires k < |rows| && PlanOf(rows[k], c) == Some(plan)
    ensures var e, row, seen := rows[k], RowSoFar(rows[..k], c, plan), SeenSoFar(rows[..k], c, plan);
      && row.subscriptions == |seen|
      && SubsOn(rows[..k + 1], c, plan) == seen + {e.sub.value}
      && RevenueOf(rows[..k + 1], c, plan)
         == row.(charged := row.charged + e.amount, subscriptions := |SubsOn(rows[..k + 1], c, plan)|)
  {
    SoFarIs(rows[..k], c, plan);
    OneMoreCharge(rows, k, c, plan);
  }

  lemma TallyGrows(rows: seq<Entry>, k: nat, c: Catalog)
    requires k < |rows|
    ensures match PlanOf(rows[k], c)
      case None => && ByPlan(rows[..k + 1], c) == ByPlan(rows[..k], c)
                   && SeenPerPlan(rows[..k + 1], c) == SeenPerPlan(rows[..k], c)
      case Some(p) => && ByPlan(rows[..k + 1], c) == ByPlan(rows[..k], c)[p := RevenueOf(rows[..k + 1], c, p)]
                      && SeenPerPlan(rows[..k + 1], c) == SeenPerPlan(rows[..k], c)[p := SubsOn(rows[..k + 1], c, p)]
  {
    assert rows[..k + 1][..k] == rows[..k];
  }

  method LookUpPlan(c: Catalog, sub: string, cache: map<string, string>)
    returns (plan: Option<string>, next: map<string, string>)
    requires Faithful(Caches(cache, map[]), c)
    ensures plan == (if sub in c.subs then Some(c.subs[sub]) else None) && Faithful(Caches(next, map[]), c)
  {
    if sub in cache { return Some(cache[sub]), cache; }
    if sub !in c.subs { return None, cache; }
    plan := Some(c.subs[sub]);
    next := cache[sub := c.subs[sub]];
  }

  /** A plan's row after one more charge to it. */
  method AddCharge(row: PlanRevenue, seen: set<string>, sub: string, amount: int)
    returns (row': PlanRevenue, seen': set<string>)
    requires row.subscriptions == |seen|
    ensures seen' == seen + {sub} && row' == row.(charged := row.charged + amount, subscriptions := |seen'|)
  {
    row', seen' := row.(charged := row.charged + amount), seen;
    if sub in seen {
      assert seen + {sub} == seen;
    } else {
      seen' := seen + {sub};
      row' := row'.(subscriptions := row'.subscriptions + 1);
    }
  }

  /** Adds one charge to the figures of its plan. */
  method AddToPlan(byPlan: map<string, PlanRevenue>, seen: map<string, set<string>>, c: Catalog, plan: string,
                   ghost rows: seq<Entry>, ghost k: nat, e: Entry)
    returns (byPlan': map<string, PlanRevenue>, seen': map<string, set<string>>)
    requires k < |rows| && e == rows[k] && PlanOf(e, c) == Some(plan)
    requires byPlan == ByPlan(rows[..k], c) && seen == SeenPerPlan(rows[..k], c)
    ensures byPlan' == byPlan[plan := RevenueOf(rows[..k + 1], c, plan)]
    ensures seen' == seen[plan := SubsOn(rows[..k + 1], c, plan)]
  {
    RowGrows(rows, k, c, plan);
    var row := if plan in byPlan then byPlan[plan] else PlanRevenue(plan, NameOf(plan, c), 0, 0);
    var subs := if plan in seen then seen[plan] else {};
    row, subs := AddCharge(row, subs, e.sub.value, e.amount);
    byPlan', seen' := byPlan[plan := row], seen[plan := subs];
  }

  /** Adds one entry to the per-plan figures. */
  method Tally(byPlan: map<string, PlanRevenue>, seen: map<string, set<string>>, cache: map<string, string>, c: Catalog,
               ghost rows: seq<Entry>, ghost k: nat, e: Entry)
    returns (byPlan': map<string, PlanRevenue>, seen': map<string, set<string>>, cache': map<string, string>)
    requires k < |rows| && e == rows[k] && Faithful(Caches(cache, map[]), c)
    requires byPlan == ByPlan(rows[..k], c) && seen == SeenPerPlan(rows[..k], c)
    ensures byPlan' == ByPlan(rows[..k + 1], c) && seen' == SeenPerPlan(rows[..k + 1], c)
    ensures Faithful(Caches(cache', map[]), c)
  {
    byPlan', seen', cache' := byPlan, seen, cache;
    TallyGrows(rows, k, c);
    if e.sub.None? { return; }
    var found;
    found, cache' := LookUpPlan(c, e.sub.value, cache);
    if found.None? { return; }
    byPlan', seen' := AddToPlan(byPlan, seen, c, found.value, rows, k, e);
  }

  method TallyPages(listing: seq<Entry>, c: Catalog, pageSize: nat) returns (byPlan: map<string, PlanRevenue>)
    requires pageSize > 0
    ensures byPlan == ByPlan(listing, c)
  {
    byPlan := map[];
    var seen: map<string, set<string>>, cache: map<string, string> := map[], map[];
    var offset, more := 0, true;
    while more
      invariant offset <= |listing| && (!more ==> offset == |listing|) && Faithful(Caches(cache, map[]), c)
      invariant byPlan == ByPlan(listing[..offset], c) && seen == SeenPerPlan(listing[..offset], c)
      decreases more, |listing| - offset
    {
      var entries := Page(listing, pageSize, offset);
      for i := 0 to |entries|
        invariant Faithful(Caches(cache, map[]), c)
        invariant byPlan == ByPlan(listing[..offset + i], c) && seen == SeenPerPlan(listing[..offset + i], c)
      {
        byPlan, seen, cache := Tally(byPlan, seen, cache, c, listing, offset + i, entries[i]);
      }
      more := |entries| == pageSize;
      offset := offset + |entries|;
    }
    assert listing[..offset] == listing;
  }

  /** The report over a list of charges: one row for each plan charged, with its
      total and its distinct subscriptions, largest total first. */
  ghost predicate Reports(out: seq<PlanRevenue>, rows: seq<Entry>, c: Catalog) {
    && (forall i :: 0 <= i < |out| ==> out[i].plan in PlansIn(rows, c) && out[i] == RevenueOf(rows, c, out[i].plan))
    && (forall p :: p in PlansIn(rows, c) ==> Names(out, p))
    && (forall i, j :: 0 <= i < j < |out| ==> out[i].plan != out[j].plan)
    && (forall i, j :: 0 <= i < j < |out| ==> out[i].charged >= out[j].charged)
  }

  predicate Names(out: seq<PlanRevenue>, plan: string) { exists i :: 0 <= i < |out| && out[i].plan == plan }

  function ChargedFn(): PlanRevenue -> int { (r: PlanRevenue) => r.charged }

  method GetPlanBreakdown(rows: seq<Entry>, c: Catalog, a: Account, from: int, to: int, pageSize: nat)
    returns (out: seq<PlanRevenue>)
    requires pageSize > 0
    ensures Reports(out, ChargesIn(rows, a, from, to), c)
  {
    var listing := ChargesIn(rows, a, from, to);
    var byPlan := TallyPages(listing, c, pageSize);
    out := Collect(byPlan, listing, c);
    ByPlanKeys(listing, c);
    CollectedReports(out, listing, c);
    out := SortedDescending(out, ChargedFn());
  }

  method Collect(byPlan: map<string, PlanRevenue>, ghost listing: seq<Entry>, ghost c: Catalog)
    returns (out: seq<PlanRevenue>)
    requires byPlan == ByPlan(listing, c)
    ensures Collected(out, listing, c, byPlan.Keys)
  {
    out := [];
    var left := byPlan.Keys;
    while left != {}
      invariant left <= byPlan.Keys
      invariant Collected(out, listing, c, byPlan.Keys - left)
      decreases |left|
    {
      var p :| p in left;
      ByPlanIs(listing, c, p);
      OneMoreCollected(out, listing, c, byPlan.Keys - left, p);
      assert byPlan.Keys - (left - {p}) == (byPlan.Keys - left) + {p};
      out := out + [byPlan[p]];
      left := left - {p};
    }
    assert byPlan.Keys - left == byPlan.Keys;
  }

  /** The rows of some of the plans, once each, in any order. */
  ghost predicate Collected(out: seq<PlanRevenue>, rows: seq<Entry>, c: Catalog, plans: set<string>) {
    && (forall i :: 0 <= i < |out| ==> out[i].plan in plans && out[i] == RevenueOf(rows, c, out[i].plan))
    && (forall p :: p in plans ==> Names(out, p))
    && (forall i, j :: 0 <= i < j < |out| ==> out[i].plan != out[j].plan)
  }

  lemma OneMoreCollected(out: seq<PlanRevenue>, rows: seq<Entry>, c: Catalog, plans: set<string>, p: string)
    requires Collected(out, rows, c, plans) && p !in plans
    ensures Collected(out + [RevenueOf(rows, c, p)], rows, c, plans + {p})
  {
    var more := out + [RevenueOf(rows, c, p)];
    assert more[|out|].plan == p;
    forall q | q in plans
      ensures Names(more, q)
    {
      var i :| 0 <= i < |out| && out[i].plan == q;
      assert more[i].plan == q;
    }
  }

  function PlanFn(): PlanRevenue -> string { (r: PlanRevenue) => r.plan }

  lemma NamesTheSame(out: seq<PlanRevenue>, r: seq<PlanRevenue>, plan: string)
    requires multiset(out) == multiset(r) && Names(out, plan)
    ensures Names(r, plan)
  {
    SameElements(out, r);
    var i :| 0 <= i < |out| && out[i].plan == plan;
    var k :| 0 <= k < |r| && r[k] == out[i];
  }

  lemma SortedRows(out: seq<PlanRevenue>)
    requires Distinct(out, PlanFn())
    ensures var r := SortedDescending(out, ChargedFn());
      && multiset(r) == multiset(out)
      && (forall i :: 0 <= i < |r| ==> r[i] in out)
      && (forall i, j :: 0 <= i < j < |r| ==> r[i].plan != r[j].plan)
      && (forall i, j :: 0 <= i < j < |r| ==> r[i].charged >= r[j].charged)
  {
    var r := SortedDescending(out, ChargedFn());
    SortsAndPermutes(out, ChargedFn());
    SameElements(r, out);
    PermutingKeepsDistinct(out, r, PlanFn());
    assert forall i, j :: 0 <= i < j < |r| ==>
      ChargedFn()(r[i]) >= ChargedFn()(r[j]) && PlanFn()(r[i]) != PlanFn()(r[j]);
  }

  lemma CollectedReports(out: seq<PlanRevenue>, rows: seq<Entry>, c: Catalog)
    requires Collected(out, rows, c, PlansIn(rows, c))
    ensures Reports(SortedDescending(out, ChargedFn()), rows, c)
  {
    assert Distinct(out, PlanFn());
    SortedRows(out);
    forall p | p in PlansIn(rows, c)
      ensures Names(SortedDescending(out, ChargedFn()), p)
    {
      NamesTheSame(out, SortedDescending(out, ChargedFn()), p);
    }
  }

  predicate ChargedOn(e: Entry, c: Catalog, sub: string, plan: string) {
    e.sub == Some(sub) && sub in c.subs && c.subs[sub] == plan
  }

  predicate IsCharged(rows: seq<Entry>, c: Catalog, sub: string, plan: string) {
    exists k :: 0 <= k < |rows| && ChargedOn(rows[k], c, sub, plan)
  }

  ghost predicate AreCharged(subs: set<string>, rows: seq<Entry>, c: Catalog, plan: string) {
    forall sub :: sub in subs <==> IsCharged(rows, c, sub, plan)
  }

  lemma SubsOnAre(rows: seq<Entry>, c: Catalog, plan: string)
    ensures AreCharged(SubsOn(rows, c, plan), rows, c, plan)
  {
    PlansInAre(rows, c, plan);
    forall sub
      ensures sub in SubsOn(rows, c, plan) <==> IsCharged(rows, c, sub, plan)
    {
      if IsCharged(rows, c, sub, plan) {
        var k :| 0 <= k < |rows| && ChargedOn(rows[k], c, sub, plan);
        assert PlanOf(rows[k], c) == Some(plan) && rows[k].sub == Some(sub);
      }
      if sub in SubsOn(rows, c, plan) {
        var k :| 0 <= k < |rows| && PlanOf(rows[k], c) == Some(plan) && rows[k].sub == Some(sub);
        assert ChargedOn(rows[k], c, sub, plan);
      }
    }
  }

  /** A report names a plan exactly when some charged subscription is on it, by the name in
      the catalog or as unknown, with the number of its distinct charged subscriptions. */
  lemma ReportedPlansAre(out: seq<PlanRevenue>, rows: seq<Entry>, c: Catalog, plan: string)
    requires Reports(out, rows, c)
    ensures Names(out, plan) <==> exists sub :: IsCharged(rows, c, sub, plan)
    ensures forall i :: 0 <= i < |out| && out[i].plan == plan ==>
      && out[i].name == (if plan in c.plans then c.plans[plan].name else "Unknown plan")
      && exists subs :: |subs| == out[i].subscriptions && AreCharged(subs, rows, c, plan)
  {
    SubsOnAre(rows, c, plan);
    PlansInAre(rows, c, plan);
    if Names(out, plan) {
      var k :| 0 <= k < |rows| && PlanOf(rows[k], c) == Some(plan);
      assert ChargedOn(rows[k], c, rows[k].sub.value, plan);
      assert IsCharged(rows, c, rows[k].sub.value, plan);
    }
    if exists sub :: IsCharged(rows, c, sub, plan) {
      var sub :| IsCharged(rows, c, sub, plan);
      var k :| 0 <= k < |rows| && ChargedOn(rows[k], c, sub, plan);
      assert PlanOf(rows[k], c) == Some(plan);
    }
  }

  // ---- the totals conserve the charges ----

  function SumCharged(out: seq<PlanRevenue>): int {
    if out == [] then 0 else SumCharged(out[..|out| - 1]) + out[|out| - 1].charged
  }

  function PlansOf(out: seq<PlanRevenue>): (plans: seq<string>)
    ensures |plans| == |out| && forall i :: 0 <= i < |out| ==> plans[i] == out[i].plan
  {
    seq(|out|, i requires 0 <= i < |out| => out[i].plan)
  }

  lemma {:induction false} PlanTotals(out: seq<PlanRevenue>, rows: seq<Entry>, c: Catalog)
    requires forall i :: 0 <= i < |out| ==> out[i].charged == SumOf(rows, OnPlan(c, out[i].plan))
    requires forall i, j :: 0 <= i < j < |out| ==> out[i].plan != out[j].plan
    ensures SumCharged(out) == SumOf(rows, OnPlans(c, PlansOf(out)))
  {
    if out == [] {
      NoPlans(rows, c, PlansOf(out));
    } else {
      var n := |out| - 1;
      PlanTotals(out[..n], rows, c);
      assert PlansOf(out) == PlansOf(out[..n]) + [out[n].plan];
      assert out[n].plan !in PlansOf(out[..n]);
      SumAdds(rows, OnPlans(c, PlansOf(out[..n])), OnPlan(c, out[n].plan), OnPlans(c, PlansOf(out)));
    }
  }

  lemma {:induction false} NoPlans(rows: seq<Entry>, c: Catalog, plans: seq<string>)
    requires plans == []
    ensures SumOf(rows, OnPlans(c, plans)) == 0
  {
    if rows != [] { NoPlans(rows[..|rows| - 1], c, plans); }
  }

  lemma {:induction false} SameSum(rows: seq<Entry>, f: Entry -> int, g: Entry -> int)
    requires forall i :: 0 <= i < |rows| ==> f(rows[i]) == g(rows[i])
    ensures SumOf(rows, f) == SumOf(rows, g)
  {
    if rows != [] { SameSum(rows[..|rows| - 1], f, g); }
  }

  /** The plan totals add up to every charge of the range whose subscription is
      known, each once, and to nothing else. */
  lemma BreakdownConserves(out: seq<PlanRevenue>, rows: seq<Entry>, c: Catalog, a: Account, from: int, to: int)
    requires Reports(out, ChargesIn(rows, a, from, to), c)
    ensures SumCharged(out) == SumOf(rows, Within(a, from, to, OnAnyPlan(c)))
    ensures forall i :: 0 <= i < |out| ==> out[i].charged == SumOf(rows, Within(a, from, to, OnPlan(c, out[i].plan)))
  {
    var listing := ChargesIn(rows, a, from, to);
    PlanTotals(out, listing, c);
    forall i | 0 <= i < |listing|
      ensures OnPlans(c, PlansOf(out))(listing[i]) == OnAnyPlan(c)(listing[i])
    {
      if PlanOf(listing[i], c).Some? {
        var p := PlanOf(listing[i], c).value;
        PlansInAre(listing, c, p);
        assert Names(out, p);
        var k :| 0 <= k < |out| && out[k].plan == p;
        assert PlansOf(out)[k] == p;
      }
    }
    SameSum(listing, OnPlans(c, PlansOf(out)), OnAnyPlan(c));
    ListingSums(rows, a, from, to, OnAnyPlan(c));
    forall i | 0 <= i < |out|
      ensures out[i].charged == SumOf(rows, Within(a, from, to, OnPlan(c, out[i].plan)))
    {
      ListingSums(rows, a, from, to, OnPlan(c, out[i].plan));
    }
  }
}
