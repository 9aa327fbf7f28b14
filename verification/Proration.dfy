/** Proration of a mid-cycle plan change, in exact arithmetic: where the program
    divides floating-point numbers, the model divides rationals and rounds those.
    Times are instants in nanoseconds, amounts kobo. */
module Proration {
  import opened Calendar

  /** math.Ceil of n / d. */
  function Ceil(n: int, d: int): int
    requires d > 0
  {
    -((-n) / d)
  }

  /** math.Round of n / d: halves away from zero. */
  function Round(n: int, d: int): int
    requires d > 0
  {
    if n >= 0 then (2 * n + d) / (2 * d) else -((2 * -n + d) / (2 * d))
  }

  datatype Result = Result(daysRemaining: int, daysInPeriod: int, credit: int, charge: int, net: int)

  function DaysInPeriod(start: int, end: int): (d: int)
    ensures d >= 1
  {
    var days := Ceil(end - start, NANOS_PER_DAY);
    if days <= 0 then 1 else days
  }

  function DaysRemaining(now: int, end: int): (d: int)
    ensures d >= 0
  {
    var days := Round(end - now, NANOS_PER_DAY);
    if days < 0 then 0 else days
  }

  /** What `amount` is worth for the days remaining. */
  function Prorated(amount: int, remaining: int, days: int): int
    requires days > 0
  {
    Round(amount * remaining, days)
  }

  function Calculate(now: int, start: int, end: int, oldAmount: int, newAmount: int): Result {
    var days, remaining := DaysInPeriod(start, end), DaysRemaining(now, end);
    var credit, charge := Prorated(oldAmount, remaining, days), Prorated(newAmount, remaining, days);
    Result(remaining, days, credit, charge, charge - credit)
  }

  // ---- rounding ----

  /** Within half of the quotient, halves going up, for quotients not negative. */
  lemma RoundIsClose(n: int, d: int)
    requires d > 0 && n >= 0
    ensures -d < 2 * (Round(n, d) * d - n) <= d
  {
    var q := (2 * n + d) / (2 * d);
    assert q * (2 * d) <= 2 * n + d < (q + 1) * (2 * d);
    assert (q + 1) * (2 * d) == q * (2 * d) + 2 * d;
    assert q * (2 * d) == 2 * (q * d);
  }

  lemma QuotientAtMost(a: int, b: int, k: int)
    requires b > 0 && a < (k + 1) * b
    ensures a / b <= k
  {
    if a / b >= k + 1 {
      Product(k + 1, a / b, b);
    }
  }

  lemma Product(a: int, b: int, c: int)
    requires a <= b && c >= 0
    ensures a * c <= b * c
  {}

  lemma RoundIsMonotone(m: int, n: int, d: int)
    requires d > 0 && m <= n
    ensures Round(m, d) <= Round(n, d)
  {
    DivMonotone(2 * m + d, 2 * n + d, 2 * d);
    if n < 0 { DivMonotone(2 * -n + d, 2 * -m + d, 2 * d); }
    if m < 0 { DivNotNegative(2 * -m + d, 2 * d); }
    if n >= 0 { DivNotNegative(2 * n + d, 2 * d); }
  }

  lemma DivNotNegative(a: int, b: int)
    requires a >= 0 && b > 0
    ensures a / b >= 0
  {}

  lemma DivMonotone(a: int, c: int, b: int)
    requires b > 0 && a <= c
    ensures a / b <= c / b
  {
    var q := c / b;
    assert c < (q + 1) * b;
    QuotientAtMost(a, b, q);
  }

  // ---- days ----

  /** From the start of the period on, no more days remain than it has. */
  lemma RemainingFits(now: int, start: int, end: int)
    requires start <= now
    ensures DaysRemaining(now, end) <= DaysInPeriod(start, end)
  {
    var x, y, d := end - now, end - start, NANOS_PER_DAY;
    if x > 0 {
      var c := Ceil(y, d);
      assert y <= c * d;
      assert 2 * x + d < (c + 1) * (2 * d);
      QuotientAtMost(2 * x + d, 2 * d, c);
    } else {
      RoundIsMonotone(x, 0, d);
    }
  }

  /** A period's days are rounded up and are at least one; the days remaining are those
      nearest to the time left, halves up, and none once it is over. */
  lemma DaysAre(now: int, start: int, end: int)
    ensures var d := DaysInPeriod(start, end);
      if end <= start then d == 1 else (d - 1) * NANOS_PER_DAY < end - start <= d * NANOS_PER_DAY
    ensures var r := DaysRemaining(now, end);
      if end <= now then r == 0
      else -NANOS_PER_DAY < 2 * (r * NANOS_PER_DAY - (end - now)) <= NANOS_PER_DAY
  {
    if end > now { RoundIsClose(end - now, NANOS_PER_DAY); }
  }

  lemma RemainingFalls(now: int, later: int, end: int)
    requires now <= later
    ensures DaysRemaining(later, end) <= DaysRemaining(now, end)
  {
    RoundIsMonotone(end - later, end - now, NANOS_PER_DAY);
  }

  // ---- the amounts ----

  /** A prorated amount is between nothing and the whole exactly when the days
      remaining exceed those of the period by less than half a kobo's worth. */
  lemma ProratedWithinAmountExactlyWhen(amount: int, remaining: int, days: int)
    requires amount >= 0 && remaining >= 0 && days > 0
    ensures 0 <= Prorated(amount, remaining, days)
    ensures Prorated(amount, remaining, days) <= amount <==> 2 * (amount * remaining - amount * days) < days
  {
    var n, r := amount * remaining, Prorated(amount, remaining, days);
    Product(0, amount, remaining);
    RoundIsClose(n, days);
    DivNotNegative(2 * n + days, 2 * days);
    if r <= amount {
      Product(r, amount, days);
    } else {
      Product(amount + 1, r, days);
      assert (amount + 1) * days == amount * days + days;
    }
  }

  /** Main bounds: for a change inside the period the credit lies between nothing
      and the old price, and waiting never raises it. */
  lemma CreditIsBoundedAndFalls(now: int, later: int, start: int, end: int, oldAmount: int, newAmount: int)
    requires start <= now <= later && oldAmount >= 0
    ensures 0 <= Calculate(now, start, end, oldAmount, newAmount).credit <= oldAmount
    ensures Calculate(later, start, end, oldAmount, newAmount).credit
            <= Calculate(now, start, end, oldAmount, newAmount).credit
  {
    var days, remaining, less := DaysInPeriod(start, end), DaysRemaining(now, end), DaysRemaining(later, end);
    RemainingFits(now, start, end);
    RemainingFalls(now, later, end);
    Product(remaining, days, oldAmount);
    ProratedWithinAmountExactlyWhen(oldAmount, remaining, days);
    Product(less, remaining, oldAmount);
    RoundIsMonotone(oldAmount * less, oldAmount * remaining, days);
  }

  lemma ExactCeil(k: int, d: int)
    requires d > 0
    ensures Ceil(k * d, d) == k
  {
    assert -(k * d) == (-k) * d;
    WholeQuotient(-k, d, 0);
  }

  lemma ExactRound(k: int, d: int)
    requires d > 0 && k >= 0
    ensures Round(k * d, d) == k
  {
    Product(0, k, d);
    assert 2 * (k * d) + d == k * (2 * d) + d;
    WholeQuotient(k, 2 * d, d);
  }

  lemma WholeQuotient(k: int, d: int, r: int)
    requires d > 0 && 0 <= r < d
    ensures (k * d + r) / d == k
  {
    var q := (k * d + r) / d;
    assert q * d <= k * d + r < (q + 1) * d;
    if q < k { Product(q + 1, k, d); }
    if q > k { Product(k + 1, q, d); }
  }

  /** Before the period starts the credit can exceed the price: a whole period early, a
      period of any number of days gives back twice what was paid. */
  lemma CreditBeforeTheStart(start: int, days: int, oldAmount: int, newAmount: int)
    requires days > 0 && oldAmount > 0
    ensures var period := days * NANOS_PER_DAY;
      Calculate(start - period, start, start + period, oldAmount, newAmount).credit == 2 * oldAmount
  {
    var period := days * NANOS_PER_DAY;
    ExactCeil(days, NANOS_PER_DAY);
    ExactRound(2 * days, NANOS_PER_DAY);
    assert (2 * days) * NANOS_PER_DAY == period + period;
    assert DaysInPeriod(start, start + period) == days;
    assert DaysRemaining(start - period, start + period) == 2 * days;
    assert oldAmount * (2 * days) == (2 * oldAmount) * days;
    ExactRound(2 * oldAmount, days);
  }

  /** The net is less than one kobo from the exact rational adjustment. */
  lemma NetIsWithinOneKobo(now: int, start: int, end: int, oldAmount: int, newAmount: int)
    requires oldAmount >= 0 && newAmount >= 0
    ensures var r := Calculate(now, start, end, oldAmount, newAmount);
      -r.daysInPeriod < r.net * r.daysInPeriod - (newAmount - oldAmount) * r.daysRemaining < r.daysInPeriod
  {
    var r := Calculate(now, start, end, oldAmount, newAmount);
    Product(0, oldAmount, r.daysRemaining);
    Product(0, newAmount, r.daysRemaining);
    RoundIsClose(oldAmount * r.daysRemaining, r.daysInPeriod);
    RoundIsClose(newAmount * r.daysRemaining, r.daysInPeriod);
    assert r.net * r.daysInPeriod == r.charge * r.daysInPeriod - r.credit * r.daysInPeriod;
    assert (newAmount - oldAmount) * r.daysRemaining == newAmount * r.daysRemaining - oldAmount * r.daysRemaining;
  }

  // ---- several changes at one instant ----

  /** The sum of the net adjustments along a chain of plans. */
  function ChainNet(now: int, start: int, end: int, amounts: seq<int>): int {
    if |amounts| <= 1 then 0
    else
      var n := |amounts| - 1;
      ChainNet(now, start, end, amounts[..n]) + Calculate(now, start, end, amounts[n - 1], amounts[n]).net
  }

  /** It depends on the first and last plan only, so a detour costs nothing. */
  lemma {:induction false} NetTelescopes(now: int, start: int, end: int, amounts: seq<int>)
    requires |amounts| >= 1
    ensures ChainNet(now, start, end, amounts) == Calculate(now, start, end, amounts[0], amounts[|amounts| - 1]).net
  {
    if |amounts| > 1 { NetTelescopes(now, start, end, amounts[..|amounts| - 1]); }
  }

  /** In particular a change and its reversal cancel. */
  lemma ReversalCancels(now: int, start: int, end: int, a: int, b: int)
    ensures ChainNet(now, start, end, [a, b, a]) == 0
  {
    NetTelescopes(now, start, end, [a, b, a]);
  }
}
