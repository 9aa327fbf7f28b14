/** Decimal text and the idempotency keys the billing package builds with it. */
module Keys {

  function DigitChar(d: int): (c: char)
    requires 0 <= d < 10
    ensures '0' <= c <= '9' && c as int - '0' as int == d
  {
    (d + '0' as int) as char
  }

  predicate AllDigits(s: string) { forall i :: 0 <= i < |s| ==> '0' <= s[i] <= '9' }

  /** strconv / %d of a non-negative integer. */
  function Decimal(n: nat): (s: string)
    ensures |s| > 0 && AllDigits(s)
    ensures |s| > 1 ==> s[0] != '0'
  {
    if n < 10 then [DigitChar(n)]
    else
      var rest := Decimal(n / 10);
      rest + [DigitChar(n % 10)]
  }

  /** Reading digits back, most significant first. */
  function ParseDecimal(s: string): (n: nat)
    requires AllDigits(s)
  {
    if s == "" then 0
    else 10 * ParseDecimal(s[..|s| - 1]) + (s[|s| - 1] as int - '0' as int)
  }

  lemma {:induction false} ParseOfDecimal(n: nat)
    ensures ParseDecimal(Decimal(n)) == n
  {
    var s := Decimal(n);
    if n < 10 {
      assert s[..0] == "";
    } else {
      ParseOfDecimal(n / 10);
      assert s[..|s| - 1] == Decimal(n / 10);
    }
  }

  lemma DecimalIsInjective(a: nat, b: nat)
    requires Decimal(a) == Decimal(b)
    ensures a == b
  {
    ParseOfDecimal(a);
    ParseOfDecimal(b);
  }

  // ------------------------------------------------------------------
  // Charge, invoice, ledger and payout keys.  A subscription id is the text of a
  // UUID, so all ids have one length; a charge reference is any text.
  // ------------------------------------------------------------------

  const ID_LENGTH := 36

  predicate IsId(s: string) { |s| == ID_LENGTH }

  datatype Rail = Wallet | Card | Mandate | Manual

  function RailName(rail: Rail): string {
    match rail
    case Wallet => "wallet"
    case Card => "card"
    case Mandate => "mandate"
    case Manual => "manual"
  }

  /** retry-<rail>-<subscription>-<attempt>: both the idempotency key and the
      reference of a recovery charge. */
  function RetryKey(rail: Rail, sub: string, attempt: nat): string {
    "retry-" + RailName(rail) + "-" + sub + "-" + Decimal(attempt)
  }

  function InvoiceKey(sub: string, ref: string): string { "invoice-charge-" + sub + "-" + ref }

  function ChargeKey(sub: string, ref: string): string { "ledger-charge-" + sub + "-" + ref }

  function TrialEndKey(sub: string): string { "trial-end-" + sub }

  function PayoutKey(payout: string): string { "payout-" + payout }

  predicate HasPrefix(s: string, prefix: string) { |prefix| <= |s| && s[..|prefix|] == prefix }

  lemma SameHeadSameTail(head: string, a: string, b: string)
    requires head + a == head + b
    ensures a == b
  {
    assert (head + a)[|head|..] == a;
    assert (head + b)[|head|..] == b;
  }

  lemma FixedWidthSplit(a: string, x: string, b: string, y: string)
    requires |a| == |b| && a + x == b + y
    ensures a == b && x == y
  {
    assert (a + x)[..|a|] == a && (b + y)[..|b|] == b;
    assert (a + x)[|a|..] == x && (b + y)[|b|..] == y;
  }

  /** head + sub + "-" + rest determines sub and rest, because ids have one length. */
  lemma PairKeyIsInjective(head: string, s1: string, r1: string, s2: string, r2: string)
    requires IsId(s1) && IsId(s2)
    requires head + s1 + "-" + r1 == head + s2 + "-" + r2
    ensures s1 == s2 && r1 == r2
  {
    assert head + s1 + "-" + r1 == head + (s1 + ("-" + r1));
    assert head + s2 + "-" + r2 == head + (s2 + ("-" + r2));
    SameHeadSameTail(head, s1 + ("-" + r1), s2 + ("-" + r2));
    FixedWidthSplit(s1, "-" + r1, s2, "-" + r2);
    SameHeadSameTail("-", r1, r2);
  }

  lemma InvoiceKeyIsInjective(s1: string, r1: string, s2: string, r2: string)
    requires IsId(s1) && IsId(s2)
    ensures InvoiceKey(s1, r1) == InvoiceKey(s2, r2) <==> s1 == s2 && r1 == r2
  {
    if InvoiceKey(s1, r1) == InvoiceKey(s2, r2) {
      PairKeyIsInjective("invoice-charge-", s1, r1, s2, r2);
    }
  }

  lemma ChargeKeyIsInjective(s1: string, r1: string, s2: string, r2: string)
    requires IsId(s1) && IsId(s2)
    ensures ChargeKey(s1, r1) == ChargeKey(s2, r2) <==> s1 == s2 && r1 == r2
  {
    if ChargeKey(s1, r1) == ChargeKey(s2, r2) {
      PairKeyIsInjective("ledger-charge-", s1, r1, s2, r2);
    }
  }

  /** Ledger keys of different kinds of entry never meet. */
  lemma LedgerKeysOfDifferentKindsDiffer(sub: string, ref: string, other: string)
    ensures ChargeKey(sub, ref) != TrialEndKey(other)
    ensures ChargeKey(sub, ref) != PayoutKey(other)
    ensures TrialEndKey(sub) != PayoutKey(other)
  {
    assert ChargeKey(sub, ref)[0] == 'l';
    assert TrialEndKey(other)[0] == 't' && TrialEndKey(sub)[0] == 't';
    assert PayoutKey(other)[0] == 'p';
  }

  /** A recovery key names its rail, subscription and attempt. */
  lemma RetryKeyIsInjective(l1: Rail, s1: string, n1: nat, l2: Rail, s2: string, n2: nat)
    requires IsId(s1) && IsId(s2)
    ensures RetryKey(l1, s1, n1) == RetryKey(l2, s2, n2) <==> l1 == l2 && s1 == s2 && n1 == n2
  {
    if RetryKey(l1, s1, n1) == RetryKey(l2, s2, n2) {
      RetryKeyNamesItsRail(l1, s1, n1);
      RetryKeyNamesItsRail(l2, s2, n2);
      var head := "retry-" + RailName(l1) + "-";
      assert RetryKey(l1, s1, n1) == head + s1 + "-" + Decimal(n1);
      assert RetryKey(l2, s2, n2) == head + s2 + "-" + Decimal(n2);
      PairKeyIsInjective(head, s1, Decimal(n1), s2, Decimal(n2));
      DecimalIsInjective(n1, n2);
    }
  }

  lemma RetryKeyNamesItsRail(rail: Rail, sub: string, n: nat)
    requires IsId(sub)
    ensures |RetryKey(rail, sub, n)| > 9
    ensures RetryKey(rail, sub, n)[6] == RailName(rail)[0]
    ensures RetryKey(rail, sub, n)[9] == RailName(rail)[3]
  {
    var key := RetryKey(rail, sub, n);
    assert key == ("retry-" + RailName(rail)) + ("-" + sub + "-" + Decimal(n));
    assert key[6] == ("retry-" + RailName(rail))[6];
    assert key[9] == ("retry-" + RailName(rail))[9];
  }
}
